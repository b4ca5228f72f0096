/**
 * Byte-level helpers shared by the address decoder, the register
 * decoders and the tile compositor.  Bytes are `bv8`; the C globals
 * that hold register values are `int`.
 */
module Bits {

  /** C's conversion of an `int` to `unsigned char`: the value modulo 256. */
  function ToByte(v: int): (b: bv8)
    ensures 0 <= v < 256 ==> b as int == v
  {
    (v % 256) as bv8
  }

  /** The value of a byte as an unsigned integer. */
  function Unsigned(b: bv8): (n: int)
    ensures 0 <= n < 256
  {
    b as int
  }

  /** Storing a byte in an `int` register and reading it back loses nothing. */
  lemma ToByteOfByte(b: bv8)
    ensures ToByte(Unsigned(b)) == b
  {
  }

  /** A value 0..3 survives the trip to a byte and back, and the byte is at most 3. */
  lemma SmallToByte(n: int)
    requires 0 <= n <= 3
    ensures ToByte(n) <= 3 && Unsigned(ToByte(n)) == n
  {
  }

  /** `(b & mask) != 0 ? 1 : 0`, the flag idiom of the register decoders. */
  function Flag(b: bv8, mask: bv8): (f: int)
    ensures f == 0 || f == 1
    ensures f == 1 <==> b & mask != 0
  {
    if b & mask != 0 then 1 else 0
  }
}
