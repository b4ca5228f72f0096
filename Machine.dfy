/**
 * The emulated machine state (the globals of the driver program) as one
 * object, with the memory-mapped address decoder, the register decoders,
 * the renderer and the raster timing step as its members.
 */
module GameBoy {
  import opened Bits
  import opened Raster
  import opened Tiles

  /** Offset of the switchable ROM bank; bank switching is a stub, so it never changes. */
  const RomOffset := 0x4000

  predicate InVideoRam(address: int) { 0x8000 <= address <= 0x9FFF }
  predicate InWorkingRam(address: int) { 0xC000 <= address <= 0xDFFF }
  predicate InHighRam(address: int) { 0xFF80 <= address <= 0xFFFF }

  /** Addresses whose written byte a later read returns. */
  predicate ReadsBack(address: int)
  {
    InVideoRam(address) || InWorkingRam(address) || InHighRam(address) || 0xFF42 <= address <= 0xFF45
  }

  /** The scalar registers, as one value, for stating what an operation leaves alone. */
  datatype Registers = Registers(
    tileset: int, tilemap: int, scrollx: int, scrolly: int,
    line: int, cmpline: int, videostate: int, keyboardColumn: int,
    horizontal: int, gpuMode: int, totalInstructions: nat)

  /** The scalar-register part of `memoryRead`: 0xFF42..0xFF45 return the low byte of a register. */
  function ReadRegister(r: Registers, address: int): (b: bv8)
    ensures address == 0xFF42 ==> b == ToByte(r.scrolly)
    ensures address == 0xFF43 ==> b == ToByte(r.scrollx)
    ensures address == 0xFF44 ==> b == ToByte(r.line)
    ensures address == 0xFF45 ==> b == ToByte(r.cmpline)
    ensures !(0xFF42 <= address <= 0xFF45) ==> b == 0
  {
    // The joypad (0xFF00) and status (0xFF41) reads call getKey() and
    // getVideoState() but drop the result and fall through to `return 0`.
    if address == 0xFF42 then ToByte(r.scrolly)
    else if address == 0xFF43 then ToByte(r.scrollx)
    else if address == 0xFF44 then ToByte(r.line)
    else if address == 0xFF45 then ToByte(r.cmpline)
    else 0
  }

  /** The scalar-register part of `memoryWrite`. */
  function WriteRegister(r: Registers, address: int, b: bv8): (w: Registers)
    ensures address !in {0xFF00, 0xFF40, 0xFF41, 0xFF42, 0xFF43, 0xFF44, 0xFF45} ==> w == r
    ensures address == 0xFF00 ==> w.(keyboardColumn := r.keyboardColumn) == r && w.keyboardColumn == Unsigned(b)
    ensures address == 0xFF40 ==> w.(tilemap := r.tilemap, tileset := r.tileset) == r
    ensures address == 0xFF41 ==> w.(videostate := r.videostate) == r && w.videostate == Unsigned(b)
    ensures address == 0xFF42 ==> w.(scrolly := r.scrolly) == r && w.scrolly == Unsigned(b)
    ensures address == 0xFF43 ==> w.(scrollx := r.scrollx) == r && w.scrollx == Unsigned(b)
    ensures address == 0xFF44 ==> w.(line := r.line) == r && w.line == Unsigned(b)
    ensures address == 0xFF45 ==> w.(cmpline := r.cmpline) == r && w.cmpline == Unsigned(b)
    ensures w.horizontal == r.horizontal && w.gpuMode == r.gpuMode
    ensures w.totalInstructions == r.totalInstructions
  {
    var v := Unsigned(b);
    if address == 0xFF00 then r.(keyboardColumn := v)
    else if address == 0xFF40 then r.(tilemap := Flag(b, 8), tileset := Flag(b, 16))
    else if address == 0xFF41 then r.(videostate := v)
    else if address == 0xFF42 then r.(scrolly := v)
    else if address == 0xFF43 then r.(scrollx := v)
    else if address == 0xFF44 then r.(line := v)
    else if address == 0xFF45 then r.(cmpline := v)
    else r
  }

  /** A byte written to a readable register is the byte read back from it. */
  lemma RegisterReadBack(r: Registers, address: int, b: bv8)
    requires 0xFF42 <= address <= 0xFF45
    ensures ReadRegister(WriteRegister(r, address, b), address) == b
  {
    ToByteOfByte(b);
  }

  /** A register write is invisible to reads of every other address. */
  lemma RegisterWriteIsolated(r: Registers, address: int, b: bv8, other: int)
    requires other != address
    ensures ReadRegister(WriteRegister(r, address, b), other) == ReadRegister(r, other)
  {
  }

  class Console {
    /** The cartridge image, read-only. */
    const rom: seq<bv8>
    const graphicsRAM: array<bv8>
    const workingRAM: array<bv8>
    const page0RAM: array<bv8>
    const palette: array<int>

    var tileset: int
    var tilemap: int
    var scrollx: int
    var scrolly: int
    var line: int
    var cmpline: int
    var videostate: int
    var keyboardColumn: int
    var horizontal: int
    var gpuMode: int
    var totalInstructions: nat

    /** Every `updateSquare` and `onFrame` call made on the display sink so far. */
    var display: seq<DisplayEvent>
    /** Every interrupt number passed to the CPU's `throwInterrupt` so far. */
    ghost var interrupts: seq<int>

    /** What the renderer needs of the video state. */
    ghost predicate ScreenValid()
      reads this`tilemap
    {
      graphicsRAM.Length == 8192 && palette.Length == 4 && (tilemap == 0 || tilemap == 1)
    }

    ghost predicate Valid()
      reads this`tilemap, this`tileset, this`gpuMode, this`line, palette
    {
      && ScreenValid()
      && workingRAM.Length == 0x2000 && page0RAM.Length == 0x80
      && graphicsRAM != workingRAM
      && (tileset == 0 || tileset == 1)
      && HBLANK <= gpuMode <= VRAM
      && 0 <= line
      && forall i :: 0 <= i < 4 ==> 0 <= palette[i] <= 3
    }

    /** The machine at power-on: all memory and registers zero, mode HBLANK. */
    constructor (rom: seq<bv8>)
      ensures Valid()
      ensures fresh(graphicsRAM) && fresh(workingRAM) && fresh(page0RAM) && fresh(palette)
      ensures this.rom == rom
      ensures forall i :: 0 <= i < 8192 ==> graphicsRAM[i] == 0
      ensures forall i :: 0 <= i < 0x2000 ==> workingRAM[i] == 0
      ensures forall i :: 0 <= i < 0x80 ==> page0RAM[i] == 0
      ensures palette[..] == [0, 0, 0, 0]
      ensures Regs() == Registers(0, 0, 0, 0, 0, 0, 0, 0, 0, HBLANK, 0)
      ensures display == [] && interrupts == []
    {
      this.rom := rom;
      graphicsRAM := new bv8[8192](_ => 0);
      workingRAM := new bv8[0x2000](_ => 0);
      page0RAM := new bv8[0x80](_ => 0);
      palette := new int[4](_ => 0);
      tileset, tilemap, scrollx, scrolly := 0, 0, 0, 0;
      line, cmpline, videostate, keyboardColumn, horizontal := 0, 0, 0, 0, 0;
      gpuMode := HBLANK;
      totalInstructions := 0;
      display := [];
      interrupts := [];
      new;
      assert palette[..] == [0, 0, 0, 0];
    }

    function Regs(): (r: Registers)
      reads this
    {
      Registers(tileset, tilemap, scrollx, scrolly, line, cmpline, videostate,
                keyboardColumn, horizontal, gpuMode, totalInstructions)
    }

    /** What the renderer reads. */
    function Screen(): (v: Video)
      reads this`tilemap, this`scrollx, this`scrolly, graphicsRAM, palette
      requires ScreenValid()
    {
      VideoMemory(graphicsRAM[..], palette[..], tilemap, scrollx, scrolly)
    }

    /** The cartridge image covers `address` if the address lies in ROM space. */
    predicate RomCovers(address: int)
    {
      0 <= address <= 0x7FFF ==> address < |rom|
    }

    /** The byte the CPU reads at `address`. */
    function MemoryRead(address: int): (r: bv8)
      reads this, graphicsRAM, workingRAM, page0RAM, palette
      requires Valid() && RomCovers(address)
      ensures 0 <= address <= 0x7FFF ==> r == rom[address]
      ensures InVideoRam(address) ==> r == graphicsRAM[address - 0x8000]
      ensures InWorkingRam(address) ==> r == workingRAM[address - 0xC000]
      ensures InHighRam(address) ==> r == page0RAM[address - 0xFF80]
      ensures address == 0xFF00 || address == 0xFF40 || address == 0xFF41 || address == 0xFF47 ==> r == 0
      ensures address < 0 || 0xA000 <= address < 0xC000 || 0xE000 <= address < 0xFF00 || address > 0xFFFF ==> r == 0
      ensures 0xFF00 <= address < 0xFF80 && !(0xFF42 <= address <= 0xFF45) ==> r == 0
      ensures 0xFF42 <= address <= 0xFF45 ==> r == ReadRegister(Regs(), address)
    {
      if 0x0000 <= address <= 0x3FFF then rom[address]
      else if 0x4000 <= address <= 0x7FFF then rom[RomOffset + address % 0x4000]
      else if InVideoRam(address) then graphicsRAM[address % 0x2000]
      else if InWorkingRam(address) then workingRAM[address % 0x2000]
      else if InHighRam(address) then page0RAM[address % 0x80]
      else ReadRegister(Regs(), address)
    }

    /** The CPU writes byte `b` at `address`. */
    method MemoryWrite(address: int, b: bv8)
      requires Valid()
      modifies this, graphicsRAM, workingRAM, page0RAM, palette
      ensures Valid()
      ensures graphicsRAM[..] == if InVideoRam(address) then old(graphicsRAM[..])[address - 0x8000 := b] else old(graphicsRAM[..])
      ensures workingRAM[..] == if InWorkingRam(address) then old(workingRAM[..])[address - 0xC000 := b] else old(workingRAM[..])
      ensures page0RAM[..] == if InHighRam(address) then old(page0RAM[..])[address - 0xFF80 := b] else old(page0RAM[..])
      ensures palette[..] == if address == 0xFF47 then PaletteOf(b) else old(palette[..])
      ensures Regs() == WriteRegister(old(Regs()), address, b)
      ensures display == old(display) && interrupts == old(interrupts)
      ensures ReadsBack(address) ==> MemoryRead(address) == b
      ensures forall a :: a != address && RomCovers(a) ==> MemoryRead(a) == old(MemoryRead(a))
    {
      if address < 0xFF00 || InHighRam(address) {
        WriteMemory(address, b);
      } else {
        WriteIo(address, b);
      }
      if 0xFF42 <= address <= 0xFF45 {
        RegisterReadBack(old(Regs()), address, b);
      }
      forall a | a != address && RomCovers(a)
        ensures MemoryRead(a) == old(MemoryRead(a))
      {
        RegisterWriteIsolated(old(Regs()), address, b, a);
      }
    }

    /** The ROM and RAM cases of `memoryWrite`. */
    method WriteMemory(address: int, b: bv8)
      requires Valid()
      requires address < 0xFF00 || InHighRam(address)
      modifies graphicsRAM, workingRAM, page0RAM
      ensures graphicsRAM[..] == if InVideoRam(address) then old(graphicsRAM[..])[address - 0x8000 := b] else old(graphicsRAM[..])
      ensures workingRAM[..] == if InWorkingRam(address) then old(workingRAM[..])[address - 0xC000 := b] else old(workingRAM[..])
      ensures page0RAM[..] == if InHighRam(address) then old(page0RAM[..])[address - 0xFF80 := b] else old(page0RAM[..])
    {
      if 0x0000 <= address <= 0x3FFF {
        SetRomMode(address, b);
      } else if 0x4000 <= address <= 0x7FFF {
      } else if InVideoRam(address) {
        graphicsRAM[address % 0x2000] := b;
      } else if InWorkingRam(address) {
        workingRAM[address % 0x2000] := b;
      } else if InHighRam(address) {
        page0RAM[address % 0x80] := b;
      }
    }

    /** The I/O-register cases of `memoryWrite`, and the addresses above 0xFFFF. */
    method WriteIo(address: int, b: bv8)
      requires Valid()
      requires 0xFF00 <= address && !InHighRam(address)
      modifies this, palette
      ensures Valid()
      ensures palette[..] == if address == 0xFF47 then PaletteOf(b) else old(palette[..])
      ensures Regs() == WriteRegister(old(Regs()), address, b)
      ensures display == old(display) && interrupts == old(interrupts)
    {
      if address == 0xFF40 {
        SetControlByte(b);
      } else if address == 0xFF47 {
        SetPalette(b);
      } else if address == 0xFF00 || 0xFF41 <= address <= 0xFF45 {
        StoreRegister(address, b);
      }
    }

    /** The cases of `memoryWrite` that store the byte in an `int` register. */
    method StoreRegister(address: int, b: bv8)
      requires Valid()
      requires address == 0xFF00 || 0xFF41 <= address <= 0xFF45
      modifies this
      ensures Valid()
      ensures Regs() == WriteRegister(old(Regs()), address, b)
      ensures display == old(display) && interrupts == old(interrupts)
    {
      if address == 0xFF00 {
        keyboardColumn := Unsigned(b);
      } else if address == 0xFF41 {
        videostate := Unsigned(b);
      } else if address == 0xFF42 {
        scrolly := Unsigned(b);
      } else if address == 0xFF43 {
        scrollx := Unsigned(b);
      } else if address == 0xFF44 {
        line := Unsigned(b);
      } else {
        cmpline := Unsigned(b);
      }
    }

    /** The hook for ROM bank switching; it does nothing. */
    method SetRomMode(address: int, b: bv8)
      ensures Regs() == old(Regs()) && display == old(display) && interrupts == old(interrupts)
    {
    }

    /** The joypad byte: all four key lines released. */
    function GetKey(): (k: bv8)
      ensures k & 0x0F == 0x0F
      ensures k & 0xF0 == 0
    {
      0x0F
    }

    /** The LCD control byte: bit 3 selects the tile map, bit 4 the tile set. */
    method SetControlByte(b: bv8)
      requires Valid()
      modifies this
      ensures Valid()
      ensures tilemap == Flag(b, 8) && tileset == Flag(b, 16)
      ensures Regs() == old(Regs()).(tilemap := tilemap, tileset := tileset)
      ensures display == old(display) && interrupts == old(interrupts)
    {
      tilemap := if b & 8 != 0 then 1 else 0;
      tileset := if b & 16 != 0 then 1 else 0;
    }

    /** The background palette byte: entry i is bits 2i..2i+1. */
    method SetPalette(b: bv8)
      requires Valid()
      modifies palette
      ensures Valid()
      ensures palette[..] == PaletteOf(b)
    {
      palette[0] := Unsigned(b & 3);
      palette[1] := Unsigned((b >> 2) & 3);
      palette[2] := Unsigned((b >> 4) & 3);
      palette[3] := Unsigned((b >> 6) & 3);
      assert palette[..] == PaletteOf(b);
    }

    /** The derived LCD status byte. */
    function GetVideoState(): (r: bv8)
      reads this
      ensures HBLANK <= gpuMode <= VRAM ==> r & 3 == gpuMode as bv8
      ensures !(HBLANK <= gpuMode <= VRAM) ==> r & 3 == 0
      ensures (r & 4 != 0) <==> line == cmpline
      ensures r & 0xF8 == ToByte(videostate) & 0xF8
    {
      var s: bv8 := if line == cmpline then 4 else 0;
      var s := if gpuMode == VBLANK then s | 1 else s;
      var s := if gpuMode == SPRITE then s | 2 else s;
      var s := if gpuMode == VRAM then s | 3 else s;
      s | (ToByte(videostate) & 0xF8)
    }

    /** Renders one frame: the sink calls for all 144 x 160 positions, then `onFrame`. */
    method RenderScreen() returns (events: seq<DisplayEvent>)
      requires Valid()
      ensures events == Frame(Screen())
    {
      var v := Screen();
      events := [];
      var row := 0;
      while row < ScreenRows
        invariant 0 <= row <= ScreenRows
        invariant events == Frame(v)[..row * ScreenColumns]
      {
        var rowEvents := RenderRow(v, row);
        FrameRow(v, row);
        events := events + rowEvents;
        row := row + 1;
      }
      events := events + [OnFrame];
      assert events == Frame(v);
    }

    /** The interrupts raised once `line` has been advanced at the end of a scan line. */
    method RaiseLineInterrupts()
      requires 1 <= line
      modifies this`interrupts
      ensures interrupts == old(interrupts) + LineInterrupts(line - 1, cmpline, videostate)
    {
      if line == 144 {
        interrupts := interrupts + [VblankInterrupt];
      }
      if line % 153 == cmpline && StatEnabled(videostate) {
        interrupts := interrupts + [StatInterrupt];
      }
    }

    /** End of a scan line: advance `line`, raise the line interrupts, render on wrap. */
    method EndOfLine()
      requires Valid()
      modifies this
      ensures Valid()
      ensures line == NextLine(old(line))
      ensures interrupts == old(interrupts) + LineInterrupts(old(line), cmpline, videostate)
      ensures display == old(display) + (if Wraps(old(line)) then Frame(Screen()) else [])
      ensures Regs() == old(Regs()).(line := line)
    {
      ghost var raised := LineInterrupts(line, cmpline, videostate);
      line := line + 1;
      RaiseLineInterrupts();
      assert interrupts == old(interrupts) + raised;
      if line == 153 {
        line := 0;
        var frame := RenderScreen();
        display := display + frame;
        assert frame == Frame(Screen());
      }
    }

    /**
     * The timing block run after every retired instruction: recompute the
     * phase and the mode, and on phase 0 advance the line, raise the
     * VBLANK and STAT interrupts and, at line 153, wrap and render.
     */
    method Step()
      requires Valid()
      modifies this
      ensures Valid()
      ensures totalInstructions == old(totalInstructions) + 1
      ensures horizontal == Horizontal(totalInstructions)
      ensures gpuMode == Mode(old(line), horizontal)
      ensures line == if horizontal == 0 then NextLine(old(line)) else old(line)
      ensures line != old(line) ==> horizontal == 0
      ensures old(line) < WrapLine ==> line < WrapLine
      ensures interrupts == old(interrupts) +
                (if horizontal == 0 then LineInterrupts(old(line), cmpline, videostate) else [])
      ensures display == old(display) +
                (if horizontal == 0 && Wraps(old(line)) then Frame(Screen()) else [])
      ensures Regs() == old(Regs()).(totalInstructions := totalInstructions, horizontal := horizontal,
                                     gpuMode := gpuMode, line := line)
    {
      totalInstructions := totalInstructions + 1;
      horizontal := (totalInstructions + 1) % 61;
      gpuMode := Mode(line, horizontal);
      if horizontal == 0 {
        EndOfLine();
      }
    }
  }

  /** The four palette entries packed in a palette byte: entry i is bits 2i..2i+1. */
  function PaletteOf(b: bv8): (p: seq<int>)
    ensures |p| == 4
    ensures forall i :: 0 <= i < 4 ==> 0 <= p[i] <= 3
  {
    [Unsigned(b & 3), Unsigned((b >> 2) & 3), Unsigned((b >> 4) & 3), Unsigned((b >> 6) & 3)]
  }

  /** The palette byte that holds the four 2-bit shades `p`. */
  function PackPalette(p: seq<int>): (b: bv8)
    requires |p| == 4 && forall i :: 0 <= i < 4 ==> 0 <= p[i] <= 3
  {
    ToByte(p[0]) | (ToByte(p[1]) << 2) | (ToByte(p[2]) << 4) | (ToByte(p[3]) << 6)
  }

  /** The four 2-bit fields of a byte, put back in place, give the byte. */
  lemma FieldsJoin(b: bv8)
    ensures (b & 3) | (((b >> 2) & 3) << 2) | (((b >> 4) & 3) << 4) | (((b >> 6) & 3) << 6) == b
  {
  }

  /** Four 2-bit values packed into a byte are its four 2-bit fields. */
  lemma FieldsSplit(x: bv8, y: bv8, z: bv8, w: bv8)
    requires x <= 3 && y <= 3 && z <= 3 && w <= 3
    ensures var b := x | (y << 2) | (z << 4) | (w << 6);
            b & 3 == x && (b >> 2) & 3 == y && (b >> 4) & 3 == z && (b >> 6) & 3 == w
  {
  }

  /** Decoding a palette byte loses nothing: packing the entries gives the byte back. */
  lemma PackOfPalette(b: bv8)
    ensures PackPalette(PaletteOf(b)) == b
  {
    ToByteOfByte(b & 3);
    ToByteOfByte((b >> 2) & 3);
    ToByteOfByte((b >> 4) & 3);
    ToByteOfByte((b >> 6) & 3);
    FieldsJoin(b);
  }

  /** Every assignment of four 2-bit shades is the decoding of exactly the byte that packs it. */
  lemma PaletteOfPack(p: seq<int>)
    requires |p| == 4 && forall i :: 0 <= i < 4 ==> 0 <= p[i] <= 3
    ensures PaletteOf(PackPalette(p)) == p
  {
    SmallToByte(p[0]);
    SmallToByte(p[1]);
    SmallToByte(p[2]);
    SmallToByte(p[3]);
    FieldsSplit(ToByte(p[0]), ToByte(p[1]), ToByte(p[2]), ToByte(p[3]));
  }

  /** 0xE4 = 0b11_10_01_00 is the identity palette. */
  lemma IdentityPalette()
    ensures PaletteOf(0xE4) == [0, 1, 2, 3]
  {
  }
}
