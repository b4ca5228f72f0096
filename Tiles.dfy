/**
 * The tile compositor's pure part: decoding one output position into a
 * palette shade from graphics RAM and the display registers, and the
 * sequence of display-sink calls one frame produces.
 *
 * The loop indices are bound as in the renderer: the outer index `row`
 * feeds the horizontal coordinate x and the inner index `column` feeds
 * y.  The `tilemap` register chooses both the tile map and the tile-data
 * addressing mode; `tileset` plays no part.
 */
module Tiles {
  import opened Bits

  const ScreenRows := 144
  const ScreenColumns := 160
  const PixelsPerFrame := ScreenRows * ScreenColumns

  /** A call the renderer makes on the display sink. */
  datatype DisplayEvent = UpdateSquare(row: int, column: int, color: int) | OnFrame

  /** What the renderer reads: graphics RAM, the palette and three registers. */
  datatype VideoMemory = VideoMemory(vram: seq<bv8>, palette: seq<int>, tilemap: int, scrollx: int, scrolly: int)
  {
    predicate Valid()
    {
      |vram| == 8192 && |palette| == 4 && (tilemap == 0 || tilemap == 1)
    }

    /** Every palette entry is a 2-bit shade. */
    predicate ShadesValid()
      requires |palette| == 4
    {
      forall i :: 0 <= i < 4 ==> 0 <= palette[i] <= 3
    }
  }

  /** The renderer's input, with graphics RAM, palette and tile map of the right shape. */
  type Video = v: VideoMemory | v.Valid()
    witness VideoMemory(seq(8192, _ => 0), [0, 0, 0, 0], 0, 0, 0)

  /** Adding the scroll and masking with 255. */
  function Scroll(position: int, scroll: int): (p: int)
    ensures 0 <= p < 256
  {
    (position + scroll) % 256
  }

  /** The index of the 8x8 tile holding background pixel (x, y) in the 32x32 tile map. */
  function TilePosition(x: int, y: int): (p: int)
    requires 0 <= x < 256 && 0 <= y < 256
    ensures 0 <= p < 1024
  {
    var tilex := x / 8;
    var tiley := y / 8;
    tiley * 32 + tilex
  }

  /** The tile map is a 32 x 32 grid stored row by row: y selects the map row, x the map column. */
  lemma TilePositionGrid(x: int, y: int)
    requires 0 <= x < 256 && 0 <= y < 256
    ensures TilePosition(x, y) / 32 == y / 8
    ensures TilePosition(x, y) % 32 == x / 8
  {
  }

  /** Tile map 0 starts at 0x1800 and tile map 1 at 0xC00 of graphics RAM. */
  function MapAddress(tilemap: int, position: int): (a: int)
    requires tilemap == 0 || tilemap == 1
    requires 0 <= position < 1024
    ensures tilemap == 0 ==> 0x1800 <= a <= 0x1BFF
    ensures tilemap == 1 ==> 0x0C00 <= a <= 0x0FFF
  {
    if tilemap == 0 then 0x1800 + position else 0xC00 + position
  }

  /** An unsigned tile index reinterpreted as a signed byte. */
  function SignedIndex(index: bv8): (s: int)
    ensures -128 <= s < 128
  {
    var i := Unsigned(index);
    if i >= 128 then i - 256 else i
  }

  /** The signed reading is the two's-complement value of the byte. */
  lemma SignedIndexTwosComplement(index: bv8)
    ensures SignedIndex(index) % 256 == Unsigned(index)
    ensures SignedIndex(index) < 0 <==> index & 0x80 != 0
  {
  }

  /**
   * The graphics-RAM address of a tile's data: unsigned from 0 with map 1,
   * signed around 0x1000 with map 0.
   */
  function TileDataAddress(tilemap: int, index: bv8): (a: int)
    requires tilemap == 0 || tilemap == 1
    ensures a % 16 == 0
    ensures tilemap == 1 ==> 0 <= a <= 0x0FF0
    ensures tilemap == 0 ==> 0x0800 <= a <= 0x17F0
  {
    if tilemap == 1 then Unsigned(index) * 16
    else SignedIndex(index) * 16 + 0x1000
  }

  /** Each tile is 16 bytes: tile i starts at 16 i, or at 0x1000 + 16 i with signed indexing. */
  lemma TileDataAddressSlot(tilemap: int, index: bv8)
    requires tilemap == 0 || tilemap == 1
    ensures tilemap == 1 ==> TileDataAddress(tilemap, index) / 16 == Unsigned(index)
    ensures tilemap == 0 ==> (TileDataAddress(tilemap, index) - 0x1000) / 16 == SignedIndex(index)
  {
  }

  /** Tiles 128..255 lie at the same address in both addressing modes. */
  lemma SharedTileBlock(index: bv8)
    requires Unsigned(index) >= 128
    ensures TileDataAddress(0, index) == TileDataAddress(1, index)
  {
  }

  /** Tile index 200 under signed addressing is tile -56, at 0x1000 - 56 * 16. */
  lemma SignedAddressExample()
    ensures SignedIndex(200) == -56
    ensures TileDataAddress(0, 200) == -56 * 16 + 0x1000
  {
  }

  /** Bit `7 - xoffset` of a bit-plane byte. */
  function PlaneBit(plane: bv8, xoffset: int): (bit: int)
    requires 0 <= xoffset < 8
    ensures bit == 0 || bit == 1
    ensures bit == 1 <==> plane & PixelMask(xoffset) != 0
  {
    if plane & PixelMask(xoffset) != 0 then 1 else 0
  }

  /** The single bit of a bit-plane byte that holds pixel `xoffset`: pixel 0 is bit 7. */
  function PixelMask(xoffset: int): (m: bv8)
    requires 0 <= xoffset < 8
  {
    if xoffset == 0 then 0x80 else if xoffset == 1 then 0x40
    else if xoffset == 2 then 0x20 else if xoffset == 3 then 0x10
    else if xoffset == 4 then 0x08 else if xoffset == 5 then 0x04
    else if xoffset == 6 then 0x02 else 0x01
  }

  /** The bit is the one the renderer extracts by shifting right by `7 - xoffset` and masking with 1. */
  lemma PlaneBitShift(plane: bv8, xoffset: int)
    requires 0 <= xoffset < 8
    ensures PlaneBit(plane, xoffset) == 1 <==> (plane >> (7 - xoffset)) & 1 == 1
    ensures PixelMask(xoffset) == 0x80 >> xoffset
  {
    if xoffset == 0 {
      assert PixelMask(0) == 0x80;
    }
  }

  /** The 2-bit color index of a pixel: plane 1 is the high bit, plane 0 the low bit. */
  function ColorIndex(row0: bv8, row1: bv8, xoffset: int): (pixel: int)
    requires 0 <= xoffset < 8
    ensures 0 <= pixel <= 3
  {
    PlaneBit(row1, xoffset) * 2 + PlaneBit(row0, xoffset)
  }

  /** Plane 1 supplies the high bit of the color index and plane 0 the low bit. */
  lemma ColorIndexPlanes(row0: bv8, row1: bv8, xoffset: int)
    requires 0 <= xoffset < 8
    ensures ColorIndex(row0, row1, xoffset) / 2 == PlaneBit(row1, xoffset)
    ensures ColorIndex(row0, row1, xoffset) % 2 == PlaneBit(row0, xoffset)
  {
  }

  /** The background coordinates, after scrolling, of output position (row, column). */
  function BackgroundX(v: VideoMemory, row: int): (x: int) { Scroll(row, v.scrollx) }
  function BackgroundY(v: VideoMemory, column: int): (y: int) { Scroll(column, v.scrolly) }

  /** The graphics-RAM address of plane 0 of the pixel row that output position (row, column) shows. */
  function RowAddress(v: Video, row: int, column: int): (a: int)
    ensures 0 <= a && a + 1 < 8192 && a % 2 == 0
    ensures v.tilemap == 1 ==> a + 1 <= 0x0FFF
    ensures v.tilemap == 0 ==> 0x0800 <= a && a + 1 <= 0x17FF
  {
    var x := BackgroundX(v, row);
    var y := BackgroundY(v, column);
    var tileindex := v.vram[MapAddress(v.tilemap, TilePosition(x, y))];
    var tileaddress := TileDataAddress(v.tilemap, tileindex);
    var yoffset := y % 8;
    assert 0 <= yoffset * 2 <= 14;
    tileaddress + yoffset * 2
  }

  /** A bit of a plane byte extracted as the renderer writes it: shift right, mask with 1. */
  function ShiftedBit(plane: bv8, xoffset: int): (bit: int)
    requires 0 <= xoffset < 8
    ensures bit == 0 || bit == 1
  {
    Unsigned((plane >> (7 - xoffset)) & 1)
  }

  /** Two ways of reading the same pixel bit agree. */
  lemma PlaneBitIsShiftedBit(plane: bv8, xoffset: int)
    requires 0 <= xoffset < 8
    ensures PlaneBit(plane, xoffset) == ShiftedBit(plane, xoffset)
  {
    PlaneBitShift(plane, xoffset);
  }

  /** The shade emitted at output position (row, column). */
  function PixelColor(v: Video, row: int, column: int): (color: int)
    ensures color in v.palette
    ensures v.ShadesValid() ==> 0 <= color <= 3
  {
    var x := BackgroundX(v, row);
    var xoffset := x % 8;
    var address := RowAddress(v, row, column);
    var row0 := v.vram[address];
    var row1 := v.vram[address + 1];
    v.palette[ColorIndex(row0, row1, xoffset)]
  }

  /**
   * The shade is the palette entry indexed by the two plane bits of the
   * scrolled background pixel, each taken by shifting the plane byte right
   * by 7 - (x mod 8) and masking with 1, plane 1 doubled.
   */
  lemma PixelColorDecode(v: Video, row: int, column: int)
    ensures var x := Scroll(row, v.scrollx);
            var a := RowAddress(v, row, column);
            PixelColor(v, row, column) ==
              v.palette[ShiftedBit(v.vram[a + 1], x % 8) * 2 + ShiftedBit(v.vram[a], x % 8)]
  {
    var x := Scroll(row, v.scrollx);
    var a := RowAddress(v, row, column);
    PlaneBitIsShiftedBit(v.vram[a], x % 8);
    PlaneBitIsShiftedBit(v.vram[a + 1], x % 8);
  }

  /** The `updateSquare` call for output position (row, column). */
  function Square(v: Video, row: int, column: int): (event: DisplayEvent)
    ensures event.UpdateSquare? && event.row == row && event.column == column
  {
    UpdateSquare(row, column, PixelColor(v, row, column))
  }

  /** The sink calls of output row `row`, in column order. */
  function RowEvents(v: Video, row: int): (events: seq<DisplayEvent>)
    ensures |events| == ScreenColumns
  {
    seq(ScreenColumns, column => Square(v, row, column))
  }

  /** All sink calls of one rendered frame of `v`: the squares in row-major order, then `onFrame`. */
  function Frame(v: Video): (events: seq<DisplayEvent>)
    ensures |events| == PixelsPerFrame + 1
  {
    seq(PixelsPerFrame, k => Square(v, k / ScreenColumns, k % ScreenColumns)) + [OnFrame]
  }

  /** The inner loop of the renderer: the sink calls for one output row. */
  method RenderRow(v: Video, row: int) returns (events: seq<DisplayEvent>)
    ensures events == RowEvents(v, row)
  {
    events := [];
    var column := 0;
    while column < ScreenColumns
      invariant 0 <= column <= ScreenColumns
      invariant events == RowEvents(v, row)[..column]
    {
      var color := PixelColor(v, row, column);
      events := events + [UpdateSquare(row, column, color)];
      column := column + 1;
    }
  }

  /** Entry `k` of a row-major 160-column grid lies in row k / 160 at column k % 160. */
  lemma RowMajor(r: nat, k: nat)
    requires r * ScreenColumns <= k < r * ScreenColumns + ScreenColumns
    ensures k / ScreenColumns == r
    ensures k % ScreenColumns == k - r * ScreenColumns
  {
  }

  /**
   * A frame is 144 x 160 `updateSquare` calls in row-major order: the call
   * for (row, column) is entry row * 160 + column, and `onFrame` comes last.
   */
  lemma FrameAt(v: Video, row: int, column: int)
    requires 0 <= row < ScreenRows && 0 <= column < ScreenColumns
    ensures row * ScreenColumns + column < PixelsPerFrame
    ensures Frame(v)[row * ScreenColumns + column] == Square(v, row, column)
    ensures Frame(v)[PixelsPerFrame] == OnFrame
  {
    RowMajor(row, row * ScreenColumns + column);
  }

  /** Output row `row` of a frame is exactly the inner loop's output for that row. */
  lemma FrameRow(v: Video, row: int)
    requires 0 <= row < ScreenRows
    ensures Frame(v)[..(row + 1) * ScreenColumns] ==
            Frame(v)[..row * ScreenColumns] + RowEvents(v, row)
  {
    var f := Frame(v);
    var start := row * ScreenColumns;
    forall c | 0 <= c < ScreenColumns
      ensures f[start + c] == RowEvents(v, row)[c]
    {
      FrameAt(v, row, c);
    }
    assert f[..start + ScreenColumns] == f[..start] + f[start..start + ScreenColumns];
  }

  /** With 2-bit palette entries, every shade in a frame is in 0..3. */
  lemma FrameShades(v: Video, row: int, column: int)
    requires v.ShadesValid() && 0 <= row < ScreenRows && 0 <= column < ScreenColumns
    ensures 0 <= Frame(v)[row * ScreenColumns + column].color <= 3
  {
    FrameAt(v, row, column);
  }

  /**
   * Graphics RAM that is zero except for byte 0x1000 = 0xFF: with tile map
   * 0 every map entry is tile 0, which signed addressing places at 0x1000,
   * so tile 0's pixel row 0 has plane 0 all ones and plane 1 all zeros.
   */
  function OneTileScene(): (v: Video)
  {
    VideoMemory(seq(8192, i => if i == 0x1000 then 0xFF else 0), [0, 1, 2, 3], 0, 0, 0)
  }

  /**
   * Because the outer index feeds x, that tile row shows up as a vertical
   * stripe: every output position in a column divisible by 8 has shade 1,
   * and every other position shade 0.
   */
  lemma OneTileSceneStripes(row: int, column: int)
    requires 0 <= row < ScreenRows && 0 <= column < ScreenColumns
    ensures PixelColor(OneTileScene(), row, column) == if column % 8 == 0 then 1 else 0
  {
    var v := OneTileScene();
    var x := BackgroundX(v, row);
    var y := BackgroundY(v, column);
    assert y == column;
    var entry := MapAddress(v.tilemap, TilePosition(x, y));
    assert v.vram[entry] == 0;
    assert TileDataAddress(0, 0) == 0x1000;
    var address := RowAddress(v, row, column);
    assert address == 0x1000 + (column % 8) * 2;
    assert v.vram[address + 1] == 0;
    var xoffset := x % 8;
    if column % 8 == 0 {
      assert v.vram[address] == 0xFF;
      assert PlaneBit(0xFF, xoffset) == 1;
      assert PlaneBit(0, xoffset) == 0;
      assert ColorIndex(0xFF, 0, xoffset) == 1;
    } else {
      assert v.vram[address] == 0;
      assert PlaneBit(0, xoffset) == 0;
      assert ColorIndex(0, 0, xoffset) == 0;
    }
  }

  /**
   * Graphics RAM that is zero except for map-0 entry 1 (0x1801), which names
   * tile 1, and byte 0x1010 = 0xFF, plane 0 of tile 1's pixel row 0.
   */
  function OneMapEntryScene(): (v: Video)
  {
    VideoMemory(seq(8192, i => if i == 0x1801 then 1 else if i == 0x1010 then 0xFF else 0), [0, 1, 2, 3], 0, 0, 0)
  }

  /**
   * Map entry 1 is map column 1 of map row 0, so it covers background x in
   * 8..15 and y in 0..7.  Because the outer index feeds x, it shows up in
   * output rows 8..15; its first pixel row is output column 0.
   */
  lemma OneMapEntrySceneSpot(row: int, column: int)
    requires 0 <= row < ScreenRows && 0 <= column < ScreenColumns
    ensures PixelColor(OneMapEntryScene(), row, column) == if 8 <= row < 16 && column == 0 then 1 else 0
  {
    var v := OneMapEntryScene();
    var x := BackgroundX(v, row);
    var y := BackgroundY(v, column);
    assert x == row && y == column;
    var position := TilePosition(x, y);
    var entry := MapAddress(v.tilemap, position);
    var onSpot := 8 <= row < 16 && column < 8;
    assert position == 1 <==> onSpot;
    var address := RowAddress(v, row, column);
    var xoffset := x % 8;
    if onSpot {
      assert v.vram[entry] == 1;
      assert TileDataAddress(0, 1) == 0x1010;
      assert address == 0x1010 + (column % 8) * 2;
      assert v.vram[address + 1] == 0;
      if column == 0 {
        assert v.vram[address] == 0xFF;
        assert PlaneBit(0xFF, xoffset) == 1;
        assert PlaneBit(0, xoffset) == 0;
        assert ColorIndex(0xFF, 0, xoffset) == 1;
      } else {
        assert v.vram[address] == 0;
        assert PlaneBit(0, xoffset) == 0;
        assert ColorIndex(0, 0, xoffset) == 0;
      }
    } else {
      assert v.vram[entry] == 0;
      assert TileDataAddress(0, 0) == 0x1000;
      assert address == 0x1000 + (column % 8) * 2;
      assert v.vram[address] == 0 && v.vram[address + 1] == 0;
      assert PlaneBit(0, xoffset) == 0;
      assert ColorIndex(0, 0, xoffset) == 0;
    }
  }
}
