# Game Boy display core in Dafny

This is a model of the driver program of a small Game Boy emulator (`gameboy.cpp`). The program does four things:

- It keeps the machine state in globals: graphics RAM, working RAM, page-0 RAM, the palette and the display registers.
- It maps the CPU's memory reads and writes onto that state.
- After every instruction it runs a raster timing block.
- Once per frame it composes the background tile map into 144 x 160 `updateSquare` calls followed by `onFrame`.

The project has four modules:

- `Bits` has the byte helpers: the `int` to `unsigned char` conversion and the flag idiom `(b & m) != 0 ? 1 : 0`.
- `Raster` has the pure timing rules:
  - the horizontal phase, which is `(totalInstructions + 1) % 61`;
  - the display mode chosen from the line and the phase;
  - the line advance, which wraps when the incremented line reaches 153;
  - the VBLANK (1) and STAT (2) interrupts;
  - lemmas about runs of line advances. One full cycle of 153 advances returns to the start line, renders one frame and raises one VBLANK interrupt.
- `Tiles` has the per-pixel decode of the compositor. It covers the scroll, the tile-map entry, the two tile-data addressing modes, the bit-plane extraction and the palette lookup. It also defines the exact sequence of sink calls that one frame produces, and `RenderRow`, the renderer's inner loop.
- `GameBoy` has the class `Console`. Its fields are the globals. Its methods are:
  - the address decoder (`MemoryRead`, `MemoryWrite`);
  - the register decoders (`SetControlByte`, `SetPalette`, `GetVideoState`, `GetKey`, `SetRomMode`);
  - the two-level render loop (`RenderScreen`);
  - the timing block (`Step`).

  The display sink is a log of calls (`display`). The CPU's `throwInterrupt` is a ghost log of interrupt numbers (`interrupts`).

The model keeps these quirks of the code:

- The renderer's outer index `row` feeds the horizontal background coordinate x, and the inner index `column` feeds y.
- The `tilemap` register selects both the tile map and the tile-data addressing mode. Map 0 is at 0x1800 with signed indices around 0x1000. Map 1 is at 0xC00 with unsigned indices from 0. The `tileset` register is stored but never read.
- Reads of 0xFF00 (joypad) and 0xFF41 (status) call `getKey` / `getVideoState`, drop the result and return 0.
- The STAT comparison uses `line % 153` after the increment. The line wraps when it reaches 153, so lines run 0..152 and a frame takes 153 line advances, not 154.
- The VBLANK mode begins at line 145, while the VBLANK interrupt fires when the line reaches 144.
- `OneTileSceneStripes` shows one consequence of these quirks: one row of tile data, selected through map 0 with signed addressing, appears on screen as vertical stripes. `OneMapEntrySceneSpot` shows the other: a tile named by map column 1 appears in output rows 8..15, not columns 8..15.

## Model

| member | source | states |
|---|---|---|
| Bits.ToByte | gameboy.cpp:212-219 | an `int` register read as `unsigned char` keeps its value when it is in 0..255 |
| Bits.Flag | gameboy.cpp:265-267 | the flag is 0 or 1, and it is 1 exactly when `b & mask` is nonzero |
| Raster.Horizontal | gameboy.cpp:99-100 | the phase after `t` instructions is below 61 |
| Raster.HorizontalPeriodic | gameboy.cpp:100 | the phase repeats every 61 instructions |
| Raster.HorizontalZero | gameboy.cpp:100-113 | the phase is 0 (the line advances) exactly when `t mod 61 = 60` |
| Raster.Mode | gameboy.cpp:102-111 | the mode is in HBLANK..VRAM: VBLANK iff line >= 145; below that, HBLANK iff phase <= 30, SPRITE iff 30 < phase < 40, VRAM iff phase >= 40 |
| Raster.NextLine | gameboy.cpp:114-120 | the next line is line + 1, or 0 when that reaches 153; lines 0..152 stay in 0..152 |
| Raster.LineInterrupts | gameboy.cpp:114-118 | interrupt 1 is raised iff the new line is 144; interrupt 2 is raised iff `line % 153 == cmpline` and status bit 6 is set; each at most once, interrupt 1 before interrupt 2, nothing else |
| Raster.AdvanceWithin | gameboy.cpp:113-122 | advances that stay below 153 count up, render no frame and raise VBLANK iff they pass line 144 |
| Raster.AdvanceToWrap | gameboy.cpp:113-122 | advancing from a line to the wrap ends at line 0 after exactly one frame |
| Raster.AdvanceSplit | gameboy.cpp:113-122 | a run of n + m advances is a run of n followed by a run of m, frames and VBLANKs adding up |
| Raster.FullCycle | gameboy.cpp:113-122 | 153 advances from any line 0..152 return to that line, render exactly one frame and raise exactly one VBLANK interrupt |
| Tiles.Scroll | gameboy.cpp:144-146 | a scrolled coordinate is in 0..255 |
| Tiles.TilePosition | gameboy.cpp:148-153 | the tile-map position of background pixel (x, y) is in 0..1023 |
| Tiles.TilePositionGrid | gameboy.cpp:149-153 | the map is 32 x 32, row by row: map row y / 8, map column x / 8 |
| Tiles.MapAddress | gameboy.cpp:155-159 | map 0 entries lie in 0x1800..0x1BFF and map 1 entries in 0xC00..0xFFF |
| Tiles.SignedIndex | gameboy.cpp:166-167 | the signed tile index is in -128..127 |
| Tiles.SignedIndexTwosComplement | gameboy.cpp:166-167 | the signed index is the two's-complement reading of the byte, negative iff bit 7 is set |
| Tiles.TileDataAddress | gameboy.cpp:161-169 | tile data is 16-byte aligned, in 0..0xFF0 with map 1 and in 0x800..0x17F0 with map 0 |
| Tiles.TileDataAddressSlot | gameboy.cpp:161-169 | the address is 16 x index (map 1) or 0x1000 + 16 x signed index (map 0) |
| Tiles.SharedTileBlock | gameboy.cpp:161-169 | tiles 128..255 lie at the same address in both addressing modes |
| Tiles.SignedAddressExample | gameboy.cpp:165-168 | tile 200 under signed addressing is tile -56 at 0x1000 - 56 x 16 |
| Tiles.PlaneBit | gameboy.cpp:178-183 | the plane bit is 0 or 1, and 1 iff the byte has the bit for pixel `xoffset` |
| Tiles.PlaneBitShift | gameboy.cpp:178-183 | that bit is `(plane >> (7 - xoffset)) & 1`; pixel 0 is bit 7 |
| Tiles.ShiftedBit | gameboy.cpp:179-183 | the shift-and-mask extraction yields 0 or 1 |
| Tiles.PlaneBitIsShiftedBit | gameboy.cpp:179-183 | the mask reading and the shift-and-mask reading of a pixel bit agree |
| Tiles.ColorIndex | gameboy.cpp:185-186 | the color index is in 0..3 |
| Tiles.ColorIndexPlanes | gameboy.cpp:186 | plane 1 gives the high bit of the color index and plane 0 the low bit |
| Tiles.RowAddress | gameboy.cpp:142-176 | both row bytes lie inside the 8 KiB graphics RAM: below 0x1000 with map 1, in 0x800..0x17FF with map 0 |
| Tiles.PixelColor | gameboy.cpp:142-187 | the emitted shade is a palette entry, and in 0..3 when the palette holds 2-bit shades |
| Tiles.PixelColorDecode | gameboy.cpp:142-187 | the shade is `palette[2 * bit(row1) + bit(row0)]`, each bit shifted by `7 - x % 8` and masked, on the scrolled x |
| Tiles.Square | gameboy.cpp:187-188 | the sink call for (row, column) is an `updateSquare` at that row and column |
| Tiles.RowEvents | gameboy.cpp:141-189 | one output row is 160 sink calls |
| Tiles.Frame | gameboy.cpp:140-192 | one frame is 144 x 160 + 1 sink calls |
| Tiles.RenderRow | gameboy.cpp:141-189 | the inner loop emits exactly the row's sink calls, in column order |
| Tiles.FrameAt | gameboy.cpp:140-192 | entry row x 160 + column of a frame is the call for (row, column); `onFrame` comes last |
| Tiles.FrameRow | gameboy.cpp:140-190 | each prefix of whole rows of a frame extends the previous prefix by that row's calls |
| Tiles.FrameShades | gameboy.cpp:187-188 | with 2-bit palette entries every shade in a frame is 0..3 |
| Tiles.OneTileSceneStripes | gameboy.cpp:140-187 | a single tile row of data renders as shade 1 in every eighth column and shade 0 elsewhere |
| Tiles.OneMapEntrySceneSpot | gameboy.cpp:142-159 | a single tile-map entry at map column 1, row 0 shows up in output rows 8..15 at column 0: the outer index picks the map column |
| GameBoy.ReadRegister | gameboy.cpp:208-223 | 0xFF42, 0xFF43, 0xFF44 and 0xFF45 read the low byte of `scrolly`, `scrollx`, `line` and `cmpline`; every other I/O address reads 0 |
| GameBoy.WriteRegister | gameboy.cpp:239-251 | only 0xFF00 and 0xFF40..0xFF45 change a register, and each changes only the register it names: 0xFF00, 0xFF41..0xFF45 store the byte in `keyboardColumn`, `videostate`, `scrolly`, `scrollx`, `line`, `cmpline`; 0xFF40 changes just `tilemap` and `tileset`; the phase, mode and instruction count are never written |
| GameBoy.RegisterReadBack | gameboy.cpp:212-251 | a byte written to 0xFF42..0xFF45 is the byte read back |
| GameBoy.RegisterWriteIsolated | gameboy.cpp:195-259 | a register write leaves the read of every other address unchanged |
| GameBoy.PaletteOf | gameboy.cpp:269-270 | a palette byte decodes to four shades in 0..3 |
| GameBoy.PackOfPalette | gameboy.cpp:269-270 | packing the decoded shades gives the byte back |
| GameBoy.PaletteOfPack | gameboy.cpp:269-270 | every four 2-bit shades are the decoding of the byte that packs them |
| GameBoy.IdentityPalette | gameboy.cpp:269-270 | 0xE4 decodes to the identity palette 0, 1, 2, 3 |
| GameBoy.Console.constructor | gameboy.cpp:18-35 | power-on state: all memory zero, all registers zero, mode HBLANK, no sink calls, no interrupts |
| GameBoy.Console.MemoryRead | gameboy.cpp:195-224 | ROM bytes at 0..0x7FFF (bank 1 at fixed offset 0x4000), the three RAMs at their windows, the low byte of `scrolly`, `scrollx`, `line`, `cmpline` at 0xFF42..0xFF45, 0 for 0xFF00, 0xFF40, 0xFF41, 0xFF47 and every unmapped address |
| GameBoy.Console.MemoryWrite | gameboy.cpp:226-259 | exactly the addressed RAM byte or register changes (tile map/set for 0xFF40, palette for 0xFF47); RAM and 0xFF42..0xFF45 read back the byte; every other address reads as before; the sink and interrupt logs are untouched |
| GameBoy.Console.WriteMemory | gameboy.cpp:229-238 | ROM-space writes change nothing; RAM writes store the byte at the address modulo the RAM size |
| GameBoy.Console.WriteIo | gameboy.cpp:239-256 | the I/O cases update the registers as `WriteRegister` says and the palette for 0xFF47 |
| GameBoy.Console.StoreRegister | gameboy.cpp:239-252 | the stored byte lands in the one register the address names |
| GameBoy.Console.SetRomMode | gameboy.cpp:263 | the bank-switch hook changes no state: it has no modifies clause, and the registers and both logs are unchanged |
| GameBoy.Console.GetKey | gameboy.cpp:262 | the joypad byte has all four key lines high and the upper nibble clear |
| GameBoy.Console.SetControlByte | gameboy.cpp:264-268 | tile map = bit 3, tile set = bit 4; no other register changes |
| GameBoy.Console.SetPalette | gameboy.cpp:269-270 | the palette becomes the four 2-bit fields of the byte |
| GameBoy.Console.GetVideoState | gameboy.cpp:272-284 | bits 0-1 hold the mode, bit 2 is set iff line == cmpline, bits 3-7 are the stored status bits |
| GameBoy.Console.RenderScreen | gameboy.cpp:132-193 | the emitted calls are exactly `Frame` of the current graphics RAM, palette and registers |
| GameBoy.Console.RaiseLineInterrupts | gameboy.cpp:115-118 | appends exactly the line's interrupts, in order |
| GameBoy.Console.EndOfLine | gameboy.cpp:113-123 | the line advances per `NextLine`, the line's interrupts are raised, and a whole frame is emitted iff the line wraps |
| GameBoy.Console.Step | gameboy.cpp:99-123 | the count grows by one, and the phase and mode follow `Horizontal` and `Mode`; the line changes only at phase 0 and stays in 0..152; the interrupts and frames of that advance are logged; no other register changes |

## Left out

- Loading the ROM image and the video dump (lines 53-80) is file I/O. It is left out: the constructor takes the ROM as a parameter and starts from zeroed memory.
- The Z80 CPU (lines 62-63 and 84-97) is code outside this file. Its instruction execution, deferred-interrupt handling and `checkForInterrupts` are left out. `throwInterrupt` is modelled only as the ghost log `interrupts`.
- The trace `printf` (line 125), the window setup (line 49), `app->exec()` (line 129) and the final `renderScreen()` after the halt (line 128) are I/O and GUI plumbing.
- The internals of `updateSquare` and `onFrame` are in `screen.h`, which is not part of this model. Their calls are recorded in the `display` log.
- ROM bank switching does not exist: the source's `setRomMode` hook is empty, so the ROM offset stays the constant 0x4000.
- GameBoy.Console.GetKey: the joypad is not emulated. `keyboardColumn` is stored by `MemoryWrite` but never read.
- GameBoy.Console.MemoryRead: requires that the ROM image covers every address in 0..0x7FFF that is read (`RomCovers`). The source indexes past a short image without a check.
- GameBoy.Console.Step: `totalInstructions` is an unbounded `nat`. The 64-bit `long` counter never wraps in practice.
- GameBoy.Console.Step: lines above 152 can only be reached by writing 0xFF44. For them the model follows the code, where the line keeps counting up. No cycle lemma is proved for that case.
- GameBoy.Console.Valid: keeps `tilemap` and `tileset` in {0, 1} and every palette entry in 0..3. The video-dump preload (lines 73-80) is left out. Apart from it, only `setControlByte` writes `tilemap` and `tileset`, and it writes 0 or 1. Only `setPalette` writes the palette, and it writes 0..3. The model therefore does not cover a preloaded dump with other values, nor the uninitialised `tileindex` that a `tilemap` outside {0, 1} would read.
- The C operations are split for the verifier:
  - `memoryWrite` into `WriteMemory`, `WriteIo` and `StoreRegister`;
  - the timing block into `Step`, `EndOfLine` and `RaiseLineInterrupts`;
  - the inner render loop into `Tiles.RenderRow`.

  They perform the same assignments in the same order.
