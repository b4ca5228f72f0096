/**
 * The raster timing engine: the horizontal phase derived from the
 * instruction counter, the display mode derived from (line, phase), the
 * scanline advance and the interrupts raised when the line advances.
 * These are the pure parts of the driver loop's timing block; the
 * `Console.Step` method applies them to the machine state.
 */
module Raster {
  import opened Bits

  // Display mode codes (the `#define`s of the source).
  const HBLANK := 0
  const VBLANK := 1
  const SPRITE := 2
  const VRAM := 3

  /** Number of horizontal phases per scanline. */
  const PhasesPerLine := 61
  /** The incremented line at which the VBLANK interrupt (1) is raised. */
  const VblankLine := 144
  /** The incremented line that wraps to 0 and triggers a frame render. */
  const WrapLine := 153

  /** Interrupt numbers passed to the CPU's `throwInterrupt`. */
  const VblankInterrupt := 1
  const StatInterrupt := 2

  /** The horizontal phase once `totalInstructions` instructions have retired. */
  function Horizontal(totalInstructions: nat): (h: nat)
    ensures h < PhasesPerLine
  {
    (totalInstructions + 1) % PhasesPerLine
  }

  /** The phase repeats every 61 instructions. */
  lemma HorizontalPeriodic(t: nat)
    ensures Horizontal(t + PhasesPerLine) == Horizontal(t)
  {
  }

  /** The phase is 0 (and the line advances) exactly on every 61st instruction. */
  lemma HorizontalZero(t: nat)
    ensures Horizontal(t) == 0 <==> t % PhasesPerLine == PhasesPerLine - 1
  {
  }

  /** The display mode, a function of the current line and phase only. */
  function Mode(line: int, horizontal: int): (m: int)
    ensures HBLANK <= m <= VRAM
    ensures m == VBLANK <==> line >= 145
    ensures m == HBLANK <==> line < 145 && horizontal <= 30
    ensures m == SPRITE <==> line < 145 && 30 < horizontal < 40
    ensures m == VRAM <==> line < 145 && horizontal >= 40
  {
    if line >= 145 then VBLANK
    else if horizontal <= 30 then HBLANK
    else if horizontal < 40 && horizontal > 30 then SPRITE
    else VRAM
  }

  /** The STAT-interrupt enable bit (bit 6) of the stored status byte. */
  predicate StatEnabled(videostate: int)
  {
    ToByte(videostate) & 0x40 != 0
  }

  /** Advancing from `line` reaches 153, which resets the line and renders a frame. */
  predicate Wraps(line: int)
  {
    line + 1 == WrapLine
  }

  /** The line after one advance. */
  function NextLine(line: int): (next: int)
    ensures Wraps(line) ==> next == 0
    ensures !Wraps(line) ==> next == line + 1
    ensures 0 <= line < WrapLine ==> 0 <= next < WrapLine
  {
    var l := line + 1;
    if l == WrapLine then 0 else l
  }

  /** The interrupts raised, in order, when the line advances from `line`. */
  function LineInterrupts(line: int, cmpline: int, videostate: int): (irqs: seq<int>)
    requires 0 <= line
    ensures VblankInterrupt in irqs <==> line + 1 == VblankLine
    ensures StatInterrupt in irqs <==> (line + 1) % WrapLine == cmpline && StatEnabled(videostate)
    ensures forall i :: 0 <= i < |irqs| ==> irqs[i] == VblankInterrupt || irqs[i] == StatInterrupt
    ensures |irqs| == (if line + 1 == VblankLine then 1 else 0)
                      + (if (line + 1) % WrapLine == cmpline && StatEnabled(videostate) then 1 else 0)
    ensures |irqs| == 2 ==> irqs == [VblankInterrupt, StatInterrupt]
  {
    var l := line + 1;
    (if l == VblankLine then [VblankInterrupt] else [])
      + (if l % WrapLine == cmpline && StatEnabled(videostate) then [StatInterrupt] else [])
  }

  /** Where a run of line advances ends, and how many frames and VBLANK interrupts it produced. */
  datatype Run = Run(line: int, frames: nat, vblanks: nat)

  /** The effect of `n` consecutive line advances starting at `line`. */
  function Advance(line: int, n: nat): (run: Run)
    decreases n
  {
    if n == 0 then Run(line, 0, 0)
    else
      var rest := Advance(NextLine(line), n - 1);
      Run(rest.line,
          rest.frames + (if Wraps(line) then 1 else 0),
          rest.vblanks + (if line + 1 == VblankLine then 1 else 0))
  }

  /** Advances that stay below 153 count up, render nothing, and raise VBLANK iff they pass 144. */
  lemma {:induction false} AdvanceWithin(line: int, n: nat)
    requires 0 <= line && line + n < WrapLine
    ensures Advance(line, n) == Run(line + n, 0, if line < VblankLine <= line + n then 1 else 0)
    decreases n
  {
    if n > 0 {
      AdvanceWithin(line + 1, n - 1);
    }
  }

  /** From any line, the advances up to the wrap end at line 0 having rendered exactly one frame. */
  lemma {:induction false} AdvanceToWrap(line: int)
    requires 0 <= line < WrapLine
    ensures Advance(line, WrapLine - line) == Run(0, 1, if line < VblankLine then 1 else 0)
    decreases WrapLine - line
  {
    if line < WrapLine - 1 {
      AdvanceToWrap(line + 1);
    }
  }

  /** A run of n + m advances is a run of n followed by a run of m. */
  lemma {:induction false} AdvanceSplit(line: int, n: nat, m: nat)
    ensures var first := Advance(line, n);
            var second := Advance(first.line, m);
            Advance(line, n + m) == Run(second.line, first.frames + second.frames, first.vblanks + second.vblanks)
    decreases n
  {
    if n > 0 {
      AdvanceSplit(NextLine(line), n - 1, m);
    }
  }

  /**
   * One full cycle of 153 line advances, from any valid line, returns to
   * that line, renders exactly one frame and raises exactly one VBLANK
   * interrupt.
   */
  lemma FullCycle(line: int)
    requires 0 <= line < WrapLine
    ensures Advance(line, WrapLine) == Run(line, 1, 1)
  {
    AdvanceSplit(line, WrapLine - line, line);
    AdvanceToWrap(line);
    if line > 0 {
      AdvanceWithin(0, line);
    }
  }
}
