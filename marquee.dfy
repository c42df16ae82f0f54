/** The blocking marquee screensaver for a 128x64 display: a message padded
    with four spaces scrolls left one pixel per frame between two divider
    bars, each character riding a small sine wave and drawn with a dark
    halo. Two copies of the text cover the wrap-around; copies and
    characters off the screen are skipped. Also the outlined-text drawing
    the non-blocking variant repeats inline. */
module Marquee {
  import opened Common
  import opened Display

  const W: int := 128
  const H: int := 64
  const CharW: int := 8
  const Baseline: int := 28      // H // 2 - 4
  const BarMargin: int := 10
  const Gap: string := "    "

  /** The 64-entry integer sine table, values -5 .. 5. */
  const Sin: seq<int> := [
     0,  1,  1,  2,  2,  3,  3,  4,
     4,  4,  5,  5,  5,  5,  5,  5,
     5,  5,  5,  5,  5,  4,  4,  4,
     3,  3,  2,  2,  1,  1,  0, -1] + [
    -1, -2, -2, -3, -3, -4, -4, -4,
    -5, -5, -5, -5, -5, -5, -5, -5,
    -5, -5, -5, -4, -4, -4, -3, -3,
    -2, -2, -1, -1,  0,  1,  1,  2
  ]

  /** A wave table: 64 offsets, each at most `amp` from zero. */
  predicate WaveTable(sin: seq<int>, amp: int) {
    |sin| == 64 && forall k :: 0 <= k < |sin| ==> -amp <= sin[k] <= amp
  }

  lemma SinTable()
    ensures WaveTable(Sin, 5)
  {
  }

  /** `_wave(i, phase)` on table `sin`: the entry at `(i + phase) & 63`,
      which is the non-negative remainder modulo 64 even for negative
      sums, so it is bounded by the table's amplitude. */
  function Wave(sin: seq<int>, i: int, phase: int): (r: int)
    requires |sin| == 64
    ensures forall amp :: WaveTable(sin, amp) ==> -amp <= r <= amp
  {
    sin[(i + phase) % 64]
  }

  /** The wave depends only on `i + phase` modulo 64. */
  lemma WavePeriodic(sin: seq<int>, i: int, phase: int, j: int, q: int)
    requires |sin| == 64
    requires (i + phase) % 64 == (j + q) % 64
    ensures Wave(sin, i, phase) == Wave(sin, j, q)
  {
  }

  // ------------------------------------------------------ outlined text

  /** The halo cells of column `dx` (dx from -1 to 1) with dy from -1 to
      `m - 2`: `text` in colour 0 at each, the centre skipped. */
  function HaloColumn(text: string, x: int, y: int, dx: int, m: nat): seq<DrawCmd>
    requires m <= 3
  {
    if m == 0 then []
    else
      var dy := m - 2;
      HaloColumn(text, x, y, dx, m - 1) + (if dx != 0 || dy != 0 then [Text(text, x + dx, y + dy, 0)] else [])
  }

  /** The halo columns dx = -1 .. j - 2: dx outer, dy inner. */
  function Halo(text: string, x: int, y: int, j: nat): seq<DrawCmd>
    requires j <= 3
  {
    if j == 0 then [] else Halo(text, x, y, j - 1) + HaloColumn(text, x, y, j - 2, 3)
  }

  /** `_draw_outlined_text`: the halo, then the text itself in colour 1. */
  function OutlineCmds(text: string, x: int, y: int): seq<DrawCmd> {
    Halo(text, x, y, 3) + [Text(text, x, y, 1)]
  }

  /** Eight erase calls at the eight neighbour offsets in order, then
      exactly one draw at (x, y), last. */
  lemma OutlineOrder(text: string, x: int, y: int)
    ensures OutlineCmds(text, x, y) == [
      Text(text, x - 1, y - 1, 0), Text(text, x - 1, y, 0), Text(text, x - 1, y + 1, 0),
      Text(text, x, y - 1, 0), Text(text, x, y + 1, 0),
      Text(text, x + 1, y - 1, 0), Text(text, x + 1, y, 0), Text(text, x + 1, y + 1, 0),
      Text(text, x, y, 1)]
  {
    var l := HaloColumn(text, x, y, -1, 3);
    var c := HaloColumn(text, x, y, 0, 3);
    var r := HaloColumn(text, x, y, 1, 3);
    ColumnCells(text, x, y, -1);
    ColumnCells(text, x, y, 0);
    ColumnCells(text, x, y, 1);
    assert l == [Text(text, x - 1, y - 1, 0), Text(text, x - 1, y, 0), Text(text, x - 1, y + 1, 0)];
    assert c == [Text(text, x, y - 1, 0), Text(text, x, y + 1, 0)];
    assert r == [Text(text, x + 1, y - 1, 0), Text(text, x + 1, y, 0), Text(text, x + 1, y + 1, 0)];
    assert Halo(text, x, y, 1) == l;
    assert Halo(text, x, y, 2) == l + c;
    assert Halo(text, x, y, 3) == l + c + r;
  }

  /** One halo column: the cells above, beside (except at the centre) and
      below. */
  lemma ColumnCells(text: string, x: int, y: int, dx: int)
    ensures HaloColumn(text, x, y, dx, 3) ==
      [Text(text, x + dx, y - 1, 0)]
      + (if dx != 0 then [Text(text, x + dx, y, 0)] else [])
      + [Text(text, x + dx, y + 1, 0)]
  {
    assert HaloColumn(text, x, y, dx, 1) == [Text(text, x + dx, y - 1, 0)];
    assert HaloColumn(text, x, y, dx, 2) == HaloColumn(text, x, y, dx, 1)
      + (if dx != 0 then [Text(text, x + dx, y, 0)] else []);
  }

  /** Every outline command is `text` within one pixel of (x, y), and only
      the last one, at (x, y) itself, is in colour 1. */
  lemma OutlineNear(text: string, x: int, y: int)
    ensures |OutlineCmds(text, x, y)| == 9
    ensures forall c :: c in OutlineCmds(text, x, y) ==>
      c.Text? && c.s == text && x - 1 <= c.x <= x + 1 && y - 1 <= c.y <= y + 1
    ensures forall k :: 0 <= k < 8 ==> OutlineCmds(text, x, y)[k].color == 0
    ensures OutlineCmds(text, x, y)[8] == Text(text, x, y, 1)
  {
    OutlineOrder(text, x, y);
  }

  /** Draws the halo cell by cell, then the text. */
  method DrawOutlinedText(disp: Surface, text: string, x: int, y: int)
    modifies disp
    ensures disp.log == old(disp.log) + OutlineCmds(text, x, y)
  {
    ghost var log0 := disp.log;
    for dx := -1 to 2
      invariant disp.log == log0 + Halo(text, x, y, dx + 1)
    {
      ghost var cols := Halo(text, x, y, dx + 1);
      for dy := -1 to 2
        invariant disp.log == log0 + cols + HaloColumn(text, x, y, dx, dy + 1)
      {
        ghost var done := HaloColumn(text, x, y, dx, dy + 1);
        if dx != 0 || dy != 0 {
          disp.Text(text, x + dx, y + dy, 0);
        }
        ConcatAssoc(log0, cols, done);
      }
      ConcatAssoc(log0, cols, HaloColumn(text, x, y, dx, 3));
    }
    disp.Text(text, x, y, 1);
  }

  // ---------------------------------------------------------- the text

  /** The scrolled message: `message` when it is given and non-empty,
      otherwise `username`, otherwise "HELLO", then stripped. An absent
      string is the empty one. */
  function SelectMessage(message: string, username: string): (msg: string)
    ensures message != [] ==> msg == Strip(message)
    ensures message == [] && username != [] ==> msg == Strip(username)
    ensures message == [] && username == [] ==> msg == "HELLO"
  {
    StripKeepsTrimmed("HELLO");
    Strip(if message != [] then message else if username != [] then username else "HELLO")
  }

  /** The selected message followed by the four-space gap. */
  function ScrollText(message: string, username: string): (t: string)
    ensures |t| >= 4 && t[|t| - 4..] == Gap
    ensures t[..|t| - 4] == SelectMessage(message, username)
  {
    SelectMessage(message, username) + Gap
  }

  /** A character cell starting at `cx` is drawn unless it lies wholly
      left of the screen (`cx <= -8`) or starts at or past its right edge. */
  predicate CharVisible(cx: int) {
    !(cx <= -CharW || cx >= W)
  }

  /** A copy of the text starting at `tx` is drawn when it starts left of
      the right edge and ends right of the left edge. */
  predicate CopyVisible(tx: int, textPx: int) {
    tx < W && tx + textPx > 0
  }

  /** The characters `0 .. n - 1` of a copy starting at `tx`: each visible
      one outlined at its cell, raised or lowered by the wave. */
  function CopyCmds(sin: seq<int>, text: string, tx: int, phase: int, n: nat): seq<DrawCmd>
    requires |sin| == 64
    requires n <= |text|
  {
    if n == 0 then []
    else
      CopyCmds(sin, text, tx, phase, n - 1) + CharCmds(sin, text, tx, phase, n - 1)
  }

  lemma CopyStep(sin: seq<int>, text: string, tx: int, phase: int, i: nat)
    requires |sin| == 64
    requires i < |text|
    ensures CopyCmds(sin, text, tx, phase, i + 1) == CopyCmds(sin, text, tx, phase, i) + CharCmds(sin, text, tx, phase, i)
  {
  }

  /** Copy `k` (0 or 1) of the text, if it is visible. */
  function CopyIf(sin: seq<int>, text: string, x: int, phase: int, k: int): seq<DrawCmd>
    requires |sin| == 64
  {
    var textPx := |text| * CharW;
    var tx := x + k * textPx;
    if CopyVisible(tx, textPx) then CopyCmds(sin, text, tx, phase, |text|) else []
  }

  /** The two dividers, at y = 10 and y = 53, across the whole width. */
  function BarCmds(): seq<DrawCmd> {
    [Line(0, BarMargin, W - 1, BarMargin, 1), Line(0, H - BarMargin - 1, W - 1, H - BarMargin - 1, 1)]
  }

  /** One frame for scroll position `x` and wave phase `phase`. */
  function FrameCmds(text: string, x: int, phase: int): seq<DrawCmd> {
    [Fill(0)] + BarCmds() + CopyIf(Sin, text, x, phase, 0) + CopyIf(Sin, text, x, phase, 1) + [Show]
  }

  /** A one-character text command within a pixel of a visible cell, in
      rows 22 .. 34 (the baseline, the wave of at most 5 and the halo of
      1): its 8-row glyph lies strictly between the two bars. */
  predicate InTextBand(c: DrawCmd) {
      && c.Text? && |c.s| == 1
      && -CharW <= c.x <= W
      && Baseline - 6 <= c.y <= Baseline + 6
      && BarMargin < c.y && c.y + 8 < H - BarMargin - 1
  }

  /** Every command of a list lies in the text band. */
  predicate AllInBand(cmds: seq<DrawCmd>) {
    forall c :: c in cmds ==> InTextBand(c)
  }

  /** Every command of a copy lies in the text band. */
  lemma {:induction false} CopyBetweenBars(sin: seq<int>, text: string, tx: int, phase: int, n: nat)
    requires WaveTable(sin, 5)
    requires n <= |text|
    ensures AllInBand(CopyCmds(sin, text, tx, phase, n))
    decreases n
  {
    if n > 0 {
      CopyBetweenBars(sin, text, tx, phase, n - 1);
      CopyBandStep(sin, text, tx, phase, n);
    }
  }

  /** Appending character `n - 1` keeps a copy in the band. */
  lemma CopyBandStep(sin: seq<int>, text: string, tx: int, phase: int, n: nat)
    requires WaveTable(sin, 5)
    requires 0 < n <= |text| && AllInBand(CopyCmds(sin, text, tx, phase, n - 1))
    ensures AllInBand(CopyCmds(sin, text, tx, phase, n))
  {
    CharBetweenBars(sin, text, tx, phase, n - 1);
    BandConcat(CopyCmds(sin, text, tx, phase, n - 1), CharCmds(sin, text, tx, phase, n - 1),
               CopyCmds(sin, text, tx, phase, n));
  }

  lemma BandConcat(a: seq<DrawCmd>, b: seq<DrawCmd>, ab: seq<DrawCmd>)
    requires AllInBand(a) && AllInBand(b) && ab == a + b
    ensures AllInBand(ab)
  {
  }

  lemma CharBetweenBars(sin: seq<int>, text: string, tx: int, phase: int, i: nat)
    requires WaveTable(sin, 5) && i < |text|
    ensures AllInBand(CharCmds(sin, text, tx, phase, i))
  {
    OutlineNear([text[i]], tx + i * CharW, Baseline + Wave(sin, i, phase));
  }

  /** A drawn copy paints text only, clear of both bars. */
  lemma CopyIfPaints(sin: seq<int>, text: string, x: int, phase: int, k: int)
    requires WaveTable(sin, 5)
    ensures forall c :: c in CopyIf(sin, text, x, phase, k) ==>
      c.Text? && BarMargin < c.y && c.y + 8 < H - BarMargin - 1
  {
    CopyBetweenBars(sin, text, x + k * (|text| * CharW), phase, |text|);
  }

  /** A frame clears first, flushes last and only paints in between. */
  lemma FrameShape(text: string, x: int, phase: int)
    ensures WellFramed(FrameCmds(text, x, phase))
  {
    var c0 := CopyIf(Sin, text, x, phase, 0);
    var c1 := CopyIf(Sin, text, x, phase, 1);
    BodyPaints(text, x, phase);
    Framed(BarCmds() + c0 + c1);
    ConcatAssoc([Fill(0)], BarCmds(), c0);
    ConcatAssoc([Fill(0)], BarCmds() + c0, c1);
  }

  lemma BodyPaints(text: string, x: int, phase: int)
    ensures forall c :: c in BarCmds() + CopyIf(Sin, text, x, phase, 0) + CopyIf(Sin, text, x, phase, 1) ==> Paints(c)
  {
    SinTable();
    CopyIfPaints(Sin, text, x, phase, 0);
    CopyIfPaints(Sin, text, x, phase, 1);
  }

  // ------------------------------------------------------------ scrolling

  /** The scroll update: one pixel left; at `x <= -textPx` either stop
      (one pass only) or wrap forward by exactly the text width; then, if
      still running, advance the wave phase on frames that land on an even
      x. The result is the new x, the new phase and whether to go on. */
  function Scroll(x: int, phase: int, textPx: int, loop: bool): (r: (int, int, bool))
    ensures r.2 <==> loop || x - 1 > -textPx
    ensures r.0 == (if r.2 && x - 1 <= -textPx then x - 1 + textPx else x - 1)
    ensures !r.2 ==> r.1 == phase
    ensures r.2 ==> r.1 == (if r.0 % 2 == 0 then (phase + 1) % 64 else phase)
    ensures 0 <= phase < 64 ==> 0 <= r.1 < 64
  {
    var x1 := x - 1;
    if x1 <= -textPx && !loop then (x1, phase, false)
    else
      var x2 := if x1 <= -textPx then x1 + textPx else x1;
      (x2, if x2 % 2 == 0 then (phase + 1) % 64 else phase, true)
  }

  /** While running, x stays in the window `-textPx < x <= W`; a wrap
      always lands exactly at x = 0. */
  lemma ScrollWindow(x: int, phase: int, textPx: int, loop: bool)
    requires textPx > 0 && -textPx < x <= W
    ensures var r := Scroll(x, phase, textPx, loop);
      && (r.2 ==> -textPx < r.0 <= W)
      && (r.2 && r.0 != x - 1 ==> r.0 == 0)
  {
  }

  /** The scroll position after `k` frames of the endless mode. */
  function XAfter(x: int, k: nat, textPx: int): int
    decreases k
  {
    if k == 0 then x else Scroll(XAfter(x, k - 1, textPx), 0, textPx, true).0
  }

  /** From x = 0 the text moves one pixel a frame for `j` frames ... */
  lemma {:induction false} ScrollCountdown(j: nat, textPx: int)
    requires j < textPx
    ensures XAfter(0, j, textPx) == -(j as int)
    decreases j
  {
    if j > 0 {
      ScrollCountdown(j - 1, textPx);
    }
  }

  /** ... and is back at 0 after exactly `textPx` frames: the scroll
      repeats with the text's pixel width as its period. */
  lemma ScrollPeriod(textPx: int)
    requires textPx > 0
    ensures XAfter(0, textPx, textPx) == 0
  {
    ScrollCountdown(textPx - 1, textPx);
  }

  class MarqueeScreensaver {
    var x: int
    var phase: int
    const text: string
    const textPx: int
    const loop: bool
    const frameTime: int

    /** The scroll window and the phase range. */
    predicate Valid()
      reads this
    {
      && |text| >= 4 && textPx == |text| * CharW
      && -textPx < x <= W && 0 <= phase < 64
    }

    /** Setting up: the frame interval, the scrolled text and its width,
        the start just past the right edge, phase 0. */
    constructor (username: string, fps: int, message: string, loop: bool)
      ensures Valid()
      ensures text == ScrollText(message, username) && textPx == |text| * CharW
      ensures x == W && phase == 0 && this.loop == loop
      ensures frameTime == FrameInterval(fps, 10, 60)
    {
      var f := Clamp(fps, 10, 60);
      frameTime := 1000 / f;
      var msg := SelectMessage(message, username);
      text := msg + Gap;
      textPx := |msg + Gap| * CharW;
      x := W;
      phase := 0;
      this.loop := loop;
    }

    /** One frame: clear, bars, the two copies, scroll, flush (on both
        the stopping and the running path). Returns whether the
        screensaver goes on. */
    method Frame(disp: Surface) returns (running: bool)
      requires Valid()
      modifies this, disp
      ensures disp.log == old(disp.log) + FrameCmds(text, old(x), old(phase))
      ensures (x, phase, running) == Scroll(old(x), old(phase), textPx, loop)
      ensures running ==> Valid()
    {
      DrawScene(disp, text, x, phase);
      running := Advance();
      disp.Show();
    }

    /** The scroll update of a frame. */
    method Advance() returns (running: bool)
      requires Valid()
      modifies this
      ensures (x, phase, running) == Scroll(old(x), old(phase), textPx, loop)
      ensures running ==> Valid()
    {
      ScrollWindow(x, phase, textPx, loop);
      x := x - 1;
      if x <= -textPx {
        if !loop {
          return false;
        }
        x := x + textPx;
      }
      if x % 2 == 0 {
        phase := (phase + 1) % 64;
      }
      running := true;
    }
  }

  /** Clear, the two bars and both copies of the text. */
  method DrawScene(disp: Surface, text: string, x: int, phase: int)
    modifies disp
    ensures disp.log + [Show] == old(disp.log) + FrameCmds(text, x, phase)
  {
    ghost var log0 := disp.log;
    disp.Fill(0);
    disp.Line(0, BarMargin, W - 1, BarMargin, 1);
    disp.Line(0, H - BarMargin - 1, W - 1, H - BarMargin - 1, 1);
    ghost var log1 := disp.log;
    assert log1 == log0 + ([Fill(0)] + BarCmds());
    SinTable();
    DrawCopies(disp, Sin, text, x, phase);
    ghost var c0 := CopyIf(Sin, text, x, phase, 0);
    ghost var c1 := CopyIf(Sin, text, x, phase, 1);
    assert disp.log == log1 + c0 + c1;
    assert FrameCmds(text, x, phase) == ([Fill(0)] + BarCmds()) + c0 + c1 + [Show];
    ConcatAssoc(log0, [Fill(0)] + BarCmds(), c0);
    ConcatAssoc(log0, [Fill(0)] + BarCmds() + c0, c1);
    ConcatAssoc(log0, [Fill(0)] + BarCmds() + c0 + c1, [Show]);
  }

  /** Copies `0 .. k - 1` of the text. */
  function Copies(sin: seq<int>, text: string, x: int, phase: int, k: nat): seq<DrawCmd>
    requires |sin| == 64
    requires k <= 2
  {
    if k == 0 then [] else Copies(sin, text, x, phase, k - 1) + CopyIf(sin, text, x, phase, k - 1)
  }

  /** Both copies, at x and one text width further right. */
  method DrawCopies(disp: Surface, sin: seq<int>, text: string, x: int, phase: int)
    requires |sin| == 64
    modifies disp
    ensures disp.log == old(disp.log) + CopyIf(sin, text, x, phase, 0) + CopyIf(sin, text, x, phase, 1)
  {
    ghost var log0 := disp.log;
    for k := 0 to 2
      invariant disp.log == log0 + Copies(sin, text, x, phase, k)
    {
      ghost var done := Copies(sin, text, x, phase, k);
      DrawCopyIf(disp, sin, text, x, phase, k);
      ConcatAssoc(log0, done, CopyIf(sin, text, x, phase, k));
      assert Copies(sin, text, x, phase, k + 1) == done + CopyIf(sin, text, x, phase, k);
    }
    assert Copies(sin, text, x, phase, 1) == CopyIf(sin, text, x, phase, 0);
  }

  /** Copy `k`: at `x + k * text_px`, drawn only when it overlaps the
      screen. */
  method DrawCopyIf(disp: Surface, sin: seq<int>, text: string, x: int, phase: int, k: int)
    requires |sin| == 64
    modifies disp
    ensures disp.log == old(disp.log) + CopyIf(sin, text, x, phase, k)
  {
    var tx := x + k * (|text| * CharW);
    if tx < W && tx + |text| * CharW > 0 {
      DrawCopy(disp, sin, text, tx, phase);
    }
  }

  /** One copy of the text starting at `tx`, character by character. */
  method DrawCopy(disp: Surface, sin: seq<int>, text: string, tx: int, phase: int)
    requires |sin| == 64
    modifies disp
    ensures disp.log == old(disp.log) + CopyCmds(sin, text, tx, phase, |text|)
  {
    ghost var log0 := disp.log;
    for i := 0 to |text|
      invariant disp.log == log0 + CopyCmds(sin, text, tx, phase, i)
    {
      DrawChar(disp, sin, text, tx, phase, i);
      CopyStep(sin, text, tx, phase, i);
      ConcatAssoc(log0, CopyCmds(sin, text, tx, phase, i), CharCmds(sin, text, tx, phase, i));
    }
  }

  /** Character `i` of a copy starting at `tx`: outlined at its cell and
      wave offset when visible, nothing otherwise. */
  function CharCmds(sin: seq<int>, text: string, tx: int, phase: int, i: nat): seq<DrawCmd>
    requires |sin| == 64 && i < |text|
  {
    var cx := tx + i * CharW;
    if CharVisible(cx) then OutlineCmds([text[i]], cx, Baseline + Wave(sin, i, phase)) else []
  }

  method DrawChar(disp: Surface, sin: seq<int>, text: string, tx: int, phase: int, i: nat)
    requires |sin| == 64 && i < |text|
    modifies disp
    ensures disp.log == old(disp.log) + CharCmds(sin, text, tx, phase, i)
  {
    var cx := tx + i * CharW;
    if !(cx <= -CharW || cx >= W) {
      var wy := Wave(sin, i, phase);
      DrawOutlinedText(disp, [text[i]], cx, Baseline + wy);
    }
  }
}
