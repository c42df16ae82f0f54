/** The non-blocking marquee screensaver: `init_state` builds the state
    tuple and each `draw_step` call renders one frame and returns the tuple
    with the scroll position and wave phase advanced. Unlike the blocking
    variant it always loops, takes its speed, sizes and gap from the state,
    uses a gentler wave (-3 .. 3), advances the phase every frame, and also
    draws a character whose cell starts exactly one width left of the
    screen. */
module MarqueeNb {
  import opened Common
  import opened Display
  import Marquee

  /** The 64-entry integer sine table, values -3 .. 3. */
  const Sin: seq<int> := [
     0,  0,  1,  1,  1,  2,  2,  2,  3,  3,  3,  3,  3,  3,  3,  3,
     3,  3,  3,  3,  3,  3,  3,  3,  2,  2,  2,  1,  1,  1,  0,  0] + [
     0,  0, -1, -1, -1, -2, -2, -2, -3, -3, -3, -3, -3, -3, -3, -3,
    -3, -3, -3, -3, -3, -3, -3, -3, -2, -2, -2, -1, -1, -1,  0,  0
  ]

  lemma SinTable()
    ensures Marquee.WaveTable(Sin, 3)
  {
  }

  /** `(scroll_text, char_w, text_px, x, baseline, phase, speed_px,
      draw_bars, bar_margin, W, H)`. */
  datatype State = State(
    scrollText: string, charW: int, textPx: int, x: int, baseline: int, phase: int,
    speedPx: int, drawBars: bool, barMargin: int, width: int, height: int)

  /** `" " * n`: empty for a negative count. */
  function Spaces(n: int): (r: string)
    ensures |r| == Max(0, n)
    ensures forall k :: 0 <= k < |r| ==> r[k] == ' '
    decreases n
  {
    if n <= 0 then [] else Spaces(n - 1) + " "
  }

  /** The state `init_state` returns: the message (or "HELLO" when it is
      absent or empty) stripped and padded with `gapChars` spaces, 8-pixel
      characters, the start just past the right edge, the baseline 4 rows
      above the middle, phase 0, bars 10 rows in. */
  function InitState(width: int, height: int, message: string, speedPx: int, gapChars: int): (st: State)
    ensures message != [] ==> st.scrollText == Strip(message) + Spaces(gapChars)
    ensures message == [] ==> st.scrollText == "HELLO" + Spaces(gapChars)
    ensures st.textPx == |st.scrollText| * st.charW && st.charW == 8
    ensures st.x == width && st.phase == 0 && st.baseline == height / 2 - 4
    ensures st.speedPx == speedPx && st.drawBars && st.barMargin == 10
    ensures st.width == width && st.height == height
  {
    StripKeepsTrimmed("HELLO");
    var msg := Strip(if message != [] then message else "HELLO");
    var text := msg + Spaces(gapChars);
    State(text, 8, |text| * 8, width, height / 2 - 4, 0, speedPx, true, 10, width, height)
  }

  // ------------------------------------------------------------ rendering

  /** The two dividers when bars are on. */
  function BarCmds(st: State): seq<DrawCmd> {
    if st.drawBars then
      [Line(0, st.barMargin, st.width - 1, st.barMargin, 1),
       Line(0, st.height - st.barMargin - 1, st.width - 1, st.height - st.barMargin - 1, 1)]
    else []
  }

  /** A character cell is drawn when `-char_w <= cx < W`. */
  predicate CharVisible(st: State, cx: int) {
    -st.charW <= cx < st.width
  }

  /** Character `i` of a copy starting at `tx`: outlined at its cell,
      offset by the wave, when visible. */
  function CharCmds(st: State, tx: int, i: nat): seq<DrawCmd>
    requires i < |st.scrollText|
  {
    var cx := tx + i * st.charW;
    if CharVisible(st, cx) then Marquee.OutlineCmds([st.scrollText[i]], cx, st.baseline + Marquee.Wave(Sin, i, st.phase)) else []
  }

  /** Characters `0 .. n - 1` of a copy starting at `tx`. */
  function CopyCmds(st: State, tx: int, n: nat): seq<DrawCmd>
    requires n <= |st.scrollText|
  {
    if n == 0 then [] else CopyCmds(st, tx, n - 1) + CharCmds(st, tx, n - 1)
  }

  lemma CopyStep(st: State, tx: int, i: nat)
    requires i < |st.scrollText|
    ensures CopyCmds(st, tx, i + 1) == CopyCmds(st, tx, i) + CharCmds(st, tx, i)
  {
  }

  /** Copy `k` of the text, if it overlaps the screen. */
  function CopyIf(st: State, k: int): seq<DrawCmd> {
    var tx := st.x + k * st.textPx;
    if tx < st.width && tx + st.textPx > 0 then CopyCmds(st, tx, |st.scrollText|) else []
  }

  /** Copies `0 .. k - 1`. */
  function Copies(st: State, k: nat): seq<DrawCmd>
    requires k <= 2
  {
    if k == 0 then [] else Copies(st, k - 1) + CopyIf(st, k - 1)
  }

  /** The frame `draw_step` renders for state `st` (before the advance). */
  function FrameCmds(st: State): seq<DrawCmd> {
    [Fill(0)] + BarCmds(st) + CopyIf(st, 0) + CopyIf(st, 1) + [Show]
  }

  /** A one-character text within a pixel of a drawn cell and within 4
      rows of the baseline (wave 3, halo 1). */
  predicate NearBaseline(st: State, c: DrawCmd) {
    && c.Text? && |c.s| == 1
    && -st.charW - 1 <= c.x <= st.width
    && st.baseline - 4 <= c.y <= st.baseline + 4
  }

  /** Every command of a copy is near the baseline. */
  lemma {:induction false} CopyNearBaseline(st: State, tx: int, n: nat)
    requires n <= |st.scrollText|
    ensures forall c :: c in CopyCmds(st, tx, n) ==> NearBaseline(st, c)
    decreases n
  {
    if n > 0 {
      CopyNearBaseline(st, tx, n - 1);
      CharNearBaseline(st, tx, n - 1);
    }
  }

  lemma CharNearBaseline(st: State, tx: int, i: nat)
    requires i < |st.scrollText|
    ensures forall c :: c in CharCmds(st, tx, i) ==> NearBaseline(st, c)
  {
    SinTable();
    Marquee.OutlineNear([st.scrollText[i]], tx + i * st.charW, st.baseline + Marquee.Wave(Sin, i, st.phase));
  }

  lemma BodyPaints(st: State)
    ensures forall c :: c in BarCmds(st) + CopyIf(st, 0) + CopyIf(st, 1) ==> Paints(c)
  {
    CopyNearBaseline(st, st.x, |st.scrollText|);
    CopyNearBaseline(st, st.x + st.textPx, |st.scrollText|);
  }

  /** A frame clears first, flushes last and only paints in between. */
  lemma FrameShape(st: State)
    ensures WellFramed(FrameCmds(st))
  {
    var c0 := CopyIf(st, 0);
    var c1 := CopyIf(st, 1);
    BodyPaints(st);
    Framed(BarCmds(st) + c0 + c1);
    ConcatAssoc([Fill(0)], BarCmds(st), c0);
    ConcatAssoc([Fill(0)], BarCmds(st) + c0, c1);
  }

  // ------------------------------------------------------------- advancing

  /** The state update of `draw_step`: x moves left by the speed and, on
      reaching `-text_px` or beyond, jumps forward one text width; the
      phase advances every frame, modulo 64; nothing else changes. */
  function Advance(st: State): (r: State)
    ensures r == st.(x := r.x, phase := r.phase)
    ensures r.x == (if st.x - st.speedPx <= -st.textPx then st.x - st.speedPx + st.textPx else st.x - st.speedPx)
    ensures 0 <= r.phase < 64 && r.phase == (st.phase + 1) % 64
  {
    var x := st.x - st.speedPx;
    st.(x := if x <= -st.textPx then x + st.textPx else x, phase := (st.phase + 1) % 64)
  }

  /** The scroll window: `-text_px < x <= W`. */
  predicate InWindow(st: State) {
    -st.textPx < st.x <= st.width
  }

  /** With a speed between 1 and the text width on a screen of non-negative
      width, the window is kept. */
  lemma AdvanceWindow(st: State)
    requires 1 <= st.speedPx <= st.textPx && st.width >= 0
    requires InWindow(st)
    ensures InWindow(Advance(st))
  {
  }

  /** The state after `k` calls. */
  function Run(st: State, k: nat): State
    decreases k
  {
    if k == 0 then st else Advance(Run(st, k - 1))
  }

  /** Everything but x and the phase is the same in both states. */
  predicate SameSetup(a: State, b: State) {
    && a.scrollText == b.scrollText && a.charW == b.charW && a.textPx == b.textPx
    && a.baseline == b.baseline && a.speedPx == b.speedPx && a.drawBars == b.drawBars
    && a.barMargin == b.barMargin && a.width == b.width && a.height == b.height
  }

  /** Over any number of calls only x and the phase change, the phase
      (starting in 0 .. 63) is the start phase plus the number of calls
      modulo 64, and (for a speed up to the text width) x stays in the
      window. */
  lemma {:induction false} RunWindow(st: State, k: nat)
    requires 1 <= st.speedPx <= st.textPx && st.width >= 0
    requires InWindow(st) && 0 <= st.phase < 64
    ensures var r := Run(st, k);
      && SameSetup(st, r)
      && r.phase == (st.phase + k) % 64
      && InWindow(r)
    decreases k
  {
    if k > 0 {
      RunWindow(st, k - 1);
      var p := Run(st, k - 1);
      AdvanceWindow(p);
      PhaseStep(st.phase + k - 1);
      assert Run(st, k) == Advance(p);
    }
  }

  lemma PhaseStep(a: int)
    ensures (a % 64 + 1) % 64 == (a + 1) % 64
  {
  }

  /** A fresh state with a positive speed no wider than the text, on a
      screen of non-negative width, scrolls inside the window forever. */
  lemma InitialWindow(width: int, height: int, message: string, speedPx: int, gapChars: int, k: nat)
    requires width >= 0 && 1 <= speedPx <= InitState(width, height, message, speedPx, gapChars).textPx
    ensures var r := Run(InitState(width, height, message, speedPx, gapChars), k);
      -r.textPx < r.x <= width && r.phase == k % 64
  {
    var st := InitState(width, height, message, speedPx, gapChars);
    RunWindow(st, k);
  }

  // --------------------------------------------------------------- drawing

  /** One call: renders the frame of the incoming state, advances x and the
      phase, flushes, and returns the new state. */
  method DrawStep(oled: Surface, st: State) returns (st': State)
    modifies oled
    ensures oled.log == old(oled.log) + FrameCmds(st)
    ensures st' == Advance(st)
  {
    DrawScene(oled, st);
    var x := st.x - st.speedPx;
    if x <= -st.textPx {
      x := x + st.textPx;
    }
    var phase := (st.phase + 1) % 64;
    oled.Show();
    st' := st.(x := x, phase := phase);
  }

  /** Clear, the bars if on, and both copies. */
  method DrawScene(oled: Surface, st: State)
    modifies oled
    ensures oled.log + [Show] == old(oled.log) + FrameCmds(st)
  {
    ghost var log0 := oled.log;
    oled.Fill(0);
    if st.drawBars {
      oled.Line(0, st.barMargin, st.width - 1, st.barMargin, 1);
      oled.Line(0, st.height - st.barMargin - 1, st.width - 1, st.height - st.barMargin - 1, 1);
    }
    ghost var log1 := oled.log;
    assert log1 == log0 + ([Fill(0)] + BarCmds(st));
    DrawCopies(oled, st);
    ghost var c0 := CopyIf(st, 0);
    ghost var c1 := CopyIf(st, 1);
    assert oled.log == log1 + c0 + c1;
    assert FrameCmds(st) == ([Fill(0)] + BarCmds(st)) + c0 + c1 + [Show];
    ConcatAssoc(log0, [Fill(0)] + BarCmds(st), c0);
    ConcatAssoc(log0, [Fill(0)] + BarCmds(st) + c0, c1);
    ConcatAssoc(log0, [Fill(0)] + BarCmds(st) + c0 + c1, [Show]);
  }

  /** Both copies, at x and one text width further right. */
  method DrawCopies(oled: Surface, st: State)
    modifies oled
    ensures oled.log == old(oled.log) + CopyIf(st, 0) + CopyIf(st, 1)
  {
    ghost var log0 := oled.log;
    for k := 0 to 2
      invariant oled.log == log0 + Copies(st, k)
    {
      ghost var done := Copies(st, k);
      DrawCopyIf(oled, st, k);
      ConcatAssoc(log0, done, CopyIf(st, k));
      assert Copies(st, k + 1) == done + CopyIf(st, k);
    }
    assert Copies(st, 1) == CopyIf(st, 0);
  }

  /** Copy `k`, at `x + k * text_px`, when it overlaps the screen. */
  method DrawCopyIf(oled: Surface, st: State, k: int)
    modifies oled
    ensures oled.log == old(oled.log) + CopyIf(st, k)
  {
    var tx := st.x + k * st.textPx;
    if tx < st.width && tx + st.textPx > 0 {
      DrawCopy(oled, st, tx);
    }
  }

  /** One copy, character by character. */
  method DrawCopy(oled: Surface, st: State, tx: int)
    modifies oled
    ensures oled.log == old(oled.log) + CopyCmds(st, tx, |st.scrollText|)
  {
    ghost var log0 := oled.log;
    for i := 0 to |st.scrollText|
      invariant oled.log == log0 + CopyCmds(st, tx, i)
    {
      CopyStep(st, tx, i);
      ghost var done := CopyCmds(st, tx, i);
      ghost var next := CharCmds(st, tx, i);
      DrawChar(oled, st, tx, i);
      ConcatAssoc(log0, done, next);
    }
  }

  /** One character: the eight colour-0 neighbours, then colour 1 at the
      cell raised or lowered by the wave, when the cell is visible. */
  method DrawChar(oled: Surface, st: State, tx: int, i: nat)
    requires i < |st.scrollText|
    modifies oled
    ensures oled.log == old(oled.log) + CharCmds(st, tx, i)
  {
    var cx := tx + i * st.charW;
    if -st.charW <= cx < st.width {
      var wy := Marquee.Wave(Sin, i, st.phase);
      Marquee.DrawOutlinedText(oled, [st.scrollText[i]], cx, st.baseline + wy);
    }
  }
}
