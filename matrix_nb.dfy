/** The non-blocking matrix-rain screensaver: `init_state` builds the
    columns and the generator word from a seed, and each `draw_step` call
    renders one frame, updating the columns in place and returning the new
    generator word. The per-column step is the one in `Rain`; here the
    sizes come from the display and the word is threaded by value. */
module MatrixNb {
  import opened Common
  import opened Display
  import opened Xorshift
  import opened Rain

  /** The number of 4-pixel lanes of a display `width` pixels wide; a
      negative width gives an empty range, hence no lanes. */
  function Lanes(width: int): (n: nat)
    ensures n * 4 <= Max(0, width) < n * 4 + 4
  {
    if width < 0 then 0 else width / 4
  }

  /** The first generator word: the seed xor 0x5EED, masked to 32 bits.
      Masking commutes with xor, so only the seed's low 32 bits matter and
      the seed is taken as that word. */
  function StartWord(seed: bv32): bv32 {
    seed ^ 0x5EED
  }

  /** One column of `init_state`: four draws giving, in this order, its
      length, speed, gap and (negated) start. */
  method Spawn(s: bv32, height: int) returns (c: Column, s': bv32)
    requires height > 0
    ensures c == Spawned(s, 0, height) && s' == Draws(s, 4)
  {
    s' := Rng32(s);
    var length := 6 + Value(s') % 18;
    s' := Rng32(s');
    var speed := 1 + Value(s') % 3;
    s' := Rng32(s');
    var gap := 6 + Value(s') % 18;
    s' := Rng32(s');
    var start := -(Value(s') % height);
    c := Column(start, length, speed, gap);
  }

  /** Builds the columns left to right, four draws per column in the order
      length, speed, gap, start, and returns them with the word left after
      the last draw. */
  method InitState(width: int, height: int, seed: bv32) returns (cols: array<Column>, s: bv32)
    requires height > 0
    ensures fresh(cols)
    ensures cols[..] == InitialColumns(StartWord(seed), Lanes(width), height)
    ensures s == Draws(StartWord(seed), 4 * Lanes(width))
  {
    var n := Lanes(width);
    var acc: seq<Column> := [];
    s := StartWord(seed);
    ghost var s0 := s;
    var k := 0;
    while k < n
      invariant 0 <= k <= n && |acc| == k
      invariant s == Draws(s0, 4 * k)
      invariant forall j :: 0 <= j < k ==> acc[j] == Spawned(s0, j, height)
    {
      SpawnedAfter(s0, k, height);
      DrawsAdd(s0, 4 * k, 4);
      var c;
      c, s := Spawn(s, height);
      acc := acc + [c];
      k := k + 1;
    }
    assert acc == InitialColumns(s0, n, height);
    cols := new Column[n](j requires 0 <= j < n => acc[j]);
  }

  /** The commands of one frame of `n` lanes. */
  function FrameCmds(cols: seq<Column>, n: nat, s: bv32, height: int, bottomY: int): seq<DrawCmd>
    requires n <= |cols| && height >= 2
  {
    [Fill(0)] + Sweep(cols, n, s, height, bottomY).0 + [Show]
  }

  /** Renders one frame: clear, every lane left to right (each column
      updated in place in its own iteration), flush. Returns the new word. */
  method DrawStep(oled: Surface, cols: array<Column>, s: bv32, bottomGuard: int) returns (s': bv32)
    requires oled.height >= 2
    modifies oled, cols
    ensures var sw := Sweep(old(cols[..]), cols.Length, s, oled.height, oled.height - bottomGuard);
      && oled.log == old(oled.log) + FrameCmds(old(cols[..]), cols.Length, s, oled.height, oled.height - bottomGuard)
      && cols[..] == sw.1 && s' == sw.2
  {
    var height := oled.height;
    var bottomY := height - bottomGuard;
    ghost var log0 := oled.log;
    ghost var cols0 := cols[..];
    ghost var sw := Sweep(cols0, cols.Length, s, height, bottomY);
    oled.Fill(0);
    s' := DrawLanes(oled, cols, s, height, bottomY);
    oled.Show();
    assert oled.log == log0 + [DrawCmd.Fill(0)] + sw.0 + [DrawCmd.Show];
    ConcatAssoc(log0, [DrawCmd.Fill(0)] + sw.0, [DrawCmd.Show]);
    ConcatAssoc(log0, [DrawCmd.Fill(0)], sw.0);
  }

  /** Draws and advances every lane left to right, in place. */
  method DrawLanes(oled: Surface, cols: array<Column>, s: bv32, height: int, bottomY: int) returns (s': bv32)
    requires height >= 2
    modifies oled, cols
    ensures var sw := Sweep(old(cols[..]), cols.Length, s, height, bottomY);
      oled.log == old(oled.log) + sw.0 && cols[..] == sw.1 && s' == sw.2
  {
    ghost var log1 := oled.log;
    ghost var cols0 := cols[..];
    s' := s;
    for i := 0 to cols.Length
      invariant Swept(oled, cols, i, cols0, s, log1, s', height, bottomY)
    {
      s' := StepLane(oled, cols, i, s', height, bottomY, cols0, s, log1);
    }
    assert cols0[cols.Length..] == [];
  }

  /** After the first `i` lanes of a frame that started from columns
      `cols0`, word `s0` and log `log0`: the log holds their commands, the
      first `i` columns are advanced, the rest untouched, and `s` is the
      word after their draws. */
  ghost predicate Swept(oled: Surface, cols: array<Column>, i: nat, cols0: seq<Column>, s0: bv32,
                        log0: seq<DrawCmd>, s: bv32, height: int, bottomY: int)
    reads oled, cols
  {
    && i <= |cols0| == cols.Length && height >= 2
    && var sw := Sweep(cols0, i, s0, height, bottomY);
      oled.log == log0 + sw.0 && cols[..] == sw.1 + cols0[i..] && s == sw.2
  }

  /** The body of the lane loop: draw lane `i` and store its column. */
  method StepLane(oled: Surface, cols: array<Column>, i: int, s: bv32, height: int, bottomY: int,
                  ghost cols0: seq<Column>, ghost s0: bv32, ghost log0: seq<DrawCmd>) returns (s': bv32)
    requires 0 <= i < cols.Length && Swept(oled, cols, i, cols0, s0, log0, s, height, bottomY)
    modifies oled, cols
    ensures Swept(oled, cols, i + 1, cols0, s0, log0, s', height, bottomY)
  {
    ghost var p := Sweep(cols0, i, s0, height, bottomY);
    assert cols[i] == cols0[i] by { assert cols[..][i] == (p.1 + cols0[i..])[i]; }
    var c;
    c, s' := StepColumnAt(oled, i, cols[i], s, height, bottomY);
    ConcatAssoc(log0, p.0, StepColumn(i, cols0[i], p.2, height, bottomY).0);
    ghost var before := cols[..];
    cols[i] := c;
    assert cols[..] == before[i := c];
    SpliceColumn(p.1, c, cols0[i..]);
    assert cols0[i..][1..] == cols0[i + 1..];
  }

  /** Draws lane `i` (the clipped head, then the trail) and returns its
      column advanced by one frame, with the new word. */
  method StepColumnAt(oled: Surface, i: int, c: Column, s: bv32, height: int, bottomY: int)
    returns (c': Column, s': bv32)
    requires height >= 2
    modifies oled
    ensures var r := StepColumn(i, c, s, height, bottomY);
      oled.log == old(oled.log) + r.0 && c' == r.1 && s' == r.2
  {
    var x := i * 4;
    ghost var log0 := oled.log;
    DrawHead(oled, x, c.headY, bottomY);
    var maxTrailEnd := if c.headY + c.length >= bottomY - 1 then bottomY - 2 else c.headY + c.length;
    s' := DrawTrail(oled, x, c.headY + 3, maxTrailEnd, s);
    ConcatAssoc(log0, HeadCmds(x, c.headY, bottomY), Trail(x, c.headY + 3, maxTrailEnd, s).0);
    c', s' := AdvanceColumn(c, s', height, bottomY);
  }

  /** Moves the head down by its speed, recycling the column once it has
      fallen past the band plus its gap. */
  method AdvanceColumn(c: Column, s: bv32, height: int, bottomY: int) returns (c': Column, s': bv32)
    requires height >= 2
    ensures (c', s') == Advance(c, s, height, bottomY)
  {
    var headY, length, speed, gap := c.headY, c.length, c.speed, c.gap;
    headY := headY + speed;
    if headY - length > bottomY - 2 + gap {
      c', s' := Recycle(s, height);
    } else {
      c', s' := Column(headY, length, speed, gap), s;
    }
  }

  /** A recycled column from four draws: head, length, speed, gap. */
  method Recycle(s: bv32, height: int) returns (c: Column, s': bv32)
    requires height >= 2
    ensures (c, s') == Respawn(s, height)
  {
    s' := Rng32(s);
    var headY := -Pick(s', height / 2) - 8;
    s' := Rng32(s');
    var length := 6 + Value(s') % 18;
    s' := Rng32(s');
    var speed := 1 + Value(s') % 3;
    s' := Rng32(s');
    var gap := 6 + Value(s') % 18;
    c := Column(headY, length, speed, gap);
  }

  /** The trail rows `y0 .. trailEnd` of lane `x`, one draw per row. */
  method DrawTrail(oled: Surface, x: int, y0: int, trailEnd: int, s: bv32) returns (s': bv32)
    modifies oled
    ensures var t := Trail(x, y0, trailEnd, s);
      oled.log == old(oled.log) + t.0 && s' == t.1
  {
    ghost var t := Trail(x, y0, trailEnd, s);
    ghost var log0 := oled.log;
    s' := s;
    var y := y0;
    while y <= trailEnd
      invariant log0 + t.0 == oled.log + Trail(x, y, trailEnd, s').0
      invariant t.1 == Trail(x, y, trailEnd, s').1
      decreases trailEnd - y
    {
      ghost var before := oled.log;
      ghost var rest := Trail(x, y + 1, trailEnd, Rng32(s'));
      assert Trail(x, y, trailEnd, s') == (RowCmds(x, y, Rng32(s'), trailEnd) + rest.0, rest.1);
      s' := Rng32(s');
      DrawRow(oled, x, y, s', trailEnd);
      ConcatAssoc(before, RowCmds(x, y, s', trailEnd), rest.0);
      y := y + 1;
    }
  }

  /** A frame clears first, flushes last and only paints in between, and
      its painting stays in the lanes' columns and above the bottom band. */
  lemma FrameShape(cols: seq<Column>, n: nat, s: bv32, height: int, bottomY: int)
    requires n <= |cols| && height >= 2 && bottomY >= 2
    ensures WellFramed(FrameCmds(cols, n, s, height, bottomY))
    ensures AllInLane(Sweep(cols, n, s, height, bottomY).0, 1, 4 * n - 2, bottomY)
  {
    SweepInLanes(cols, n, s, height, bottomY);
    SweepPaints(cols, n, s, height, bottomY);
    Framed(Sweep(cols, n, s, height, bottomY).0);
  }

  /** The state after `k` calls of `draw_step`. */
  ghost function Run(cols: seq<Column>, s: bv32, k: nat, height: int, bottomY: int): (r: (seq<Column>, bv32))
    requires height >= 2
    ensures |r.0| == |cols|
    decreases k
  {
    if k == 0 then (cols, s)
    else
      var p := Run(cols, s, k - 1, height, bottomY);
      var sw := Sweep(p.0, |p.0|, p.1, height, bottomY);
      (sw.1, sw.2)
  }

  /** One frame keeps every column's statistics in range; a column that is
      not recycled falls by its speed, so strictly, and a recycled one
      restarts above the screen. */
  lemma StepKeepsRanges(cols: seq<Column>, s: bv32, height: int, bottomY: int)
    requires height >= 2
    requires forall j :: 0 <= j < |cols| ==> InRanges(cols[j])
    ensures var next := Sweep(cols, |cols|, s, height, bottomY).1;
      forall j :: 0 <= j < |cols| ==>
        && InRanges(next[j])
        && (!Recycles(cols[j], bottomY) ==> next[j].headY > cols[j].headY)
        && (Recycles(cols[j], bottomY) ==> -(height / 2) - 7 <= next[j].headY <= -8)
  {
    SweepAdvances(cols, |cols|, s, height, bottomY);
  }

  /** Across any number of frames the column count is unchanged and every
      column keeps its statistics in range. */
  lemma {:induction false} RunKeepsRanges(cols: seq<Column>, s: bv32, k: nat, height: int, bottomY: int)
    requires height >= 2
    requires forall j :: 0 <= j < |cols| ==> InRanges(cols[j])
    ensures forall j :: 0 <= j < |cols| ==> InRanges(Run(cols, s, k, height, bottomY).0[j])
    decreases k
  {
    if k > 0 {
      RunKeepsRanges(cols, s, k - 1, height, bottomY);
      var p := Run(cols, s, k - 1, height, bottomY);
      StepKeepsRanges(p.0, p.1, height, bottomY);
    }
  }

  /** The seed 0x5EED gives the all-zero word, which the generator never
      leaves: every column starts at the top with the smallest statistics,
      and every later frame takes its draws from a zero word too. */
  lemma StuckSeed(width: int, height: int)
    requires height > 0
    ensures StartWord(0x5EED) == 0
    ensures forall j :: 0 <= j < Lanes(width) ==> InitialColumns(0, Lanes(width), height)[j] == Column(0, 6, 1, 6)
  {
    forall j | 0 <= j < Lanes(width)
      ensures InitialColumns(0, Lanes(width), height)[j] == Column(0, 6, 1, 6)
    {
      DrawsFromZero(4 * j + 1);
      DrawsFromZero(4 * j + 2);
      DrawsFromZero(4 * j + 3);
      DrawsFromZero(4 * j + 4);
    }
  }

  /** From the zero word a frame leaves the word at zero. */
  lemma ZeroWordStays(cols: seq<Column>, height: int, bottomY: int)
    requires height >= 2
    ensures Sweep(cols, |cols|, 0, height, bottomY).2 == 0
  {
    SweepDraws(cols, |cols|, 0, height, bottomY);
    DrawsFromZero(FrameDraws(cols, |cols|, bottomY));
  }
}
