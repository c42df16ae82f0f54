/** The blocking matrix-rain screensaver for a 128x64 display: a stateful
    xorshift generator object, 32 columns updated in place, and one frame
    of the endless loop (after its pacing and exit-pin checks) as a method
    on the screensaver object. */
module Matrix {
  import opened Common
  import opened Display
  import opened Xorshift
  import opened Rain

  const W: int := 128
  const H: int := 64
  const Cols: int := 32        // W // 4
  const BottomY: int := 56     // H - 8, the top row of the username band
  const BlinkMs: int := 700

  /** The 32-bit word a seed is reduced to: zero is replaced by one, any
      other seed is masked to its low 32 bits. */
  function SeedWord(seed: int): bv32 {
    if seed == 0 then 1 else (seed % Mod32) as bv32
  }

  /** The generator starts from the zero word, where it stays, exactly
      when the seed is a non-zero multiple of 2^32. */
  lemma SeedWordZero(seed: int)
    ensures SeedWord(seed) == 0 <==> seed != 0 && seed % Mod32 == 0
  {
  }

  /** The tiny generator object: its state is the last value drawn. */
  class Rng {
    var s: bv32

    constructor (seed: int)
      ensures s == SeedWord(seed)
    {
      s := SeedWord(seed);
    }

    /** One xorshift round: the new state, which is also the value drawn. */
    method Rand() returns (r: bv32)
      modifies this
      ensures s == Rng32(old(s)) && r == s
    {
      s := Rng32(s);
      r := s;
    }

    /** A draw reduced modulo `n`, in `[0, n)`. */
    method Rint(n: int) returns (r: int)
      requires n > 0
      modifies this
      ensures s == Rng32(old(s)) && r == Pick(s, n)
      ensures 0 <= r < n
    {
      var x := Rand();
      r := Value(x) % n;
    }
  }

  /** The frame interval in milliseconds: `1000 // _clamp(fps, 10, 60)`. */
  function FrameTime(fps: int): (ms: int)
    ensures 16 <= ms <= 100
  {
    FrameInterval(fps, 10, 60)
  }

  /** The 3-pixel cursor is lit for 700 ms, then dark for 700 ms. */
  predicate CursorOn(elapsed: int) {
    (elapsed / BlinkMs) % 2 == 0
  }

  /** The username label at the band row, followed while the cursor is on
      by a vertical cursor one pixel right of the name, but only when that
      column is left of the last display column. No label at all for an
      empty name. */
  function LabelCmds(uname: string, tx: int, elapsed: int): (r: seq<DrawCmd>)
    ensures r == [] <==> uname == []
    ensures r != [] ==> r[0] == Text(uname, tx, BottomY, 1)
    ensures |r| == 2 <==> uname != [] && CursorOn(elapsed) && tx + 8 * |uname| + 1 < W - 1
    ensures |r| == 2 ==> r[1] == Line(tx + 8 * |uname| + 1, BottomY, tx + 8 * |uname| + 1, BottomY + 6, 1)
    ensures |r| <= 2
  {
    if uname == [] then []
    else
      var cx := tx + 8 * |uname| + 1;
      [Text(uname, tx, BottomY, 1)]
      + (if CursorOn(elapsed) && cx < W - 1 then [Line(cx, BottomY, cx, BottomY + 6, 1)] else [])
  }

  /** Over two consecutive 700 ms windows the cursor is drawn in exactly
      one of them. */
  lemma CursorBlinks(elapsed: int)
    ensures CursorOn(elapsed) != CursorOn(elapsed + BlinkMs)
  {
    assert (elapsed + BlinkMs) / BlinkMs == elapsed / BlinkMs + 1;
  }

  /** The commands of one frame: clear, the 32 columns, the label, flush. */
  function FrameCmds(cols: seq<Column>, s: bv32, uname: string, tx: int, elapsed: int): seq<DrawCmd>
    requires |cols| >= Cols
  {
    [Fill(0)] + Sweep(cols, Cols, s, H, BottomY).0 + LabelCmds(uname, tx, elapsed) + [Show]
  }

  /** A frame clears first, flushes last and only paints in between; the
      rain stays in the 128 display columns and above row 55, so it never
      touches the label band, which starts at row 56. */
  lemma FrameShape(cols: seq<Column>, s: bv32, uname: string, tx: int, elapsed: int)
    requires |cols| >= Cols
    ensures WellFramed(FrameCmds(cols, s, uname, tx, elapsed))
    ensures forall cmd :: cmd in Sweep(cols, Cols, s, H, BottomY).0 ==>
      InLaneAboveBand(cmd, 1, W - 2, BottomY)
  {
    var rain := Sweep(cols, Cols, s, H, BottomY).0;
    var lbl := LabelCmds(uname, tx, elapsed);
    SweepInLanes(cols, Cols, s, H, BottomY);
    SweepPaints(cols, Cols, s, H, BottomY);
    LabelPaints(uname, tx, elapsed);
    PaintsConcat(rain, lbl);
    Framed(rain + lbl);
    ConcatAssoc([Fill(0)], rain, lbl);
  }

  lemma LabelPaints(uname: string, tx: int, elapsed: int)
    ensures forall c :: c in LabelCmds(uname, tx, elapsed) ==> Paints(c)
  {
  }

  class MatrixScreensaver {
    const rng: Rng
    const heads: array<Column>
    const uname: string
    const tx: int
    const frameTime: int

    /** 32 columns, each with its statistics in range. */
    predicate Valid()
      reads heads
    {
      heads.Length == Cols && forall j :: 0 <= j < Cols ==> InRanges(heads[j])
    }

    /** Setting up: the generator from the seed, 32 columns from its first
        128 draws, the stripped username and its centred x, and the frame
        interval. */
    constructor (seed: int, username: string, fps: int)
      ensures Valid() && fresh(rng) && fresh(heads)
      ensures heads[..] == InitialColumns(SeedWord(seed), Cols, H)
      ensures rng.s == Draws(SeedWord(seed), 4 * Cols)
      ensures uname == Strip(username) && tx == LabelX(uname, W)
      ensures frameTime == FrameTime(fps)
    {
      rng := new Rng(seed);
      heads := new Column[Cols](_ => Column(0, 0, 0, 0));
      uname := Strip(username);
      tx := LabelX(Strip(username), W);
      frameTime := FrameTime(fps);
      new;
      SpawnAll();
    }

    /** Fills the 32 lanes left to right, four draws per column. */
    method SpawnAll()
      requires heads.Length == Cols
      modifies heads, rng
      ensures heads[..] == InitialColumns(old(rng.s), Cols, H)
      ensures rng.s == Draws(old(rng.s), 4 * Cols)
    {
      ghost var s0 := rng.s;
      var c := 0;
      while c < Cols
        invariant 0 <= c <= Cols
        invariant rng.s == Draws(s0, 4 * c)
        invariant forall j :: 0 <= j < c ==> heads[j] == Spawned(s0, j, H)
      {
        SpawnedAfter(s0, c, H);
        DrawsAdd(s0, 4 * c, 4);
        var col := NewColumn();
        heads[c] := col;
        c := c + 1;
      }
      assert heads[..] == InitialColumns(s0, Cols, H);
    }

    /** A start-up column from four draws: length, speed, gap, start. */
    method NewColumn() returns (c: Column)
      modifies rng
      ensures c == Spawned(old(rng.s), 0, H) && rng.s == Draws(old(rng.s), 4)
    {
      var length := rng.Rint(18);
      length := 6 + length;
      var speed := rng.Rint(3);
      speed := 1 + speed;
      var gap := rng.Rint(18);
      gap := 6 + gap;
      var start := rng.Rint(H);
      start := -start;
      c := Column(start, length, speed, gap);
    }

    /** One frame: clear, draw and advance every column, draw the label,
        flush. `elapsed` is the time since start-up in milliseconds. */
    method Frame(disp: Surface, elapsed: int)
      requires Valid()
      modifies disp, rng, heads
      ensures Valid()
      ensures disp.log == old(disp.log) + FrameCmds(old(heads[..]), old(rng.s), uname, tx, elapsed)
      ensures var sw := Sweep(old(heads[..]), Cols, old(rng.s), H, BottomY);
        heads[..] == sw.1 && rng.s == sw.2
    {
      ghost var log0 := disp.log;
      disp.Fill(0);
      ghost var cols0 := heads[..];
      assert cols0 == old(heads[..]);
      ghost var sw := Sweep(cols0, Cols, rng.s, H, BottomY);
      ghost var lbl := LabelCmds(uname, tx, elapsed);
      DrawColumns(disp);
      label rain:
      DrawLabel(disp, elapsed);
      disp.Show();
      assert unchanged@rain(heads);
      AppendParts(log0, [DrawCmd.Fill(0)], sw.0, lbl, [DrawCmd.Show]);
    }

    /** Draws and advances the 32 columns left to right, in place. */
    method DrawColumns(disp: Surface)
      requires Valid()
      modifies disp, rng, heads
      ensures Valid()
      ensures var sw := Sweep(old(heads[..]), Cols, old(rng.s), H, BottomY);
        disp.log == old(disp.log) + sw.0 && heads[..] == sw.1 && rng.s == sw.2
    {
      ghost var cols0 := heads[..];
      ghost var s0 := rng.s;
      ghost var log0 := disp.log;
      var i := 0;
      while i < Cols
        invariant 0 <= i <= Cols
        invariant Valid()
        invariant Swept(disp, i, cols0, s0, log0)
      {
        DrawLane(disp, i, cols0, s0, log0);
        i := i + 1;
      }
      assert cols0[Cols..] == [];
    }

    /** After the first `i` lanes of a frame that started from columns
        `cols0`, state `s0` and log `log0`: the log holds their commands,
        the first `i` columns are advanced and the rest untouched. */
    ghost predicate Swept(disp: Surface, i: nat, cols0: seq<Column>, s0: bv32, log0: seq<DrawCmd>)
      reads disp, rng, heads
    {
      && i <= |cols0| == heads.Length
      && var sw := Sweep(cols0, i, s0, H, BottomY);
        disp.log == log0 + sw.0 && heads[..] == sw.1 + cols0[i..] && rng.s == sw.2
    }

    /** The body of the lane loop: draw lane `i` and store its column. */
    method DrawLane(disp: Surface, i: int, ghost cols0: seq<Column>, ghost s0: bv32, ghost log0: seq<DrawCmd>)
      requires 0 <= i < Cols && Valid() && Swept(disp, i, cols0, s0, log0)
      modifies disp, rng, heads
      ensures Valid() && Swept(disp, i + 1, cols0, s0, log0)
    {
      ghost var p := Sweep(cols0, i, s0, H, BottomY);
      assert heads[i] == cols0[i] by { assert heads[..][i] == (p.1 + cols0[i..])[i]; }
      var c := DrawColumn(disp, i, heads[i]);
      ConcatAssoc(log0, p.0, StepColumn(i, cols0[i], p.2, H, BottomY).0);
      ghost var before := heads[..];
      heads[i] := c;
      assert heads[..] == before[i := c];
      SpliceColumn(p.1, c, cols0[i..]);
      assert cols0[i..][1..] == cols0[i + 1..];
    }

    /** The username and, while it blinks on, the cursor after it. */
    method DrawLabel(disp: Surface, elapsed: int)
      modifies disp
      ensures disp.log == old(disp.log) + LabelCmds(uname, tx, elapsed)
    {
      if uname != [] {
        disp.Text(uname, tx, BottomY, 1);
        if (elapsed / BlinkMs) % 2 == 0 {
          var cx := tx + |uname| * 8 + 1;
          if cx < W - 1 {
            disp.Line(cx, BottomY, cx, BottomY + 6, 1);
          }
        }
      }
    }

    /** Draws the column in lane `i` (the clipped head, then the trail) and
        returns it advanced by one frame. */
    method DrawColumn(disp: Surface, i: int, c: Column) returns (c': Column)
      modifies disp, rng
      ensures var r := StepColumn(i, c, old(rng.s), H, BottomY);
        disp.log == old(disp.log) + r.0 && c' == r.1 && rng.s == r.2
    {
      var x := i * 4;
      var headY, length, speed, gap := c.headY, c.length, c.speed, c.gap;
      ghost var log0 := disp.log;
      DrawHead(disp, x, headY, BottomY);
      ghost var afterHead := disp.log;
      var maxTrailEnd := Min(BottomY - 2, headY + length);
      DrawTrail(disp, x, headY + 3, maxTrailEnd);
      ConcatAssoc(log0, HeadCmds(x, headY, BottomY), Trail(x, headY + 3, maxTrailEnd, old(rng.s)).0);
      headY := headY + speed;
      if headY - length > BottomY - 2 + gap {
        c' := Recycle();
      } else {
        c' := Column(headY, length, speed, gap);
      }
    }

    /** A recycled column: head, length, speed and gap from four draws. */
    method Recycle() returns (c: Column)
      modifies rng
      ensures (c, rng.s) == Respawn(old(rng.s), H)
    {
      var r := rng.Rint(H / 2);
      var headY := -r - 8;
      var length := rng.Rint(18);
      length := 6 + length;
      var speed := rng.Rint(3);
      speed := 1 + speed;
      var gap := rng.Rint(18);
      gap := 6 + gap;
      c := Column(headY, length, speed, gap);
    }

    /** The trail rows `y0 .. trailEnd` of lane `x`, one draw per row. */
    method DrawTrail(disp: Surface, x: int, y0: int, trailEnd: int)
      modifies disp, rng
      ensures var t := Trail(x, y0, trailEnd, old(rng.s));
        disp.log == old(disp.log) + t.0 && rng.s == t.1
    {
      ghost var t := Trail(x, y0, trailEnd, rng.s);
      ghost var log0 := disp.log;
      var y := y0;
      while y <= trailEnd
        invariant log0 + t.0 == disp.log + Trail(x, y, trailEnd, rng.s).0
        invariant t.1 == Trail(x, y, trailEnd, rng.s).1
        decreases trailEnd - y
      {
        ghost var before := disp.log;
        ghost var rest := Trail(x, y + 1, trailEnd, Rng32(rng.s));
        assert Trail(x, y, trailEnd, rng.s) == (RowCmds(x, y, Rng32(rng.s), trailEnd) + rest.0, rest.1);
        var r := rng.Rand();
        DrawRow(disp, x, y, r, trailEnd);
        ConcatAssoc(before, RowCmds(x, y, r, trailEnd), rest.0);
        y := y + 1;
      }
    }
  }
}
