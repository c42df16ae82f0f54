/** The matrix-rain column simulation shared by the blocking and the
    non-blocking rain screensavers: the display is split into 4-pixel lanes,
    each owning one column (head y, trail length, fall speed, gap). Both
    variants run exactly this per-column step; they differ only in where
    the generator state lives and which sizes they use. */
module Rain {
  import opened Common
  import opened Display
  import opened Xorshift

  /** `[head_y, length, speed, gap]`, one per lane. */
  datatype Column = Column(headY: int, length: int, speed: int, gap: int)

  /** The ranges column statistics are drawn from. */
  predicate InRanges(c: Column) {
    6 <= c.length <= 23 && 1 <= c.speed <= 3 && 6 <= c.gap <= 23
  }

  /** A draw reduced modulo `n`, as `rint(n)` and `s % n` do. */
  function Pick(w: bv32, n: int): (r: int)
    requires n > 0
    ensures 0 <= r < n
  {
    Value(w) % n
  }

  /** Column `i` of a fresh rain state: draws 4i+1 .. 4i+4 after state `s0`
      give, in this order, its length, speed, gap and (negated) start. */
  function Spawned(s0: bv32, i: nat, height: int): (c: Column)
    requires height > 0
    ensures InRanges(c) && -height < c.headY <= 0
  {
    Column(-Pick(Draws(s0, 4 * i + 4), height),
           6 + Pick(Draws(s0, 4 * i + 1), 18),
           1 + Pick(Draws(s0, 4 * i + 2), 3),
           6 + Pick(Draws(s0, 4 * i + 3), 18))
  }

  /** Column `i` is the first column spawned from the state after the
      4i draws taken by the columns before it. */
  lemma SpawnedAfter(s0: bv32, i: nat, height: int)
    requires height > 0
    ensures Spawned(Draws(s0, 4 * i), 0, height) == Spawned(s0, i, height)
  {
    DrawsAdd(s0, 4 * i, 1);
    DrawsAdd(s0, 4 * i, 2);
    DrawsAdd(s0, 4 * i, 3);
    DrawsAdd(s0, 4 * i, 4);
  }

  /** The `n` columns made at start-up from state `s0`. */
  function InitialColumns(s0: bv32, n: nat, height: int): (cols: seq<Column>)
    requires height > 0
    ensures |cols| == n
    ensures forall j :: 0 <= j < n ==> InRanges(cols[j]) && -height < cols[j].headY <= 0
  {
    seq(n, j requires 0 <= j < n => Spawned(s0, j, height))
  }

  /** A recycled column: four fresh draws give, in this order, the head
      (above the screen by 8 to height/2 + 7 pixels), length, speed, gap. */
  function Respawn(s: bv32, height: int): (r: (Column, bv32))
    requires height >= 2
    ensures InRanges(r.0)
    ensures -(height / 2) - 7 <= r.0.headY <= -8
    ensures r.1 == Draws(s, 4)
  {
    var s1 := Rng32(s);
    var s2 := Rng32(s1);
    var s3 := Rng32(s2);
    var s4 := Rng32(s3);
    (Column(-Pick(s1, height / 2) - 8, 6 + Pick(s2, 18), 1 + Pick(s3, 3), 6 + Pick(s4, 18)), s4)
  }

  /** The 3-pixel head of lane `x`, clipped to the rows `0 .. bottomY - 2`
      above the bottom text band: a vertical line and one pixel to its right
      at the lower end. The segment is the overlap of the head with that
      band, and it is drawn exactly when the overlap is non-empty. */
  function HeadCmds(x: int, headY: int, bottomY: int): (r: seq<DrawCmd>)
    ensures r != [] <==> headY + 2 >= 0 && headY < bottomY - 1
    ensures r != [] ==>
      && |r| == 2
      && r[0].Line? && r[0].x0 == x + 1 && r[0].x1 == x + 1 && r[0].color == 1
      && r[1] == Pixel(x + 2, r[0].y1, 1)
      && 0 <= r[0].y0 && headY <= r[0].y0 && (r[0].y0 == 0 || r[0].y0 == headY)
      && r[0].y1 <= bottomY - 2 && r[0].y1 <= headY + 2
      && (r[0].y1 == bottomY - 2 || r[0].y1 == headY + 2)
      && (bottomY >= 2 ==> r[0].y0 <= r[0].y1)
  {
    if headY + 2 >= 0 && headY < bottomY - 1 then
      var y0 := Max(0, headY);
      var y1 := Min(bottomY - 2, headY + 2);
      [Line(x + 1, y0, x + 1, y1, 1), Pixel(x + 2, y1, 1)]
    else
      []
  }

  /** The last trail row: the head plus its length, but never lower than
      the row just above the bottom text band. */
  function TrailEnd(c: Column, bottomY: int): (e: int)
    ensures e <= bottomY - 2 && e <= c.headY + c.length
    ensures e == bottomY - 2 || e == c.headY + c.length
  {
    Min(bottomY - 2, c.headY + c.length)
  }

  /** The pixels of trail row `y` of lane `x` for draw `r`: the left pixel
      unless both low bits are clear (about 75%), the right pixel on bit 3,
      and on bit 6 a link pixel one row down (left or right by bit 7), but
      only while that row is still within the trail. */
  function RowCmds(x: int, y: int, r: bv32, trailEnd: int): seq<DrawCmd> {
    (if r & 0x3 != 0 then [Pixel(x + 1, y, 1)] else [])
    + (if r & 0x8 != 0 then [Pixel(x + 2, y, 1)] else [])
    + (if r & 0x40 != 0 && y + 1 <= trailEnd then [Pixel(if r & 0x80 != 0 then x + 2 else x + 1, y + 1, 1)] else [])
  }

  /** Rows `y .. trailEnd` of the trail, one draw per row, and the state
      after the last draw. */
  function Trail(x: int, y: int, trailEnd: int, s: bv32): (r: (seq<DrawCmd>, bv32))
    decreases trailEnd - y
  {
    if y > trailEnd then ([], s)
    else
      var s1 := Rng32(s);
      var rest := Trail(x, y + 1, trailEnd, s1);
      (RowCmds(x, y, s1, trailEnd) + rest.0, rest.1)
  }

  /** The trail takes exactly one draw per row it covers. */
  lemma {:induction false} TrailDraws(x: int, y: int, trailEnd: int, s: bv32)
    ensures Trail(x, y, trailEnd, s).1 == Draws(s, Max(0, trailEnd - y + 1))
    decreases trailEnd - y
  {
    if y <= trailEnd {
      TrailDraws(x, y + 1, trailEnd, Rng32(s));
      DrawsShift(s, trailEnd - y);
    }
  }

  /** Every trail command is a lit pixel of lane `x` (columns x+1, x+2) on
      a row between `y` and `trailEnd`: the link pixel never goes past the
      end of the trail. */
  lemma {:induction false} TrailPixels(x: int, y: int, trailEnd: int, s: bv32)
    ensures forall c :: c in Trail(x, y, trailEnd, s).0 ==>
      c.Pixel? && c.color == 1 && x + 1 <= c.x <= x + 2 && y <= c.y <= trailEnd
    decreases trailEnd - y
  {
    if y <= trailEnd {
      var rest := Trail(x, y + 1, trailEnd, Rng32(s));
      assert Trail(x, y, trailEnd, s).0 == RowCmds(x, y, Rng32(s), trailEnd) + rest.0;
      TrailPixels(x, y + 1, trailEnd, Rng32(s));
      RowPixels(x, y, Rng32(s), trailEnd);
    }
  }

  /** A trail row lights pixels of lane `x` on its own row or, for the
      link pixel, the next row within the trail. */
  lemma RowPixels(x: int, y: int, r: bv32, trailEnd: int)
    requires y <= trailEnd
    ensures forall c :: c in RowCmds(x, y, r, trailEnd) ==>
      c.Pixel? && c.color == 1 && x + 1 <= c.x <= x + 2 && y <= c.y <= trailEnd
  {
  }

  /** The head has fallen past the bottom band plus its gap. */
  predicate Recycles(c: Column, bottomY: int) {
    c.headY + c.speed - c.length > bottomY - 2 + c.gap
  }

  /** How a column may change in one frame: it keeps its statistics and
      its head moves down by exactly its speed, or it is recycled with a
      head above the screen; either way the statistics stay in range. */
  predicate Successor(c: Column, c': Column, height: int, bottomY: int) {
    && (InRanges(c) ==> InRanges(c'))
    && (if Recycles(c, bottomY) then InRanges(c') && -(height / 2) - 7 <= c'.headY <= -8
        else c' == c.(headY := c.headY + c.speed))
  }

  /** Move the head down by its speed; recycle the column once it has
      fallen past the band plus its gap. */
  function Advance(c: Column, s: bv32, height: int, bottomY: int): (r: (Column, bv32))
    requires height >= 2
    ensures Successor(c, r.0, height, bottomY)
    ensures r.1 == if Recycles(c, bottomY) then Draws(s, 4) else s
  {
    if Recycles(c, bottomY) then Respawn(s, height) else (c.(headY := c.headY + c.speed), s)
  }

  /** Number of draws one column step takes: one per trail row, and four
      more when the column is recycled. */
  function DrawsPerColumn(c: Column, bottomY: int): nat {
    Max(0, TrailEnd(c, bottomY) - c.headY - 2) + (if Recycles(c, bottomY) then 4 else 0)
  }

  /** Painting is confined to the lanes from x = `lo` to x = `hi` and to
      the rows above the band. */
  predicate InLaneAboveBand(c: DrawCmd, lo: int, hi: int, bottomY: int) {
    match c
    case Pixel(px, py, _) => lo <= px <= hi && py <= bottomY - 2
    case Line(x0, y0, x1, y1, _) => lo <= x0 <= hi && lo <= x1 <= hi && y0 <= bottomY - 2 && y1 <= bottomY - 2
    case _ => false
  }

  /** Every command of a list lies in lanes `lo .. hi`, above the band. */
  predicate AllInLane(cmds: seq<DrawCmd>, lo: int, hi: int, bottomY: int) {
    forall cmd :: cmd in cmds ==> InLaneAboveBand(cmd, lo, hi, bottomY)
  }

  lemma AllInLaneConcat(a: seq<DrawCmd>, b: seq<DrawCmd>, lo: int, hi: int, bottomY: int)
    requires bottomY >= 2 ==> AllInLane(a, lo, hi, bottomY) && AllInLane(b, lo, hi, bottomY)
    ensures bottomY >= 2 ==> AllInLane(a + b, lo, hi, bottomY)
  {
  }

  lemma InLaneWiden(c: DrawCmd, lo: int, hi: int, lo': int, hi': int, bottomY: int)
    requires InLaneAboveBand(c, lo, hi, bottomY) && lo' <= lo && hi <= hi'
    ensures InLaneAboveBand(c, lo', hi', bottomY)
  {
  }

  lemma AllInLaneWiden(a: seq<DrawCmd>, lo: int, hi: int, lo': int, hi': int, bottomY: int)
    requires bottomY >= 2 ==> AllInLane(a, lo, hi, bottomY)
    requires lo' <= lo && hi <= hi'
    ensures bottomY >= 2 ==> AllInLane(a, lo', hi', bottomY)
  {
  }

  /** The clipped head lies in its lane and above the band. */
  lemma HeadInLane(x: int, headY: int, bottomY: int)
    ensures bottomY >= 2 ==> AllInLane(HeadCmds(x, headY, bottomY), x + 1, x + 2, bottomY)
  {
  }

  /** The trail and a possible recycle together take `DrawsPerColumn`
      draws. */
  lemma StepColumnDraws(x: int, c: Column, s: bv32, height: int, bottomY: int)
    requires height >= 2
    ensures var t := Trail(x, c.headY + 3, TrailEnd(c, bottomY), s);
      Advance(c, t.1, height, bottomY).1 == Draws(s, DrawsPerColumn(c, bottomY))
  {
    var e := TrailEnd(c, bottomY);
    var m := Max(0, e - c.headY - 2);
    TrailDraws(x, c.headY + 3, e, s);
    var t := Trail(x, c.headY + 3, e, s);
    assert t.1 == Draws(s, m);
    if Recycles(c, bottomY) {
      DrawsAdd(s, m, 4);
      assert DrawsPerColumn(c, bottomY) == m + 4;
    } else {
      assert DrawsPerColumn(c, bottomY) == m;
    }
  }

  /** Draws one frame of the column in lane `i` (head, then trail) and
      advances it: the commands, the new column and the new state. The
      column moves to a successor, the step takes exactly `DrawsPerColumn`
      draws, and it paints only its own lane (x = 4i+1 and 4i+2) above the
      bottom band. */
  function StepColumn(i: int, c: Column, s: bv32, height: int, bottomY: int): (r: (seq<DrawCmd>, Column, bv32))
    requires height >= 2
    ensures Successor(c, r.1, height, bottomY)
    ensures r.2 == Draws(s, DrawsPerColumn(c, bottomY))
    ensures bottomY >= 2 ==> AllInLane(r.0, 4 * i + 1, 4 * i + 2, bottomY)
  {
    var x := 4 * i;
    var e := TrailEnd(c, bottomY);
    var t := Trail(x, c.headY + 3, e, s);
    var a := Advance(c, t.1, height, bottomY);
    var h := HeadCmds(x, c.headY, bottomY);
    StepColumnDraws(x, c, s, height, bottomY);
    TrailPixels(x, c.headY + 3, e, s);
    HeadInLane(x, c.headY, bottomY);
    AllInLaneConcat(h, t.0, x + 1, x + 2, bottomY);
    (h + t.0, a.0, a.1)
  }

  lemma SuccessorsExtend(cols: seq<Column>, ps: seq<Column>, c': Column, height: int, bottomY: int)
    requires |cols| == |ps| + 1
    requires forall j :: 0 <= j < |ps| ==> Successor(cols[j], ps[j], height, bottomY)
    requires Successor(cols[|ps|], c', height, bottomY)
    ensures forall j :: 0 <= j < |cols| ==> Successor(cols[j], (ps + [c'])[j], height, bottomY)
  {
  }

  /** Painting within the first `n - 1` lanes followed by painting within
      lane `n - 1` is painting within the first `n` lanes. */
  lemma LanesExtend(a: seq<DrawCmd>, b: seq<DrawCmd>, ab: seq<DrawCmd>, n: int, bottomY: int)
    requires n >= 1 && ab == a + b
    requires bottomY >= 2 ==> AllInLane(a, 1, 4 * (n - 1) - 2, bottomY)
    requires bottomY >= 2 ==> AllInLane(b, 4 * (n - 1) + 1, 4 * (n - 1) + 2, bottomY)
    ensures bottomY >= 2 ==> AllInLane(ab, 1, 4 * n - 2, bottomY)
  {
    AllInLaneWiden(a, 1, 4 * (n - 1) - 2, 1, 4 * n - 2, bottomY);
    AllInLaneWiden(b, 4 * (n - 1) + 1, 4 * (n - 1) + 2, 1, 4 * n - 2, bottomY);
    AllInLaneConcat(a, b, 1, 4 * n - 2, bottomY);
  }

  /** The first `n` lanes of one frame, left to right, with the state
      threaded through: the commands, the updated columns and the state. */
  function Sweep(cols: seq<Column>, n: nat, s: bv32, height: int, bottomY: int): (r: (seq<DrawCmd>, seq<Column>, bv32))
    requires n <= |cols| && height >= 2
    ensures |r.1| == n
    decreases n
  {
    if n == 0 then ([], [], s)
    else
      var p := Sweep(cols, n - 1, s, height, bottomY);
      var q := StepColumn(n - 1, cols[n - 1], p.2, height, bottomY);
      (p.0 + q.0, p.1 + [q.1], q.2)
  }

  /** One frame moves the column in lane `j` to a successor of the column
      that was there. */
  lemma {:induction false} SweepAdvancesLane(cols: seq<Column>, n: nat, s: bv32, height: int, bottomY: int, j: nat)
    requires j < n <= |cols| && height >= 2
    ensures Successor(cols[j], Sweep(cols, n, s, height, bottomY).1[j], height, bottomY)
    decreases n
  {
    var p := Sweep(cols, n - 1, s, height, bottomY);
    var q := StepColumn(n - 1, cols[n - 1], p.2, height, bottomY);
    AppendAt(p.1, q.1, Sweep(cols, n, s, height, bottomY).1, j);
    if j < n - 1 {
      SweepAdvancesLane(cols, n - 1, s, height, bottomY, j);
    }
  }

  /** Element `j` of a list with one column appended. */
  lemma AppendAt(ps: seq<Column>, c: Column, all: seq<Column>, j: nat)
    requires all == ps + [c] && j <= |ps|
    ensures all[j] == if j < |ps| then ps[j] else c
  {
  }

  /** One frame moves every column to a successor of the column that was in
      its lane. */
  lemma SweepAdvances(cols: seq<Column>, n: nat, s: bv32, height: int, bottomY: int)
    requires n <= |cols| && height >= 2
    ensures forall j :: 0 <= j < n ==> Successor(cols[j], Sweep(cols, n, s, height, bottomY).1[j], height, bottomY)
  {
    forall j | 0 <= j < n
      ensures Successor(cols[j], Sweep(cols, n, s, height, bottomY).1[j], height, bottomY)
    {
      SweepAdvancesLane(cols, n, s, height, bottomY, j);
    }
  }

  /** All painting of a frame's first `n` lanes stays within those lanes
      (x from 1 to 4n - 2) and above the bottom band. */
  lemma {:induction false} SweepInLanes(cols: seq<Column>, n: nat, s: bv32, height: int, bottomY: int)
    requires n <= |cols| && height >= 2 && bottomY >= 2
    ensures AllInLane(Sweep(cols, n, s, height, bottomY).0, 1, 4 * n - 2, bottomY)
    decreases n
  {
    if n > 0 {
      SweepInLanes(cols, n - 1, s, height, bottomY);
      var p := Sweep(cols, n - 1, s, height, bottomY);
      var q := StepColumn(n - 1, cols[n - 1], p.2, height, bottomY);
      LanesExtend(p.0, q.0, Sweep(cols, n, s, height, bottomY).0, n, bottomY);
    }
  }

  /** A frame only paints: it neither clears nor flushes. */
  lemma SweepPaints(cols: seq<Column>, n: nat, s: bv32, height: int, bottomY: int)
    requires n <= |cols| && height >= 2 && bottomY >= 2
    ensures forall cmd :: cmd in Sweep(cols, n, s, height, bottomY).0 ==> Paints(cmd)
  {
  }

  /** Draws the 3-pixel head of lane `x`, clipped above the band at
      `bottomY`. */
  method DrawHead(disp: Surface, x: int, headY: int, bottomY: int)
    modifies disp
    ensures disp.log == old(disp.log) + HeadCmds(x, headY, bottomY)
  {
    var hy0 := headY;
    var hy1 := headY + 2;
    if hy1 >= 0 && hy0 < bottomY - 1 {
      var y0 := Max(0, hy0);
      var y1 := Min(bottomY - 2, hy1);
      disp.Line(x + 1, y0, x + 1, y1, 1);
      disp.Pixel(x + 2, y1, 1);
    }
  }

  /** Draws the pixels of one trail row for draw `r`. */
  method DrawRow(disp: Surface, x: int, y: int, r: bv32, trailEnd: int)
    modifies disp
    ensures disp.log == old(disp.log) + RowCmds(x, y, r, trailEnd)
  {
    if r & 0x3 != 0 {
      disp.Pixel(x + 1, y, 1);
    }
    if r & 0x8 != 0 {
      disp.Pixel(x + 2, y, 1);
    }
    if r & 0x40 != 0 && y + 1 <= trailEnd {
      LinkBit(r);
      disp.Pixel(x + 1 + ((r >> 7) & 1) as int, y + 1, 1);
    }
  }

  /** Bit 7 of a draw, shifted down, is 1 exactly when bit 7 is set. */
  lemma LinkBit(r: bv32)
    ensures ((r >> 7) & 1) as int == if r & 0x80 != 0 then 1 else 0
  {
  }

  /** Storing column `c` at the first untouched lane. */
  lemma SpliceColumn(done: seq<Column>, c: Column, rest: seq<Column>)
    requires |rest| > 0
    ensures (done + rest)[|done| := c] == done + [c] + rest[1..]
  {
  }

  /** The draws the first `n` lanes of a frame take together. */
  function FrameDraws(cols: seq<Column>, n: nat, bottomY: int): nat
    requires n <= |cols|
  {
    if n == 0 then 0 else FrameDraws(cols, n - 1, bottomY) + DrawsPerColumn(cols[n - 1], bottomY)
  }

  /** A frame advances the generator by exactly the draws its lanes take. */
  lemma {:induction false} SweepDraws(cols: seq<Column>, n: nat, s: bv32, height: int, bottomY: int)
    requires n <= |cols| && height >= 2
    ensures Sweep(cols, n, s, height, bottomY).2 == Draws(s, FrameDraws(cols, n, bottomY))
    decreases n
  {
    if n > 0 {
      SweepDraws(cols, n - 1, s, height, bottomY);
      SweepLastDraws(cols, n, s, height, bottomY);
    }
  }

  /** The last lane of a frame takes its own draws after the others'. */
  lemma SweepLastDraws(cols: seq<Column>, n: nat, s: bv32, height: int, bottomY: int)
    requires 0 < n <= |cols| && height >= 2
    requires Sweep(cols, n - 1, s, height, bottomY).2 == Draws(s, FrameDraws(cols, n - 1, bottomY))
    ensures Sweep(cols, n, s, height, bottomY).2 == Draws(s, FrameDraws(cols, n, bottomY))
  {
    DrawsAdd(s, FrameDraws(cols, n - 1, bottomY), DrawsPerColumn(cols[n - 1], bottomY));
  }
}
