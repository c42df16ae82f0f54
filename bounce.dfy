/** The blocking bouncing-sprite screensaver for a 128x64 display: a 24x24
    sprite moves diagonally and reflects off the walls, kept clear of the
    username band at the bottom, over a fixed field of 18 twinkling stars.
    Also the reflection rule and the star drawing, which the non-blocking
    variant shares. */
module Bounce {
  import opened Common
  import opened Display

  const W: int := 128
  const H: int := 64
  const BottomTextY: int := 56     // H - 8, the username row
  const SpriteSize: int := 24
  const MaxY: int := 30            // BottomTextY - SpriteSize - 2
  const StarSeed: bv16 := 0xACE1
  const StarCount: nat := 18
  const StarH: int := 56           // stars stay above the username row

  // ---------------------------------------------------------------- stars

  /** One round of the 16-bit xorshift-style mixer, shift triple (7, 9, 8).
      Python's `(x << k) & 0xFFFF` on a 16-bit value is a `bv16` shift; a
      16-bit seed keeps every state below 2^16. */
  function Mix16(x: bv16): bv16 {
    var a := x ^ (x << 7);
    var b := a ^ (a >> 9);
    b ^ (b << 8)
  }

  /** The mixer state after `n` rounds. */
  function Mixes(x: bv16, n: nat): bv16
    decreases n
  {
    if n == 0 then x else Mix16(Mixes(x, n - 1))
  }

  /** Star `i` of the field from `seed`: the state after `i + 1` rounds
      gives x from its low 7 bits and y from the next 6, each reduced
      modulo the field size. */
  function StarAt(seed: bv16, i: nat, w: int, h: int): (p: (int, int))
    requires w > 0 && h > 0
    ensures 0 <= p.0 < w && 0 <= p.1 < h
  {
    var v := Mixes(seed, i + 1);
    ((v & 0x7F) as int % w, ((v >> 7) & 0x3F) as int % h)
  }

  /** `_twinkle_points`: `count` star positions, one mixer round each. */
  method TwinklePoints(seed: bv16, count: nat, w: int, h: int) returns (pts: seq<(int, int)>)
    requires count > 0 ==> w > 0 && h > 0
    ensures |pts| == count
    ensures forall i :: 0 <= i < count ==> pts[i] == StarAt(seed, i, w, h)
  {
    pts := [];
    var x := seed;
    var k := 0;
    while k < count
      invariant 0 <= k <= count && |pts| == k
      invariant x == Mixes(seed, k)
      invariant forall i :: 0 <= i < k ==> pts[i] == StarAt(seed, i, w, h)
    {
      x := Mix16(x);
      assert x == Mixes(seed, k + 1);
      var px := (x & 0x7F) as int % w;
      var py := ((x >> 7) & 0x3F) as int % h;
      StarOfWord(seed, k, w, h, x);
      pts := pts + [(px, py)];
      k := k + 1;
    }
  }

  /** The star drawn from the word after `i + 1` rounds. */
  lemma StarOfWord(seed: bv16, i: nat, w: int, h: int, x: bv16)
    requires w > 0 && h > 0 && x == Mixes(seed, i + 1)
    ensures StarAt(seed, i, w, h) == ((x & 0x7F) as int % w, ((x >> 7) & 0x3F) as int % h)
  {
  }

  /** The twinkle phase at time `t` milliseconds: it toggles every 250 ms. */
  function TwinklePhase(t: int): (p: int)
    ensures p == 0 || p == 1
  {
    (t / 250) % 2
  }

  /** 250 ms later the other half of the stars is lit. */
  lemma TwinkleToggles(t: int)
    ensures TwinklePhase(t + 250) == 1 - TwinklePhase(t)
  {
    assert (t + 250) / 250 == t / 250 + 1;
  }

  /** The pixels lit for star list `pts` in phase `phase`: star `i` is lit
      when `i + phase` is even, in list order. */
  function TwinkleCmds(pts: seq<(int, int)>, phase: int): seq<DrawCmd>
    decreases |pts|
  {
    if pts == [] then []
    else
      var i := |pts| - 1;
      TwinkleCmds(pts[..i], phase)
      + (if (i + phase) % 2 == 0 then [Pixel(pts[i].0, pts[i].1, 1)] else [])
  }

  /** In phase 0 exactly the even-indexed stars are lit, in phase 1 exactly
      the odd-indexed ones: the `k`-th pixel is star `2k + phase`. */
  lemma {:induction false} TwinkleAlternates(pts: seq<(int, int)>, phase: int)
    requires phase == 0 || phase == 1
    ensures |TwinkleCmds(pts, phase)| == (|pts| + 1 - phase) / 2
    ensures forall k :: 0 <= k < |TwinkleCmds(pts, phase)| ==>
      (2 * k + phase < |pts| && TwinkleCmds(pts, phase)[k] == Pixel(pts[2 * k + phase].0, pts[2 * k + phase].1, 1))
    decreases |pts|
  {
    TwinkleCount(pts, phase);
    if pts != [] {
      var i := |pts| - 1;
      TwinkleAlternates(pts[..i], phase);
      var prev := TwinkleCmds(pts[..i], phase);
      var cur := TwinkleCmds(pts, phase);
      assert cur == prev + (if (i + phase) % 2 == 0 then [Pixel(pts[i].0, pts[i].1, 1)] else []);
      forall k | 0 <= k < |cur|
        ensures 2 * k + phase < |pts| && cur[k] == Pixel(pts[2 * k + phase].0, pts[2 * k + phase].1, 1)
      {
        if k < |prev| {
          assert cur[k] == prev[k];
          assert pts[..i][2 * k + phase] == pts[2 * k + phase];
        } else {
          assert 2 * k + phase == i;
        }
      }
    }
  }

  /** Phase `p` lights `(n + 1 - p) / 2` of `n` stars. */
  lemma {:induction false} TwinkleCount(pts: seq<(int, int)>, phase: int)
    requires phase == 0 || phase == 1
    ensures |TwinkleCmds(pts, phase)| == (|pts| + 1 - phase) / 2
    decreases |pts|
  {
    if pts != [] {
      TwinkleCount(pts[..|pts| - 1], phase);
    }
  }

  /** Between two consecutive phases every star is lit exactly once. */
  lemma TwinkleCovers(pts: seq<(int, int)>)
    ensures |TwinkleCmds(pts, 0)| + |TwinkleCmds(pts, 1)| == |pts|
  {
    TwinkleAlternates(pts, 0);
    TwinkleAlternates(pts, 1);
  }

  /** Star drawing only lights pixels. */
  lemma {:induction false} TwinklePaints(pts: seq<(int, int)>, phase: int)
    ensures forall c :: c in TwinkleCmds(pts, phase) ==> c.Pixel? && c.color == 1
    decreases |pts|
  {
    if pts != [] {
      TwinklePaints(pts[..|pts| - 1], phase);
    }
  }

  /** Lights star `i` of `pts` when `i + phase` is even. */
  method DrawStars(disp: Surface, pts: seq<(int, int)>, phase: int)
    modifies disp
    ensures disp.log == old(disp.log) + TwinkleCmds(pts, phase)
  {
    ghost var log0 := disp.log;
    var i := 0;
    while i < |pts|
      invariant 0 <= i <= |pts|
      invariant disp.log == log0 + TwinkleCmds(pts[..i], phase)
    {
      assert pts[..i + 1][..i] == pts[..i];
      if (i + phase) % 2 == 0 {
        disp.Pixel(pts[i].0, pts[i].1, 1);
      }
      i := i + 1;
    }
    assert pts[..|pts|] == pts;
  }

  /** `_draw_twinkles`: the stars lit in the phase of time `t`. */
  method DrawTwinkles(disp: Surface, pts: seq<(int, int)>, t: int)
    modifies disp
    ensures disp.log == old(disp.log) + TwinkleCmds(pts, TwinklePhase(t))
  {
    var phase := (t / 250) % 2;
    DrawStars(disp, pts, phase);
  }

  // --------------------------------------------------------------- motion

  datatype Motion = Motion(x: int, y: int, vx: int, vy: int)

  /** One axis of the motion: step by `v`; on reaching or passing a wall
      (`p + v <= 0` or `p + v >= hi`) reverse the velocity and step back.
      A position strictly between the walls stays strictly between them,
      whatever the speed, and the speed is kept. */
  function Reflect(p: int, v: int, hi: int): (r: (int, int))
    ensures 0 < p < hi ==> 0 < r.0 < hi
    ensures r.1 == v || r.1 == -v
    ensures v != 0 ==> (r.1 == -v <==> p + v <= 0 || p + v >= hi)
    ensures r.1 == -v ==> r.0 == p
    ensures !(p + v <= 0 || p + v >= hi) ==> r == (p + v, v)
  {
    var q := p + v;
    if q <= 0 || q >= hi then (q - v, -v) else (q, v)
  }

  /** Both axes, with the sprite's left edge kept in `(0, hiX)` and its top
      edge in `(0, hiY)`. */
  function Move(m: Motion, hiX: int, hiY: int): Motion {
    var rx := Reflect(m.x, m.vx, hiX);
    var ry := Reflect(m.y, m.vy, hiY);
    Motion(rx.0, ry.0, rx.1, ry.1)
  }

  /** Strictly inside the box, moving diagonally one pixel per frame. */
  predicate InBox(m: Motion, hiX: int, hiY: int) {
    0 < m.x < hiX && 0 < m.y < hiY && (m.vx == 1 || m.vx == -1) && (m.vy == 1 || m.vy == -1)
  }

  /** The motion after `k` frames. */
  function Moves(m: Motion, k: nat, hiX: int, hiY: int): Motion
    decreases k
  {
    if k == 0 then m else Move(Moves(m, k - 1, hiX, hiY), hiX, hiY)
  }

  /** Once inside the box, the sprite stays inside it for any number of
      frames, with unit speeds. */
  lemma {:induction false} MovesInBox(m: Motion, k: nat, hiX: int, hiY: int)
    requires InBox(m, hiX, hiY)
    ensures InBox(Moves(m, k, hiX, hiY), hiX, hiY)
    decreases k
  {
    if k > 0 {
      MovesInBox(m, k - 1, hiX, hiY);
    }
  }

  /** From (8, 8) with velocity (1, 1), x stays in 1..103 and y in 1..29:
      the sprite never touches the display edges or the username band. */
  lemma BounceForever(k: nat)
    ensures var m := Moves(Motion(8, 8, 1, 1), k, W - SpriteSize, MaxY);
      && 1 <= m.x <= 103 && 1 <= m.y <= 29
      && m.y + SpriteSize < BottomTextY
  {
    MovesInBox(Motion(8, 8, 1, 1), k, W - SpriteSize, MaxY);
  }

  // --------------------------------------------------------------- frames

  /** The username and its shadow: first the name in colour 0 one pixel
      down and right, then the name in colour 1 on top of it; nothing for
      an empty name. */
  function NameCmds(uname: string, tx: int): (r: seq<DrawCmd>)
    ensures r == [] <==> uname == []
    ensures r != [] ==>
      (|r| == 2 && r[|r| - 1] == Text(uname, tx, BottomTextY, 1) && r[0] == Text(uname, tx + 1, BottomTextY + 1, 0))
  {
    if uname == [] then []
    else [Text(uname, tx + 1, BottomTextY + 1, 0), Text(uname, tx, BottomTextY, 1)]
  }

  /** One frame at the updated position: clear, stars, sprite, name, flush. */
  function FrameCmds(m: Motion, stars: seq<(int, int)>, uname: string, tx: int, now: int): seq<DrawCmd> {
    [Fill(0)] + TwinkleCmds(stars, TwinklePhase(now)) + [Blit(SpriteSize, SpriteSize, m.x, m.y)]
    + NameCmds(uname, tx) + [Show]
  }

  /** A frame clears first, flushes last and only paints in between, and
      the sprite is drawn before the name so the name stays on top. */
  lemma FrameShape(m: Motion, stars: seq<(int, int)>, uname: string, tx: int, now: int)
    ensures WellFramed(FrameCmds(m, stars, uname, tx, now))
    ensures var f := FrameCmds(m, stars, uname, tx, now);
      f[|TwinkleCmds(stars, TwinklePhase(now))| + 1] == Blit(SpriteSize, SpriteSize, m.x, m.y)
  {
    var tw := TwinkleCmds(stars, TwinklePhase(now));
    var body := tw + [Blit(SpriteSize, SpriteSize, m.x, m.y)] + NameCmds(uname, tx);
    TwinklePaints(stars, TwinklePhase(now));
    assert forall c :: c in body ==> Paints(c);
    Framed(body);
    assert FrameCmds(m, stars, uname, tx, now) == [Fill(0)] + body + [Show];
  }

  class BounceScreensaver {
    var x: int
    var y: int
    var vx: int
    var vy: int
    const stars: seq<(int, int)>
    const uname: string
    const tx: int
    const frameTime: int

    function Pos(): Motion
      reads this
    {
      Motion(x, y, vx, vy)
    }

    /** The sprite is inside its box with unit speeds, and the 18 stars lie
        in the 128x56 area above the username row. */
    predicate Valid()
      reads this
    {
      && InBox(Pos(), W - SpriteSize, MaxY)
      && |stars| == StarCount
      && forall i :: 0 <= i < |stars| ==> 0 <= stars[i].0 < W && 0 <= stars[i].1 < StarH
    }

    /** Setting up: the star field, the start at (8, 8) moving (1, 1), the
        stripped username and its centred x, and the frame interval. */
    constructor (username: string, fps: int)
      ensures Valid()
      ensures Pos() == Motion(8, 8, 1, 1)
      ensures forall i :: 0 <= i < StarCount ==> stars[i] == StarAt(StarSeed, i, W, StarH)
      ensures uname == Strip(username) && tx == LabelX(uname, W)
      ensures frameTime == FrameInterval(fps, 8, 60)
    {
      var pts := TwinklePoints(StarSeed, StarCount, W, StarH);
      stars := pts;
      x, y := 8, 8;
      vx, vy := 1, 1;
      frameTime := FrameInterval(fps, 8, 60);
      uname := Strip(username);
      tx := LabelX(Strip(username), W);
    }

    /** One frame: move and reflect, then clear, stars for time `now`,
        sprite, name with its shadow, flush. */
    method Frame(disp: Surface, now: int)
      requires Valid()
      modifies this, disp
      ensures Valid()
      ensures Pos() == Move(old(Pos()), W - SpriteSize, MaxY)
      ensures disp.log == old(disp.log) + FrameCmds(Pos(), stars, uname, tx, now)
    {
      Physics();
      DrawScene(disp, now);
    }

    /** Step both axes, reflecting off the walls and off the band. */
    method Physics()
      requires Valid()
      modifies this
      ensures Valid()
      ensures Pos() == Move(old(Pos()), W - SpriteSize, MaxY)
    {
      x := x + vx;
      y := y + vy;
      if x <= 0 || x + SpriteSize >= W {
        vx := -vx;
        x := x + vx;
      }
      var maxY := BottomTextY - SpriteSize - 2;
      if y <= 0 || y >= maxY {
        vy := -vy;
        y := y + vy;
      }
    }

    /** Clear, stars for time `now`, sprite, name with its shadow, flush. */
    method DrawScene(disp: Surface, now: int)
      modifies disp
      ensures disp.log == old(disp.log) + FrameCmds(Pos(), stars, uname, tx, now)
    {
      ghost var log0 := disp.log;
      disp.Fill(0);
      DrawTwinkles(disp, stars, now);
      disp.Blit(SpriteSize, SpriteSize, x, y);
      ghost var log1 := disp.log;
      if uname != [] {
        disp.Text(uname, tx + 1, BottomTextY + 1, 0);
        disp.Text(uname, tx, BottomTextY, 1);
      }
      assert disp.log == log1 + NameCmds(uname, tx);
      disp.Show();
      AppendParts(log0, [Fill(0)], TwinkleCmds(stars, TwinklePhase(now)), [Blit(SpriteSize, SpriteSize, x, y)],
                  NameCmds(uname, tx));
      ConcatAssoc(log0, [Fill(0)] + TwinkleCmds(stars, TwinklePhase(now)) + [Blit(SpriteSize, SpriteSize, x, y)]
                  + NameCmds(uname, tx), [Show]);
    }
  }
}
