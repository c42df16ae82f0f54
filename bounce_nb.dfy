/** The non-blocking bouncing-sprite screensaver: `init_state` builds the
    state tuple from a seed, and each `draw_step` call moves the 16x16
    sprite, renders one frame and returns the new tuple. The star phase
    comes from one xorshift draw per frame, not from the clock. */
module BounceNb {
  import opened Display
  import opened Xorshift
  import opened Bounce

  /** The sprite's frame buffer; only its size is used. */
  datatype Sprite = Sprite(w: int, h: int)

  /** `(x, y, vx, vy, stars, s, fb)`. */
  datatype State = State(x: int, y: int, vx: int, vy: int, stars: seq<(int, int)>, s: bv32, fb: Sprite)

  function MotionOf(st: State): Motion {
    Motion(st.x, st.y, st.vx, st.vy)
  }

  /** Star `i` of the field from word `s0`: draws 2i+1 and 2i+2 give its x
      below `width` and its y above the bottom 8 rows. */
  function Star(s0: bv32, i: nat, width: int, height: int): (p: (int, int))
    requires width > 0 && height > 8
    ensures 0 <= p.0 < width && 0 <= p.1 < height - 8
  {
    (Value(Draws(s0, 2 * i + 1)) % width, Value(Draws(s0, 2 * i + 2)) % (height - 8))
  }

  /** The stars of a fresh state. */
  function StarField(s0: bv32, n: nat, width: int, height: int): (pts: seq<(int, int)>)
    requires n > 0 ==> width > 0 && height > 8
    ensures |pts| == n
    ensures forall i :: 0 <= i < n ==> 0 <= pts[i].0 < width && 0 <= pts[i].1 < height - 8
  {
    seq(n, i requires 0 <= i < n => Star(s0, i, width, height))
  }

  /** The state `init_state` returns for a seed word: the sprite at (8, 8)
      moving (1, 1), `n` stars from two draws each, the word after them and
      the 16x16 sprite. */
  function Initial(seed: bv32, width: int, height: int, n: nat): State
    requires n > 0 ==> width > 0 && height > 8
  {
    State(8, 8, 1, 1, StarField(seed, n, width, height), Draws(seed, 2 * n), Sprite(16, 16))
  }

  /** Builds the star field left to right, threading the word. The seed is
      taken as its low 32-bit word, which is all `seed & 0xFFFFFFFF` keeps. */
  method InitState(width: int, height: int, seed: bv32, starsCount: nat) returns (st: State)
    requires starsCount > 0 ==> width > 0 && height > 8
    ensures st == Initial(seed, width, height, starsCount)
  {
    var s := seed;
    var stars: seq<(int, int)> := [];
    var k := 0;
    while k < starsCount
      invariant 0 <= k <= starsCount && |stars| == k
      invariant s == Draws(seed, 2 * k)
      invariant forall i :: 0 <= i < k ==> stars[i] == Star(seed, i, width, height)
    {
      DrawsAdd(seed, 2 * k, 1);
      DrawsAdd(seed, 2 * k, 2);
      s := Rng32(s);
      var sx := Value(s) % width;
      s := Rng32(s);
      var sy := Value(s) % (height - 8);
      stars := stars + [(sx, sy)];
      k := k + 1;
    }
    assert stars == StarField(seed, starsCount, width, height);
    st := State(8, 8, 1, 1, stars, s, Sprite(16, 16));
  }

  /** The bottom of the sprite's vertical range: the display height less
      the guard band and the sprite height. */
  function MaxYOf(st: State, height: int, bottomGuard: int): int {
    height - bottomGuard - st.fb.h
  }

  /** The state update of `draw_step`: the motion reflects at x = 0 and
      `width - fb.width` and at y = 0 and `max_y`, the word takes one draw,
      and the stars and sprite are passed through unchanged. */
  function Step(st: State, width: int, height: int, bottomGuard: int): (r: State)
    ensures MotionOf(r) == Move(MotionOf(st), width - st.fb.w, MaxYOf(st, height, bottomGuard))
    ensures r.stars == st.stars && r.fb == st.fb && r.s == Draws(st.s, 1)
  {
    var rx := Reflect(st.x, st.vx, width - st.fb.w);
    var ry := Reflect(st.y, st.vy, height - bottomGuard - st.fb.h);
    State(rx.0, ry.0, rx.1, ry.1, st.stars, Rng32(st.s), st.fb)
  }

  /** The star phase: bit 3 of the frame's draw. */
  function Phase(s: bv32): (p: int)
    ensures p == 0 || p == 1
    ensures p == 1 <==> s & 8 != 0
  {
    if s & 8 != 0 then 1 else 0
  }

  /** One frame: clear, the stars of the phase, the sprite at the updated
      position, flush. Star `i` is lit when `(i ^ phase) & 1 == 0`, that is
      when `i + phase` is even. */
  function FrameCmds(st: State): seq<DrawCmd> {
    [Fill(0)] + TwinkleCmds(st.stars, Phase(st.s)) + [Blit(st.fb.w, st.fb.h, st.x, st.y), Show]
  }

  /** Moves the sprite and takes the frame's draw (the pure tuple update),
      then renders the frame, and returns the new state. */
  method DrawStep(oled: Surface, st: State, bottomGuard: int) returns (st': State)
    modifies oled
    ensures st' == Step(st, oled.width, oled.height, bottomGuard)
    ensures oled.log == old(oled.log) + FrameCmds(st')
  {
    st' := Step(st, oled.width, oled.height, bottomGuard);
    ghost var log0 := oled.log;
    oled.Fill(0);
    PhaseBit(st'.s);
    var phase := ((st'.s >> 3) & 1) as int;
    DrawStars(oled, st'.stars, phase);
    oled.Blit(st'.fb.w, st'.fb.h, st'.x, st'.y);
    oled.Show();
    ghost var tw := TwinkleCmds(st'.stars, phase);
    assert oled.log == log0 + [Fill(0)] + tw + [Blit(st'.fb.w, st'.fb.h, st'.x, st'.y)] + [Show];
    assert [Blit(st'.fb.w, st'.fb.h, st'.x, st'.y)] + [Show] == [Blit(st'.fb.w, st'.fb.h, st'.x, st'.y), Show];
  }

  /** Bit 3 of a word, shifted down, is the phase. */
  lemma PhaseBit(s: bv32)
    ensures ((s >> 3) & 1) as int == Phase(s)
  {
  }

  /** The state after `k` frames. */
  function Run(st: State, k: nat, width: int, height: int, bottomGuard: int): State
    decreases k
  {
    if k == 0 then st else Step(Run(st, k - 1, width, height, bottomGuard), width, height, bottomGuard)
  }

  /** Over any number of frames the stars and sprite are unchanged, the
      word has taken one draw per frame, and a sprite that starts strictly
      inside its box with unit speeds stays inside it: x in
      `1 .. width - fb.w - 1` and y in `1 .. max_y - 1`. */
  lemma {:induction false} RunKeepsBox(st: State, k: nat, width: int, height: int, bottomGuard: int)
    requires InBox(MotionOf(st), width - st.fb.w, MaxYOf(st, height, bottomGuard))
    ensures var r := Run(st, k, width, height, bottomGuard);
      && r.stars == st.stars && r.fb == st.fb && r.s == Draws(st.s, k)
      && InBox(MotionOf(r), width - st.fb.w, MaxYOf(st, height, bottomGuard))
    decreases k
  {
    if k > 0 {
      RunKeepsBox(st, k - 1, width, height, bottomGuard);
      var p := Run(st, k - 1, width, height, bottomGuard);
      assert MaxYOf(p, height, bottomGuard) == MaxYOf(st, height, bottomGuard);
      DrawsAdd(st.s, k - 1, 1);
    }
  }

  /** On a display wider than 24 pixels whose sprite range reaches below
      y = 8, the initial state is inside the box, so it stays there. */
  lemma InitialInBox(seed: bv32, width: int, height: int, n: nat, bottomGuard: int, k: nat)
    requires n > 0 ==> width > 0 && height > 8
    requires width > 24 && height - bottomGuard - 16 > 8
    ensures var r := Run(Initial(seed, width, height, n), k, width, height, bottomGuard);
      1 <= r.x <= width - 17 && 1 <= r.y < height - bottomGuard - 16 && (r.vx == 1 || r.vx == -1)
  {
    RunKeepsBox(Initial(seed, width, height, n), k, width, height, bottomGuard);
  }

  /** A zero seed word is never left: every star sits at (0, 0), and every
      frame has phase 0, so the same half of the stars is lit forever. */
  lemma ZeroSeedFrozen(width: int, height: int, n: nat, bottomGuard: int, k: nat)
    requires n > 0 ==> width > 0 && height > 8
    ensures forall i :: 0 <= i < n ==> Initial(0, width, height, n).stars[i] == (0, 0)
    ensures Phase(Run(Initial(0, width, height, n), k + 1, width, height, bottomGuard).s) == 0
  {
    forall i | 0 <= i < n ensures Initial(0, width, height, n).stars[i] == (0, 0) {
      DrawsFromZero(2 * i + 1);
      DrawsFromZero(2 * i + 2);
    }
    RunWord(Initial(0, width, height, n), k + 1, width, height, bottomGuard);
    DrawsFromZero(2 * n);
    DrawsFromZero(k + 1);
    assert Run(Initial(0, width, height, n), k + 1, width, height, bottomGuard).s == 0;
    PhaseOfZero();
  }

  lemma PhaseOfZero()
    ensures Phase(0) == 0
  {
  }

  /** After `k` frames the word has taken `k` draws. */
  lemma {:induction false} RunWord(st: State, k: nat, width: int, height: int, bottomGuard: int)
    ensures Run(st, k, width, height, bottomGuard).s == Draws(st.s, k)
    decreases k
  {
    if k > 0 {
      RunWord(st, k - 1, width, height, bottomGuard);
      DrawsAdd(st.s, k - 1, 1);
    }
  }

  /** A frame clears first, flushes last and only paints in between. */
  lemma FrameShape(st: State)
    ensures WellFramed(FrameCmds(st))
  {
    var tw := TwinkleCmds(st.stars, Phase(st.s));
    TwinklePaints(st.stars, Phase(st.s));
    Framed(tw + [Blit(st.fb.w, st.fb.h, st.x, st.y)]);
    assert FrameCmds(st) == [Fill(0)] + (tw + [Blit(st.fb.w, st.fb.h, st.x, st.y)]) + [Show];
  }
}
