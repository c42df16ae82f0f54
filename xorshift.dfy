/** The 32-bit xorshift generator with Marsaglia's shift triple (13, 17, 5),
    written `_rng32` in the non-blocking files and `_RNG.rand` in the
    blocking matrix file. The state is a 32-bit word: Python's
    `(x << k) & 0xFFFFFFFF` on a word is a `bv32` left shift and `x >> 17`
    a logical right shift, and the input mask of `_rng32` leaves a word as
    it is. */
module Xorshift {

  const Mod32: int := 0x1_0000_0000

  /** One xorshift round: the next state, which is also the value drawn. */
  function Rng32(w: bv32): bv32 {
    var a := w ^ (w << 13);
    var b := a ^ (a >> 17);
    b ^ (b << 5)
  }

  /** A word below 2^32 read as a Python integer. */
  function Value(w: bv32): (n: nat)
    ensures n < Mod32
  {
    w as nat
  }

  /** Zero is a fixed point of the generator ... */
  lemma ZeroIsFixed()
    ensures Rng32(0) == 0
  {
  }

  /** ... and the only state that reaches it: every round keeps the lowest
      set bit (left shifts only add higher bits) or the highest set bit
      (the right shift only adds lower bits), so a non-zero word stays
      non-zero. */
  lemma Rng32NonZero(w: bv32)
    requires w != 0
    ensures Rng32(w) != 0
  {
  }

  /** The state after `n` successive draws from state `s`. */
  function Draws(s: bv32, n: nat): bv32
    decreases n
  {
    if n == 0 then s else Rng32(Draws(s, n - 1))
  }

  lemma {:induction false} DrawsAdd(s: bv32, a: nat, b: nat)
    ensures Draws(Draws(s, a), b) == Draws(s, a + b)
    decreases b
  {
    if b > 0 {
      DrawsAdd(s, a, b - 1);
    }
  }

  /** Taking the first draw and then `n` more is taking `n + 1`. */
  lemma DrawsShift(s: bv32, n: nat)
    ensures Draws(Rng32(s), n) == Draws(s, n + 1)
  {
    DrawsAdd(s, 1, n);
  }

  /** A non-zero state stays non-zero however many draws are taken ... */
  lemma {:induction false} DrawsNonZero(s: bv32, n: nat)
    requires s != 0
    ensures Draws(s, n) != 0
    decreases n
  {
    if n > 0 {
      DrawsNonZero(s, n - 1);
      Rng32NonZero(Draws(s, n - 1));
    }
  }

  /** ... and a zero state never leaves zero. */
  lemma {:induction false} DrawsFromZero(n: nat)
    ensures Draws(0, n) == 0
    decreases n
  {
    if n > 0 {
      DrawsFromZero(n - 1);
    }
  }
}
