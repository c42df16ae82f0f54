/** Small helpers shared by the three screensavers: the `_clamp` helper that
    each blocking file defines identically, the frame interval derived from
    it, Python's `str.strip()` and the centring of the bottom username
    label. */
module Common {

  function Max(a: int, b: int): int { if a < b then b else a }

  function Min(a: int, b: int): int { if a < b then a else b }

  /** `_clamp(v, lo, hi)`: `lo` below the range, `hi` above it, `v` inside. */
  function Clamp(v: int, lo: int, hi: int): (r: int)
    ensures lo <= hi ==> lo <= r <= hi
    ensures lo <= v <= hi ==> r == v
    ensures r == v || r == lo || r == hi
  {
    if v < lo then lo else if v > hi then hi else v
  }

  /** The characters `str.strip()` removes, restricted to ASCII: space,
      tab, line feed, vertical tab, form feed, carriage return and the four
      information separators 0x1C..0x1F. */
  predicate IsSpace(c: char) {
    c == ' ' || ('\t' <= c <= '\r') || ('\U{1C}' <= c <= '\U{1F}')
  }

  /** Index of the first character that is not whitespace (|s| if none). */
  function StripStart(s: string): (i: nat)
    ensures i <= |s|
    ensures forall k :: 0 <= k < i ==> IsSpace(s[k])
    ensures i < |s| ==> !IsSpace(s[i])
  {
    if |s| > 0 && IsSpace(s[0]) then 1 + StripStart(s[1..]) else 0
  }

  /** One past the last character at or after `lo` that is not whitespace
      (`lo` if there is none). */
  function StripEnd(s: string, lo: nat): (j: nat)
    requires lo <= |s|
    ensures lo <= j <= |s|
    ensures forall k :: j <= k < |s| ==> IsSpace(s[k])
    ensures j > lo ==> !IsSpace(s[j - 1])
    decreases |s|
  {
    if |s| > lo && IsSpace(s[|s| - 1]) then StripEnd(s[..|s| - 1], lo) else |s|
  }

  /** `s.strip()`: `s` without its leading and trailing whitespace. */
  function Strip(s: string): (r: string)
    ensures |r| <= |s|
    ensures r == [] || (!IsSpace(r[0]) && !IsSpace(r[|r| - 1]))
    ensures r == [] <==> forall k :: 0 <= k < |s| ==> IsSpace(s[k])
    ensures exists i, j ::
              && 0 <= i <= j <= |s| && r == s[i..j]
              && (forall k :: 0 <= k < i ==> IsSpace(s[k]))
              && (forall k :: j <= k < |s| ==> IsSpace(s[k]))
  {
    var i := StripStart(s);
    var j := StripEnd(s, i);
    s[i..j]
  }

  /** A string with no surrounding whitespace is left as it is, so
      stripping twice is the same as stripping once. */
  lemma {:induction false} StripKeepsTrimmed(s: string)
    requires s == [] || (!IsSpace(s[0]) && !IsSpace(s[|s| - 1]))
    ensures Strip(s) == s
  {
    if s != [] {
      assert StripStart(s) == 0;
      assert StripEnd(s, 0) == |s|;
    }
  }

  lemma StripIdempotent(s: string)
    ensures Strip(Strip(s)) == Strip(s)
  {
    StripKeepsTrimmed(Strip(s));
  }

  /** The x of a username label `8 * |uname|` pixels wide on a display
      `width` pixels wide: `max(0, (width - tw) // 2)`. A label that fits
      is centred exactly (its width is a multiple of 8, so the margins are
      equal); a longer one starts at the left edge. */
  function LabelX(uname: string, width: int): (tx: int)
    requires width % 2 == 0
    ensures tx >= 0
    ensures 8 * |uname| <= width ==> tx + 8 * |uname| + tx == width
    ensures 8 * |uname| > width ==> tx == 0
  {
    Max(0, (width - 8 * |uname|) / 2)
  }

  /** `1000 // _clamp(fps, lo, hi)`: the frame interval in milliseconds for
      a requested frame rate, which is first clamped to `lo .. hi`. */
  function FrameInterval(fps: int, lo: int, hi: int): (ms: int)
    requires 0 < lo <= hi
    ensures 1000 / hi <= ms <= 1000 / lo
  {
    var f := Clamp(fps, lo, hi);
    DivAntitone(1000, f, hi);
    DivAntitone(1000, lo, f);
    1000 / f
  }

  /** A faster requested rate never gives a longer frame interval. */
  lemma FrameIntervalAntitone(fps1: int, fps2: int, lo: int, hi: int)
    requires 0 < lo <= hi && fps1 <= fps2
    ensures FrameInterval(fps2, lo, hi) <= FrameInterval(fps1, lo, hi)
  {
    DivAntitone(1000, Clamp(fps1, lo, hi), Clamp(fps2, lo, hi));
  }

  lemma DivAntitone(n: nat, a: int, b: int)
    requires 0 < a <= b
    ensures n / b <= n / a
  {
    var q := n / b;
    assert b * q <= n;
    MulLe(a, b, q);
    DivLower(n, a, q);
  }

  /** A multiple of `a` no larger than `n` is at most `a * (n / a)`. */
  lemma DivLower(n: nat, a: int, q: nat)
    requires 0 < a && a * q <= n
    ensures q <= n / a
  {
    var r := n / a;
    assert a * r + n % a == n;
    if r < q {
      MulLe(r + 1, q, a);
      assert false;
    }
  }

  /** Helper for the division bounds above: multiplying by a natural
      number keeps `<=`. */
  lemma MulLe(x: int, y: int, k: nat)
    requires x <= y
    ensures x * k <= y * k
  {
  }
}
