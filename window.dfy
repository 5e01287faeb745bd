/**
 * The sliding window of raw flip counts (the `data` deque of ODMS) and the
 * flip sum that the speed estimate is computed from.
 */
module SampleWindow {
  /** Number of samples the deque holds; each sample covers a quarter second. */
  const DEQUE_SIZE: nat := 80
  /** Number of newest samples that one speed estimate sums. */
  const SAMPLE_SIZE: nat := 2

  /** A Java `byte`, as read from the serial port. */
  type JByte = b: int | -128 <= b < 128

  /** A value the deque can hold: an unsigned byte. */
  predicate IsSample(v: int) {
    0 <= v < 256
  }

  predicate AllSamples(w: seq<int>) {
    forall i :: 0 <= i < |w| ==> IsSample(w[i])
  }

  /** Byte.toUnsignedInt: the unsigned value with the same eight bits. */
  function ToUnsignedInt(b: JByte): (u: int)
    ensures IsSample(u)
    ensures (u - b) % 256 == 0
    ensures b >= 0 ==> u == b
  {
    if b < 0 then b + 256 else b
  }

  /** Different bytes never read as the same sample. */
  lemma ToUnsignedIntInjective(a: JByte, b: JByte)
    requires ToUnsignedInt(a) == ToUnsignedInt(b)
    ensures a == b
  {
  }

  /** The deque as setup fills it: `n` zeros. */
  function Zeros(n: nat): (w: seq<int>)
    ensures |w| == n && AllSamples(w)
    ensures forall i :: 0 <= i < n ==> w[i] == 0
  {
    seq(n, _ => 0)
  }

  /**
   * One received sample: `add` at the newest end, then `poll` the oldest.
   * The window keeps its length, `u` becomes the newest element and the
   * others move one place towards the old end in their order.
   */
  function Shift(w: seq<int>, u: int): (r: seq<int>)
    requires |w| > 0
    ensures |r| == |w|
    ensures r[|r| - 1] == u
    ensures r[..|r| - 1] == w[1..]
    ensures AllSamples(w) && IsSample(u) ==> AllSamples(r)
  {
    (w + [u])[1..]
  }

  /** A run of received samples, oldest first. */
  function Slide(w: seq<int>, us: seq<int>): (r: seq<int>)
    requires |w| > 0
    ensures |r| == |w|
    ensures AllSamples(w) && AllSamples(us) ==> AllSamples(r)
    decreases |us|
  {
    if us == [] then w else Slide(Shift(w, us[0]), us[1..])
  }

  /** After any run of samples the window is the newest |w| of old window and run together. */
  lemma {:induction false} SlideIsSuffix(w: seq<int>, us: seq<int>)
    requires |w| > 0
    ensures Slide(w, us) == (w + us)[|us|..]
    decreases |us|
  {
    if us != [] {
      SlideIsSuffix(Shift(w, us[0]), us[1..]);
      assert Shift(w, us[0]) + us[1..] == (w + us)[1..];
    }
  }

  /** FIFO: once at least |w| samples arrived, the window is exactly the newest |w| of them. */
  lemma {:induction false} SlideForgetsOldWindow(w: seq<int>, us: seq<int>)
    requires |w| > 0 && |us| >= |w|
    ensures Slide(w, us) == us[|us| - |w|..]
  {
    SlideIsSuffix(w, us);
    assert (w + us)[|us|..] == us[|us| - |w|..];
  }

  function Sum(s: seq<int>): int {
    if s == [] then 0 else s[0] + Sum(s[1..])
  }

  lemma {:induction false} SumBounds(s: seq<int>)
    requires AllSamples(s)
    ensures 0 <= Sum(s) <= 255 * |s|
  {
    if s != [] {
      SumBounds(s[1..]);
    }
  }

  /** The flip count of the SAMPLE_SIZE newest samples. */
  function NewestSum(w: seq<int>): int
    requires |w| >= SAMPLE_SIZE
  {
    Sum(w[|w| - SAMPLE_SIZE..])
  }

  /** The estimate looks at the two newest samples and nothing else. */
  lemma NewestSumIsLastTwo(w: seq<int>)
    requires |w| >= SAMPLE_SIZE
    ensures NewestSum(w) == w[|w| - 1] + w[|w| - 2]
  {
    var t := w[|w| - SAMPLE_SIZE..];
    assert t == [w[|w| - 2], w[|w| - 1]];
    assert Sum(t) == t[0] + Sum(t[1..]);
    assert t[1..] == [w[|w| - 1]];
    assert Sum(t[1..]) == w[|w| - 1] + Sum(t[1..][1..]);
    assert t[1..][1..] == [];
  }

  /** A flip count over valid samples lies in [0, 510]. */
  lemma NewestSumBounds(w: seq<int>)
    requires |w| >= SAMPLE_SIZE && AllSamples(w)
    ensures 0 <= NewestSum(w) <= 255 * SAMPLE_SIZE
  {
    NewestSumIsLastTwo(w);
  }

  /** After a push the flip count is the previous newest sample plus the one just received. */
  lemma NewestSumAfterShift(w: seq<int>, u: int)
    requires |w| >= SAMPLE_SIZE
    ensures NewestSum(Shift(w, u)) == w[|w| - 1] + u
  {
    var r := Shift(w, u);
    NewestSumIsLastTwo(r);
    assert r[|r| - 2] == r[..|r| - 1][|r| - 2] == w[1..][|w| - 2];
  }

  /**
   * The loop of updateKnots: walk the deque newest first and add up the
   * first SAMPLE_SIZE values the descending iterator yields.
   */
  method CountFlips(w: seq<int>) returns (sumFlips: int)
    requires |w| >= SAMPLE_SIZE
    ensures sumFlips == NewestSum(w)
    ensures AllSamples(w) ==> 0 <= sumFlips <= 255 * SAMPLE_SIZE
  {
    sumFlips := 0;
    var i := 0;
    while i < SAMPLE_SIZE
      invariant 0 <= i <= SAMPLE_SIZE
      invariant sumFlips == Sum(w[|w| - i..])
    {
      // the (i+1)-th element of the descending iterator
      sumFlips := sumFlips + w[|w| - 1 - i];
      assert w[|w| - 1 - i..][1..] == w[|w| - i..];
      i := i + 1;
    }
    if AllSamples(w) {
      NewestSumBounds(w);
    }
  }
}
