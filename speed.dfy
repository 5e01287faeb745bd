/**
 * The speed estimate and the speed-to-colour rule of ODMS, over `real`:
 * the source computes both in single-precision floats, whose rounding is
 * not modelled.
 */
module Speed {
  import opened SampleWindow

  /** Knots per flip per sample, found by regression on the sensor. */
  const CONVERSION_CONSTANT: real := 0.111045

  const LOWER_BOUND: real := 0.0
  const MIDDLE_BOUND: real := 9.0
  const UPPER_BOUND: real := 18.0

  /** knots = sumFlips * CONVERSION_CONSTANT / SAMPLE_SIZE */
  function KnotsFor(sumFlips: int): (k: real)
    // the estimate is the mean flips per sample, scaled
    ensures k * (SAMPLE_SIZE as real) == (sumFlips as real) * CONVERSION_CONSTANT
    ensures k == 0.0 <==> sumFlips == 0
    ensures sumFlips >= 0 ==> k >= 0.0
  {
    (sumFlips as real) * CONVERSION_CONSTANT / (SAMPLE_SIZE as real)
  }

  /** More flips always means strictly more knots. */
  lemma KnotsStrictlyMonotone(a: int, b: int)
    requires a < b
    ensures KnotsFor(a) < KnotsFor(b)
  {
  }

  /** Over a window of valid samples the estimate lies in [0, 510 * 0.111045 / 2]. */
  lemma KnotsRange(w: seq<int>)
    requires |w| >= SAMPLE_SIZE && AllSamples(w)
    ensures 0.0 <= KnotsFor(NewestSum(w)) <= 28.316475
  {
    NewestSumBounds(w);
  }

  /** Two newest samples of 81 flips read as 8.994645 knots. */
  lemma KnotsOfTwiceEightyOne()
    ensures KnotsFor(81 + 81) == 8.994645
  {
  }

  /** A colour before Processing clamps and packs it: red, green, blue components. */
  datatype Rgb = Rgb(r: real, g: real, b: real)

  /** Processing's map(): the affine map taking [start1, stop1] onto [start2, stop2], unclamped. */
  function Map(value: real, start1: real, stop1: real, start2: real, stop2: real): (m: real)
    requires start1 != stop1
    ensures value == start1 ==> m == start2
    ensures value == stop1 ==> m == stop2
    // affine: the offset in the target range is proportional to the offset in the source range
    ensures (m - start2) * (stop1 - start1) == (stop2 - start2) * (value - start1)
  {
    start2 + (stop2 - start2) * ((value - start1) / (stop1 - start1))
  }

  /**
   * The background colour for a speed: below MIDDLE_BOUND red stays at 127
   * and green rises; from MIDDLE_BOUND on green stays at 127 and red falls.
   */
  function SpeedColor(knots: real): (c: Rgb)
    ensures c.b == 0.0
    ensures knots < MIDDLE_BOUND ==> c.r == 127.0 && c.g == knots * 127.0 / 9.0
    ensures knots >= MIDDLE_BOUND ==> c.g == 127.0 && c.r == (18.0 - knots) * 127.0 / 9.0
    ensures LOWER_BOUND <= knots <= UPPER_BOUND ==> 0.0 <= c.r <= 127.0 && 0.0 <= c.g <= 127.0
  {
    if knots < MIDDLE_BOUND then
      Rgb(127.0, Map(knots, LOWER_BOUND, MIDDLE_BOUND, 0.0, 127.0), 0.0)
    else
      Rgb(Map(knots, MIDDLE_BOUND, UPPER_BOUND, 127.0, 0.0), 127.0, 0.0)
  }

  /** Both segments meet at MIDDLE_BOUND: the left limit of green is the right-hand value 127. */
  lemma SpeedColorContinuousAtMiddle(knots: real)
    requires LOWER_BOUND <= knots < MIDDLE_BOUND
    ensures SpeedColor(MIDDLE_BOUND) == Rgb(127.0, 127.0, 0.0)
    ensures SpeedColor(knots).r == SpeedColor(MIDDLE_BOUND).r
    ensures SpeedColor(MIDDLE_BOUND).g - SpeedColor(knots).g == (MIDDLE_BOUND - knots) * 127.0 / 9.0
  {
  }

  /** The colour at the two ends of the calibrated range. */
  lemma SpeedColorEnds()
    ensures SpeedColor(LOWER_BOUND) == Rgb(127.0, 0.0, 0.0)
    ensures SpeedColor(UPPER_BOUND) == Rgb(0.0, 127.0, 0.0)
  {
  }

  /** Green never falls as speed rises below the middle; red never rises above it. */
  lemma SpeedColorMonotone(k1: real, k2: real)
    requires k1 <= k2
    ensures k2 < MIDDLE_BOUND ==> SpeedColor(k1).g <= SpeedColor(k2).g
    ensures MIDDLE_BOUND <= k1 ==> SpeedColor(k1).r >= SpeedColor(k2).r
  {
  }

  /** No clamping: a speed above UPPER_BOUND gives a negative red component. */
  lemma SpeedColorUnclampedAboveUpper(knots: real)
    requires knots > UPPER_BOUND
    ensures SpeedColor(knots).r < 0.0
  {
  }
}
