/** The JavaScript number operations the pipeline uses, on non-negative integers. */
module JsNumber {

  /** `Math.round(x / d)` for `x >= 0`: the nearest integer to x/d, halves rounded up. */
  function RoundDiv(x: nat, d: nat): (r: nat)
    requires d > 0
    ensures (2 * r - 1) * d <= 2 * x < (2 * r + 1) * d
  {
    var q := (2 * x + d) / (2 * d);
    var m := (2 * x + d) % (2 * d);
    assert 2 * x + d == 2 * d * q + m && 0 <= m < 2 * d;
    assert (2 * q - 1) * d == 2 * d * q - d;
    assert (2 * q + 1) * d == 2 * d * q + d;
    q
  }

  /** The rounded quotient never exceeds a bound that every part of the dividend respects. */
  lemma RoundDivAtMost(x: nat, d: nat, b: nat)
    requires d > 0 && x <= d * b
    ensures RoundDiv(x, d) <= b
  {
    var q := (2 * x + d) / (2 * d);
    assert 2 * d * q <= 2 * x + d by {
      assert 2 * x + d == 2 * d * q + (2 * x + d) % (2 * d);
    }
    assert 2 * x + d < 2 * d * (b + 1);
    MulMonotone(2 * d, b + 1, q);
  }

  /** Products with a positive factor keep the order of the other factor. */
  lemma MulMonotone(c: nat, u: nat, v: nat)
    requires c > 0 && c * v < c * u
    ensures v < u
  {
  }

  /** Rounding zero gives zero, and a positive rounded result needs at least half a divisor. */
  lemma RoundDivZero(x: nat, d: nat)
    requires d > 0
    ensures RoundDiv(x, d) == 0 <==> 2 * x < d
  {
  }
}
