/**
 The divergence check between two quoted prices of the same asset: their
 mean, the percentage by which the first departs from the second relative to
 that mean, and the alert raised when that percentage exceeds half a percent
 in either direction.
 */
module Divergence {
  import opened RealArith

  /** The alert fires strictly above this many percent. */
  const AlertThreshold: real := 0.5

  /** Absolute value. */
  function Abs(x: real): (r: real)
    ensures r >= 0.0
    ensures r == x || r == -x
  {
    if x < 0.0 then -x else x
  }

  /** The mean of the two prices: the point equally far from both, so it lies
      between them. */
  function Average(p1: real, p2: real): (m: real)
    ensures m - p1 == p2 - m
    ensures p1 <= p2 ==> p1 <= m <= p2
    ensures p2 <= p1 ==> p2 <= m <= p1
  {
    (p1 + p2) / 2.0
  }

  /** The difference of the first price from the second, in percent of their
      mean. It is the one number that, taken as a percentage of the mean,
      gives back the gap p1 - p2. */
  function Difference(p1: real, p2: real): (d: real)
    requires p1 + p2 != 0.0
    ensures d * Average(p1, p2) == 100.0 * (p1 - p2)
  {
    (p1 - p2) / Average(p1, p2) * 100.0
  }

  /** Whether a percentage difference calls for an alert: its magnitude is
      strictly greater than the threshold, in either direction. */
  function Alert(d: real): (b: bool)
    ensures b <==> d > AlertThreshold || -d > AlertThreshold
  {
    Abs(d) > AlertThreshold
  }

  /** The difference is twice the gap over the sum, in percent:
      200 * (p1 - p2) / (p1 + p2). */
  lemma DifferenceClosedForm(p1: real, p2: real)
    requires p1 + p2 != 0.0
    ensures Difference(p1, p2) == 200.0 * (p1 - p2) / (p1 + p2)
  {
    var d := Difference(p1, p2);
    assert d * (p1 + p2) == 2.0 * (d * Average(p1, p2));
    DivFromMul(d, 200.0 * (p1 - p2), p1 + p2);
  }

  /** No difference exactly when the prices agree. */
  lemma DifferenceZeroIffEqual(p1: real, p2: real)
    requires p1 + p2 != 0.0
    ensures Difference(p1, p2) == 0.0 <==> p1 == p2
  {
    MulCancelIff(Difference(p1, p2), 0.0, Average(p1, p2));
  }

  /** With a positive mean (in particular for two positive prices) the sign of
      the difference is the sign of p1 - p2. */
  lemma DifferenceSign(p1: real, p2: real)
    requires p1 + p2 > 0.0
    ensures Difference(p1, p2) > 0.0 <==> p1 > p2
    ensures Difference(p1, p2) < 0.0 <==> p1 < p2
  {
    ProductCompare(Difference(p1, p2), 0.0, Average(p1, p2));
    ProductCompare(0.0, Difference(p1, p2), Average(p1, p2));
  }

  /** Comparing the prices the other way round negates the difference; the
      mean is the same. */
  lemma DifferenceAntisymmetric(p1: real, p2: real)
    requires p1 + p2 != 0.0
    ensures Average(p2, p1) == Average(p1, p2)
    ensures Difference(p2, p1) == -Difference(p1, p2)
  {
    var m := Average(p1, p2);
    assert Average(p2, p1) == m;
    assert Difference(p2, p1) * m == (-Difference(p1, p2)) * m;
    MulCancelIff(Difference(p2, p1), -Difference(p1, p2), m);
  }

  /** For prices that are not negative the difference never exceeds 200
      percent either way; it reaches 200 exactly when the second price is
      zero. */
  lemma DifferenceBounded(p1: real, p2: real)
    requires p1 >= 0.0 && p2 >= 0.0 && p1 + p2 > 0.0
    ensures -200.0 <= Difference(p1, p2) <= 200.0
    ensures Difference(p1, p2) == 200.0 <==> p2 == 0.0
  {
    var d, s := Difference(p1, p2), p1 + p2;
    assert d * s == 200.0 * (p1 - p2) by {
      assert d * s == 2.0 * (d * Average(p1, p2));
    }
    ProductCompare(d, 200.0, s);
    ProductCompare(-d, 200.0, s);
    MulCancelIff(d, 200.0, s);
  }

  /** Measuring both prices in a different unit (scaling both by k > 0) does
      not change the percentage difference. */
  lemma DifferenceScaleInvariant(k: real, p1: real, p2: real)
    requires k > 0.0 && p1 + p2 > 0.0
    ensures k * p1 + k * p2 > 0.0
    ensures Difference(k * p1, k * p2) == Difference(p1, p2)
  {
    DifferenceClosedForm(p1, p2);
    DifferenceClosedForm(k * p1, k * p2);
    ScaledQuotient(k, 200.0 * (p1 - p2), p1 + p2, 200.0 * (k * p1 - k * p2), k * p1 + k * p2);
  }

  /** For prices that are not negative the alert fires exactly when the gap
      between them, four hundred times over, exceeds their sum; that is, when
      the gap is more than a quarter of a percent of the sum. */
  lemma AlertIffGap(p1: real, p2: real)
    requires p1 >= 0.0 && p2 >= 0.0 && p1 + p2 > 0.0
    ensures Alert(Difference(p1, p2)) <==> 400.0 * Abs(p1 - p2) > p1 + p2
  {
    var d, s := Difference(p1, p2), p1 + p2;
    assert d * s == 200.0 * (p1 - p2) by {
      assert d * s == 2.0 * (d * Average(p1, p2));
    }
    assert (-d) * s == 200.0 * (p2 - p1);
    ScaledCompare(d, s, 200.0 * (p1 - p2), 0.5);
    ScaledCompare(-d, s, 200.0 * (p2 - p1), 0.5);
  }
}
