/**
 Small facts about exact real arithmetic that the solver does not find on its
 own once products and quotients of several terms are in play. Each one
 states a single rewriting step so that callers can name the exact terms.
 */
module RealArith {

  /** Dividing k times a by c gives k times the quotient of a by c. */
  lemma MultipleQuotient(p: real, k: real, a: real, c: real, q: real)
    requires c != 0.0 && p == k * a && q == a / c
    ensures p / c == k * q
  {
  }

  /** The real value of an integer product is the product of the real values. */
  lemma CastProduct(a: int, b: int)
    ensures (a * b) as real == a as real * b as real
  {
  }

  /** Quotients of equals are equal. */
  lemma DivCongruent(a: real, b: real, a': real, b': real)
    requires b != 0.0
    requires a == a' && b == b'
    ensures a / b == a' / b'
  {
  }

  /** A number that times d makes n is n / d. */
  lemma DivFromMul(p: real, n: real, d: real)
    requires d != 0.0 && p * d == n
    ensures p == n / d
  {
  }

  /** A quotient times its divisor is the dividend. */
  lemma QuotientTimesDivisor(n: real, d: real)
    requires d != 0.0
    ensures n / d * d == n
  {
  }

  /** Swapping dividend and divisor takes the reciprocal. */
  lemma ReciprocalQuotient(x: real, y: real)
    requires x > 0.0 && y > 0.0
    ensures x / y == 1.0 / (y / x)
  {
  }

  /** A common positive factor cancels from a quotient. */
  lemma CancelFactor(k: real, n: real, d: real)
    requires k > 0.0 && d > 0.0
    ensures (k * n) / (k * d) == n / d
  {
    var q := n / d;
    assert q * d == n;
    assert q * (k * d) == k * n;
  }

  /** Quotients of k-fold amounts are the quotients of the amounts. */
  lemma ScaledQuotient(k: real, n: real, d: real, kn: real, kd: real)
    requires k > 0.0 && d > 0.0
    requires kn == k * n && kd == k * d
    ensures kd > 0.0
    ensures kn / kd == n / d
  {
    CancelFactor(k, n, d);
  }

  /** A nonzero factor cancels from both sides of an equation. */
  lemma MulCancelIff(a: real, b: real, c: real)
    requires c != 0.0
    ensures a * c == b * c <==> a == b
  {
    if a * c == b * c {
      assert (a - b) * c == 0.0;
    }
  }

  /** A positive factor keeps the order of the numbers it multiplies. */
  lemma ProductCompare(a: real, b: real, c: real)
    requires c > 0.0
    ensures a * c > b * c <==> a > b
  {
    if a > b {
      assert (a - b) * c > 0.0;
    } else {
      assert (b - a) * c >= 0.0;
    }
  }

  /** Comparing d with t is comparing d * s with t * s, for s > 0. */
  lemma ScaledCompare(d: real, s: real, n: real, t: real)
    requires s > 0.0 && d * s == n
    ensures d > t <==> n > t * s
  {
    ProductCompare(d, t, s);
  }
}
