/**
 Decimal shifting of amounts. A token with `d` decimals stores the human amount
 `x` as the integer `x * 10^d`; turning the raw integer back into a human amount
 moves the decimal point `d` places to the left, which is exact in
 arbitrary-precision decimal arithmetic.
 */
module Decimals {
  import opened RealArith

  /** Ten to the power `n`. */
  function Pow10(n: nat): (r: nat)
    ensures r >= 1
  {
    if n == 0 then 1 else 10 * Pow10(n - 1)
  }

  /** `x` with the decimal point moved `n` places to the right: x * 10^n. */
  function ShiftUp(x: real, n: nat): (r: real)
    ensures x > 0.0 ==> r > 0.0
    ensures x == 0.0 ==> r == 0.0
    ensures x < 0.0 ==> r < 0.0
    decreases n
  {
    if n == 0 then x else ShiftUp(10.0 * x, n - 1)
  }

  /** `x` with the decimal point moved `n` places to the left: x / 10^n. */
  function ShiftDown(x: real, n: nat): (r: real)
    ensures ShiftUp(r, n) == x
    ensures x > 0.0 <==> r > 0.0
    ensures x == 0.0 <==> r == 0.0
  {
    if n == 0 then x else ShiftDown(x, n - 1) / 10.0
  }

  /** The raw balance of a `d`-decimal token as a human amount. */
  function Normalize(raw: nat, d: nat): (amount: real)
    ensures ShiftUp(amount, d) == raw as real
    ensures amount >= 0.0
    ensures amount > 0.0 <==> raw > 0
  {
    ShiftDown(raw as real, d)
  }

  /** Shifting up is multiplying by a power of ten. */
  lemma {:induction false} ShiftUpIsPow10(x: real, n: nat)
    ensures ShiftUp(x, n) == x * Pow10(n) as real
    decreases n
  {
    if n > 0 {
      ShiftUpIsPow10(10.0 * x, n - 1);
      assert Pow10(n) as real == 10.0 * Pow10(n - 1) as real;
    }
  }

  /** Shifting down is dividing by a power of ten. */
  lemma ShiftDownIsDivision(x: real, n: nat)
    ensures ShiftDown(x, n) == x / Pow10(n) as real
  {
    ShiftUpIsPow10(ShiftDown(x, n), n);
    DivFromMul(ShiftDown(x, n), x, Pow10(n) as real);
  }

  /** Normalizing divides the raw balance by ten to the decimals. */
  lemma NormalizeIsDivision(raw: nat, d: nat)
    ensures Normalize(raw, d) == raw as real / Pow10(d) as real
  {
    ShiftDownIsDivision(raw as real, d);
  }

  /** Shifting down and then up by the same places gives back the amount:
      the two shifts are inverse to each other in both orders. */
  lemma ShiftRoundTrip(x: real, n: nat)
    ensures ShiftDown(ShiftUp(x, n), n) == x
    ensures ShiftUp(ShiftDown(x, n), n) == x
  {
    ShiftUpInjective(ShiftDown(ShiftUp(x, n), n), x, n);
  }

  /** Shifts compose by adding their places. */
  lemma {:induction false} ShiftUpAdd(x: real, a: nat, b: nat)
    ensures ShiftUp(ShiftUp(x, a), b) == ShiftUp(x, a + b)
    decreases a
  {
    if a > 0 {
      ShiftUpAdd(10.0 * x, a - 1, b);
    }
  }

  /** Shifting is injective: equal shifts come from equal amounts. */
  lemma {:induction false} ShiftUpInjective(x: real, y: real, n: nat)
    requires ShiftUp(x, n) == ShiftUp(y, n)
    ensures x == y
    decreases n
  {
    if n > 0 {
      ShiftUpInjective(10.0 * x, 10.0 * y, n - 1);
    }
  }

  /** Ten whole units, as a real, is ten times the units; and regrouping the
      factor ten in an integer product. */
  lemma TenfoldWhole(u: int, p: int)
    ensures (10 * u) as real == 10.0 * u as real
    ensures 10 * u * p == u * (10 * p)
  {
  }

  /** Shifting a whole number up by n places is the integer u * 10^n. */
  lemma {:induction false} ShiftUpOfWhole(u: nat, n: nat)
    ensures ShiftUp(u as real, n) == (u * Pow10(n)) as real
    decreases n
  {
    if n > 0 {
      ShiftUpOfWhole(10 * u, n - 1);
      TenfoldWhole(u, Pow10(n - 1));
    }
  }

  /** Normalizing is exact: a raw balance that is a whole number of tokens
      comes back as exactly that number. */
  lemma NormalizeWhole(units: nat, d: nat)
    ensures Normalize(units * Pow10(d), d) == units as real
  {
    ShiftUpOfWhole(units, d);
    ShiftRoundTrip(units as real, d);
  }

  /** Normalizing is linear: k times the raw balance normalizes to k times
      the normalized balance. */
  lemma NormalizeScale(k: nat, raw: nat, d: nat)
    ensures Normalize(k * raw, d) == k as real * Normalize(raw, d)
  {
    NormalizeIsDivision(k * raw, d);
    NormalizeIsDivision(raw, d);
    CastProduct(k, raw);
    MultipleQuotient((k * raw) as real, k as real, raw as real, Pow10(d) as real, Normalize(raw, d));
  }

  /** Shifting numerator and denominator by the same places keeps their ratio. */
  lemma {:induction false} ShiftRatio(y: real, x: real, n: nat)
    requires x > 0.0
    ensures ShiftUp(y, n) / ShiftUp(x, n) == y / x
    decreases n
  {
    if n > 0 {
      ShiftRatio(10.0 * y, 10.0 * x, n - 1);
      CancelFactor(10.0, y, x);
    }
  }
}
