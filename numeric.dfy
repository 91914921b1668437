/**
 * The two roundings the client code applies to quotients: `Math.round` of
 * a non-negative ratio (half-way cases round up) and `Math.ceil`, both on
 * exact rationals given as numerator and positive denominator.
 */
module Numeric {

  /** `Math.round(num / den)` for a non-negative ratio: the nearest integer, halves rounded up. */
  function RoundDiv(num: nat, den: nat): (r: nat)
    requires den > 0
    ensures 2 * den * r <= 2 * num + den < 2 * den * (r + 1)
  {
    (2 * num + den) / (2 * den)
  }

  /** `Math.ceil(num / den)`: the least integer not below the ratio, for either sign of `num`. */
  function CeilDiv(num: int, den: nat): (r: int)
    requires den > 0
    ensures den * (r - 1) < num <= den * r
  {
    -((-num) / den)
  }

  /** A positive factor can be cancelled from a strict inequality. */
  lemma MulCancel(c: nat, x: int, y: int)
    requires c > 0 && c * x < c * y
    ensures x < y
  {
  }

  /** Rounding a larger ratio never gives a smaller integer. */
  lemma {:induction false} RoundDivMonotone(a: nat, b: nat, den: nat)
    requires den > 0 && a <= b
    ensures RoundDiv(a, den) <= RoundDiv(b, den)
  {
    var ra, rb := RoundDiv(a, den), RoundDiv(b, den);
    MulCancel(2 * den, ra, rb + 1);
  }

  /** Rounding an integer multiple gives that integer. */
  lemma {:induction false} RoundDivExact(k: nat, den: nat)
    requires den > 0
    ensures RoundDiv(k * den, den) == k
  {
    var r := RoundDiv(k * den, den);
    assert 2 * den * r <= 2 * den * k + den < 2 * den * (r + 1);
    assert 2 * den * r < 2 * den * (k + 1);
    MulCancel(2 * den, r, k + 1);
    assert 2 * den * k < 2 * den * (r + 1);
    MulCancel(2 * den, k, r + 1);
  }

  /**
   * The progress percentage shown by the dashboard and the chatbot:
   * `total > 0 ? Math.round((done / total) * 100) : 0`.
   */
  function Percent(done: nat, total: nat): (p: nat)
    ensures total == 0 ==> p == 0
    ensures total > 0 ==> 2 * total * p <= 200 * done + total < 2 * total * (p + 1)
  {
    if total > 0 then RoundDiv(100 * done, total) else 0
  }

  /** With `done <= total` the percentage lies in 0..100: 0 when nothing is done, 100 when everything is. */
  lemma {:induction false} PercentBounds(done: nat, total: nat)
    requires done <= total
    ensures Percent(done, total) <= 100
    ensures done == 0 ==> Percent(done, total) == 0
    ensures 0 < total && done == total ==> Percent(done, total) == 100
  {
    if total > 0 {
      RoundDivMonotone(100 * done, 100 * total, total);
      RoundDivExact(100, total);
      RoundDivExact(0, total);
      if done == 0 {
        assert 100 * done == 0 * total;
      }
      if done == total {
        assert 100 * done == 100 * total;
      }
    }
  }

  /** 100 % does not mean that everything is done: 199 of 200 rounds up to 100. */
  lemma NearlyDoneShowsFull()
    ensures Percent(199, 200) == 100
  {
  }
}
