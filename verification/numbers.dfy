/**
 * The JavaScript number operations the engine uses, on exact reals:
 * `Math.abs`, `Math.min` and `Number(x.toFixed(2))`.
 */
module Numbers {

  /** Balances within this distance of zero (`Math.abs(x) < 0.01`) count as settled. */
  const SettledEpsilon: real := 0.01

  /** `Math.abs`: the distance from zero, `x` itself or its negation. */
  function Abs(x: real): (r: real)
    ensures r >= 0.0 && (r == x || r == -x)
  {
    if x < 0.0 then -x else x
  }

  /** `Math.min` of two numbers: one of them, and no larger than either. */
  function Min(a: real, b: real): (r: real)
    ensures r <= a && r <= b
    ensures r == a || r == b
  {
    if a <= b then a else b
  }

  /**
   * `Number(x.toFixed(2))` for a non-negative `x`: the multiple of 0.01 nearest
   * to `x`, the larger one when two are equally near.
   */
  function RoundHalfUp2(x: real): (r: real)
    requires x >= 0.0
    ensures x - 0.005 < r <= x + 0.005
    ensures r >= 0.0
    ensures x > 0.005 ==> r >= 0.01
    ensures (r * 100.0).Floor as real == r * 100.0
  {
    var cents := (x * 100.0 + 0.5).Floor;
    CentsAreWhole(cents);
    cents as real / 100.0
  }

  /** `n` cents, written as an amount, is a whole number of cents. */
  lemma CentsAreWhole(n: int)
    ensures ((n as real / 100.0) * 100.0).Floor == n
  {
    assert (n as real / 100.0) * 100.0 == n as real;
  }

  /**
   * `Number(x.toFixed(2))`: `toFixed` rounds the magnitude and keeps the sign.
   * The result is within half a cent of `x`, and a value above half a cent
   * never rounds below one cent.
   */
  function Round2(x: real): (r: real)
    ensures Abs(r - x) <= 0.005
    ensures (r * 100.0).Floor as real == r * 100.0
    ensures x > 0.005 ==> r >= 0.01
  {
    if x < 0.0 then
      var m := RoundHalfUp2(-x);
      CentsAreWhole(-(m * 100.0).Floor);
      -m
    else RoundHalfUp2(x)
  }

  /** A whole number of cents is left as it is: rounding to cents is idempotent. */
  lemma WholeCents(x: real)
    requires (x * 100.0).Floor as real == x * 100.0
    ensures Round2(x) == x
  {
    var cents := (x * 100.0).Floor;
    if x < 0.0 {
      assert (-x * 100.0 + 0.5).Floor == -cents;
    } else {
      assert (x * 100.0 + 0.5).Floor == cents;
    }
  }
}
