/**
 * Tenths rounding and the kilogram-to-pound ratio shared by the trend engine,
 * WeightEntry and WeightGoal. Kotlin's `(x * 10).roundToInt() / 10.0` rounds to
 * the nearest tenth with ties toward positive infinity; weights are exact reals.
 */
module Rounding {

  /** Pounds per kilogram (`KG_TO_LB` in WeightEntry and WeightGoal). */
  const KG_TO_LB: real := 2.2046226218

  /** True when x is a whole number of tenths. */
  predicate IsTenths(x: real) {
    (x * 10.0).Floor as real == x * 10.0
  }

  /** `roundToTenths`: `(x * 10).roundToInt() / 10.0`. */
  function RoundToTenths(x: real): real {
    (x * 10.0 + 0.5).Floor as real / 10.0
  }

  /** The rounded value is a whole number of tenths within half a tenth of x, a tie
      going up. */
  lemma RoundToTenthsNearest(x: real)
    ensures IsTenths(RoundToTenths(x))
    ensures x - 0.05 < RoundToTenths(x) <= x + 0.05
  {
    var n := (x * 10.0 + 0.5).Floor;
    assert (n as real / 10.0) * 10.0 == n as real;
  }

  /** RoundToTenthsNearest determines the result: it is the only multiple of 0.1 in
      the half-open interval (x - 0.05, x + 0.05]. */
  lemma RoundToTenthsUnique(x: real, r: real)
    requires IsTenths(r) && x - 0.05 < r <= x + 0.05
    ensures r == RoundToTenths(x)
  {
    var q := RoundToTenths(x);
    RoundToTenthsNearest(x);
    var k, m := (r * 10.0).Floor, (q * 10.0).Floor;
    assert k as real == r * 10.0 && m as real == q * 10.0;
    assert -1.0 < (k - m) as real < 1.0;
  }

  /** Rounding a value that already is a whole number of tenths changes nothing. */
  lemma RoundToTenthsOfTenths(x: real)
    requires IsTenths(x)
    ensures RoundToTenths(x) == x
  {
    RoundToTenthsUnique(x, x);
  }

  /** Rounding is idempotent. */
  lemma RoundToTenthsIdempotent(x: real)
    ensures RoundToTenths(RoundToTenths(x)) == RoundToTenths(x)
  {
    RoundToTenthsOfTenths(RoundToTenths(x));
  }
}
