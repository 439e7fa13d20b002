/** Tolerance-based comparisons used by the sampler when it validates weights.
    Weights are modelled as reals; the float NaN and infinities are kept as
    separate cases of `Weight` so that the constructor can reject them. */
module Precision {

  /** Tolerance under which two weights are treated as equal (0.0001). */
  const PRECISION: real := 0.0001

  function Abs(x: real): (r: real)
    ensures 0.0 <= r && (r == x || r == -x)
  {
    if x < 0.0 then -x else x
  }

  /** `a` and `b` differ by less than PRECISION. */
  predicate EqualsWithPrecision(a: real, b: real)
    ensures EqualsWithPrecision(a, b) <==> b - PRECISION < a < b + PRECISION
  {
    Abs(a - b) < PRECISION
  }

  /** `a` is above `b` and not within the tolerance of it. */
  predicate IsGreaterThan(a: real, b: real)
    ensures IsGreaterThan(a, b) <==> b + PRECISION <= a
  {
    !EqualsWithPrecision(a, b) && a > b
  }

  /** `a` is below `b` and not within the tolerance of it. */
  predicate IsLessThan(a: real, b: real)
    ensures IsLessThan(a, b) <==> a <= b - PRECISION
  {
    !EqualsWithPrecision(a, b) && a < b
  }

  /** A probability as the caller passes it: a finite number, NaN or an infinity. */
  datatype Weight = Finite(value: real) | NaN | Infinite(negative: bool)

  /** The weight is not a finite number. */
  predicate IsNanOrInfinite(w: Weight)
    ensures IsNanOrInfinite(w) <==> !w.Finite?
  {
    w.NaN? || w.Infinite?
  }
}
