/** Shared value types and the few arithmetic helpers every module uses. */
module Prelude {

  datatype Option<+T> = None | Some(value: T)

  /** A return value or the exception the source raises instead. */
  datatype Result<+T, +E> = Success(value: T) | Failure(error: E) {
    predicate IsFailure() {
      Failure?
    }

    function PropagateFailure<U>(): Result<U, E>
      requires Failure?
    {
      Failure(error)
    }

    function Extract(): T
      requires Success?
    {
      value
    }
  }

  function Max(a: real, b: real): real {
    if a >= b then a else b
  }

  function Min(a: real, b: real): real {
    if a <= b then a else b
  }

  function Abs(a: real): real {
    if a >= 0.0 then a else -a
  }

  function MaxInt(a: int, b: int): int {
    if a >= b then a else b
  }

  function MinInt(a: int, b: int): int {
    if a <= b then a else b
  }

  function Sum(values: seq<real>): real {
    if |values| == 0 then 0.0 else Sum(values[..|values| - 1]) + values[|values| - 1]
  }

  lemma SumNext(values: seq<real>, x: real)
    ensures Sum(values + [x]) == Sum(values) + x
  {
    assert (values + [x])[..|values|] == values;
  }

  lemma ProductNonNegative(a: real, b: real)
    requires a >= 0.0 && b >= 0.0
    ensures a * b >= 0.0
  {
  }

  lemma ProductPositive(a: real, b: real) returns (p: real)
    requires a > 0.0 && b > 0.0
    ensures p == a * b && p > 0.0
  {
    p := a * b;
  }

  /** Scaling by a non-negative factor keeps the order. */
  lemma ScaleOrdered(k: real, a: real, b: real)
    requires k >= 0.0 && a <= b
    ensures k * a <= k * b && a * k <= b * k
  {
  }

  lemma ScaleEqual(k: real, u: real, v: real)
    requires u == v
    ensures k * u == k * v && u * k == v * k
  {
  }

  /** Scaling by a positive factor keeps and reflects the order. */
  lemma ScaleIff(k: real, x: real, step: real)
    requires step > 0.0
    ensures k <= x <==> k * step <= x * step
  {
  }

  lemma QuotientTimes(value: real, step: real)
    requires step > 0.0
    ensures (value / step) * step == value
  {
  }

  lemma QuotientSign(value: real, step: real)
    requires step > 0.0
    ensures 0.0 <= value / step <==> 0.0 <= value
    ensures value / step <= 0.0 <==> value <= 0.0
  {
  }
}
