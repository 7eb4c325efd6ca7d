/** Exchange filters: truncation to the step grid, price rounding and intent normalisation. */
module Filters {
  import opened Prelude
  import opened Market
  import opened Models

  /** ROUND_DOWN: towards zero. */
  function Truncate(x: real): int {
    if x >= 0.0 then x.Floor else -((-x).Floor)
  }

  function OnGrid(k: int, step: real): real {
    k as real * step
  }

  function FloorToStep(value: real, step: real): Result<real, PipelineError> {
    if step <= 0.0 then Failure(StepMustBePositive)
    else Success(OnGrid(Truncate(value / step), step))
  }

  function RoundPriceToTick(price: real, tickSize: real): Result<real, PipelineError> {
    FloorToStep(price, tickSize)
  }

  function NormalizeOrderIntent(intent: OrderIntent, filters: SymbolFilters): Result<OrderIntent, PipelineError> {
    var quantity :- FloorToStep(intent.quantity, filters.stepSize);
    if intent.price.None? then
      if quantity <= 0.0 then Failure(QuantityFloorsToZeroFilter)
      else Success(intent.(quantity := quantity))
    else
      var price :- RoundPriceToTick(intent.price.value, filters.tickSize);
      if Notional(quantity, price) < filters.minNotional then Failure(BelowMinNotionalFilter)
      else if quantity <= 0.0 then Failure(QuantityFloorsToZeroFilter)
      else Success(intent.(quantity := quantity, price := Some(price)))
  }

  /** quantize(0.01, ROUND_DOWN). */
  function QuantizeUsdt(value: real): real {
    OnGrid(Truncate(value / 0.01), 0.01)
  }

  // ---------------------------------------------------------------- truncation

  lemma GridOrder(k: int, value: real, step: real)
    requires step > 0.0
    ensures OnGrid(k, step) <= value <==> k as real <= value / step
  {
  }

  lemma GridMonotone(k: int, m: int, step: real)
    requires step > 0.0
    ensures k <= m <==> OnGrid(k, step) <= OnGrid(m, step)
  {
  }

  /**
    For a non-negative value the result is the largest grid point not above it: exactly the grid points up
    to the result are the ones that fit under the value, and the next one does not.
   */
  lemma FloorIsLargest(value: real, step: real, k: int)
    requires value >= 0.0 && step > 0.0
    ensures var r := FloorToStep(value, step);
            && r.Success?
            && 0.0 <= r.value <= value
            && (OnGrid(k, step) <= r.value <==> OnGrid(k, step) <= value)
  {
    var x := value / step;
    QuotientSign(value, step);
    var m := Truncate(x);
    GridOrder(k, value, step);
    GridOrder(m, value, step);
    GridMonotone(k, m, step);
    GridMonotone(0, m, step);
    assert OnGrid(0, step) == 0.0;
    hide OnGrid;
  }

  /** Truncation moves a negative value towards zero: up, and by less than a step. */
  lemma FloorOfNegative(value: real, step: real)
    requires value < 0.0 && step > 0.0
    ensures FloorToStep(value, step).Success?
    ensures FloorToStep(-value, step).Success?
    ensures FloorToStep(value, step).value == -FloorToStep(-value, step).value
    ensures value <= FloorToStep(value, step).value <= 0.0
  {
    FloorIsLargest(-value, step, 0);
    assert (-value) / step == -(value / step);
    var k := Truncate((-value) / step);
    QuotientSign(value, step);
    assert Truncate(value / step) == -k;
    assert OnGrid(-k, step) == -OnGrid(k, step);
  }

  /** For a negative value the result is the smallest grid point not below it. */
  lemma FloorOfNegativeIsLeast(value: real, step: real, k: int)
    requires value < 0.0 && step > 0.0
    ensures FloorToStep(value, step).Success?
    ensures FloorToStep(value, step).value <= OnGrid(k, step) <==> value <= OnGrid(k, step)
  {
    FloorOfNegative(value, step);
    FloorIsLargest(-value, step, -k);
    assert OnGrid(-k, step) == -OnGrid(k, step);
    hide OnGrid, FloorToStep;
  }

  /** A value already on the grid stays where it is. */
  lemma FloorOfGridPoint(k: int, step: real)
    requires step > 0.0
    ensures FloorToStep(OnGrid(k, step), step) == Success(OnGrid(k, step))
  {
    var x := OnGrid(k, step) / step;
    assert x == k as real by {
      QuotientTimes(OnGrid(k, step), step);
      ScaleIff(x, k as real, step);
      ScaleIff(k as real, x, step);
    }
    assert Truncate(k as real) == k;
  }

  /** Truncation keeps the order of non-negative values. */
  lemma FloorMonotone(a: real, b: real, step: real)
    requires 0.0 <= a <= b && step > 0.0
    ensures FloorToStep(a, step).Success? && FloorToStep(b, step).Success?
    ensures FloorToStep(a, step).value <= FloorToStep(b, step).value
  {
    var k := Truncate(a / step);
    FloorIsLargest(a, step, k);
    FloorIsLargest(b, step, k);
    hide OnGrid;
  }

  lemma TickRounds(price: real, tickSize: real)
    requires tickSize > 0.0
    ensures FloorToStep(price, tickSize).Success?
  {
  }

  lemma QuantizeRoundsDown(value: real)
    requires value >= 0.0
    ensures 0.0 <= QuantizeUsdt(value) <= value
  {
    FloorIsLargest(value, 0.01, 0);
  }

  /** The result is the one multiple of 0.01 at most 0.01 below a non-negative amount. */
  lemma QuantizeIsCents(value: real)
    requires value >= 0.0
    ensures value - 0.01 < QuantizeUsdt(value) <= value
    ensures exists k :: QuantizeUsdt(value) == OnGrid(k, 0.01)
  {
    var m := Truncate(value / 0.01);
    FloorIsLargest(value, 0.01, m + 1);
    assert OnGrid(m + 1, 0.01) == OnGrid(m, 0.01) + 0.01;
  }

  /**
    Normalising any order: quantity and price are floored to their grids and nothing else changes; it raises on a grid
    that is not positive, under the minimum notional, and on a quantity that floors away.
   */
  lemma NormalisationOutcome(intent: OrderIntent, filters: SymbolFilters)
    ensures var r := NormalizeOrderIntent(intent, filters);
            var quantity := FloorToStep(intent.quantity, filters.stepSize);
            var price := if intent.price.Some? then FloorToStep(intent.price.value, filters.tickSize) else quantity;
            && (r.Success? <==>
                  && filters.stepSize > 0.0 && quantity.value > 0.0
                  && (intent.price.Some? ==>
                        filters.tickSize > 0.0 && Notional(quantity.value, price.value) >= filters.minNotional))
            && (r.Success? ==>
                  && r.value.quantity == quantity.value
                  && (if intent.price.Some? then r.value.price == Some(price.value) else r.value.price == None)
                  && r.value.(quantity := intent.quantity, price := intent.price) == intent)
            && (r.Failure? ==>
                  r.error in {StepMustBePositive, BelowMinNotionalFilter, QuantityFloorsToZeroFilter})
            && (r == Failure(StepMustBePositive)
                <==> filters.stepSize <= 0.0 || (intent.price.Some? && filters.tickSize <= 0.0))
            && (r == Failure(BelowMinNotionalFilter)
                <==> && filters.stepSize > 0.0 && intent.price.Some? && filters.tickSize > 0.0
                     && Notional(quantity.value, price.value) < filters.minNotional)
  {
    hide OnGrid, Notional, Truncate;
  }
}
