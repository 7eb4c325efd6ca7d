/** From an accepted allocation to the limit order actually submitted. */
module EntryIntent {
  import opened Prelude
  import opened Market
  import opened Models
  import opened Filters
  import opened Allocator

  function Offset(offsetBps: real): real {
    offsetBps / 10000.0
  }

  function Scaled(price: real, factor: real): real {
    price * factor
  }

  function EntryLimitPrice(c: Candidate, offsetBps: real): real {
    if c.side == Long then Scaled(c.entryPrice, 1.0 - Offset(offsetBps))
    else Scaled(c.entryPrice, 1.0 + Offset(offsetBps))
  }

  function AllocationToIntent(c: Candidate, d: Decision, offsetBps: real): OrderIntent {
    OrderIntent(SleeveBId, c.symbol, if c.side == Long then Buy else Sell, Limit, EntryAction, d.quantity,
                Some(EntryLimitPrice(c, offsetBps)), false, Some(c.setupId))
  }

  /** The order the router submits for an allocation, or the exception normalisation raises. */
  function SubmittedIntent(c: Candidate, d: Decision, offsetBps: real, filters: SymbolFilters)
    : Result<OrderIntent, PipelineError>
  {
    NormalizeOrderIntent(AllocationToIntent(c, d, offsetBps), filters)
  }

  /** The limit price after rounding to the tick. */
  function LimitOnTick(c: Candidate, offsetBps: real, filters: SymbolFilters): real
    requires filters.tickSize > 0.0
  {
    FloorToStep(EntryLimitPrice(c, offsetBps), filters.tickSize).value
  }

  lemma LimitPriceSide(c: Candidate, offsetBps: real)
    requires c.entryPrice > 0.0 && offsetBps >= 0.0
    ensures c.side == Long ==> EntryLimitPrice(c, offsetBps) <= c.entryPrice
    ensures c.side == Short ==> EntryLimitPrice(c, offsetBps) >= c.entryPrice
  {
  }

  /** The submitted limit in the candidate's numbers: a multiple of the tick, less than one tick under the offset price. */
  lemma LimitInPrices(c: Candidate, offsetBps: real, filters: SymbolFilters)
    requires c.entryPrice > 0.0 && 0.0 <= offsetBps <= 10000.0 && filters.tickSize > 0.0
    ensures var limit := LimitOnTick(c, offsetBps, filters);
            var price := c.entryPrice * (if c.side == Long then 1.0 - offsetBps / 10000.0 else 1.0 + offsetBps / 10000.0);
            && price - filters.tickSize < limit <= price
            && exists k :: limit == OnGrid(k, filters.tickSize)
  {
    ProductNonNegative(c.entryPrice, if c.side == Long then 1.0 - Offset(offsetBps) else 1.0 + Offset(offsetBps));
    FloorLosesLessThanStep(EntryLimitPrice(c, offsetBps), filters.tickSize);
    var m := Truncate(EntryLimitPrice(c, offsetBps) / filters.tickSize);
    assert LimitOnTick(c, offsetBps, filters) == OnGrid(m, filters.tickSize);
  }

  lemma FloorNeverAbove(value: real, bound: real, step: real)
    requires step > 0.0 && bound >= 0.0 && value <= bound
    ensures FloorToStep(value, step).Success? && FloorToStep(value, step).value <= bound
  {
  }

  /** The facts about an allocation that survive to the exchange. */
  ghost predicate Allocated(
    cfg: AllocatorConfig, c: Candidate, account: AccountSnapshot, positions: seq<PositionSnapshot>,
    filters: SymbolFilters, d: Decision)
  {
    && cfg.maxLeverage > 0.0 && c.entryPrice > 0.0
    && Allocate(cfg, c, account, positions, filters) == Success(d) && d.accepted
  }

  lemma AllocatedFacts(
    cfg: AllocatorConfig, c: Candidate, account: AccountSnapshot, positions: seq<PositionSnapshot>,
    filters: SymbolFilters, d: Decision)
    requires Allocated(cfg, c, account, positions, filters, d)
    ensures filters.stepSize > 0.0 && filters.tickSize > 0.0
    ensures d.quantity > 0.0 && 0.0 <= d.entryPrice <= c.entryPrice
    ensures RoundPriceToTick(c.entryPrice, filters.tickSize) == Success(d.entryPrice)
    ensures FloorToStep(d.quantity, filters.stepSize) == Success(d.quantity)
    ensures Notional(d.quantity, c.entryPrice)
         <= AllowedNotional(cfg, AllowedMargin(cfg, account, OpenPositions(positions)))
    ensures Notional(d.quantity, d.entryPrice) >= filters.minNotional
    ensures Notional(d.quantity, c.StopDistance()) <= RiskBudget(cfg, account)
  {
    hide RiskBudget, PerPositionCap, PortfolioCap, Notional, Allocate, RawQuantity, OnGrid, FloorToStep,
         AllowedNotional, Size;
    AcceptedIsSized(cfg, c, account, positions, filters, d);
    var risk, allowed := RiskBudget(cfg, account), AllowedMargin(cfg, account, OpenPositions(positions));
    SizePositive(cfg, c, risk, allowed, filters, d);
    QuantityWithinCaps(cfg, c, risk, allowed, filters, d);
    LargestQuantity(cfg, c, risk, allowed, filters, d, 0);
    var m :| d.quantity == OnGrid(m, filters.stepSize);
    FloorOfGridPoint(m, filters.stepSize);
  }

  /**
    Normalisation leaves the allocated quantity unchanged and rejects the order exactly when the quantity
    times the rounded limit price is under the exchange minimum.
   */
  lemma NormalisationKeepsQuantity(
    cfg: AllocatorConfig, c: Candidate, account: AccountSnapshot, positions: seq<PositionSnapshot>,
    filters: SymbolFilters, d: Decision, offsetBps: real)
    requires Allocated(cfg, c, account, positions, filters, d)
    ensures filters.tickSize > 0.0
    ensures var limit := LimitOnTick(c, offsetBps, filters);
            SubmittedIntent(c, d, offsetBps, filters)
            == if Notional(d.quantity, limit) < filters.minNotional then Failure(BelowMinNotionalFilter)
               else Success(AllocationToIntent(c, d, offsetBps).(price := Some(limit)))
  {
    hide Allocated, Notional, FloorToStep, EntryLimitPrice;
    AllocatedFacts(cfg, c, account, positions, filters, d);
    TickRounds(EntryLimitPrice(c, offsetBps), filters.tickSize);
  }

  /** A SHORT allocation never fails the filters: its limit is at or above the price that was checked. */
  lemma ShortAlwaysPasses(
    cfg: AllocatorConfig, c: Candidate, account: AccountSnapshot, positions: seq<PositionSnapshot>,
    filters: SymbolFilters, d: Decision, offsetBps: real)
    requires Allocated(cfg, c, account, positions, filters, d)
    requires c.side == Short && offsetBps >= 0.0
    ensures SubmittedIntent(c, d, offsetBps, filters).Success?
  {
    hide Notional, FloorToStep, EntryLimitPrice, SubmittedIntent, Allocate;
    AllocatedFacts(cfg, c, account, positions, filters, d);
    NormalisationKeepsQuantity(cfg, c, account, positions, filters, d, offsetBps);
    LimitPriceSide(c, offsetBps);
    FloorMonotone(c.entryPrice, EntryLimitPrice(c, offsetBps), filters.tickSize);
    NotionalOrder(d.quantity, d.entryPrice, LimitOnTick(c, offsetBps, filters));
  }

  function MarginAtLimit(cfg: AllocatorConfig, d: Decision, limit: real): real
    requires cfg.maxLeverage != 0.0
  {
    MarginOf(Notional(d.quantity, limit), cfg.maxLeverage)
  }

  /**
    The margin of the order actually submitted: a LONG stays within the allowed margin, a SHORT within
    (1 + offset) times it.
   */
  lemma MarginSurvives(
    cfg: AllocatorConfig, c: Candidate, account: AccountSnapshot, positions: seq<PositionSnapshot>,
    filters: SymbolFilters, d: Decision, offsetBps: real)
    requires Allocated(cfg, c, account, positions, filters, d) && offsetBps >= 0.0
    ensures filters.tickSize > 0.0
    ensures var allowed := AllowedMargin(cfg, account, OpenPositions(positions));
            var margin := MarginAtLimit(cfg, d, LimitOnTick(c, offsetBps, filters));
            && (c.side == Long ==> margin <= allowed)
            && (c.side == Short ==> margin <= Scaled(allowed, 1.0 + Offset(offsetBps)))
  {
    hide Notional, FloorToStep, Allocate, AllowedNotional, MarginOf, RiskBudget, AllowedMargin;
    AllocatedFacts(cfg, c, account, positions, filters, d);
    var allowed := AllowedMargin(cfg, account, OpenPositions(positions));
    var limit, raw := LimitOnTick(c, offsetBps, filters), EntryLimitPrice(c, offsetBps);
    LimitPriceSide(c, offsetBps);
    assert AllowedNotional(cfg, allowed) == Scaled(allowed, cfg.maxLeverage) by { AllowedIsScaled(cfg, allowed); }
    if c.side == Long {
      FloorNeverAbove(raw, c.entryPrice, filters.tickSize);
      NotionalAtMost(d.quantity, limit, c.entryPrice);
      MarginWithin(Notional(d.quantity, limit), allowed, AllowedNotional(cfg, allowed), cfg.maxLeverage);
    } else {
      FloorNeverAbove(raw, raw, filters.tickSize);
      NotionalAtMost(d.quantity, limit, raw);
      StretchedNotional(d.quantity, c.entryPrice, 1.0 + Offset(offsetBps), allowed, cfg.maxLeverage);
      var stretched := Scaled(allowed, 1.0 + Offset(offsetBps));
      MarginWithin(Notional(d.quantity, limit), stretched, Scaled(stretched, cfg.maxLeverage), cfg.maxLeverage);
    }
  }

  lemma AllowedIsScaled(cfg: AllocatorConfig, allowed: real)
    ensures AllowedNotional(cfg, allowed) == Scaled(allowed, cfg.maxLeverage)
  {
  }

  lemma NotionalAtMost(q: real, a: real, b: real)
    requires q >= 0.0 && a <= b
    ensures Notional(q, a) <= Notional(q, b)
  {
  }

  lemma StretchedNotional(q: real, entry: real, factor: real, allowed: real, leverage: real)
    requires factor >= 0.0
    requires Notional(q, entry) <= Scaled(allowed, leverage)
    ensures Notional(q, Scaled(entry, factor)) <= Scaled(Scaled(allowed, factor), leverage)
  {
  }

  /** The loss per unit between the submitted limit and the stop. */
  function RiskAtLimit(c: Candidate, limit: real): real {
    if c.side == Long then limit - c.stopPrice else c.stopPrice - limit
  }

  ghost predicate StopOnLosingSide(c: Candidate) {
    if c.side == Long then c.stopPrice < c.entryPrice else c.stopPrice > c.entryPrice
  }

  /** Flooring loses less than one step. */
  lemma FloorLosesLessThanStep(value: real, step: real)
    requires value >= 0.0 && step > 0.0
    ensures FloorToStep(value, step).Success? && value - step < FloorToStep(value, step).value <= value
  {
    var m := Truncate(value / step);
    FloorIsLargest(value, step, m + 1);
    assert OnGrid(m + 1, step) == OnGrid(m, step) + step;
  }

  /** Some multiple of the tick lies between the entry price and the offset limit. */
  ghost predicate TickFits(c: Candidate, offsetBps: real, filters: SymbolFilters) {
    exists k :: c.entryPrice <= OnGrid(k, filters.tickSize) <= EntryLimitPrice(c, offsetBps)
  }

  /** A SHORT limit stays at or above the entry exactly when a tick lies in between. */
  lemma ShortLimitAboveEntryIff(c: Candidate, offsetBps: real, filters: SymbolFilters)
    requires c.side == Short && c.entryPrice > 0.0 && offsetBps >= 0.0 && filters.tickSize > 0.0
    ensures LimitOnTick(c, offsetBps, filters) >= c.entryPrice <==> TickFits(c, offsetBps, filters)
  {
    LimitPriceSide(c, offsetBps);
    var raw, tick := EntryLimitPrice(c, offsetBps), filters.tickSize;
    FloorIsLargest(raw, tick, 0);
    assert LimitOnTick(c, offsetBps, filters) == OnGrid(Truncate(raw / tick), tick);
    hide EntryLimitPrice, OnGrid;
    forall k | c.entryPrice <= OnGrid(k, tick) <= EntryLimitPrice(c, offsetBps)
      ensures LimitOnTick(c, offsetBps, filters) >= c.entryPrice
    {
      FloorIsLargest(raw, tick, k);
    }
  }

  /**
    A positive step multiple that the raw size leaves room for and that is too large for the risk budget between the
    limit and the stop.
   */
  ghost predicate StepOverBudget(
    cfg: AllocatorConfig, c: Candidate, account: AccountSnapshot, positions: seq<PositionSnapshot>,
    filters: SymbolFilters, limit: real)
    requires cfg.maxLeverage != 0.0 && c.entryPrice != 0.0 && c.StopDistance() > 0.0
  {
    var raw := RawQuantity(cfg, c, RiskBudget(cfg, account), AllowedMargin(cfg, account, OpenPositions(positions)));
    && RiskAtLimit(c, limit) > 0.0
    && exists k :: RiskBudget(cfg, account) / RiskAtLimit(c, limit) < OnGrid(k, filters.stepSize) <= raw
  }

  /** At any limit price an accepted size keeps the risk budget exactly when no such step multiple exists. */
  lemma RiskBudgetIff(
    cfg: AllocatorConfig, c: Candidate, account: AccountSnapshot, positions: seq<PositionSnapshot>,
    filters: SymbolFilters, d: Decision, limit: real)
    requires Allocated(cfg, c, account, positions, filters, d)
    ensures c.StopDistance() > 0.0
    ensures Notional(d.quantity, RiskAtLimit(c, limit)) <= RiskBudget(cfg, account)
       <==> !StepOverBudget(cfg, c, account, positions, filters, limit)
  {
    hide RiskBudget, PerPositionCap, RemainingMargin, Notional, Allocate, RawQuantity, OnGrid, FloorToStep, AllowedNotional,
         Size, RiskAtLimit, AllowedMargin;
    var risk, allowed := RiskBudget(cfg, account), AllowedMargin(cfg, account, OpenPositions(positions));
    var x, q, step := RiskAtLimit(c, limit), d.quantity, filters.stepSize;
    AcceptedIsSized(cfg, c, account, positions, filters, d);
    AllocatedFacts(cfg, c, account, positions, filters, d);
    SizePositive(cfg, c, risk, allowed, filters, d);
    LargestQuantity(cfg, c, risk, allowed, filters, d, 0);
    var raw := RawQuantity(cfg, c, risk, allowed);
    FloorIsLargest(raw, step, 0);
    NotionalSign(q, c.StopDistance());
    NotionalSign(q, x);
    if x > 0.0 {
      NotionalFits(q, x, risk);
      var m :| q == OnGrid(m, step);
      if risk / x < q {
        assert risk / x < OnGrid(m, step) <= raw;
      }
      forall k | risk / x < OnGrid(k, step) <= raw
        ensures risk / x < q
      {
        FloorIsLargest(raw, step, k);
      }
    }
  }

  lemma NotionalSign(q: real, x: real)
    requires q > 0.0
    ensures Notional(q, x) > 0.0 <==> x > 0.0
  {
  }

  lemma NotionalFits(q: real, x: real, budget: real)
    requires x > 0.0
    ensures Notional(q, x) <= budget <==> q <= budget / x
  {
  }

  /**
    A tick keeps the limit on the entry's side of the stop. For a LONG one lies above the stop and not above the offset
    limit (a negative offset limit is rounded up, so then all from it on do); for a SHORT none lies from the stop up to
    the offset limit.
   */
  ghost predicate TickClearsStop(c: Candidate, offsetBps: real, filters: SymbolFilters) {
    var raw := EntryLimitPrice(c, offsetBps);
    if c.side == Short then forall k :: OnGrid(k, filters.tickSize) <= raw ==> OnGrid(k, filters.tickSize) < c.stopPrice
    else if raw >= 0.0 then exists k :: c.stopPrice < OnGrid(k, filters.tickSize) <= raw
    else forall k :: raw <= OnGrid(k, filters.tickSize) ==> c.stopPrice < OnGrid(k, filters.tickSize)
  }

  /** The submitted limit is on the right side of its own stop exactly then; otherwise the order opens past its stop. */
  lemma LimitClearsStopIff(c: Candidate, offsetBps: real, filters: SymbolFilters)
    requires c.entryPrice > 0.0 && offsetBps >= 0.0 && filters.tickSize > 0.0
    ensures RiskAtLimit(c, LimitOnTick(c, offsetBps, filters)) > 0.0 <==> TickClearsStop(c, offsetBps, filters)
  {
    LimitPriceSide(c, offsetBps);
    var raw, tick := EntryLimitPrice(c, offsetBps), filters.tickSize;
    var limit, m := LimitOnTick(c, offsetBps, filters), Truncate(raw / tick);
    TickRounds(raw, tick);
    assert limit == OnGrid(m, tick);
    hide EntryLimitPrice, OnGrid, FloorToStep;
    if raw >= 0.0 {
      FloorIsLargest(raw, tick, m);
    } else {
      FloorOfNegativeIsLeast(raw, tick, m);
    }
    forall k
      ensures raw >= 0.0 ==> (OnGrid(k, tick) <= limit <==> OnGrid(k, tick) <= raw)
      ensures raw < 0.0 ==> (limit <= OnGrid(k, tick) <==> raw <= OnGrid(k, tick))
    {
      if raw >= 0.0 {
        FloorIsLargest(raw, tick, k);
      } else {
        FloorOfNegativeIsLeast(raw, tick, k);
      }
    }
  }

  /**
    The risk at the submitted price. It is positive exactly when a tick clears the stop, and within the budget exactly
    when no step multiple is over it. A LONG always keeps the budget. A SHORT exceeds it by less than one tick on the
    quantity and keeps it when a tick lies between the entry and the offset limit; that is also exactly when it keeps
    the risk it was sized for.
   */
  lemma RiskSurvives(
    cfg: AllocatorConfig, c: Candidate, account: AccountSnapshot, positions: seq<PositionSnapshot>,
    filters: SymbolFilters, d: Decision, offsetBps: real)
    requires Allocated(cfg, c, account, positions, filters, d) && offsetBps >= 0.0
    requires StopOnLosingSide(c)
    ensures filters.tickSize > 0.0 && c.StopDistance() > 0.0
    ensures var limit := LimitOnTick(c, offsetBps, filters);
            var risk := Notional(d.quantity, RiskAtLimit(c, limit));
            && (risk > 0.0 <==> TickClearsStop(c, offsetBps, filters))
            && (risk <= RiskBudget(cfg, account) <==> !StepOverBudget(cfg, c, account, positions, filters, limit))
            && (c.side == Long ==> risk <= RiskBudget(cfg, account))
            && (c.side == Short ==>
                  && risk < RiskBudget(cfg, account) + Notional(d.quantity, filters.tickSize)
                  && (TickFits(c, offsetBps, filters) ==> risk <= RiskBudget(cfg, account))
                  && (risk <= Notional(d.quantity, c.StopDistance()) <==> TickFits(c, offsetBps, filters)))
  {
    hide Notional, FloorToStep, Allocate, AllowedNotional, RiskBudget, EntryLimitPrice, TickFits, TickClearsStop,
         StepOverBudget;
    AllocatedFacts(cfg, c, account, positions, filters, d);
    var limit := LimitOnTick(c, offsetBps, filters);
    LimitPriceSide(c, offsetBps);
    LimitClearsStopIff(c, offsetBps, filters);
    NotionalSign(d.quantity, RiskAtLimit(c, limit));
    RiskBudgetIff(cfg, c, account, positions, filters, d, limit);
    if c.side == Long {
      FloorNeverAbove(EntryLimitPrice(c, offsetBps), c.entryPrice, filters.tickSize);
      NotionalAtMost(d.quantity, RiskAtLimit(c, limit), c.StopDistance());
    } else {
      ShortLimitAboveEntryIff(c, offsetBps, filters);
      NotionalOrderIff(d.quantity, RiskAtLimit(c, limit), c.StopDistance());
      FloorLosesLessThanStep(EntryLimitPrice(c, offsetBps), filters.tickSize);
      NotionalOfSum(d.quantity, c.StopDistance(), filters.tickSize);
      NotionalOrderIff(d.quantity, c.StopDistance() + filters.tickSize, RiskAtLimit(c, limit));
    }
  }

  lemma NotionalOfSum(q: real, a: real, b: real)
    ensures Notional(q, a + b) == Notional(q, a) + Notional(q, b)
  {
  }

  lemma NotionalOrderIff(q: real, a: real, b: real)
    requires q > 0.0
    ensures Notional(q, a) <= Notional(q, b) <==> a <= b
  {
  }

  /** A LONG the allocator accepts and the order filter then rejects. */
  lemma LongCanFailFilters()
    ensures var cfg := DEFAULT_CONFIG.(riskFractionPerTrade := 0.0005);
            var c := Candidate("BTCUSDT", Long, 100.0, 95.0, "setup");
            var filters := SymbolFilters(0.1, 0.001, 50.0);
            var r := Allocate(cfg, c, AccountSnapshot(10000.0), [], filters);
            && r.Success? && r.value.accepted
            && SubmittedIntent(c, r.value, 5.0, filters) == Failure(BelowMinNotionalFilter)
  {
    var cfg := DEFAULT_CONFIG.(riskFractionPerTrade := 0.0005);
    var c := Candidate("BTCUSDT", Long, 100.0, 95.0, "setup");
    var filters := SymbolFilters(0.1, 0.001, 50.0);
    var account := AccountSnapshot(10000.0);
    assert Usable(cfg, account) == 5000.0;
    assert RiskBudget(cfg, account) == 2.5;
    assert PerPositionCap(cfg, account) == 600.0;
    assert RemainingMargin(cfg, account, []) == 2500.0;
    assert RawQuantity(cfg, c, 2.5, 600.0) == 0.5;
    assert 0.5 / 0.001 == 500.0 && 100.0 / 0.1 == 1000.0;
    assert FloorToStep(0.5, 0.001) == Success(0.5);
    assert FloorToStep(100.0, 0.1) == Success(100.0);
    var d := Allocate(cfg, c, account, [], filters).value;
    assert MarginOf(50.0, 3.0) <= 17.0;
    QuantizeRoundsDown(MarginOf(50.0, 3.0));
    assert d.accepted && d.quantity == 0.5;
    assert EntryLimitPrice(c, 5.0) == 99.95;
    assert 99.95 / 0.1 == 999.5;
    assert FloorToStep(99.95, 0.1) == Success(99.9);
  }

  /** A SHORT at the default offset that risks more than its budget: a tick of 0.5 takes its limit below its entry. */
  lemma ShortCanExceedRiskBudget()
    ensures var account := AccountSnapshot(10000.0);
            var c := Candidate("BTCUSDT", Short, 100.4, 105.4, "setup");
            var filters := SymbolFilters(0.5, 0.001, 5.0);
            var r := Allocate(DEFAULT_CONFIG, c, account, [], filters);
            && r.Success? && r.value.accepted
            && SubmittedIntent(c, r.value, 5.0, filters).Success?
            && Notional(r.value.quantity, RiskAtLimit(c, LimitOnTick(c, 5.0, filters))) == 54.0
            && RiskBudget(DEFAULT_CONFIG, account) == 50.0
  {
    var cfg, account := DEFAULT_CONFIG, AccountSnapshot(10000.0);
    var c := Candidate("BTCUSDT", Short, 100.4, 105.4, "setup");
    var filters := SymbolFilters(0.5, 0.001, 5.0);
    assert Usable(cfg, account) == 5000.0;
    assert RiskBudget(cfg, account) == 50.0;
    assert PerPositionCap(cfg, account) == 600.0;
    assert RemainingMargin(cfg, account, []) == 2500.0;
    assert RawQuantity(cfg, c, 50.0, 600.0) == 10.0;
    assert 10.0 / 0.001 == 10000.0 && 100.4 / 0.5 == 200.8;
    assert FloorToStep(10.0, 0.001) == Success(10.0);
    assert FloorToStep(100.4, 0.5) == Success(100.0);
    var d := Allocate(cfg, c, account, [], filters).value;
    assert MarginOf(1000.0, 3.0) <= 334.0;
    QuantizeRoundsDown(MarginOf(1000.0, 3.0));
    assert d.accepted && d.quantity == 10.0;
    assert EntryLimitPrice(c, 5.0) == 100.4502;
    assert 100.4502 / 0.5 == 200.9004;
    assert FloorToStep(100.4502, 0.5) == Success(100.0);
  }

  /** A LONG at the default offset that is submitted at a limit below its own stop. */
  lemma LongCanOpenPastStop()
    ensures var account := AccountSnapshot(10000.0);
            var c := Candidate("BTCUSDT", Long, 100.0, 99.98, "setup");
            var filters := SymbolFilters(0.01, 0.001, 5.0);
            var r := Allocate(DEFAULT_CONFIG, c, account, [], filters);
            && r.Success? && r.value.accepted
            && SubmittedIntent(c, r.value, 5.0, filters).Success?
            && LimitOnTick(c, 5.0, filters) == 99.95 < c.stopPrice
  {
    var cfg, account := DEFAULT_CONFIG, AccountSnapshot(10000.0);
    var c := Candidate("BTCUSDT", Long, 100.0, 99.98, "setup");
    var filters := SymbolFilters(0.01, 0.001, 5.0);
    assert Usable(cfg, account) == 5000.0;
    assert RiskBudget(cfg, account) == 50.0;
    assert PerPositionCap(cfg, account) == 600.0;
    assert RemainingMargin(cfg, account, []) == 2500.0;
    assert RawQuantity(cfg, c, 50.0, 600.0) == 18.0;
    assert 18.0 / 0.001 == 18000.0 && 100.0 / 0.01 == 10000.0;
    assert FloorToStep(18.0, 0.001) == Success(18.0);
    assert FloorToStep(100.0, 0.01) == Success(100.0);
    var d := Allocate(cfg, c, account, [], filters).value;
    QuantizeRoundsDown(MarginOf(1800.0, 3.0));
    assert d.accepted && d.quantity == 18.0;
    assert EntryLimitPrice(c, 5.0) == 99.95;
    assert 99.95 / 0.01 == 9995.0;
    assert FloorToStep(99.95, 0.01) == Success(99.95);
  }
}
