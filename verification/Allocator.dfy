/** The account-aware allocator: gates, margin caps and position size. */
module Allocator {
  import opened Prelude
  import opened Market
  import opened Models
  import opened Filters

  datatype AllocatorConfig = AllocatorConfig(
    symbols: set<string>,
    usableBalanceFraction: real,
    maxPortfolioMarginFraction: real,
    maxPerPositionMarginFraction: real,
    maxLeverage: real,
    maxConcurrentPositions: int,
    minAvailableBalance: real,
    riskFractionPerTrade: real)
  {
    predicate Valid() {
      && usableBalanceFraction >= 0.0 && maxPortfolioMarginFraction >= 0.0
      && maxPerPositionMarginFraction >= 0.0 && riskFractionPerTrade >= 0.0
      && maxLeverage > 0.0
    }
  }

  const DEFAULT_CONFIG :=
    AllocatorConfig({"BTCUSDT", "ETHUSDT", "SOLUSDT", "BNBUSDT", "HYPEUSDT"}, 0.5, 0.5, 0.12, 3.0, 3, 500.0, 0.01)

  datatype Candidate = Candidate(
    symbol: string, side: PositionSide, entryPrice: real, stopPrice: real, setupId: string)
  {
    function StopDistance(): real {
      Abs(entryPrice - stopPrice)
    }
  }

  datatype Reason =
    | Accepted
    | SymbolNotAllowed
    | AvailableBalanceTooLow
    | InvalidStopDistance
    | SymbolAlreadyHasPosition
    | MaxConcurrentPositionsReached
    | PortfolioMarginCapReached
    | QuantityFloorsToZero
    | BelowMinNotional
    | MarginExceedsAllowedCap
    | AckRequired
    | MaxNewOrdersPerRunReached
    | SafeModeBlocksNewEntries
    | CloseOrderMustBeReduceOnly
    | SignalOnlyNoSubmit
    | SubmittedToSimOrTestnet

  datatype Decision = Decision(
    accepted: bool,
    symbol: string,
    side: PositionSide,
    quantity: real,
    entryPrice: real,
    notional: real,
    initialMargin: real,
    leverage: real,
    riskAmount: real,
    reason: Reason)

  function Reject(cfg: AllocatorConfig, c: Candidate, reason: Reason): Decision {
    Decision(false, c.symbol, c.side, 0.0, c.entryPrice, 0.0, 0.0, cfg.maxLeverage, 0.0, reason)
  }

  function OpenPositions(positions: seq<PositionSnapshot>): seq<PositionSnapshot> {
    if |positions| == 0 then []
    else
      var rest := OpenPositions(positions[..|positions| - 1]);
      var last := positions[|positions| - 1];
      if last.IsFlat() then rest else rest + [last]
  }

  predicate HasOpenPosition(symbol: string, positions: seq<PositionSnapshot>) {
    exists i :: 0 <= i < |positions| && positions[i].symbol == symbol && !positions[i].IsFlat()
  }

  /** A reported notional of zero falls back to amount times mark price when there is a mark price. */
  function PositionNotional(p: PositionSnapshot): real {
    if Abs(p.notional) <= 0.0 && p.markPrice.Some? then Abs(p.amount * p.markPrice.value) else Abs(p.notional)
  }

  function MarginOf(notional: real, leverage: real): real
    requires leverage != 0.0
  {
    notional / leverage
  }

  function UsedMargin(positions: seq<PositionSnapshot>, leverage: real): real
    requires leverage != 0.0 || |positions| == 0
  {
    if |positions| == 0 then 0.0
    else
      UsedMargin(positions[..|positions| - 1], leverage)
      + MarginOf(PositionNotional(positions[|positions| - 1]), leverage)
  }

  method SumInitialMargin(positions: seq<PositionSnapshot>, leverage: real) returns (r: Result<real, PipelineError>)
    ensures r == if leverage == 0.0 && |positions| > 0 then Failure(ZeroDivision)
                 else Success(UsedMargin(positions, leverage))
  {
    var total := 0.0;
    for i := 0 to |positions|
      invariant leverage != 0.0 || i == 0
      invariant total == UsedMargin(positions[..i], leverage)
    {
      assert positions[..i + 1][..i] == positions[..i];
      var notional := Abs(positions[i].notional);
      if notional <= 0.0 && positions[i].markPrice.Some? {
        notional := Abs(positions[i].amount * positions[i].markPrice.value);
      }
      if leverage == 0.0 {
        return Failure(ZeroDivision);
      }
      total := total + MarginOf(notional, leverage);
    }
    assert positions[..|positions|] == positions;
    r := Success(total);
  }

  function Usable(cfg: AllocatorConfig, account: AccountSnapshot): real {
    account.availableBalance * cfg.usableBalanceFraction
  }

  function PortfolioCap(cfg: AllocatorConfig, account: AccountSnapshot): real {
    Usable(cfg, account) * cfg.maxPortfolioMarginFraction
  }

  function PerPositionCap(cfg: AllocatorConfig, account: AccountSnapshot): real {
    Usable(cfg, account) * cfg.maxPerPositionMarginFraction
  }

  function RiskBudget(cfg: AllocatorConfig, account: AccountSnapshot): real {
    Usable(cfg, account) * cfg.riskFractionPerTrade
  }

  function AllowedNotional(cfg: AllocatorConfig, allowedMargin: real): real {
    allowedMargin * cfg.maxLeverage
  }

  function RawQuantity(cfg: AllocatorConfig, c: Candidate, riskBudget: real, allowedMargin: real): real
    requires c.StopDistance() > 0.0 && c.entryPrice != 0.0
  {
    Min(riskBudget / c.StopDistance(), AllowedNotional(cfg, allowedMargin) / c.entryPrice)
  }

  /** The sizing half of allocate, once every gate has passed. */
  function Size(cfg: AllocatorConfig, c: Candidate, riskBudget: real, allowedMargin: real, filters: SymbolFilters)
    : Result<Decision, PipelineError>
    requires c.StopDistance() > 0.0
  {
    if c.entryPrice == 0.0 then Failure(ZeroDivision)
    else
      var quantity :- FloorToStep(RawQuantity(cfg, c, riskBudget, allowedMargin), filters.stepSize);
      var entryPrice :- RoundPriceToTick(c.entryPrice, filters.tickSize);
      var notional := Notional(quantity, entryPrice);
      if quantity <= 0.0 then Success(Reject(cfg, c, QuantityFloorsToZero))
      else if notional < filters.minNotional then Success(Reject(cfg, c, BelowMinNotional))
      else if cfg.maxLeverage == 0.0 then Failure(ZeroDivision)
      else
        var initialMargin := QuantizeUsdt(MarginOf(notional, cfg.maxLeverage));
        if initialMargin > allowedMargin then Success(Reject(cfg, c, MarginExceedsAllowedCap))
        else
          Success(Decision(true, c.symbol, c.side, quantity, entryPrice, QuantizeUsdt(notional), initialMargin,
                           cfg.maxLeverage, QuantizeUsdt(Notional(quantity, c.StopDistance())), Accepted))
  }

  function Allocate(
    cfg: AllocatorConfig, c: Candidate, account: AccountSnapshot, positions: seq<PositionSnapshot>,
    filters: SymbolFilters): Result<Decision, PipelineError>
  {
    var open := OpenPositions(positions);
    if c.symbol !in cfg.symbols then Success(Reject(cfg, c, SymbolNotAllowed))
    else if account.availableBalance < cfg.minAvailableBalance then Success(Reject(cfg, c, AvailableBalanceTooLow))
    else if c.StopDistance() <= 0.0 then Success(Reject(cfg, c, InvalidStopDistance))
    else if HasOpenPosition(c.symbol, positions) then Success(Reject(cfg, c, SymbolAlreadyHasPosition))
    else if |open| >= cfg.maxConcurrentPositions then Success(Reject(cfg, c, MaxConcurrentPositionsReached))
    else if cfg.maxLeverage == 0.0 && |open| > 0 then Failure(ZeroDivision)
    else
      var remaining := RemainingMargin(cfg, account, open);
      if remaining <= 0.0 then Success(Reject(cfg, c, PortfolioMarginCapReached))
      else Size(cfg, c, RiskBudget(cfg, account), Min(PerPositionCap(cfg, account), remaining), filters)
  }

  function RemainingMargin(cfg: AllocatorConfig, account: AccountSnapshot, open: seq<PositionSnapshot>): real
    requires cfg.maxLeverage != 0.0 || |open| == 0
  {
    PortfolioCap(cfg, account) - UsedMargin(open, cfg.maxLeverage)
  }

  // ---------------------------------------------------------------- the size

  /** A quantity stays within both caps exactly when it is no larger than the raw quantity. */
  lemma WithinCapsIff(cfg: AllocatorConfig, c: Candidate, riskBudget: real, allowedMargin: real, q: real)
    requires c.StopDistance() > 0.0 && c.entryPrice > 0.0
    ensures q <= RawQuantity(cfg, c, riskBudget, allowedMargin)
       <==> Notional(q, c.StopDistance()) <= riskBudget && Notional(q, c.entryPrice) <= AllowedNotional(cfg, allowedMargin)
  {
  }

  /** The sizes a positive entry price and leverage leave room for. */
  ghost predicate Sized(
    cfg: AllocatorConfig, c: Candidate, riskBudget: real, allowedMargin: real, filters: SymbolFilters, d: Decision)
  {
    && cfg.maxLeverage > 0.0 && c.entryPrice > 0.0 && c.StopDistance() > 0.0
    && Size(cfg, c, riskBudget, allowedMargin, filters) == Success(d)
  }

  lemma SizePositive(
    cfg: AllocatorConfig, c: Candidate, riskBudget: real, allowedMargin: real, filters: SymbolFilters, d: Decision)
    requires Sized(cfg, c, riskBudget, allowedMargin, filters, d) && d.accepted
    ensures filters.stepSize > 0.0 && filters.tickSize > 0.0
    ensures RawQuantity(cfg, c, riskBudget, allowedMargin) >= 0.0
    ensures FloorToStep(RawQuantity(cfg, c, riskBudget, allowedMargin), filters.stepSize) == Success(d.quantity)
    ensures RoundPriceToTick(c.entryPrice, filters.tickSize) == Success(d.entryPrice)
    ensures d.quantity > 0.0 && 0.0 <= d.entryPrice <= c.entryPrice
  {
    hide RawQuantity, QuantizeUsdt, Notional, MarginOf;
    var raw := RawQuantity(cfg, c, riskBudget, allowedMargin);
    FloorIsLargest(c.entryPrice, filters.tickSize, 0);
    if raw < 0.0 {
      FloorOfNegative(raw, filters.stepSize);
    }
  }

  /** The quantity is the largest multiple of the step that meets both the risk and the notional cap. */
  lemma LargestQuantity(
    cfg: AllocatorConfig, c: Candidate, riskBudget: real, allowedMargin: real, filters: SymbolFilters,
    d: Decision, k: int)
    requires Sized(cfg, c, riskBudget, allowedMargin, filters, d) && d.accepted
    ensures exists m :: d.quantity == OnGrid(m, filters.stepSize)
    ensures OnGrid(k, filters.stepSize) <= d.quantity
       <==> && Notional(OnGrid(k, filters.stepSize), c.StopDistance()) <= riskBudget
            && Notional(OnGrid(k, filters.stepSize), c.entryPrice) <= AllowedNotional(cfg, allowedMargin)
  {
    hide Size, AllowedNotional, Notional;
    SizePositive(cfg, c, riskBudget, allowedMargin, filters, d);
    var raw := RawQuantity(cfg, c, riskBudget, allowedMargin);
    FloorIsLargest(raw, filters.stepSize, k);
    WithinCapsIff(cfg, c, riskBudget, allowedMargin, OnGrid(k, filters.stepSize));
    assert d.quantity == OnGrid(Truncate(raw / filters.stepSize), filters.stepSize);
  }

  lemma QuantityWithinCaps(
    cfg: AllocatorConfig, c: Candidate, riskBudget: real, allowedMargin: real, filters: SymbolFilters, d: Decision)
    requires Sized(cfg, c, riskBudget, allowedMargin, filters, d) && d.accepted
    ensures Notional(d.quantity, c.StopDistance()) <= riskBudget
    ensures Notional(d.quantity, c.entryPrice) <= AllowedNotional(cfg, allowedMargin)
    ensures Notional(d.quantity, d.entryPrice) <= Notional(d.quantity, c.entryPrice)
    ensures Notional(d.quantity, d.entryPrice) >= filters.minNotional
  {
    SizePositive(cfg, c, riskBudget, allowedMargin, filters, d);
    var raw := RawQuantity(cfg, c, riskBudget, allowedMargin);
    FloorIsLargest(raw, filters.stepSize, 0);
    ScaleOrdered(d.quantity, d.entryPrice, c.entryPrice);
    assert Notional(d.quantity, d.entryPrice) <= Notional(d.quantity, c.entryPrice);
    hide Notional, AllowedNotional, RawQuantity, FloorToStep, QuantizeUsdt, MarginOf;
    WithinCapsIff(cfg, c, riskBudget, allowedMargin, d.quantity);
  }

  lemma MarginWithin(notional: real, allowed: real, cap: real, leverage: real)
    requires leverage > 0.0 && cap == allowed * leverage
    ensures notional <= cap <==> MarginOf(notional, leverage) <= allowed
  {
  }

  lemma MarginNonNegative(notional: real, leverage: real)
    requires leverage > 0.0
    ensures MarginOf(notional, leverage) >= 0.0 <==> notional >= 0.0
  {
  }

  /** With a positive entry price and leverage MARGIN_EXCEEDS_ALLOWED_CAP is dead code. */
  lemma MarginCheckNeverFires(
    cfg: AllocatorConfig, c: Candidate, riskBudget: real, allowedMargin: real, filters: SymbolFilters, d: Decision)
    requires Sized(cfg, c, riskBudget, allowedMargin, filters, d)
    ensures d.reason != MarginExceedsAllowedCap
  {
    if filters.stepSize > 0.0 && filters.tickSize > 0.0 {
      var raw := RawQuantity(cfg, c, riskBudget, allowedMargin);
      var q := FloorToStep(raw, filters.stepSize).value;
      var price := RoundPriceToTick(c.entryPrice, filters.tickSize).value;
      hide RawQuantity, MarginOf, QuantizeUsdt, Notional;
      if raw < 0.0 {
        FloorOfNegative(raw, filters.stepSize);
      } else {
        FloorIsLargest(raw, filters.stepSize, 0);
        FloorIsLargest(c.entryPrice, filters.tickSize, 0);
        WithinCapsIff(cfg, c, riskBudget, allowedMargin, q);
        NotionalOrder(q, price, c.entryPrice);
        MarginWithin(Notional(q, price), allowedMargin, AllowedNotional(cfg, allowedMargin), cfg.maxLeverage);
        MarginNonNegative(Notional(q, price), cfg.maxLeverage);
        QuantizeRoundsDown(MarginOf(Notional(q, price), cfg.maxLeverage));
      }
    }
  }

  lemma NotionalOrder(q: real, a: real, b: real)
    requires q >= 0.0 && 0.0 <= a <= b
    ensures 0.0 <= Notional(q, a) <= Notional(q, b)
  {
  }

  // ---------------------------------------------------------------- the whole decision

  /** The gates of allocate before any arithmetic. */
  ghost predicate Gated(
    cfg: AllocatorConfig, c: Candidate, account: AccountSnapshot, positions: seq<PositionSnapshot>)
  {
    && c.symbol in cfg.symbols
    && account.availableBalance >= cfg.minAvailableBalance
    && c.StopDistance() > 0.0
    && !HasOpenPosition(c.symbol, positions)
    && |OpenPositions(positions)| < cfg.maxConcurrentPositions
  }

  function AllowedMargin(cfg: AllocatorConfig, account: AccountSnapshot, open: seq<PositionSnapshot>): real
    requires cfg.maxLeverage != 0.0 || |open| == 0
  {
    Min(PerPositionCap(cfg, account), RemainingMargin(cfg, account, open))
  }

  /** An accepted decision passed every gate and was sized from what is left of the margin. */
  lemma AcceptedIsSized(
    cfg: AllocatorConfig, c: Candidate, account: AccountSnapshot, positions: seq<PositionSnapshot>,
    filters: SymbolFilters, d: Decision)
    requires cfg.maxLeverage > 0.0 && c.entryPrice > 0.0
    requires Allocate(cfg, c, account, positions, filters) == Success(d)
    ensures var open := OpenPositions(positions);
            d.accepted ==>
              && Gated(cfg, c, account, positions)
              && RemainingMargin(cfg, account, open) > 0.0
              && Sized(cfg, c, RiskBudget(cfg, account), AllowedMargin(cfg, account, open), filters, d)
  {
  }

  /**
    Every accepted decision keeps the risk budget, the per-position cap and the portfolio cap, on the
    unrounded margin, and its unrounded notional meets the exchange minimum.
   */
  lemma AllocatorCaps(
    cfg: AllocatorConfig, c: Candidate, account: AccountSnapshot, positions: seq<PositionSnapshot>,
    filters: SymbolFilters, d: Decision)
    requires cfg.maxLeverage > 0.0 && c.entryPrice > 0.0
    requires Allocate(cfg, c, account, positions, filters) == Success(d) && d.accepted
    ensures d.quantity > 0.0 && exists m :: d.quantity == OnGrid(m, filters.stepSize)
    ensures Notional(d.quantity, c.StopDistance()) <= RiskBudget(cfg, account)
    ensures var margin := MarginOf(Notional(d.quantity, d.entryPrice), cfg.maxLeverage);
            && 0.0 <= d.initialMargin <= margin
            && margin <= PerPositionCap(cfg, account)
            && UsedMargin(OpenPositions(positions), cfg.maxLeverage) + margin <= PortfolioCap(cfg, account)
    ensures Notional(d.quantity, d.entryPrice) >= filters.minNotional
    ensures 0.0 <= d.riskAmount <= RiskBudget(cfg, account)
    ensures c.symbol in cfg.symbols && !HasOpenPosition(c.symbol, positions)
    ensures |OpenPositions(positions)| + 1 <= cfg.maxConcurrentPositions
  {
    hide RiskBudget, PerPositionCap, PortfolioCap, Notional, MarginOf, QuantizeUsdt, Allocate, RawQuantity, OnGrid,
         FloorToStep;
    AcceptedIsSized(cfg, c, account, positions, filters, d);
    var open := OpenPositions(positions);
    var risk, allowed := RiskBudget(cfg, account), AllowedMargin(cfg, account, open);
    SizePositive(cfg, c, risk, allowed, filters, d);
    QuantityWithinCaps(cfg, c, risk, allowed, filters, d);
    LargestQuantity(cfg, c, risk, allowed, filters, d, 0);
    NotionalOrder(d.quantity, d.entryPrice, c.entryPrice);
    NotionalOrder(d.quantity, c.StopDistance(), c.StopDistance());
    MarginWithin(Notional(d.quantity, d.entryPrice), allowed, AllowedNotional(cfg, allowed), cfg.maxLeverage);
    MarginNonNegative(Notional(d.quantity, d.entryPrice), cfg.maxLeverage);
    QuantizeRoundsDown(MarginOf(Notional(d.quantity, d.entryPrice), cfg.maxLeverage));
    QuantizeRoundsDown(Notional(d.quantity, c.StopDistance()));
  }

  lemma CapsGrow(cfg: AllocatorConfig, a: AccountSnapshot, b: AccountSnapshot)
    requires cfg.Valid() && a.availableBalance <= b.availableBalance
    ensures PortfolioCap(cfg, a) <= PortfolioCap(cfg, b)
    ensures PerPositionCap(cfg, a) <= PerPositionCap(cfg, b)
    ensures RiskBudget(cfg, a) <= RiskBudget(cfg, b)
  {
    ScaleOrdered(cfg.usableBalanceFraction, a.availableBalance, b.availableBalance);
    assert Usable(cfg, a) <= Usable(cfg, b);
    hide Usable;
    ScaleOrdered(cfg.maxPortfolioMarginFraction, Usable(cfg, a), Usable(cfg, b));
    ScaleOrdered(cfg.maxPerPositionMarginFraction, Usable(cfg, a), Usable(cfg, b));
    ScaleOrdered(cfg.riskFractionPerTrade, Usable(cfg, a), Usable(cfg, b));
  }

  lemma AllowedNotionalGrows(cfg: AllocatorConfig, a: real, b: real)
    requires cfg.maxLeverage > 0.0 && a <= b
    ensures AllowedNotional(cfg, a) <= AllowedNotional(cfg, b)
  {
  }

  /** Larger caps keep an accepted size accepted, and no smaller. */
  lemma SizeMonotone(
    cfg: AllocatorConfig, c: Candidate, risk: real, allowed: real, moreRisk: real, moreAllowed: real,
    filters: SymbolFilters, d: Decision)
    requires Sized(cfg, c, risk, allowed, filters, d) && d.accepted
    requires risk <= moreRisk && allowed <= moreAllowed
    ensures var r := Size(cfg, c, moreRisk, moreAllowed, filters);
            r.Success? && r.value.accepted && r.value.quantity >= d.quantity
  {
    SizePositive(cfg, c, risk, allowed, filters, d);
    QuantityWithinCaps(cfg, c, risk, allowed, filters, d);
    hide RawQuantity, QuantizeUsdt, MarginOf, Notional, AllowedNotional;
    var before, raw := RawQuantity(cfg, c, risk, allowed), RawQuantity(cfg, c, moreRisk, moreAllowed);
    AllowedNotionalGrows(cfg, allowed, moreAllowed);
    WithinCapsIff(cfg, c, risk, allowed, before);
    WithinCapsIff(cfg, c, moreRisk, moreAllowed, before);
    FloorMonotone(before, raw, filters.stepSize);
    var q := FloorToStep(raw, filters.stepSize).value;
    NotionalGrows(d.quantity, q, d.entryPrice);
    MarginCheckNeverFires(cfg, c, moreRisk, moreAllowed, filters, Size(cfg, c, moreRisk, moreAllowed, filters).value);
  }

  lemma NotionalGrows(q: real, r: real, price: real)
    requires 0.0 <= q <= r && price >= 0.0
    ensures Notional(q, price) <= Notional(r, price)
  {
  }

  /** Raising the available balance keeps an accepted candidate accepted, with a quantity no smaller. */
  lemma BalanceMonotone(
    cfg: AllocatorConfig, c: Candidate, a: AccountSnapshot, b: AccountSnapshot, positions: seq<PositionSnapshot>,
    filters: SymbolFilters, d: Decision)
    requires cfg.Valid() && c.entryPrice > 0.0
    requires a.availableBalance <= b.availableBalance
    requires Allocate(cfg, c, a, positions, filters) == Success(d) && d.accepted
    ensures var r := Allocate(cfg, c, b, positions, filters);
            r.Success? && r.value.accepted && r.value.quantity >= d.quantity
  {
    hide RiskBudget, PerPositionCap, PortfolioCap, Size, Sized;
    AcceptedIsSized(cfg, c, a, positions, filters, d);
    CapsGrow(cfg, a, b);
    var open := OpenPositions(positions);
    SizeMonotone(cfg, c, RiskBudget(cfg, a), AllowedMargin(cfg, a, open), RiskBudget(cfg, b), AllowedMargin(cfg, b, open),
                 filters, d);
  }

  /** The dead branch of the whole decision. */
  lemma MarginExceedsUnreachable(
    cfg: AllocatorConfig, c: Candidate, account: AccountSnapshot, positions: seq<PositionSnapshot>,
    filters: SymbolFilters, d: Decision)
    requires cfg.maxLeverage > 0.0 && c.entryPrice > 0.0
    requires Allocate(cfg, c, account, positions, filters) == Success(d)
    ensures d.reason != MarginExceedsAllowedCap
  {
    hide Size, RiskBudget, PerPositionCap, RemainingMargin;
    var open := OpenPositions(positions);
    var allowed := AllowedMargin(cfg, account, open);
    if Gated(cfg, c, account, positions) && RemainingMargin(cfg, account, open) > 0.0 {
      MarginCheckNeverFires(cfg, c, RiskBudget(cfg, account), allowed, filters, d);
    }
  }

  /** A positive multiple of the step that meets both caps and the exchange minimum. */
  ghost predicate Feasible(
    cfg: AllocatorConfig, c: Candidate, riskBudget: real, allowedMargin: real, filters: SymbolFilters,
    tickPrice: real, k: int)
  {
    var q := OnGrid(k, filters.stepSize);
    && q > 0.0
    && Notional(q, c.StopDistance()) <= riskBudget
    && Notional(q, c.entryPrice) <= AllowedNotional(cfg, allowedMargin)
    && Notional(q, tickPrice) >= filters.minNotional
  }

  /** Sizing accepts exactly when some tradable quantity fits: it never gives up on a candidate it could size. */
  lemma SizeAcceptsIff(
    cfg: AllocatorConfig, c: Candidate, riskBudget: real, allowedMargin: real, filters: SymbolFilters)
    requires cfg.maxLeverage > 0.0 && c.entryPrice > 0.0 && c.StopDistance() > 0.0
    requires filters.stepSize > 0.0 && filters.tickSize > 0.0
    ensures RoundPriceToTick(c.entryPrice, filters.tickSize).Success?
    ensures var r := Size(cfg, c, riskBudget, allowedMargin, filters);
            var tickPrice := RoundPriceToTick(c.entryPrice, filters.tickSize).value;
            && r.Success?
            && (r.value.accepted <==> exists k :: Feasible(cfg, c, riskBudget, allowedMargin, filters, tickPrice, k))
  {
    var r := Size(cfg, c, riskBudget, allowedMargin, filters);
    var tickPrice := RoundPriceToTick(c.entryPrice, filters.tickSize).value;
    FloorIsLargest(c.entryPrice, filters.tickSize, 0);
    if r.value.accepted {
      SizePositive(cfg, c, riskBudget, allowedMargin, filters, r.value);
      QuantityWithinCaps(cfg, c, riskBudget, allowedMargin, filters, r.value);
      LargestQuantity(cfg, c, riskBudget, allowedMargin, filters, r.value, 0);
      var k :| r.value.quantity == OnGrid(k, filters.stepSize);
      hide Size, OnGrid, Notional, AllowedNotional, RawQuantity;
      assert Feasible(cfg, c, riskBudget, allowedMargin, filters, tickPrice, k);
    }
    forall k | Feasible(cfg, c, riskBudget, allowedMargin, filters, tickPrice, k)
      ensures r.value.accepted
    {
      FeasibleIsAccepted(cfg, c, riskBudget, allowedMargin, filters, tickPrice, k);
    }
  }

  lemma FeasibleIsAccepted(
    cfg: AllocatorConfig, c: Candidate, riskBudget: real, allowedMargin: real, filters: SymbolFilters,
    tickPrice: real, k: int)
    requires cfg.maxLeverage > 0.0 && c.entryPrice > 0.0 && c.StopDistance() > 0.0
    requires filters.stepSize > 0.0 && tickPrice >= 0.0
    requires RoundPriceToTick(c.entryPrice, filters.tickSize) == Success(tickPrice)
    requires Feasible(cfg, c, riskBudget, allowedMargin, filters, tickPrice, k)
    ensures var r := Size(cfg, c, riskBudget, allowedMargin, filters);
            r.Success? && r.value.accepted
  {
    hide RawQuantity, OnGrid, Notional, AllowedNotional, QuantizeUsdt, MarginOf;
    var raw := RawQuantity(cfg, c, riskBudget, allowedMargin);
    var q := OnGrid(k, filters.stepSize);
    WithinCapsIff(cfg, c, riskBudget, allowedMargin, q);
    FloorIsLargest(raw, filters.stepSize, k);
    NotionalGrows(q, FloorToStep(raw, filters.stepSize).value, tickPrice);
    MarginCheckNeverFires(cfg, c, riskBudget, allowedMargin, filters,
                          Size(cfg, c, riskBudget, allowedMargin, filters).value);
  }

  /**
    The whole allocator accepts exactly when every gate passes, some portfolio margin is left and some tradable
    quantity fits in what the caps allow.
   */
  lemma AllocateAcceptsIff(
    cfg: AllocatorConfig, c: Candidate, account: AccountSnapshot, positions: seq<PositionSnapshot>,
    filters: SymbolFilters)
    requires cfg.maxLeverage > 0.0 && c.entryPrice > 0.0
    requires filters.stepSize > 0.0 && filters.tickSize > 0.0
    ensures RoundPriceToTick(c.entryPrice, filters.tickSize).Success?
    ensures var r, open := Allocate(cfg, c, account, positions, filters), OpenPositions(positions);
            var tickPrice := RoundPriceToTick(c.entryPrice, filters.tickSize).value;
            && r.Success?
            && (r.value.accepted
                <==> && Gated(cfg, c, account, positions)
                     && RemainingMargin(cfg, account, open) > 0.0
                     && exists k ::
                          Feasible(cfg, c, RiskBudget(cfg, account), AllowedMargin(cfg, account, open), filters,
                                   tickPrice, k))
  {
    hide Size, RiskBudget, RemainingMargin, PerPositionCap, Feasible, FloorToStep, HasOpenPosition, OpenPositions;
    TickRounds(c.entryPrice, filters.tickSize);
    if c.StopDistance() > 0.0 {
      SizeAcceptsIff(cfg, c, RiskBudget(cfg, account), AllowedMargin(cfg, account, OpenPositions(positions)), filters);
    }
  }

  // ---------------------------------------------------------------- the decision in numbers

  /** What each position is worth: its reported notional, or amount times mark price when that is zero. */
  lemma PositionNotionalCases(p: PositionSnapshot)
    ensures p.notional > 0.0 ==> PositionNotional(p) == p.notional
    ensures p.notional < 0.0 ==> PositionNotional(p) == -p.notional
    ensures p.notional == 0.0 && p.markPrice.None? ==> PositionNotional(p) == 0.0
    ensures p.notional == 0.0 && p.markPrice.Some? ==>
              PositionNotional(p) >= 0.0
              && (PositionNotional(p) == p.amount * p.markPrice.value
                  || PositionNotional(p) == -(p.amount * p.markPrice.value))
  {
    if p.markPrice.Some? {
      var worth := p.amount * p.markPrice.value;
    }
  }

  function Notionals(positions: seq<PositionSnapshot>): (r: seq<real>)
    ensures |r| == |positions|
  {
    seq(|positions|, i requires 0 <= i < |positions| => PositionNotional(positions[i]))
  }

  /** The margin in use is the total notional over the leverage. */
  lemma {:induction false} UsedMarginIsSum(positions: seq<PositionSnapshot>, leverage: real)
    requires leverage != 0.0
    ensures UsedMargin(positions, leverage) == MarginOf(Sum(Notionals(positions)), leverage)
  {
    if |positions| > 0 {
      var k := |positions| - 1;
      UsedMarginIsSum(positions[..k], leverage);
      assert Notionals(positions) == Notionals(positions[..k]) + [PositionNotional(positions[k])];
      SumNext(Notionals(positions[..k]), PositionNotional(positions[k]));
      hide PositionNotional, Notionals, Sum, MarginOf;
      MarginOfSum(Sum(Notionals(positions[..k])), PositionNotional(positions[k]), leverage);
    }
  }

  lemma MarginOfSum(a: real, b: real, leverage: real)
    requires leverage != 0.0
    ensures MarginOf(a + b, leverage) == MarginOf(a, leverage) + MarginOf(b, leverage)
  {
  }

  /** The open positions are the non-flat ones, each as often as it is listed. */
  lemma {:induction false} OpenPositionsAreNonFlat(positions: seq<PositionSnapshot>, p: PositionSnapshot)
    ensures multiset(OpenPositions(positions))[p] == if p.amount == 0.0 then 0 else multiset(positions)[p]
  {
    if |positions| > 0 {
      var k := |positions| - 1;
      OpenPositionsAreNonFlat(positions[..k], p);
      assert positions == positions[..k] + [positions[k]];
    }
  }

  /**
    An accepted decision in the numbers of the account and the configuration: the three caps written out, and reported
    amounts that are less than a cent below the exact ones.
   */
  lemma DecisionInNumbers(
    cfg: AllocatorConfig, c: Candidate, account: AccountSnapshot, positions: seq<PositionSnapshot>,
    filters: SymbolFilters, d: Decision)
    requires cfg.maxLeverage > 0.0 && c.entryPrice > 0.0
    requires Allocate(cfg, c, account, positions, filters) == Success(d) && d.accepted
    ensures d.symbol == c.symbol && d.side == c.side && d.leverage == cfg.maxLeverage && d.reason == Accepted
    ensures filters.tickSize > 0.0 && RoundPriceToTick(c.entryPrice, filters.tickSize) == Success(d.entryPrice)
    ensures var usable := account.availableBalance * cfg.usableBalanceFraction;
            var notional, risk := Notional(d.quantity, d.entryPrice), Notional(d.quantity, c.StopDistance());
            var margin := MarginOf(notional, cfg.maxLeverage);
            && risk <= usable * cfg.riskFractionPerTrade
            && margin <= usable * cfg.maxPerPositionMarginFraction
            && UsedMargin(OpenPositions(positions), cfg.maxLeverage) + margin <= usable * cfg.maxPortfolioMarginFraction
            && margin - 0.01 < d.initialMargin <= margin
            && notional - 0.01 < d.notional <= notional
            && risk - 0.01 < d.riskAmount <= risk
  {
    hide HasOpenPosition, OpenPositions, UsedMargin, FloorToStep, QuantizeUsdt, Notional, MarginOf, Allocate, OnGrid;
    AllocatorCaps(cfg, c, account, positions, filters, d);
    DecisionFields(cfg, c, account, positions, filters, d);
    hide RoundPriceToTick;
    NotionalOrder(d.quantity, d.entryPrice, d.entryPrice);
    NotionalOrder(d.quantity, c.StopDistance(), c.StopDistance());
    MarginNonNegative(Notional(d.quantity, d.entryPrice), cfg.maxLeverage);
    QuantizeIsCents(MarginOf(Notional(d.quantity, d.entryPrice), cfg.maxLeverage));
    QuantizeIsCents(Notional(d.quantity, d.entryPrice));
    QuantizeIsCents(Notional(d.quantity, c.StopDistance()));
  }

  /** The quantity is the largest step multiple within the three caps, written out. */
  lemma QuantityInNumbers(
    cfg: AllocatorConfig, c: Candidate, account: AccountSnapshot, positions: seq<PositionSnapshot>,
    filters: SymbolFilters, d: Decision, k: int)
    requires cfg.maxLeverage > 0.0 && c.entryPrice > 0.0
    requires Allocate(cfg, c, account, positions, filters) == Success(d) && d.accepted
    ensures exists m :: d.quantity == OnGrid(m, filters.stepSize)
    ensures var usable, q := account.availableBalance * cfg.usableBalanceFraction, OnGrid(k, filters.stepSize);
            var left := usable * cfg.maxPortfolioMarginFraction - UsedMargin(OpenPositions(positions), cfg.maxLeverage);
            q <= d.quantity <==>
              && Notional(q, c.StopDistance()) <= usable * cfg.riskFractionPerTrade
              && Notional(q, c.entryPrice) <= Min(usable * cfg.maxPerPositionMarginFraction, left) * cfg.maxLeverage
  {
    hide HasOpenPosition, OpenPositions, UsedMargin, FloorToStep, Notional, Allocate, Size;
    AcceptedIsSized(cfg, c, account, positions, filters, d);
    LargestQuantity(cfg, c, RiskBudget(cfg, account), AllowedMargin(cfg, account, OpenPositions(positions)), filters, d, k);
  }

  lemma DecisionFields(
    cfg: AllocatorConfig, c: Candidate, account: AccountSnapshot, positions: seq<PositionSnapshot>,
    filters: SymbolFilters, d: Decision)
    requires cfg.maxLeverage > 0.0 && c.entryPrice > 0.0
    requires Allocate(cfg, c, account, positions, filters) == Success(d) && d.accepted
    ensures d.symbol == c.symbol && d.side == c.side && d.leverage == cfg.maxLeverage && d.reason == Accepted
    ensures filters.tickSize > 0.0 && RoundPriceToTick(c.entryPrice, filters.tickSize) == Success(d.entryPrice)
    ensures d.entryPrice >= 0.0
    ensures d.notional == QuantizeUsdt(Notional(d.quantity, d.entryPrice))
    ensures d.initialMargin == QuantizeUsdt(MarginOf(Notional(d.quantity, d.entryPrice), cfg.maxLeverage))
    ensures d.riskAmount == QuantizeUsdt(Notional(d.quantity, c.StopDistance()))
  {
    hide HasOpenPosition, OpenPositions, RemainingMargin, RawQuantity, QuantizeUsdt, Notional, MarginOf;
    FloorIsLargest(c.entryPrice, filters.tickSize, 0);
  }

  /** One single step is within the risk and the notional cap. */
  ghost predicate StepFits(cfg: AllocatorConfig, c: Candidate, riskBudget: real, allowedMargin: real, step: real) {
    && Notional(step, c.StopDistance()) <= riskBudget
    && Notional(step, c.entryPrice) <= AllowedNotional(cfg, allowedMargin)
  }

  /** A rejection names the first gate that failed, in the order the gates stand. */
  lemma RejectionNamesFirstGate(
    cfg: AllocatorConfig, c: Candidate, account: AccountSnapshot, positions: seq<PositionSnapshot>,
    filters: SymbolFilters, d: Decision)
    requires cfg.maxLeverage > 0.0 && c.entryPrice > 0.0
    requires Allocate(cfg, c, account, positions, filters) == Success(d)
    ensures var open := OpenPositions(positions);
            var allowed := c.symbol in cfg.symbols;
            var funded := allowed && account.availableBalance >= cfg.minAvailableBalance;
            var stopped := funded && c.entryPrice != c.stopPrice;
            var free := stopped && forall p :: p in positions && p.symbol == c.symbol ==> p.amount == 0.0;
            var room := free && |open| < cfg.maxConcurrentPositions;
            var margin := room
                          && UsedMargin(open, cfg.maxLeverage)
                             < account.availableBalance * cfg.usableBalanceFraction * cfg.maxPortfolioMarginFraction;
            && (d.reason == SymbolNotAllowed <==> !allowed)
            && (d.reason == AvailableBalanceTooLow <==> allowed && !funded)
            && (d.reason == InvalidStopDistance <==> funded && !stopped)
            && (d.reason == SymbolAlreadyHasPosition <==> stopped && !free)
            && (d.reason == MaxConcurrentPositionsReached <==> free && !room)
            && (d.reason == PortfolioMarginCapReached <==> room && !margin)
            && (d.reason in {Accepted, QuantityFloorsToZero, BelowMinNotional} <==> margin)
            && (d.reason == QuantityFloorsToZero <==>
                  margin && !StepFits(cfg, c, RiskBudget(cfg, account), AllowedMargin(cfg, account, open),
                                      filters.stepSize))
            && (d.accepted <==> d.reason == Accepted)
            && (!d.accepted ==> d.quantity == 0.0 && d.symbol == c.symbol && d.side == c.side)
  {
    hide Size, OpenPositions, UsedMargin;
    var open := OpenPositions(positions);
    NoOpenPosition(c.symbol, positions);
    MarginExceedsUnreachable(cfg, c, account, positions, filters, d);
    if Gated(cfg, c, account, positions) && RemainingMargin(cfg, account, open) > 0.0 {
      SizeReasons(cfg, c, RiskBudget(cfg, account), AllowedMargin(cfg, account, open), filters, d);
    }
  }

  lemma NoOpenPosition(symbol: string, positions: seq<PositionSnapshot>)
    ensures HasOpenPosition(symbol, positions) <==> !forall p :: p in positions && p.symbol == symbol ==> p.amount == 0.0
  {
  }

  lemma SizeReasons(
    cfg: AllocatorConfig, c: Candidate, riskBudget: real, allowedMargin: real, filters: SymbolFilters, d: Decision)
    requires Sized(cfg, c, riskBudget, allowedMargin, filters, d)
    ensures d.reason in {Accepted, QuantityFloorsToZero, BelowMinNotional, MarginExceedsAllowedCap}
    ensures d.accepted <==> d.reason == Accepted
    ensures !d.accepted ==> d.quantity == 0.0 && d.symbol == c.symbol && d.side == c.side
    ensures d.reason == QuantityFloorsToZero <==> !StepFits(cfg, c, riskBudget, allowedMargin, filters.stepSize)
  {
    hide RawQuantity, QuantizeUsdt, Notional, MarginOf, OnGrid, AllowedNotional;
    var raw, step := RawQuantity(cfg, c, riskBudget, allowedMargin), filters.stepSize;
    var q := FloorToStep(raw, step).value;
    OneStep(step);
    WithinCapsIff(cfg, c, riskBudget, allowedMargin, step);
    if raw < 0.0 {
      FloorOfNegative(raw, step);
    } else {
      FloorIsLargest(raw, step, 1);
      FloorAtLeastStep(raw, step);
    }
  }

  lemma OneStep(step: real)
    ensures OnGrid(1, step) == step
  {
  }

  /** A floored amount is positive only from one whole step on. */
  lemma FloorAtLeastStep(value: real, step: real)
    requires value >= 0.0 && step > 0.0
    ensures FloorToStep(value, step).Success?
    ensures FloorToStep(value, step).value > 0.0 <==> step <= value
  {
    var m := Truncate(value / step);
    FloorIsLargest(value, step, 1);
    GridMonotone(1, m, step);
    GridMonotone(m, 0, step);
    assert OnGrid(1, step) == step && OnGrid(0, step) == 0.0;
  }
}
