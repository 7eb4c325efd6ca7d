/** The replay engine: one simulated trade, the scan over the 4H bars and the run summary. */
module SleeveBReplay {
  import opened Prelude
  import opened Market
  import opened SleeveB

  datatype ReplayConfig = ReplayConfig(
    unitR: real,
    sleeveEquity: real,
    maxLeverage: real,
    lookback: int,
    atrPeriod: int,
    stopAtrMultiple: real,
    tp1R: real,
    tp2R: real,
    tp3R: real,
    tp1Fraction: real,
    tp2Fraction: real,
    timeStopBars: int)
  {
    function Tp3Fraction(): real {
      1.0 - tp1Fraction - tp2Fraction
    }

    /** What the strategy documentation assumes of its parameters. */
    predicate Valid() {
      && unitR > 0.0 && sleeveEquity > 0.0 && maxLeverage > 0.0
      && lookback >= 1 && atrPeriod >= 1 && stopAtrMultiple > 0.0
      && 0.0 < tp1R <= tp2R <= tp3R
      && tp1Fraction >= 0.0 && tp2Fraction >= 0.0 && Tp3Fraction() >= 0.0
    }
  }

  const DEFAULT_CONFIG :=
    ReplayConfig(800.0, 80000.0, 5.0, 120, 14, 2.5, 1.5, 2.5, 4.0, 0.3, 0.3, 12)

  datatype Rung = TP1 | TP2 | TP3

  const LADDER: seq<Rung> := [TP1, TP2, TP3]

  datatype ExitReason = TimeStop | StopLoss | BreakevenStop | TargetExit(rung: Rung) | EndOfData

  datatype Trade = Trade(
    symbol: string,
    side: PositionSide,
    entryTime: int,
    entryPrice: real,
    initialStop: real,
    quantity: real,
    notional: real,
    exitTime: int,
    exitPrice: real,
    exitReason: ExitReason,
    realizedPnl: real,
    grossR: real,
    barsHeld: nat,
    tpHits: seq<Rung>)

  // ---------------------------------------------------------------- one trade

  datatype Target = Target(rung: Rung, price: real, fraction: real)

  /** Everything about a trade that is fixed at entry. */
  datatype Plan = Plan(
    side: PositionSide, entry: real, stopDistance: real, initialStop: real, quantity: real, targets: seq<Target>)

  /** What the bar loop changes. */
  datatype State = State(
    remaining: real, realized: real, stop: real, hits: seq<Rung>, exitPrice: real, reason: ExitReason)

  function TargetHit(side: PositionSide, bar: Bar, price: real): bool {
    if side == Long then bar.high >= price else bar.low <= price
  }

  function StopHit(side: PositionSide, bar: Bar, price: real): bool {
    if side == Long then bar.low <= price else bar.high >= price
  }

  /** Price movement in the trade's favour. */
  function Move(side: PositionSide, entry: real, exit: real): real {
    if side == Long then exit - entry else entry - exit
  }

  function Pnl(side: PositionSide, entry: real, exit: real, quantity: real): real {
    Move(side, entry, exit) * quantity
  }

  /** The price that lies distance away from entry in the trade's favour. */
  function Ahead(side: PositionSide, entry: real, distance: real): real {
    if side == Long then entry + distance else entry - distance
  }

  function StopDistance(atr: real, cfg: ReplayConfig): real {
    atr * cfg.stopAtrMultiple
  }

  function TargetDistance(multiple: real, stopDistance: real): real {
    multiple * stopDistance
  }

  function MaxNotional(cfg: ReplayConfig): real {
    cfg.sleeveEquity * cfg.maxLeverage
  }

  function EntryQuantity(cfg: ReplayConfig, stopDistance: real, entry: real): real
    requires stopDistance != 0.0 && entry != 0.0
  {
    Min(cfg.unitR / stopDistance, MaxNotional(cfg) / entry)
  }

  function PlanAt(side: PositionSide, entry: real, stopDistance: real, cfg: ReplayConfig): Plan
    requires stopDistance != 0.0 && entry != 0.0
  {
    Plan(
      side,
      entry,
      stopDistance,
      Ahead(side, entry, -stopDistance),
      EntryQuantity(cfg, stopDistance, entry),
      [Target(TP1, Ahead(side, entry, TargetDistance(cfg.tp1R, stopDistance)), cfg.tp1Fraction),
       Target(TP2, Ahead(side, entry, TargetDistance(cfg.tp2R, stopDistance)), cfg.tp2Fraction),
       Target(TP3, Ahead(side, entry, TargetDistance(cfg.tp3R, stopDistance)), cfg.Tp3Fraction())])
  }

  function MakePlan(side: PositionSide, bars: seq<Bar>, entryIndex: nat, cfg: ReplayConfig): Result<Plan, MarketError>
    requires entryIndex < |bars|
  {
    var entry := bars[entryIndex].close;
    var atr :- Atr(bars[..entryIndex + 1], cfg.atrPeriod);
    var stopDistance := StopDistance(atr, cfg);
    if stopDistance <= 0.0 then Failure(NonPositiveStopDistance)
    else if entry == 0.0 then Failure(DivisionByZero)
    else Success(PlanAt(side, entry, stopDistance, cfg))
  }

  /** What closing a fraction of the position at the given price realizes. */
  function LegPnl(p: Plan, price: real, fraction: real): real {
    Pnl(p.side, p.entry, price, p.quantity * fraction)
  }

  function InitialState(p: Plan): State {
    State(1.0, 0.0, p.initialStop, [], p.entry, TimeStop)
  }

  /** Close whatever is still open at the given price. */
  function CloseRest(p: Plan, s: State, price: real, reason: ExitReason): State {
    s.(remaining := 0.0,
       realized := s.realized + LegPnl(p, price, s.remaining),
       exitPrice := price,
       reason := reason)
  }

  function BookTarget(p: Plan, bar: Bar, t: Target, s: State): State {
    if t.rung in s.hits || !TargetHit(p.side, bar, t.price) then s
    else
      var fraction := Min(t.fraction, s.remaining);
      State(
        s.remaining - fraction,
        s.realized + LegPnl(p, t.price, fraction),
        if t.rung == TP1 then p.entry else s.stop,
        s.hits + [t.rung],
        t.price,
        TargetExit(t.rung))
  }

  /** The first k targets checked in ladder order against one bar. */
  function BookTargets(p: Plan, bar: Bar, k: nat, s: State): State
    requires k <= |p.targets|
  {
    if k == 0 then s else BookTarget(p, bar, p.targets[k - 1], BookTargets(p, bar, k - 1, s))
  }

  function StopReason(p: Plan, s: State): ExitReason {
    if s.stop == p.initialStop then StopLoss else BreakevenStop
  }

  /** One bar of the loop; the flag says whether the loop breaks here. */
  function StepBar(p: Plan, bar: Bar, offset: nat, timeStopBars: int, s: State): (State, bool) {
    if StopHit(p.side, bar, s.stop) then (CloseRest(p, s, s.stop, StopReason(p, s)), true)
    else
      var booked := BookTargets(p, bar, |p.targets|, s);
      if booked.remaining <= 0.0 then (booked, true)
      else if offset >= timeStopBars then (CloseRest(p, booked, bar.close, TimeStop), true)
      else (booked, false)
  }

  datatype Exit = Exit(state: State, held: nat)

  /** The bar loop once held bars after the entry are behind it. */
  function Walk(p: Plan, bars: seq<Bar>, entryIndex: nat, timeStopBars: int, held: nat, s: State): Exit
    requires entryIndex + held < |bars|
    decreases |bars| - entryIndex - held
  {
    var here := entryIndex + held;
    if here + 1 == |bars| then
      Exit(if s.remaining > 0.0 then CloseRest(p, s, bars[here].close, EndOfData) else s, held)
    else
      var (next, done) := StepBar(p, bars[here + 1], held + 1, timeStopBars, s);
      if done then Exit(next, held + 1)
      else Walk(p, bars, entryIndex, timeStopBars, held + 1, next)
  }

  function GrossR(realized: real, unitR: real): real
    requires unitR != 0.0
  {
    realized / unitR
  }

  function MakeTrade(symbol: string, p: Plan, bars: seq<Bar>, entryIndex: nat, unitR: real, x: Exit): Trade
    requires entryIndex + x.held < |bars|
    requires unitR != 0.0
  {
    Trade(symbol, p.side, bars[entryIndex].timestamp, p.entry, p.initialStop, p.quantity, Notional(p.quantity, p.entry),
          bars[entryIndex + x.held].timestamp, x.state.exitPrice, x.state.reason, x.state.realized,
          GrossR(x.state.realized, unitR), x.held, x.state.hits)
  }

  lemma {:induction false} WalkStaysInside(
    p: Plan, bars: seq<Bar>, entryIndex: nat, timeStopBars: int, held: nat, s: State)
    requires entryIndex + held < |bars|
    ensures var x := Walk(p, bars, entryIndex, timeStopBars, held, s);
            held <= x.held && entryIndex + x.held < |bars|
    decreases |bars| - entryIndex - held
  {
    var here := entryIndex + held;
    if here + 1 < |bars| {
      var (next, done) := StepBar(p, bars[here + 1], held + 1, timeStopBars, s);
      if !done {
        WalkStaysInside(p, bars, entryIndex, timeStopBars, held + 1, next);
      }
    }
  }

  /** The value _simulate_trade returns, or the exception it raises. */
  function Simulate(symbol: string, side: PositionSide, bars: seq<Bar>, entryIndex: nat, cfg: ReplayConfig)
    : Result<Trade, MarketError>
    requires entryIndex < |bars|
  {
    var p :- MakePlan(side, bars, entryIndex, cfg);
    if cfg.unitR == 0.0 then Failure(DivisionByZero)
    else
      WalkStaysInside(p, bars, entryIndex, cfg.timeStopBars, 0, InitialState(p));
      var x := Walk(p, bars, entryIndex, cfg.timeStopBars, 0, InitialState(p));
      Success(MakeTrade(symbol, p, bars, entryIndex, cfg.unitR, x))
  }

  /** The inner loop: every target of the ladder against one bar. */
  method BookAll(p: Plan, bar: Bar, before: State) returns (s: State)
    ensures s == BookTargets(p, bar, |p.targets|, before)
  {
    s := before;
    for k := 0 to |p.targets|
      invariant s == BookTargets(p, bar, k, before)
    {
      s := BookTarget(p, bar, p.targets[k], s);
    }
  }

  /** The outer loop, and the END_OF_DATA close after it. */
  method WalkBars(p: Plan, bars: seq<Bar>, entryIndex: nat, timeStopBars: int) returns (x: Exit)
    requires entryIndex < |bars|
    ensures x == Walk(p, bars, entryIndex, timeStopBars, 0, InitialState(p))
  {
    var s, held := InitialState(p), 0;
    while entryIndex + held + 1 < |bars|
      invariant entryIndex + held < |bars|
      invariant s.remaining > 0.0
      invariant Walk(p, bars, entryIndex, timeStopBars, 0, InitialState(p))
             == Walk(p, bars, entryIndex, timeStopBars, held, s)
      decreases |bars| - held
    {
      held := held + 1;
      var bar := bars[entryIndex + held];
      if StopHit(p.side, bar, s.stop) {
        return Exit(CloseRest(p, s, s.stop, StopReason(p, s)), held);
      }
      s := BookAll(p, bar, s);
      if s.remaining <= 0.0 {
        return Exit(s, held);
      }
      if held >= timeStopBars {
        return Exit(CloseRest(p, s, bar.close, TimeStop), held);
      }
    }
    x := Exit(CloseRest(p, s, bars[|bars| - 1].close, EndOfData), held);
  }

  method SimulateTrade(symbol: string, side: PositionSide, bars: seq<Bar>, entryIndex: nat, cfg: ReplayConfig)
    returns (r: Result<Trade, MarketError>)
    requires entryIndex < |bars|
    ensures r == Simulate(symbol, side, bars, entryIndex, cfg)
  {
    hide StopDistance, PlanAt, LegPnl;
    var entry := bars[entryIndex].close;
    var atr := ComputeAtr(bars[..entryIndex + 1], cfg.atrPeriod);
    if atr.Failure? {
      return Failure(atr.error);
    }
    var stopDistance := StopDistance(atr.value, cfg);
    if stopDistance <= 0.0 {
      return Failure(NonPositiveStopDistance);
    }
    if entry == 0.0 || cfg.unitR == 0.0 {
      return Failure(DivisionByZero);
    }
    var p := PlanAt(side, entry, stopDistance, cfg);
    WalkStaysInside(p, bars, entryIndex, cfg.timeStopBars, 0, InitialState(p));
    var x := WalkBars(p, bars, entryIndex, cfg.timeStopBars);
    r := Success(MakeTrade(symbol, p, bars, entryIndex, cfg.unitR, x));
  }

  // ---------------------------------------------------------------- the scan

  function DailyClosesUntil(daily: seq<Bar>, timestamp: int): seq<real> {
    if |daily| == 0 then []
    else
      var rest := DailyClosesUntil(daily[..|daily| - 1], timestamp);
      var bar := daily[|daily| - 1];
      if bar.timestamp <= timestamp then rest + [bar.close] else rest
  }

  /** The side signalled by the bars up to and including index i, if any. */
  function SideAt(daily: seq<Bar>, bars: seq<Bar>, i: nat, cfg: ReplayConfig): Option<PositionSide>
    requires i < |bars| && cfg.lookback >= 1
  {
    var regime := RegimeFromDailyClose(DailyClosesUntil(daily, bars[i].timestamp));
    DonchianSignal(regime, bars[..i + 1], cfg.lookback).side
  }

  /** The signal at index i for any lookback, or the exception its window raises. */
  function SignalAt(daily: seq<Bar>, bars: seq<Bar>, i: nat, cfg: ReplayConfig)
    : Result<Option<PositionSide>, MarketError>
    requires i < |bars|
  {
    if cfg.lookback >= 1 then Success(SideAt(daily, bars, i, cfg))
    else WrappedSide(RegimeFromDailyClose(DailyClosesUntil(daily, bars[i].timestamp)), bars[..i + 1], cfg.lookback)
  }

  function StartIndex(cfg: ReplayConfig): int
  {
    MaxInt(cfg.lookback + 1, cfg.atrPeriod + 1)
  }

  /** A trade together with the index of its entry bar. */
  datatype Entry = Entry(index: nat, trade: Trade)

  function NextIndex(e: Entry): nat {
    e.index + MaxInt(e.trade.barsHeld, 1)
  }

  /** The trades opened from the given index onwards. */
  function Scan(symbol: string, daily: seq<Bar>, bars: seq<Bar>, cfg: ReplayConfig, index: nat)
    : Result<seq<Entry>, MarketError>
    decreases |bars| - index
  {
    if index >= |bars| then Success([])
    else
      var signal :- SignalAt(daily, bars, index, cfg);
      match signal
      case None => Scan(symbol, daily, bars, cfg, index + 1)
      case Some(side) =>
        var trade :- Simulate(symbol, side, bars, index, cfg);
        var rest :- Scan(symbol, daily, bars, cfg, NextIndex(Entry(index, trade)));
        Success([Entry(index, trade)] + rest)
  }

  /** The prefix [:i + 1] for a negative index i, which counts from the end: empty for the last bar. */
  function SeenFromEnd(bars: seq<Bar>, i: int): seq<Bar>
    requires -|bars| <= i < 0
  {
    if i == -1 then [] else bars[..|bars| + i + 1]
  }

  /** The signal at a negative index, which a lookback and an ATR period both below -1 let the scan start at. */
  function SignalFromEnd(daily: seq<Bar>, bars: seq<Bar>, i: int, cfg: ReplayConfig)
    : Result<Option<PositionSide>, MarketError>
    requires i < 0 && cfg.lookback < 1
  {
    if i < -|bars| then Failure(IndexOutOfRange)
    else
      var regime := RegimeFromDailyClose(DailyClosesUntil(daily, bars[|bars| + i].timestamp));
      if regime != Bull && regime != Bear then Success(None)
      else if SeenFromEnd(bars, i) == [] then Failure(IndexOutOfRange)
      else WrappedSide(regime, SeenFromEnd(bars, i), cfg.lookback)
  }

  /** One bar more is seen at each index counted from the end, except that none is seen at the last. */
  lemma SeenFromEndCounts(bars: seq<Bar>, i: int)
    requires -|bars| <= i < 0
    ensures SeenFromEnd(bars, i) <= bars
    ensures |SeenFromEnd(bars, i)| == if i == -1 then 0 else |bars| + 1 + i
  {
  }

  /**
    The trades opened from any index onwards. At a negative index no trade survives its own sizing: the ATR of a
    negative period, and with it the stop distance, is zero.
   */
  function ScanFrom(symbol: string, daily: seq<Bar>, bars: seq<Bar>, cfg: ReplayConfig, index: int)
    : Result<seq<Entry>, MarketError>
    requires index < 0 ==> cfg.lookback < 1 && cfg.atrPeriod < 0
    decreases if index < 0 then -index else 0
  {
    if index >= 0 then Scan(symbol, daily, bars, cfg, index)
    else
      var signal :- SignalFromEnd(daily, bars, index, cfg);
      if signal.None? then ScanFrom(symbol, daily, bars, cfg, index + 1)
      else
        assert Atr(SeenFromEnd(bars, index), cfg.atrPeriod) == Success(0.0) && StopDistance(0.0, cfg) == 0.0;
        Failure(NonPositiveStopDistance)
  }

  function TradesOf(entries: seq<Entry>): (trades: seq<Trade>)
    ensures |trades| == |entries|
    ensures forall i :: 0 <= i < |entries| ==> trades[i] == entries[i].trade
  {
    seq(|entries|, i requires 0 <= i < |entries| => entries[i].trade)
  }

  datatype Summary = Summary(
    symbol: string, trades: nat, wins: nat, losses: nat, totalPnl: real, totalR: real, maxDrawdown: real)

  datatype ReplayResult = ReplayResult(symbol: string, trades: seq<Trade>, summary: Summary)

  method RunReplay(symbol: string, daily: seq<Bar>, bars: seq<Bar>, cfg: ReplayConfig)
    returns (r: Result<ReplayResult, MarketError>)
    ensures var entries := ScanFrom(symbol, daily, bars, cfg, StartIndex(cfg));
            if entries.Failure? then r == Failure(entries.error)
            else
              && r.Success?
              && r.value.symbol == symbol
              && r.value.trades == TradesOf(entries.value)
              && Summarizes(r.value.summary, symbol, r.value.trades)
  {
    hide Simulate, SignalAt, SignalFromEnd, Summarizes, TradesOf;
    var trades: seq<Trade> := [];
    ghost var entries: seq<Entry> := [];
    var index := StartIndex(cfg);
    ghost var expected := ScanFrom(symbol, daily, bars, cfg, index);
    assert expected.Success? ==> entries + expected.value == expected.value;
    while index < |bars|
      invariant index < 0 ==> cfg.lookback < 1 && cfg.atrPeriod < 0
      invariant trades == TradesOf(entries)
      invariant var rest := ScanFrom(symbol, daily, bars, cfg, index);
                expected == if rest.Failure? then rest else Success(entries + rest.value)
      decreases |bars| - index
    {
      var signal := if index < 0 then SignalFromEnd(daily, bars, index, cfg) else SignalAt(daily, bars, index, cfg);
      if signal.Failure? {
        return Failure(signal.error);
      }
      if signal.value.None? {
        index := index + 1;
        continue;
      }
      if index < 0 {
        return Failure(NonPositiveStopDistance);
      }
      var trade := SimulateTrade(symbol, signal.value.value, bars, index, cfg);
      if trade.Failure? {
        return Failure(trade.error);
      }
      ghost var e := Entry(index, trade.value);
      ghost var rest := Scan(symbol, daily, bars, cfg, NextIndex(e));
      assert rest.Success? ==> entries + ([e] + rest.value) == (entries + [e]) + rest.value;
      entries := entries + [e];
      trades := trades + [trade.value];
      index := index + MaxInt(trade.value.barsHeld, 1);
    }
    assert entries + [] == entries;
    var summary := Summarize(symbol, trades);
    r := Success(ReplayResult(symbol, trades, summary));
  }

  // ---------------------------------------------------------------- the summary

  /** Equity after the first n trades, starting at zero. */
  function Equity(trades: seq<Trade>, n: nat): real
    requires n <= |trades|
  {
    if n == 0 then 0.0 else Equity(trades, n - 1) + trades[n - 1].realizedPnl
  }

  function TotalR(trades: seq<Trade>, n: nat): real
    requires n <= |trades|
  {
    if n == 0 then 0.0 else TotalR(trades, n - 1) + trades[n - 1].grossR
  }

  /** How many of the first n trades made money. */
  function Wins(trades: seq<Trade>, n: nat): nat
    requires n <= |trades|
  {
    if n == 0 then 0 else Wins(trades, n - 1) + if trades[n - 1].realizedPnl > 0.0 then 1 else 0
  }

  /** The equity curve with its starting point. */
  function EquityPoints(trades: seq<Trade>): (points: seq<real>)
    ensures |points| == |trades| + 1
    ensures forall i :: 0 <= i <= |trades| ==> points[i] == Equity(trades, i)
  {
    seq(|trades| + 1, i requires 0 <= i <= |trades| => Equity(trades, i))
  }

  /** d is the deepest fall of the curve between any two points in time order. */
  ghost predicate IsMaxDrawdown(points: seq<real>, d: real) {
    && (forall i, j :: 0 <= i <= j < |points| ==> d <= points[j] - points[i])
    && (exists i, j :: 0 <= i <= j < |points| && d == points[j] - points[i])
  }

  ghost predicate Summarizes(s: Summary, symbol: string, trades: seq<Trade>) {
    && s.symbol == symbol
    && s.trades == |trades|
    && s.wins == Wins(trades, |trades|)
    && s.wins + s.losses == |trades|
    && s.totalPnl == Equity(trades, |trades|)
    && s.totalR == TotalR(trades, |trades|)
    && IsMaxDrawdown(EquityPoints(trades), s.maxDrawdown)
  }

  /** No fall of the curve up to point n is deeper than d. */
  ghost predicate NoDeeperFall(points: seq<real>, n: nat, d: real)
    requires n < |points|
  {
    forall i, j :: 0 <= i <= j <= n ==> d <= points[j] - points[i]
  }

  lemma NextFall(points: seq<real>, n: nat, d: real, peak: real)
    requires n + 1 < |points| && NoDeeperFall(points, n, d)
    requires forall i :: 0 <= i <= n + 1 ==> points[i] <= peak
    ensures NoDeeperFall(points, n + 1, Min(d, points[n + 1] - peak))
  {
  }

  lemma NoFallYet(points: seq<real>)
    requires |points| > 0
    ensures NoDeeperFall(points, 0, 0.0)
  {
  }

  lemma DeepestFall(points: seq<real>, d: real, i: nat, j: nat)
    requires i <= j < |points| && d == points[j] - points[i]
    requires NoDeeperFall(points, |points| - 1, d)
    ensures IsMaxDrawdown(points, d)
  {
  }

  /** The one-pass loop over the running peak. */
  method MaxDrawdown(equityCurve: seq<real>) returns (maxDrawdown: real)
    ensures IsMaxDrawdown([0.0] + equityCurve, maxDrawdown)
  {
    hide NoDeeperFall, IsMaxDrawdown;
    var peak := 0.0;
    maxDrawdown := 0.0;
    ghost var points := [0.0] + equityCurve;
    ghost var peakAt, dropFrom, dropTo := 0, 0, 0;
    NoFallYet(points);
    for n := 0 to |equityCurve|
      invariant 0 <= peakAt <= n && peak == points[peakAt]
      invariant forall i :: 0 <= i <= n ==> points[i] <= peak
      invariant 0 <= dropFrom <= dropTo <= n && maxDrawdown == points[dropTo] - points[dropFrom]
      invariant NoDeeperFall(points, n, maxDrawdown)
    {
      var value := equityCurve[n];
      assert points[n + 1] == value;
      if value >= peak {
        peakAt := n + 1;
      }
      peak := Max(peak, value);
      NextFall(points, n, maxDrawdown, peak);
      if value - peak < maxDrawdown {
        dropFrom, dropTo := peakAt, n + 1;
      }
      maxDrawdown := Min(maxDrawdown, value - peak);
    }
    DeepestFall(points, maxDrawdown, dropFrom, dropTo);
  }

  method Summarize(symbol: string, trades: seq<Trade>) returns (s: Summary)
    ensures Summarizes(s, symbol, trades)
  {
    var equityCurve: seq<real> := [];
    var running, totalR := 0.0, 0.0;
    var wins, losses := 0, 0;
    ghost var points := EquityPoints(trades);
    for n := 0 to |trades|
      invariant [0.0] + equityCurve == points[..n + 1]
      invariant running == Equity(trades, n) && totalR == TotalR(trades, n)
      invariant wins == Wins(trades, n) && wins + losses == n
    {
      running := running + trades[n].realizedPnl;
      equityCurve := equityCurve + [running];
      totalR := totalR + trades[n].grossR;
      if trades[n].realizedPnl > 0.0 {
        wins := wins + 1;
      } else {
        losses := losses + 1;
      }
    }
    var maxDrawdown := MaxDrawdown(equityCurve);
    assert [0.0] + equityCurve == points;
    s := Summary(symbol, |trades|, wins, losses, running, totalR, maxDrawdown);
  }
}
