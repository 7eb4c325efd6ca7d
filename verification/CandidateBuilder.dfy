/** Building a candidate from market data: regime, breakout, one-hour timing, refined entry and stop. */
module CandidateBuilder {
  import opened Prelude
  import opened Market
  import opened SleeveB
  import opened Models
  import opened Allocator

  datatype BuilderConfig = BuilderConfig(
    lookback: int,
    atrPeriod: int,
    stopAtrMultiple: real,
    requireOneHourTiming: bool,
    oneHourEmaPeriod: int,
    maxOneHourExtensionAtr: real,
    entryOffsetBps: real)

  const DEFAULT_CONFIG := BuilderConfig(120, 14, 2.5, true, 20, 1.5, 5.0)

  datatype MarketData = MarketData(symbol: string, daily: seq<Bar>, fourHour: seq<Bar>, oneHour: seq<Bar>)

  datatype BuildReason =
    | InsufficientDailyData
    | Insufficient4hBars
    | Insufficient1hData
    | FromSignal(reason: SignalReason)
    | LongBelowEma
    | LongBearishReversal
    | LongOverextended
    | ShortAboveEma
    | ShortBullishReversal
    | ShortOverextended

  datatype BuildResult = BuildResult(symbol: string, candidate: Option<Candidate>, reason: BuildReason)

  datatype BuildError = EmaPeriod | AtrError(error: MarketError)

  function Closes(bars: seq<Bar>): (r: seq<real>)
    ensures |r| == |bars|
    ensures forall i :: 0 <= i < |bars| ==> r[i] == bars[i].close
  {
    seq(|bars|, i requires 0 <= i < |bars| => bars[i].close)
  }

  predicate StrongBody(bar: Bar) {
    var range := bar.high - bar.low;
    range > 0.0 && Abs(bar.close - bar.open) / range >= 0.7
  }

  predicate BearishReversal(bar: Bar) {
    bar.close < bar.open && StrongBody(bar)
  }

  predicate BullishReversal(bar: Bar) {
    bar.close > bar.open && StrongBody(bar)
  }

  /** None when the one-hour chart allows the entry, otherwise the reason it does not. */
  function OneHourTiming(side: PositionSide, oneHour: seq<Bar>, cfg: BuilderConfig): Result<Option<BuildReason>, BuildError>
    requires cfg.oneHourEmaPeriod > 0 ==> |oneHour| > 0
  {
    if cfg.oneHourEmaPeriod <= 0 then Failure(EmaPeriod)
    else
      var average := EmaAt(Closes(oneHour), Alpha(cfg.oneHourEmaPeriod), |oneHour| - 1);
      var last := oneHour[|oneHour| - 1];
      var atr := Atr(oneHour, cfg.atrPeriod);
      if atr.Failure? then Failure(AtrError(atr.error))
      else if side == Long then
        Success(
          if last.close < average then Some(LongBelowEma)
          else if BearishReversal(last) then Some(LongBearishReversal)
          else if last.close - average > atr.value * cfg.maxOneHourExtensionAtr then Some(LongOverextended)
          else None)
      else
        Success(
          if last.close > average then Some(ShortAboveEma)
          else if BullishReversal(last) then Some(ShortBullishReversal)
          else if average - last.close > atr.value * cfg.maxOneHourExtensionAtr then Some(ShortOverextended)
          else None)
  }

  function RefinedEntryPrice(side: PositionSide, fourHourClose: real, oneHour: seq<Bar>, cfg: BuilderConfig): real {
    if |oneHour| == 0 then fourHourClose
    else
      var close := oneHour[|oneHour| - 1].close;
      var offset := cfg.entryOffsetBps / 10000.0;
      if side == Long then Min(fourHourClose, close * (1.0 - offset)) else Max(fourHourClose, close * (1.0 + offset))
  }

  function StopFor(side: PositionSide, entry: real, atr: real, cfg: BuilderConfig): real {
    if side == Long then entry - atr * cfg.stopAtrMultiple else entry + atr * cfg.stopAtrMultiple
  }

  function Finish(m: MarketData, cfg: BuilderConfig, side: PositionSide, reason: SignalReason, setupId: string)
    : Result<BuildResult, BuildError>
    requires |m.fourHour| > 0
  {
    var last := m.fourHour[|m.fourHour| - 1].close;
    var entry := RefinedEntryPrice(side, last, m.oneHour, cfg);
    var atr := Atr(m.fourHour, cfg.atrPeriod);
    if atr.Failure? then Failure(AtrError(atr.error))
    else
      var candidate := Candidate(m.symbol, side, entry, StopFor(side, entry, atr.value, cfg), setupId);
      Success(BuildResult(m.symbol, Some(candidate), FromSignal(reason)))
  }

  function BuildCandidate(m: MarketData, cfg: BuilderConfig, setupId: string): Result<BuildResult, BuildError>
    requires cfg.lookback >= 1
  {
    if |m.daily| < 200 then Success(BuildResult(m.symbol, None, InsufficientDailyData))
    else if |m.fourHour| < MaxInt(cfg.lookback + 1, cfg.atrPeriod + 1) then
      Success(BuildResult(m.symbol, None, Insufficient4hBars))
    else if cfg.requireOneHourTiming && |m.oneHour| < MaxInt(cfg.oneHourEmaPeriod, cfg.atrPeriod + 1) then
      Success(BuildResult(m.symbol, None, Insufficient1hData))
    else
      var signal := DonchianSignal(RegimeFromDailyClose(Closes(m.daily)), m.fourHour, cfg.lookback);
      if signal.side.None? then Success(BuildResult(m.symbol, None, FromSignal(signal.reason)))
      else if cfg.requireOneHourTiming then
        var timing :- OneHourTiming(signal.side.value, m.oneHour, cfg);
        if timing.Some? then Success(BuildResult(m.symbol, None, timing.value))
        else Finish(m, cfg, signal.side.value, signal.reason, setupId)
      else Finish(m, cfg, signal.side.value, signal.reason, setupId)
  }

  ghost predicate ValidConfig(cfg: BuilderConfig) {
    && cfg.lookback >= 1 && cfg.atrPeriod >= 1 && cfg.stopAtrMultiple > 0.0 && cfg.oneHourEmaPeriod >= 1
    && cfg.entryOffsetBps >= 0.0
  }

  /** The builder never raises on enough bars, because its length checks cover both averages. */
  lemma BuilderNeverRaises(m: MarketData, cfg: BuilderConfig, setupId: string)
    requires ValidConfig(cfg)
    ensures BuildCandidate(m, cfg, setupId).Success?
  {
    hide StopFor, RefinedEntryPrice, BearishReversal, BullishReversal, DonchianSignal, RegimeFromDailyClose;
  }

  /**
    Every candidate built from well-formed 4H bars has its stop strictly on the losing side of the refined
    entry, and is never entered at a worse price than the 4H close that signalled it.
   */
  lemma CandidateIsUsable(m: MarketData, cfg: BuilderConfig, setupId: string, r: BuildResult)
    requires ValidConfig(cfg) && WellFormedBars(m.fourHour)
    requires BuildCandidate(m, cfg, setupId) == Success(r) && r.candidate.Some?
    ensures var c := r.candidate.value;
            var close := m.fourHour[|m.fourHour| - 1].close;
            && |m.fourHour| > 0
            && c.symbol == m.symbol
            && (c.side == Long ==> c.stopPrice < c.entryPrice <= close)
            && (c.side == Short ==> c.stopPrice > c.entryPrice >= close)
            && c.StopDistance() > 0.0
  {
    var regime := RegimeFromDailyClose(Closes(m.daily));
    hide RegimeFromDailyClose, RefinedEntryPrice, OneHourTiming;
    var side := DonchianSignal(regime, m.fourHour, cfg.lookback).side.value;
    SignalImpliesPositiveAtr(regime, m.fourHour, cfg.lookback, cfg.atrPeriod);
    hide DonchianSignal;
    var atr := Atr(m.fourHour, cfg.atrPeriod).value;
    var distance := ProductPositive(atr, cfg.stopAtrMultiple);
    var close := m.fourHour[|m.fourHour| - 1].close;
    EntryNoWorse(side, close, m.oneHour, cfg);
    hide Atr;
    assert Finish(m, cfg, side, DonchianSignal(regime, m.fourHour, cfg.lookback).reason, setupId) == Success(r);
  }

  lemma EntryNoWorse(side: PositionSide, close: real, oneHour: seq<Bar>, cfg: BuilderConfig)
    ensures side == Long ==> RefinedEntryPrice(side, close, oneHour, cfg) <= close
    ensures side == Short ==> RefinedEntryPrice(side, close, oneHour, cfg) >= close
  {
  }

  /** With well-formed bars and an offset under 100% the entry is a positive price, as sizing needs. */
  lemma CandidateEntryPositive(m: MarketData, cfg: BuilderConfig, setupId: string, r: BuildResult)
    requires ValidConfig(cfg) && cfg.entryOffsetBps < 10000.0
    requires WellFormedBars(m.fourHour) && WellFormedBars(m.oneHour)
    requires BuildCandidate(m, cfg, setupId) == Success(r) && r.candidate.Some?
    ensures r.candidate.value.entryPrice > 0.0
  {
    hide OneHourTiming, DonchianSignal, RegimeFromDailyClose, Atr, StopFor;
    assert m.fourHour[|m.fourHour| - 1].WellFormed();
    if |m.oneHour| > 0 {
      var last := m.oneHour[|m.oneHour| - 1];
      assert last.WellFormed();
      var below := ProductPositive(last.close, 1.0 - cfg.entryOffsetBps / 10000.0);
      var above := ProductPositive(last.close, 1.0 + cfg.entryOffsetBps / 10000.0);
    }
  }

  /** So the allocator never answers INVALID_STOP_DISTANCE to a built candidate. */
  lemma BuiltCandidateHasValidStop(
    m: MarketData, cfg: BuilderConfig, setupId: string, r: BuildResult,
    sizing: AllocatorConfig, account: AccountSnapshot, positions: seq<PositionSnapshot>, filters: SymbolFilters)
    requires ValidConfig(cfg) && WellFormedBars(m.fourHour)
    requires BuildCandidate(m, cfg, setupId) == Success(r) && r.candidate.Some?
    ensures var d := Allocate(sizing, r.candidate.value, account, positions, filters);
            d.Success? ==> d.value.reason != InvalidStopDistance
  {
    hide BuildCandidate, RemainingMargin;
    CandidateIsUsable(m, cfg, setupId, r);
  }

  // ---------------------------------------------------------------- the candidate in prices

  /** A candle against the trade whose body is at least seven tenths of its range. */
  ghost predicate ReversalAgainst(side: PositionSide, bar: Bar) {
    && bar.high > bar.low
    && (if side == Long then bar.open - bar.close >= 0.7 * (bar.high - bar.low) && bar.close < bar.open
        else bar.close - bar.open >= 0.7 * (bar.high - bar.low) && bar.close > bar.open)
  }

  lemma ReversalInPrices(bar: Bar)
    ensures BearishReversal(bar) <==> ReversalAgainst(Long, bar)
    ensures BullishReversal(bar) <==> ReversalAgainst(Short, bar)
  {
    if bar.high > bar.low {
      ShareOfRange(Abs(bar.close - bar.open), bar.high - bar.low);
    }
  }

  lemma ShareOfRange(body: real, range: real)
    requires range > 0.0
    ensures body / range >= 0.7 <==> body >= 0.7 * range
  {
    QuotientTimes(body, range);
    ScaleIff(0.7, body / range, range);
  }

  /** How far the last one-hour close lies beyond its average, in the direction of the trade. */
  function Extension(side: PositionSide, oneHour: seq<Bar>, period: int): real
    requires period > 0 && |oneHour| > 0
  {
    var average := WeightedAverage(Closes(oneHour), 2.0 / (period + 1) as real);
    var close := oneHour[|oneHour| - 1].close;
    if side == Long then close - average else average - close
  }

  /**
    The one-hour chart allows an entry exactly when the last close is not on the wrong side of its average, the last
    candle is no reversal against the trade and the close is not further beyond the average than the allowed ATRs.
    The answers are given in that order.
   */
  lemma OneHourTimingIff(side: PositionSide, oneHour: seq<Bar>, cfg: BuilderConfig)
    requires cfg.oneHourEmaPeriod > 0 && |oneHour| > 0 && Atr(oneHour, cfg.atrPeriod).Success?
    ensures var r := OneHourTiming(side, oneHour, cfg);
            var extension := Extension(side, oneHour, cfg.oneHourEmaPeriod);
            var against := ReversalAgainst(side, oneHour[|oneHour| - 1]);
            var over := extension > Atr(oneHour, cfg.atrPeriod).value * cfg.maxOneHourExtensionAtr;
            && r.Success?
            && (r.value == None <==> extension >= 0.0 && !against && !over)
            && (r.value == Some(if side == Long then LongBelowEma else ShortAboveEma) <==> extension < 0.0)
            && (r.value == Some(if side == Long then LongBearishReversal else ShortBullishReversal)
                <==> extension >= 0.0 && against)
            && (r.value == Some(if side == Long then LongOverextended else ShortOverextended)
                <==> extension >= 0.0 && !against && over)
  {
    ReversalInPrices(oneHour[|oneHour| - 1]);
    EmaIsWeightedSum(Closes(oneHour), Alpha(cfg.oneHourEmaPeriod), |oneHour| - 1);
    hide Atr, BearishReversal, BullishReversal, ReversalAgainst, EmaAt, WeightedValues;
  }

  /** The price a candidate enters at, and the distance to its stop. */
  lemma CandidateInPrices(m: MarketData, cfg: BuilderConfig, setupId: string, r: BuildResult)
    requires ValidConfig(cfg) && WellFormedBars(m.fourHour)
    requires BuildCandidate(m, cfg, setupId) == Success(r) && r.candidate.Some?
    ensures |m.fourHour| > 0 && Atr(m.fourHour, cfg.atrPeriod).Success?
    ensures var c, close := r.candidate.value, m.fourHour[|m.fourHour| - 1].close;
            var distance := Atr(m.fourHour, cfg.atrPeriod).value * cfg.stopAtrMultiple;
            && c.symbol == r.symbol == m.symbol && c.setupId == setupId
            && c.stopPrice == (if c.side == Long then c.entryPrice - distance else c.entryPrice + distance)
            && (|m.oneHour| == 0 ==> c.entryPrice == close)
            && (|m.oneHour| > 0 ==>
                  var last := m.oneHour[|m.oneHour| - 1].close;
                  var below := last * (1.0 - cfg.entryOffsetBps / 10000.0);
                  var above := last * (1.0 + cfg.entryOffsetBps / 10000.0);
                  c.entryPrice == if c.side == Long then Min(close, below) else Max(close, above))
  {
    hide RegimeFromDailyClose, OneHourTiming, DonchianSignal, Atr;
  }

  /**
    A candidate is built exactly when there are enough bars of each kind, the 4H close breaks the channel in the daily
    trend's direction and the one-hour chart, when asked, allows it; otherwise the answer names what was missing first.
   */
  lemma BuildsExactlyWhen(m: MarketData, cfg: BuilderConfig, setupId: string)
    requires ValidConfig(cfg)
    ensures var r := BuildCandidate(m, cfg, setupId);
            var daily := |m.daily| >= 200;
            var fourHour := daily && |m.fourHour| > cfg.lookback && |m.fourHour| > cfg.atrPeriod;
            var oneHour := fourHour
                           && (cfg.requireOneHourTiming ==>
                                 |m.oneHour| >= cfg.oneHourEmaPeriod && |m.oneHour| > cfg.atrPeriod);
            var signal := DonchianSignal(RegimeFromDailyClose(Closes(m.daily)), m.fourHour, cfg.lookback);
            && r.Success? && r.value.symbol == m.symbol
            && (r.value.reason == InsufficientDailyData <==> !daily)
            && (r.value.reason == Insufficient4hBars <==> daily && !fourHour)
            && (r.value.reason == Insufficient1hData <==> fourHour && !oneHour)
            && (oneHour && signal.side.None? ==> r.value.reason == FromSignal(signal.reason))
            && (r.value.candidate.Some? <==>
                  && oneHour && signal.side.Some?
                  && (cfg.requireOneHourTiming ==> OneHourTiming(signal.side.value, m.oneHour, cfg) == Success(None)))
            && (r.value.candidate.Some? ==>
                  r.value.candidate.value.side == signal.side.value && r.value.reason == FromSignal(signal.reason))
            && (oneHour && signal.side.Some? && r.value.candidate.None? ==>
                  OneHourTiming(signal.side.value, m.oneHour, cfg) == Success(Some(r.value.reason)))
  {
    hide StopFor, RefinedEntryPrice, BearishReversal, BullishReversal, DonchianSignal, RegimeFromDailyClose, EmaAt;
  }
}
