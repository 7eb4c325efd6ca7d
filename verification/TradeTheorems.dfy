/** What every simulated trade guarantees: exit bar, PnL decomposition, bounds and the breakeven rule. */
module TradeTheorems {
  import opened Prelude
  import opened Market
  import opened SleeveBReplay
  import opened TradeLadder

  /** A trade is what the closed form says: it ends at the first exiting bar, or at the last bar. */
  lemma {:induction false} SimulateIsFirstExit(
    symbol: string, side: PositionSide, bars: seq<Bar>, entryIndex: nat, cfg: ReplayConfig, t: Trade)
    requires cfg.Valid() && entryIndex < |bars|
    requires Simulate(symbol, side, bars, entryIndex, cfg) == Success(t)
    ensures MakePlan(side, bars, entryIndex, cfg).Success?
    ensures var p := MakePlan(side, bars, entryIndex, cfg).value;
            var o := t.barsHeld;
            && Ladder(p) && |p.targets| == 3
            && p.entry == bars[entryIndex].close && p.side == side
            && p == PlanAt(side, p.entry, p.stopDistance, cfg)
            && entryIndex + o < |bars|
            && (forall k :: 1 <= k < o ==> !ExitsAt(p, bars, entryIndex, cfg.timeStopBars, k))
            && (ExitsAt(p, bars, entryIndex, cfg.timeStopBars, o) || entryIndex + o + 1 == |bars|)
            && t == MakeTrade(symbol, p, bars, entryIndex, cfg.unitR,
                              Exit(FinalState(p, bars, entryIndex, cfg.timeStopBars, o), o))
  {
    var p := MakePlan(side, bars, entryIndex, cfg).value;
    PlanIsLadder(side, p.entry, p.stopDistance, cfg);
    hide StopDistance, PlanAt, FinalState, ExitsAt;
    assert StateFor(p, 0) == InitialState(p);
    hide StateFor;
    WalkIsFirstExit(p, bars, entryIndex, cfg.timeStopBars, 0);
  }

  /** The record carries the right bars: entered at the entry bar, exited at the exit bar and, on a close, at its close. */
  lemma TradeRecordsItsBars(
    symbol: string, side: PositionSide, bars: seq<Bar>, entryIndex: nat, cfg: ReplayConfig, t: Trade)
    requires cfg.Valid() && entryIndex < |bars|
    requires Simulate(symbol, side, bars, entryIndex, cfg) == Success(t)
    ensures entryIndex + t.barsHeld < |bars|
    ensures t.symbol == symbol && t.side == side
    ensures t.entryTime == bars[entryIndex].timestamp && t.entryPrice == bars[entryIndex].close
    ensures t.exitTime == bars[entryIndex + t.barsHeld].timestamp
    ensures t.exitReason == TimeStop || t.exitReason == EndOfData ==>
              t.exitPrice == bars[entryIndex + t.barsHeld].close
    ensures t.exitReason == TimeStop ==> t.barsHeld == MaxInt(cfg.timeStopBars, 1)
    ensures t.exitReason == EndOfData ==> entryIndex + t.barsHeld + 1 == |bars|
  {
    SimulateIsFirstExit(symbol, side, bars, entryIndex, cfg, t);
    BarsHeldBound(symbol, side, bars, entryIndex, cfg, t);
    var p := MakePlan(side, bars, entryIndex, cfg).value;
    hide MakePlan, PlanAt, Simulate, LegPnl, Realized, Reached, Ladder;
    RemainingAtStart(p);
  }

  lemma RemainingAtStart(p: Plan)
    requires |p.targets| == 3
    ensures Remaining(p, 0) == 1.0
  {
  }

  /** The bars a trade is held for are the first exiting offset of its plan. */
  lemma {:induction false} HeldIsExitOffset(
    symbol: string, side: PositionSide, bars: seq<Bar>, entryIndex: nat, cfg: ReplayConfig, t: Trade)
    requires cfg.Valid() && entryIndex < |bars|
    requires Simulate(symbol, side, bars, entryIndex, cfg) == Success(t)
    ensures MakePlan(side, bars, entryIndex, cfg).Success?
    ensures var p := MakePlan(side, bars, entryIndex, cfg).value;
            |p.targets| == 3 && t.barsHeld == ExitOffset(p, bars, entryIndex, cfg.timeStopBars, 0)
  {
    SimulateIsFirstExit(symbol, side, bars, entryIndex, cfg, t);
    var p := MakePlan(side, bars, entryIndex, cfg).value;
    hide Simulate, MakePlan, Ladder, FinalState;
    assert !ExitsAt(p, bars, entryIndex, cfg.timeStopBars, 0);
    hide ExitsAt;
    ExitOffsetIsFirst(p, bars, entryIndex, cfg.timeStopBars, 0, t.barsHeld);
  }

  lemma BarsHeldBound(
    symbol: string, side: PositionSide, bars: seq<Bar>, entryIndex: nat, cfg: ReplayConfig, t: Trade)
    requires cfg.Valid() && entryIndex < |bars|
    requires Simulate(symbol, side, bars, entryIndex, cfg) == Success(t)
    ensures t.barsHeld <= MaxInt(cfg.timeStopBars, 1)
  {
    SimulateIsFirstExit(symbol, side, bars, entryIndex, cfg, t);
    var p := MakePlan(side, bars, entryIndex, cfg).value;
    var limit := MaxInt(cfg.timeStopBars, 1);
    if limit < t.barsHeld {
      assert ExitsAt(p, bars, entryIndex, cfg.timeStopBars, limit);
    }
  }

  // ---------------------------------------------------------------- PnL decomposition

  function CfgFraction(cfg: ReplayConfig, i: nat): real
    requires i < 3
  {
    if i == 0 then cfg.tp1Fraction else if i == 1 then cfg.tp2Fraction else cfg.Tp3Fraction()
  }

  function CfgMultiple(cfg: ReplayConfig, i: nat): real
    requires i < 3
  {
    if i == 0 then cfg.tp1R else if i == 1 then cfg.tp2R else cfg.tp3R
  }

  function CfgLeg(cfg: ReplayConfig, i: nat): real
    requires i < 3
  {
    CfgFraction(cfg, i) * CfgMultiple(cfg, i)
  }

  /** The fraction of the position the first n targets close. */
  function HitFraction(cfg: ReplayConfig, n: nat): real
    requires n <= 3
  {
    if n == 0 then 0.0
    else if n == 1 then CfgFraction(cfg, 0)
    else if n == 2 then CfgFraction(cfg, 0) + CfgFraction(cfg, 1)
    else CfgFraction(cfg, 0) + CfgFraction(cfg, 1) + CfgFraction(cfg, 2)
  }

  /** What the first n targets book, in units of the stop distance. */
  function HitR(cfg: ReplayConfig, n: nat): real
    requires n <= 3
  {
    if n == 0 then 0.0
    else if n == 1 then CfgLeg(cfg, 0)
    else if n == 2 then CfgLeg(cfg, 0) + CfgLeg(cfg, 1)
    else CfgLeg(cfg, 0) + CfgLeg(cfg, 1) + CfgLeg(cfg, 2)
  }

  function UnhitFraction(cfg: ReplayConfig, n: nat): real
    requires n <= 3
  {
    1.0 - HitFraction(cfg, n)
  }

  function LadderUnit(cfg: ReplayConfig, n: nat, stopDistance: real, exitMove: real): real
    requires n <= 3
  {
    HitR(cfg, n) * stopDistance + UnhitFraction(cfg, n) * exitMove
  }

  /** The first n targets at their own prices and all the rest at a price exitMove away from the entry. */
  function LadderPnl(cfg: ReplayConfig, n: nat, quantity: real, stopDistance: real, exitMove: real): real
    requires n <= 3
  {
    quantity * LadderUnit(cfg, n, stopDistance, exitMove)
  }

  lemma UnitLegInR(side: PositionSide, entry: real, sd: real, cfg: ReplayConfig, i: nat)
    requires cfg.Valid() && sd > 0.0 && entry != 0.0 && i < 3
    ensures UnitLeg(PlanAt(side, entry, sd, cfg), i) == CfgLeg(cfg, i) * sd
  {
    PlanIsLadder(side, entry, sd, cfg);
    hide Ladder, TargetMove;
  }

  lemma BookedMoveInR(side: PositionSide, entry: real, sd: real, cfg: ReplayConfig, n: nat)
    requires cfg.Valid() && sd > 0.0 && entry != 0.0 && n <= 3
    ensures BookedMove(PlanAt(side, entry, sd, cfg), n) == HitR(cfg, n) * sd
  {
    UnitLegInR(side, entry, sd, cfg, 0);
    UnitLegInR(side, entry, sd, cfg, 1);
    UnitLegInR(side, entry, sd, cfg, 2);
    assert |PlanAt(side, entry, sd, cfg).targets| == 3;
    hide UnitLeg, CfgLeg, PlanAt;
    DistributeSum(sd, CfgLeg(cfg, 0), CfgLeg(cfg, 1), 0.0, HitR(cfg, 2));
    DistributeSum(sd, CfgLeg(cfg, 0), CfgLeg(cfg, 1), CfgLeg(cfg, 2), HitR(cfg, 3));
  }

  lemma RemainingIsUnhit(side: PositionSide, entry: real, sd: real, cfg: ReplayConfig, n: nat)
    requires cfg.Valid() && sd > 0.0 && entry != 0.0 && n <= 3
    ensures Remaining(PlanAt(side, entry, sd, cfg), n) == UnhitFraction(cfg, n)
  {
  }

  lemma UnitPnlIsLadderUnit(p: Plan, cfg: ReplayConfig, n: nat, exit: real)
    requires cfg.Valid() && p.stopDistance > 0.0 && p.entry != 0.0 && n <= 3
    requires p == PlanAt(p.side, p.entry, p.stopDistance, cfg)
    ensures |p.targets| == 3
    ensures UnitPnl(p, n, exit) == LadderUnit(cfg, n, p.stopDistance, Move(p.side, p.entry, exit))
  {
    BookedMoveInR(p.side, p.entry, p.stopDistance, cfg, n);
    RemainingIsUnhit(p.side, p.entry, p.stopDistance, cfg, n);
    assert |p.targets| == 3;
    hide PlanAt, BookedMove, Remaining, HitR, UnhitFraction, Move;
    ScaleEqual(Move(p.side, p.entry, exit), Remaining(p, n), UnhitFraction(cfg, n));
  }

  lemma EarnedIsLadderPnl(p: Plan, cfg: ReplayConfig, n: nat, exit: real)
    requires cfg.Valid() && p.stopDistance > 0.0 && p.entry != 0.0 && n <= 3
    requires p == PlanAt(p.side, p.entry, p.stopDistance, cfg)
    ensures |p.targets| == 3
    ensures Earned(p, n, exit) == LadderPnl(cfg, n, p.quantity, p.stopDistance, Move(p.side, p.entry, exit))
  {
    UnitPnlIsLadderUnit(p, cfg, n, exit);
    hide PlanAt, UnitPnl, LadderUnit, Move;
    ScaleEqual(p.quantity, UnitPnl(p, n, exit), LadderUnit(cfg, n, p.stopDistance, Move(p.side, p.entry, exit)));
  }

  /** The numbers a trade reports, in terms of its plan. */
  ghost predicate Reports(p: Plan, cfg: ReplayConfig, t: Trade) {
    && |t.tpHits| <= 3 && t.tpHits == LADDER[..|t.tpHits|]
    && Ladder(p)
    && p.entry != 0.0
    && p == PlanAt(p.side, p.entry, p.stopDistance, cfg)
    && t.side == p.side && t.entryPrice == p.entry && t.initialStop == p.initialStop && t.quantity == p.quantity
    && t.notional == Notional(p.quantity, p.entry)
    && t.realizedPnl == Earned(p, |t.tpHits|, t.exitPrice)
  }

  lemma TradeReports(
    symbol: string, side: PositionSide, bars: seq<Bar>, entryIndex: nat, cfg: ReplayConfig, t: Trade)
    requires cfg.Valid() && entryIndex < |bars|
    requires Simulate(symbol, side, bars, entryIndex, cfg) == Success(t)
    ensures MakePlan(side, bars, entryIndex, cfg).Success?
    ensures Reports(MakePlan(side, bars, entryIndex, cfg).value, cfg, t)
    ensures MakePlan(side, bars, entryIndex, cfg).value.side == side
    ensures MakePlan(side, bars, entryIndex, cfg).value.entry == bars[entryIndex].close
  {
    SimulateIsFirstExit(symbol, side, bars, entryIndex, cfg, t);
    var p := MakePlan(side, bars, entryIndex, cfg).value;
    hide MakePlan, Earned, PlanAt, StopDistance, Simulate;
    FinalStateClosedForm(p, bars, entryIndex, cfg.timeStopBars, t.barsHeld);
  }

  lemma StopDistanceOf(p: Plan, cfg: ReplayConfig, t: Trade)
    requires Reports(p, cfg, t)
    ensures p.stopDistance == Move(t.side, t.initialStop, t.entryPrice)
    ensures p.stopDistance > 0.0
    ensures p.quantity == EntryQuantity(cfg, p.stopDistance, p.entry)
  {
  }

  /**
    Ladder conservation. The targets hit are a prefix of the ladder, so none is closed twice, and the
    realized PnL is exactly their booked profit plus the rest of the position closed at the exit price:
    the fractions of those legs total one.
   */
  lemma PnlClosedForm(
    symbol: string, side: PositionSide, bars: seq<Bar>, entryIndex: nat, cfg: ReplayConfig, t: Trade)
    requires cfg.Valid() && entryIndex < |bars|
    requires Simulate(symbol, side, bars, entryIndex, cfg) == Success(t)
    ensures |t.tpHits| <= 3 && t.tpHits == LADDER[..|t.tpHits|]
    ensures Move(side, t.initialStop, t.entryPrice) > 0.0
    ensures t.realizedPnl
         == LadderPnl(cfg, |t.tpHits|, t.quantity, Move(side, t.initialStop, t.entryPrice),
                      Move(side, t.entryPrice, t.exitPrice))
  {
    hide Simulate, MakePlan, Earned, LadderPnl, PlanAt;
    TradeReports(symbol, side, bars, entryIndex, cfg, t);
    var p := MakePlan(side, bars, entryIndex, cfg).value;
    StopDistanceOf(p, cfg, t);
    EarnedIsLadderPnl(p, cfg, |t.tpHits|, t.exitPrice);
  }

  // ---------------------------------------------------------------- bounds

  /** The smaller of the two sizes respects both caps. */
  lemma EntryQuantityCaps(cfg: ReplayConfig, stopDistance: real, entry: real)
    requires cfg.Valid() && stopDistance > 0.0 && entry > 0.0
    ensures var q := EntryQuantity(cfg, stopDistance, entry);
            q > 0.0 && q * stopDistance <= cfg.unitR && q * entry <= MaxNotional(cfg)
  {
    var cap := ProductPositive(cfg.sleeveEquity, cfg.maxLeverage);
    assert cap == MaxNotional(cfg);
    hide MaxNotional;
    var q, byRisk, byNotional := EntryQuantity(cfg, stopDistance, entry), cfg.unitR / stopDistance, cap / entry;
    QuotientTimes(cfg.unitR, stopDistance);
    QuotientTimes(cap, entry);
    QuotientSign(cfg.unitR, stopDistance);
    QuotientSign(cap, entry);
    ScaleOrdered(stopDistance, q, byRisk);
    ScaleOrdered(entry, q, byNotional);
  }

  /** And it is the larger of the sizes that do: one of the caps is met exactly. */
  lemma EntryQuantityTight(cfg: ReplayConfig, stopDistance: real, entry: real, q: real)
    requires cfg.Valid() && stopDistance > 0.0 && entry > 0.0 && q == EntryQuantity(cfg, stopDistance, entry)
    ensures q > 0.0 && q * stopDistance <= cfg.unitR && q * entry <= cfg.sleeveEquity * cfg.maxLeverage
    ensures q * stopDistance == cfg.unitR || q * entry == cfg.sleeveEquity * cfg.maxLeverage
  {
    EntryQuantityCaps(cfg, stopDistance, entry);
    QuotientTimes(cfg.unitR, stopDistance);
    QuotientTimes(MaxNotional(cfg), entry);
  }

  /** What hitting the initial stop would lose. */
  function RiskAtEntry(t: Trade): real {
    t.quantity * (if t.side == Long then t.entryPrice - t.initialStop else t.initialStop - t.entryPrice)
  }

  lemma PlanSizing(p: Plan, cfg: ReplayConfig, t: Trade)
    requires cfg.Valid() && Reports(p, cfg, t) && p.entry > 0.0
    ensures p.quantity > 0.0
    ensures p.quantity * p.stopDistance <= cfg.unitR
    ensures RiskAtEntry(t) <= cfg.unitR
    ensures t.notional == t.quantity * t.entryPrice <= cfg.sleeveEquity * cfg.maxLeverage
    ensures RiskAtEntry(t) == cfg.unitR || t.notional == cfg.sleeveEquity * cfg.maxLeverage
  {
    StopDistanceOf(p, cfg, t);
    RiskIsMove(t);
    NotionalInPrices(p, cfg, t);
    hide PlanAt, Ladder, Earned, EntryQuantity, Move, RiskAtEntry, Notional;
    EntryQuantityTight(cfg, p.stopDistance, p.entry, p.quantity);
    SizingScalars(t.quantity, p.quantity, Move(t.side, t.initialStop, t.entryPrice), p.stopDistance, RiskAtEntry(t));
  }

  lemma SizingScalars(q: real, r: real, move: real, stopDistance: real, risk: real)
    requires q == r && move == stopDistance && risk == q * move
    ensures risk == r * stopDistance
  {
  }

  lemma NotionalInPrices(p: Plan, cfg: ReplayConfig, t: Trade)
    requires Reports(p, cfg, t)
    ensures t.notional == t.quantity * t.entryPrice == p.quantity * p.entry
  {
    hide PlanAt, Ladder, Earned;
  }

  lemma RiskIsMove(t: Trade)
    ensures RiskAtEntry(t) == t.quantity * Move(t.side, t.initialStop, t.entryPrice)
  {
  }

  /**
    Entry sizing risks at most one unit and stays within the leverage cap, and it is as large as that allows: the risk is
    one unit or the notional is the whole of equity times leverage.
   */
  lemma SizingCaps(
    symbol: string, side: PositionSide, bars: seq<Bar>, entryIndex: nat, cfg: ReplayConfig, t: Trade)
    requires cfg.Valid() && entryIndex < |bars| && WellFormedBars(bars)
    requires Simulate(symbol, side, bars, entryIndex, cfg) == Success(t)
    ensures t.quantity > 0.0
    ensures RiskAtEntry(t) <= cfg.unitR
    ensures t.notional == t.quantity * t.entryPrice <= cfg.sleeveEquity * cfg.maxLeverage
    ensures RiskAtEntry(t) == cfg.unitR || t.notional == cfg.sleeveEquity * cfg.maxLeverage
  {
    hide Simulate, MakePlan, PlanAt, Earned, RiskAtEntry, Ladder;
    TradeReports(symbol, side, bars, entryIndex, cfg, t);
    assert bars[entryIndex].WellFormed();
    PlanSizing(MakePlan(side, bars, entryIndex, cfg).value, cfg, t);
  }

  lemma EarnedScalars(q: real, u: real, sd: real, full: real, b: real, unitR: real)
    requires q > 0.0 && full >= 0.0
    requires -sd <= u <= b && b == full * sd && q * sd <= unitR
    ensures -unitR <= q * u <= full * unitR
  {
  }

  lemma HitRNonNegative(cfg: ReplayConfig)
    requires cfg.Valid()
    ensures HitR(cfg, 3) >= 0.0
  {
    ProductNonNegative(CfgFraction(cfg, 0), CfgMultiple(cfg, 0));
    ProductNonNegative(CfgFraction(cfg, 1), CfgMultiple(cfg, 1));
    ProductNonNegative(CfgFraction(cfg, 2), CfgMultiple(cfg, 2));
  }

  /** The unit PnL of every finished trade is at least one full stop and at most the full ladder. */
  lemma UnitPnlBounds(p: Plan, n: nat, exit: real)
    requires Ladder(p) && n <= 3
    requires -p.stopDistance <= Move(p.side, p.entry, exit)
    requires n < 3 ==> Move(p.side, p.entry, exit) <= TargetMove(p, n)
    ensures -p.stopDistance <= UnitPnl(p, n, exit) <= BookedMove(p, 3)
  {
    hide UnitPnl, BookedMove, Move;
    UnitPnlAtMostFullLadder(p, n, exit);
    UnitPnlAtLeast(p, n, exit);
  }

  lemma ExitMoveOfTrade(
    symbol: string, side: PositionSide, bars: seq<Bar>, entryIndex: nat, cfg: ReplayConfig, t: Trade)
    requires cfg.Valid() && entryIndex < |bars| && WellFormedBars(bars)
    requires Simulate(symbol, side, bars, entryIndex, cfg) == Success(t)
    ensures MakePlan(side, bars, entryIndex, cfg).Success?
    ensures var p := MakePlan(side, bars, entryIndex, cfg).value;
            var move := Move(p.side, p.entry, t.exitPrice);
            && |p.targets| == 3
            && entryIndex + t.barsHeld < |bars|
            && -p.stopDistance <= move
            && (|t.tpHits| < 3 ==> move <= TargetMove(p, |t.tpHits|))
            && (t.barsHeld >= 1 && Best(p, bars, entryIndex, t.barsHeld - 1) >= 1 ==> |t.tpHits| >= 1 && move >= 0.0)
  {
    SimulateIsFirstExit(symbol, side, bars, entryIndex, cfg, t);
    var p := MakePlan(side, bars, entryIndex, cfg).value;
    hide Simulate, MakePlan, PlanAt, ExitsAt, FinalState, Best, Move, TargetMove, Ladder;
    ExitMoveBounds(p, bars, entryIndex, cfg.timeStopBars, t.barsHeld);
  }

  /** On well-formed bars a trade loses at most one unit and earns at most the full ladder. */
  lemma PnlBounds(
    symbol: string, side: PositionSide, bars: seq<Bar>, entryIndex: nat, cfg: ReplayConfig, t: Trade)
    requires cfg.Valid() && entryIndex < |bars| && WellFormedBars(bars)
    requires Simulate(symbol, side, bars, entryIndex, cfg) == Success(t)
    ensures -cfg.unitR <= t.realizedPnl <= HitR(cfg, 3) * cfg.unitR
  {
    hide Simulate, MakePlan, PlanAt, Ladder, Move, TargetMove, UnitPnl, BookedMove, HitR, MaxNotional, Notional, Best;
    TradeReports(symbol, side, bars, entryIndex, cfg, t);
    ExitMoveOfTrade(symbol, side, bars, entryIndex, cfg, t);
    var p := MakePlan(side, bars, entryIndex, cfg).value;
    assert bars[entryIndex].WellFormed();
    StopDistanceOf(p, cfg, t);
    PlanSizing(p, cfg, t);
    UnitPnlBounds(p, |t.tpHits|, t.exitPrice);
    BookedMoveInR(side, p.entry, p.stopDistance, cfg, 3);
    HitRNonNegative(cfg);
    EarnedScalars(p.quantity, UnitPnl(p, |t.tpHits|, t.exitPrice), p.stopDistance, HitR(cfg, 3), BookedMove(p, 3),
                  cfg.unitR);
  }

  /** Whichever exit is taken, and whether or not the leverage cap bound the size: -1 <= R <= full ladder. */
  lemma GrossRBounds(
    symbol: string, side: PositionSide, bars: seq<Bar>, entryIndex: nat, cfg: ReplayConfig, t: Trade)
    requires cfg.Valid() && entryIndex < |bars| && WellFormedBars(bars)
    requires Simulate(symbol, side, bars, entryIndex, cfg) == Success(t)
    ensures -1.0 <= t.grossR <= HitR(cfg, 3)
  {
    hide HitR, MakePlan, Walk;
    PnlBounds(symbol, side, bars, entryIndex, cfg, t);
    GrossScalars(t.realizedPnl, cfg.unitR, HitR(cfg, 3));
    assert t.grossR == GrossR(t.realizedPnl, cfg.unitR);
  }

  lemma GrossScalars(pnl: real, unitR: real, full: real)
    requires unitR > 0.0 && -unitR <= pnl <= full * unitR
    ensures -1.0 <= pnl / unitR <= full
  {
  }

  // ---------------------------------------------------------------- stop and breakeven

  /** STOP_LOSS means no target was hit and the whole position closed one stop distance away. */
  lemma StopLossIsFullLoss(
    symbol: string, side: PositionSide, bars: seq<Bar>, entryIndex: nat, cfg: ReplayConfig, t: Trade)
    requires cfg.Valid() && entryIndex < |bars|
    requires Simulate(symbol, side, bars, entryIndex, cfg) == Success(t)
    ensures t.exitReason == StopLoss ==>
              && t.tpHits == []
              && t.exitPrice == t.initialStop
              && t.realizedPnl == -(t.quantity * Move(side, t.initialStop, t.entryPrice))
    ensures t.exitReason == BreakevenStop ==>
              && 1 <= |t.tpHits| <= 3
              && t.exitPrice == t.entryPrice
              && t.realizedPnl == LadderPnl(cfg, |t.tpHits|, t.quantity, Move(side, t.initialStop, t.entryPrice), 0.0)
  {
    hide Simulate, PlanAt, LadderPnl, ExitsAt, HitR, LegPnl, Ladder, StopDistance;
    SimulateIsFirstExit(symbol, side, bars, entryIndex, cfg, t);
    PnlClosedForm(symbol, side, bars, entryIndex, cfg, t);
    StopExitState(MakePlan(side, bars, entryIndex, cfg).value, bars, entryIndex, cfg.timeStopBars, t.barsHeld);
    FullLossScalars(cfg, t.quantity, Move(side, t.initialStop, t.entryPrice));
  }

  lemma StopExitState(p: Plan, bars: seq<Bar>, entryIndex: nat, timeStopBars: int, o: nat)
    requires |p.targets| == 3 && entryIndex + o < |bars|
    ensures var s := FinalState(p, bars, entryIndex, timeStopBars, o);
            && (s.reason == StopLoss ==> s.hits == [] && s.exitPrice == p.initialStop)
            && (s.reason == BreakevenStop ==> 1 <= |s.hits| <= 3 && s.exitPrice == p.entry)
  {
  }

  lemma FullLossScalars(cfg: ReplayConfig, q: real, sd: real)
    ensures LadderPnl(cfg, 0, q, sd, -sd) == -(q * sd)
  {
  }

  function Tp1Price(cfg: ReplayConfig, t: Trade): real {
    Ahead(t.side, t.entryPrice, TargetDistance(cfg.tp1R, Move(t.side, t.initialStop, t.entryPrice)))
  }

  /** Bar j after the entry touched TP1. */
  predicate TouchesTp1(cfg: ReplayConfig, t: Trade, bars: seq<Bar>, entryIndex: nat, j: nat)
    requires entryIndex + j < |bars|
  {
    TargetHit(t.side, bars[entryIndex + j], Tp1Price(cfg, t))
  }

  /** The profit of TP1 alone. */
  function Tp1Pnl(cfg: ReplayConfig, t: Trade): real {
    t.quantity * (CfgLeg(cfg, 0) * Move(t.side, t.initialStop, t.entryPrice))
  }

  lemma {:induction false} BestIsMax(p: Plan, bars: seq<Bar>, entryIndex: nat, o: nat)
    requires |p.targets| == 3 && entryIndex + o < |bars|
    ensures forall j :: 1 <= j <= o ==> ReachedAt(p, bars, entryIndex, j) <= Best(p, bars, entryIndex, o)
    ensures Best(p, bars, entryIndex, o) > 0 ==>
              exists j :: 1 <= j <= o && ReachedAt(p, bars, entryIndex, j) == Best(p, bars, entryIndex, o)
  {
    if o > 0 {
      BestIsMax(p, bars, entryIndex, o - 1);
      hide ReachedAt;
      assert ReachedAt(p, bars, entryIndex, o) <= Best(p, bars, entryIndex, o);
    }
  }

  lemma TouchIsReach(p: Plan, cfg: ReplayConfig, t: Trade, bar: Bar)
    requires cfg.Valid() && Reports(p, cfg, t)
    ensures TargetHit(t.side, bar, Tp1Price(cfg, t)) <==> Reached(p, bar) >= 1
  {
    StopDistanceOf(p, cfg, t);
    hide TargetDistance, EntryQuantity, Earned;
    assert p.targets[0].price == Tp1Price(cfg, t);
    LadderPrefix(p, bar, 0);
  }

  /** TP1 was touched before the exit bar exactly when the count was positive when that bar began. */
  lemma EarlierTouchIsBest(p: Plan, cfg: ReplayConfig, t: Trade, bars: seq<Bar>, entryIndex: nat)
    requires cfg.Valid() && Reports(p, cfg, t)
    requires t.barsHeld >= 1 && entryIndex + t.barsHeld < |bars|
    ensures (exists j :: 1 <= j < t.barsHeld && TouchesTp1(cfg, t, bars, entryIndex, j))
       <==> Best(p, bars, entryIndex, t.barsHeld - 1) >= 1
  {
    hide Reports, Ladder, Reached, TargetHit, Tp1Price;
    assert |p.targets| == 3 by { ThreeTargets(p, cfg, t); }
    BestIsMax(p, bars, entryIndex, t.barsHeld - 1);
    forall j | 1 <= j < t.barsHeld
      ensures TouchesTp1(cfg, t, bars, entryIndex, j) <==> ReachedAt(p, bars, entryIndex, j) >= 1
    {
      TouchIsReach(p, cfg, t, bars[entryIndex + j]);
    }
  }

  lemma ThreeTargets(p: Plan, cfg: ReplayConfig, t: Trade)
    requires Reports(p, cfg, t)
    ensures |p.targets| == 3
  {
  }

  /** Once TP1 is booked on a bar before the exit bar, every exit keeps at least the TP1 profit. */
  lemma BreakevenGuarantee(
    symbol: string, side: PositionSide, bars: seq<Bar>, entryIndex: nat, cfg: ReplayConfig, t: Trade, j: nat)
    requires cfg.Valid() && entryIndex < |bars| && WellFormedBars(bars)
    requires Simulate(symbol, side, bars, entryIndex, cfg) == Success(t)
    requires 1 <= j < t.barsHeld && entryIndex + j < |bars| && TouchesTp1(cfg, t, bars, entryIndex, j)
    ensures t.realizedPnl >= Tp1Pnl(cfg, t) >= 0.0
    ensures TP1 in t.tpHits
  {
    hide Simulate, MakePlan, PlanAt, Ladder, Move, TargetMove, UnitPnl, BookedMove, UnitLeg, CfgLeg, TargetHit,
         MaxNotional, Notional, Best;
    TradeReports(symbol, side, bars, entryIndex, cfg, t);
    ExitMoveOfTrade(symbol, side, bars, entryIndex, cfg, t);
    var p := MakePlan(side, bars, entryIndex, cfg).value;
    var n := |t.tpHits|;
    EarlierTouchIsBest(p, cfg, t, bars, entryIndex);
    assert bars[entryIndex].WellFormed();
    StopDistanceOf(p, cfg, t);
    PlanSizing(p, cfg, t);
    UnitPnlAtLeast(p, n, t.exitPrice);
    BookedMoveRises(p, n);
    UnitLegInR(side, p.entry, p.stopDistance, cfg, 0);
    Tp1LegNonNegative(cfg);
    assert LADDER[..n][0] == TP1;
    FloorScalars(p.quantity, UnitPnl(p, n, t.exitPrice), CfgLeg(cfg, 0), p.stopDistance,
                 Move(t.side, t.initialStop, t.entryPrice), UnitLeg(p, 0));
  }

  lemma Tp1LegNonNegative(cfg: ReplayConfig)
    requires cfg.Valid()
    ensures CfgLeg(cfg, 0) >= 0.0
  {
  }

  lemma FloorScalars(q: real, u: real, leg: real, sd: real, distance: real, unitLeg: real)
    requires q > 0.0 && leg >= 0.0 && sd > 0.0 && distance == sd && unitLeg == leg * sd && u >= unitLeg
    ensures q * u >= q * (leg * distance) >= 0.0
  {
  }

  lemma SignOfProduct(q: real, u: real)
    requires q > 0.0
    ensures q * u < 0.0 <==> u < 0.0
  {
  }

  /**
    The inputs on which a trade hits TP1 and loses. On the first exiting bar, which the plan and the bars fix:
    no earlier bar reached TP1, this bar does not hit the initial stop, it reaches n >= 1 targets, and n targets
    at their prices with the rest at its close come to less than nothing.
   */
  predicate LosesAfterTp1(p: Plan, cfg: ReplayConfig, bars: seq<Bar>, entryIndex: nat)
    requires |p.targets| == 3 && entryIndex < |bars|
  {
    var o := ExitOffset(p, bars, entryIndex, cfg.timeStopBars, 0);
    var bar := bars[entryIndex + o];
    && o >= 1
    && Best(p, bars, entryIndex, o - 1) == 0
    && !StopHit(p.side, bar, p.initialStop)
    && Reached(p, bar) >= 1
    && LadderUnit(cfg, Reached(p, bar), p.stopDistance, Move(p.side, p.entry, bar.close)) < 0.0
  }

  /** On a bar where the count was zero and the stop was not hit, the hits are the targets that bar reached. */
  lemma {:induction false} HitsOnExitBar(p: Plan, bars: seq<Bar>, entryIndex: nat, timeStopBars: int, o: nat)
    requires Ladder(p) && entryIndex + o < |bars|
    ensures var s := FinalState(p, bars, entryIndex, timeStopBars, o);
            var bar := bars[entryIndex + o];
            && (o == 0 ==> s.hits == [])
            && (o >= 1 && Best(p, bars, entryIndex, o - 1) == 0 ==>
                  if StopHit(p.side, bar, p.initialStop) then s.hits == []
                  else
                    && s.hits == LADDER[..Reached(p, bar)]
                    && (Remaining(p, Reached(p, bar)) > 0.0 ==> s.exitPrice == bar.close))
  {
    RemainingValues(p);
    hide LegPnl, Realized, Remaining, Reached;
  }

  /** A trade hits TP1 and loses exactly on those inputs. */
  lemma {:induction false} LossAfterTp1Iff(
    symbol: string, side: PositionSide, bars: seq<Bar>, entryIndex: nat, cfg: ReplayConfig, t: Trade)
    requires cfg.Valid() && entryIndex < |bars| && WellFormedBars(bars)
    requires Simulate(symbol, side, bars, entryIndex, cfg) == Success(t)
    ensures MakePlan(side, bars, entryIndex, cfg).Success?
    ensures var p := MakePlan(side, bars, entryIndex, cfg).value;
            |p.targets| == 3
            && (TP1 in t.tpHits && t.realizedPnl < 0.0 <==> LosesAfterTp1(p, cfg, bars, entryIndex))
  {
    hide Simulate, PlanAt, Ladder, Move, BookedMove, TargetHit, MaxNotional, Notional, Reached, Earned, FinalState,
         ExitsAt, Remaining, LadderUnit, EntryQuantity;
    HeldIsExitOffset(symbol, side, bars, entryIndex, cfg, t);
    SimulateIsFirstExit(symbol, side, bars, entryIndex, cfg, t);
    TradeReports(symbol, side, bars, entryIndex, cfg, t);
    var p := MakePlan(side, bars, entryIndex, cfg).value;
    hide MakePlan;
    assert bars[entryIndex].WellFormed();
    ThreeTargets(p, cfg, t);
    HitsOnExitBar(p, bars, entryIndex, cfg.timeStopBars, t.barsHeld);
    assert t.tpHits != [] ==> t.tpHits[0] == TP1;
    if t.barsHeld >= 1 {
      if Best(p, bars, entryIndex, t.barsHeld - 1) >= 1 {
        EarlierTouchIsBest(p, cfg, t, bars, entryIndex);
        var j :| 1 <= j < t.barsHeld && TouchesTp1(cfg, t, bars, entryIndex, j);
        BreakevenGuarantee(symbol, side, bars, entryIndex, cfg, t, j);
      } else if !StopHit(p.side, bars[entryIndex + t.barsHeld], p.initialStop) {
        LossOnExitBar(p, cfg, t, bars[entryIndex + t.barsHeld]);
      }
    }
  }

  lemma LossOnExitBar(p: Plan, cfg: ReplayConfig, t: Trade, bar: Bar)
    requires cfg.Valid() && Reports(p, cfg, t) && p.entry > 0.0
    requires |p.targets| == 3
    requires |t.tpHits| == Reached(p, bar)
    requires Remaining(p, Reached(p, bar)) > 0.0 ==> t.exitPrice == bar.close
    ensures t.realizedPnl < 0.0
       <==> LadderUnit(cfg, Reached(p, bar), p.stopDistance, Move(p.side, p.entry, bar.close)) < 0.0
  {
    hide PlanAt, Ladder, Move, Reached, Earned, LadderUnit, Remaining, EntryQuantity;
    var n := |t.tpHits|;
    StopDistanceOf(p, cfg, t);
    PlanSizing(p, cfg, t);
    EarnedIsLadderPnl(p, cfg, n, t.exitPrice);
    SignOfProduct(p.quantity, LadderUnit(cfg, n, p.stopDistance, Move(p.side, p.entry, t.exitPrice)));
    if Remaining(p, n) <= 0.0 {
      RemainingIsUnhit(p.side, p.entry, p.stopDistance, cfg, n);
      NothingUnhit(p, cfg, n, Move(p.side, p.entry, t.exitPrice), Move(p.side, p.entry, bar.close));
    }
  }

  lemma NothingUnhit(p: Plan, cfg: ReplayConfig, n: nat, a: real, b: real)
    requires Ladder(p) && n <= 3
    requires Remaining(p, n) <= 0.0 && Remaining(p, n) == UnhitFraction(cfg, n)
    ensures LadderUnit(cfg, n, p.stopDistance, a) == LadderUnit(cfg, n, p.stopDistance, b)
  {
    RemainingValues(p);
    assert UnhitFraction(cfg, n) == 0.0;
    hide HitR, UnhitFraction, Remaining, Ladder;
    assert UnhitFraction(cfg, n) * a == 0.0 == UnhitFraction(cfg, n) * b;
  }
}
