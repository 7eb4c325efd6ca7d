/** What a trade reports, in the numbers of its bars and its configuration. */
module TradeNumbers {
  import opened Prelude
  import opened Market
  import opened SleeveBReplay
  import opened TradeLadder
  import opened TradeTheorems

  /** How far the initial stop lies from the entry, on the losing side. */
  function StopGap(t: Trade): real {
    if t.side == Long then t.entryPrice - t.initialStop else t.initialStop - t.entryPrice
  }

  /** How far the exit lies from the entry, on the winning side. */
  function ExitGain(t: Trade): real {
    if t.side == Long then t.exitPrice - t.entryPrice else t.entryPrice - t.exitPrice
  }

  /** The trade enters at the close of its entry bar with its stop the ATR of the bars so far times the multiple away. */
  lemma EntryAndStop(
    symbol: string, side: PositionSide, bars: seq<Bar>, entryIndex: nat, cfg: ReplayConfig, t: Trade)
    requires entryIndex < |bars| && Simulate(symbol, side, bars, entryIndex, cfg) == Success(t)
    ensures t.symbol == symbol && t.side == side && t.entryPrice == bars[entryIndex].close
    ensures Atr(bars[..entryIndex + 1], cfg.atrPeriod).Success?
    ensures StopGap(t) == Atr(bars[..entryIndex + 1], cfg.atrPeriod).value * cfg.stopAtrMultiple > 0.0
  {
    hide Atr, EntryQuantity, TargetDistance, Walk;
  }

  /** Which trades are simulated at all, and what the others raise, in the order the checks are made. */
  lemma SimulationRaises(symbol: string, side: PositionSide, bars: seq<Bar>, entryIndex: nat, cfg: ReplayConfig)
    requires entryIndex < |bars|
    ensures var r := Simulate(symbol, side, bars, entryIndex, cfg);
            var atr := Atr(bars[..entryIndex + 1], cfg.atrPeriod);
            var stopped := atr.Success? && atr.value * cfg.stopAtrMultiple > 0.0;
            && (r.Success? <==> stopped && bars[entryIndex].close != 0.0 && cfg.unitR != 0.0)
            && (atr.Failure? ==> r == Failure(atr.error))
            && (r == Failure(NonPositiveStopDistance) <==> atr.Success? && !stopped)
            && (stopped && r.Failure? ==> r == Failure(DivisionByZero))
  {
    hide TrueRangeSum, EntryQuantity, TargetDistance, Walk;
  }

  /** R is PnL in units of unit_r. */
  lemma GrossRIsPnl(
    symbol: string, side: PositionSide, bars: seq<Bar>, entryIndex: nat, cfg: ReplayConfig, t: Trade)
    requires entryIndex < |bars| && Simulate(symbol, side, bars, entryIndex, cfg) == Success(t)
    ensures t.grossR * cfg.unitR == t.realizedPnl
  {
    hide MakePlan, Walk;
  }

  /** What n targets hit and the rest closed gain away earn per unit of quantity, in the configuration's numbers. */
  function UnitInPrices(cfg: ReplayConfig, n: nat, gap: real, gain: real): real {
    var (f1, f2) := (cfg.tp1Fraction, cfg.tp2Fraction);
    if n == 0 then gain
    else if n == 1 then f1 * cfg.tp1R * gap + (1.0 - f1) * gain
    else if n == 2 then (f1 * cfg.tp1R + f2 * cfg.tp2R) * gap + (1.0 - f1 - f2) * gain
    else (f1 * cfg.tp1R + f2 * cfg.tp2R + (1.0 - f1 - f2) * cfg.tp3R) * gap
  }

  lemma UnitIsLadderUnit(cfg: ReplayConfig, n: nat, gap: real, gain: real)
    requires n <= 3
    ensures LadderUnit(cfg, n, gap, gain) == UnitInPrices(cfg, n, gap, gain)
  {
    if n == 0 {
      assert HitR(cfg, 0) * gap == 0.0 && UnhitFraction(cfg, 0) * gain == gain;
    } else if n == 3 {
      assert UnhitFraction(cfg, 3) * gain == 0.0;
    }
  }

  /** The realized PnL, whatever the exit: the quantity times that, for the targets the trade reports in order. */
  lemma PnlInPrices(
    symbol: string, side: PositionSide, bars: seq<Bar>, entryIndex: nat, cfg: ReplayConfig, t: Trade)
    requires cfg.Valid() && entryIndex < |bars|
    requires Simulate(symbol, side, bars, entryIndex, cfg) == Success(t)
    ensures |t.tpHits| <= 3 && t.tpHits == [TP1, TP2, TP3][..|t.tpHits|]
    ensures t.realizedPnl == t.quantity * UnitInPrices(cfg, |t.tpHits|, StopGap(t), ExitGain(t))
  {
    hide Simulate, LadderUnit, UnitInPrices;
    PnlClosedForm(symbol, side, bars, entryIndex, cfg, t);
    EntrySide(symbol, side, bars, entryIndex, cfg, t);
    UnitIsLadderUnit(cfg, |t.tpHits|, StopGap(t), ExitGain(t));
  }

  lemma EntrySide(
    symbol: string, side: PositionSide, bars: seq<Bar>, entryIndex: nat, cfg: ReplayConfig, t: Trade)
    requires entryIndex < |bars| && Simulate(symbol, side, bars, entryIndex, cfg) == Success(t)
    ensures t.side == side
  {
    hide Atr, EntryQuantity, TargetDistance, Walk, StopDistance;
  }

  /** A full stop of a trade whose size the risk unit decided is exactly -1R. */
  lemma FullStopIsOneR(
    symbol: string, side: PositionSide, bars: seq<Bar>, entryIndex: nat, cfg: ReplayConfig, t: Trade)
    requires cfg.Valid() && entryIndex < |bars| && WellFormedBars(bars)
    requires Simulate(symbol, side, bars, entryIndex, cfg) == Success(t)
    ensures t.exitReason == StopLoss ==> t.realizedPnl == -RiskAtEntry(t)
    ensures t.exitReason == StopLoss && t.notional < cfg.sleeveEquity * cfg.maxLeverage ==> t.grossR == -1.0
  {
    hide Simulate, RiskAtEntry, Move;
    EntrySide(symbol, side, bars, entryIndex, cfg, t);
    RiskIsMove(t);
    assert t.exitReason == StopLoss ==> t.realizedPnl == -RiskAtEntry(t) by {
      StopLossIsFullLoss(symbol, side, bars, entryIndex, cfg, t);
    }
    assert RiskAtEntry(t) == cfg.unitR || t.notional == cfg.sleeveEquity * cfg.maxLeverage by {
      SizingCaps(symbol, side, bars, entryIndex, cfg, t);
    }
    if t.exitReason == StopLoss && t.notional < cfg.sleeveEquity * cfg.maxLeverage {
      assert t.realizedPnl == -cfg.unitR;
      GrossRIsPnl(symbol, side, bars, entryIndex, cfg, t);
      MinusOne(t.grossR, cfg.unitR, t.realizedPnl);
    }
  }

  lemma MinusOne(r: real, unit: real, pnl: real)
    requires unit > 0.0 && r * unit == pnl == -unit
    ensures r == -1.0
  {
    assert (r + 1.0) * unit == 0.0;
  }

  // ---------------------------------------------------------------- touching a price

  predicate TradedAt(bar: Bar, x: real) {
    bar.low <= x <= bar.high
  }

  /** A bar hits a stop exactly when it traded at the stop or at a worse price. */
  lemma StopHitIsTouch(side: PositionSide, bar: Bar, price: real)
    requires bar.WellFormed()
    ensures StopHit(side, bar, price)
       <==> exists x :: TradedAt(bar, x) && (if side == Long then x <= price else x >= price)
  {
    assert TradedAt(bar, bar.low) && TradedAt(bar, bar.high);
  }

  /** A bar hits a target exactly when it traded at the target or at a better price. */
  lemma TargetHitIsTouch(side: PositionSide, bar: Bar, price: real)
    requires bar.WellFormed()
    ensures TargetHit(side, bar, price)
       <==> exists x :: TradedAt(bar, x) && (if side == Long then x >= price else x <= price)
  {
    assert TradedAt(bar, bar.low) && TradedAt(bar, bar.high);
  }

  // ---------------------------------------------------------------- the full stop

  /** Bar j touched neither the initial stop nor TP1 and was before the time stop. */
  predicate QuietAt(cfg: ReplayConfig, t: Trade, bars: seq<Bar>, entryIndex: nat, j: nat)
    requires entryIndex + j < |bars|
  {
    && !StopHit(t.side, bars[entryIndex + j], t.initialStop)
    && !TouchesTp1(cfg, t, bars, entryIndex, j)
    && j < cfg.timeStopBars
  }

  /** Bar o is the first to touch the initial stop, and no bar before it touched TP1 or ran out of time. */
  ghost predicate StoppedAt(cfg: ReplayConfig, t: Trade, bars: seq<Bar>, entryIndex: nat, o: nat) {
    && o >= 1 && entryIndex + o < |bars|
    && StopHit(t.side, bars[entryIndex + o], t.initialStop)
    && (forall j :: 1 <= j < o ==> QuietAt(cfg, t, bars, entryIndex, j))
  }

  /** The trade ends by STOP_LOSS on exactly such a bar: on a bar that touches stop and targets the stop comes first. */
  lemma {:induction false} StopLossIff(
    symbol: string, side: PositionSide, bars: seq<Bar>, entryIndex: nat, cfg: ReplayConfig, t: Trade, o: nat)
    requires cfg.Valid() && entryIndex < |bars|
    requires Simulate(symbol, side, bars, entryIndex, cfg) == Success(t)
    ensures t.exitReason == StopLoss && t.barsHeld == o <==> StoppedAt(cfg, t, bars, entryIndex, o)
  {
    hide Simulate, PlanAt, Ladder, Reached, Earned, Remaining, Best;
    SimulateIsFirstExit(symbol, side, bars, entryIndex, cfg, t);
    TradeReports(symbol, side, bars, entryIndex, cfg, t);
    var p := MakePlan(side, bars, entryIndex, cfg).value;
    hide MakePlan;
    if t.exitReason == StopLoss {
      FullStopIsFirstTouch(p, cfg, t, bars, entryIndex);
    }
    if StoppedAt(cfg, t, bars, entryIndex, o) {
      FirstTouchExits(p, cfg, t, bars, entryIndex, o);
    }
  }

  lemma FullStopIsFirstTouch(p: Plan, cfg: ReplayConfig, t: Trade, bars: seq<Bar>, entryIndex: nat)
    requires cfg.Valid() && Reports(p, cfg, t) && |p.targets| == 3 && entryIndex + t.barsHeld < |bars|
    requires forall k :: 1 <= k < t.barsHeld ==> !ExitsAt(p, bars, entryIndex, cfg.timeStopBars, k)
    requires FinalState(p, bars, entryIndex, cfg.timeStopBars, t.barsHeld).reason == StopLoss
    ensures StoppedAt(cfg, t, bars, entryIndex, t.barsHeld)
  {
    hide PlanAt, Ladder, Earned, EntryQuantity, Tp1Price, TargetHit, Remaining;
    var o := t.barsHeld;
    assert o >= 1 && Best(p, bars, entryIndex, o - 1) == 0;
    assert StopHit(t.side, bars[entryIndex + o], t.initialStop);
    BestIsMax(p, bars, entryIndex, o - 1);
    forall j | 1 <= j < o
      ensures QuietAt(cfg, t, bars, entryIndex, j)
    {
      BestIsMax(p, bars, entryIndex, j - 1);
      BestRises(p, bars, entryIndex, j - 1, o - 1);
      assert !ExitsAt(p, bars, entryIndex, cfg.timeStopBars, j);
      TouchIsReach(p, cfg, t, bars[entryIndex + j]);
      assert ReachedAt(p, bars, entryIndex, j) <= 0;
    }
  }

  lemma {:induction false} BestRises(p: Plan, bars: seq<Bar>, entryIndex: nat, m: nat, o: nat)
    requires |p.targets| == 3 && m <= o && entryIndex + o < |bars|
    ensures Best(p, bars, entryIndex, m) <= Best(p, bars, entryIndex, o)
  {
    hide ReachedAt;
    if m < o {
      BestRises(p, bars, entryIndex, m, o - 1);
    }
  }

  lemma FirstTouchExits(p: Plan, cfg: ReplayConfig, t: Trade, bars: seq<Bar>, entryIndex: nat, o: nat)
    requires cfg.Valid() && Reports(p, cfg, t) && |p.targets| == 3 && entryIndex + t.barsHeld < |bars|
    requires forall k :: 1 <= k < t.barsHeld ==> !ExitsAt(p, bars, entryIndex, cfg.timeStopBars, k)
    requires ExitsAt(p, bars, entryIndex, cfg.timeStopBars, t.barsHeld) || entryIndex + t.barsHeld + 1 == |bars|
    requires StoppedAt(cfg, t, bars, entryIndex, o)
    ensures t.barsHeld == o && FinalState(p, bars, entryIndex, cfg.timeStopBars, o).reason == StopLoss
  {
    hide PlanAt, Earned, EntryQuantity, Tp1Price, TargetHit;
    RemainingValues(p);
    hide Ladder, Remaining;
    forall j | 1 <= j < o
      ensures ReachedAt(p, bars, entryIndex, j) == 0
    {
      assert QuietAt(cfg, t, bars, entryIndex, j);
      TouchIsReach(p, cfg, t, bars[entryIndex + j]);
    }
    forall j | 0 <= j < o
      ensures Best(p, bars, entryIndex, j) == 0
    {
      BestIsMax(p, bars, entryIndex, j);
    }
    forall j | 1 <= j < o
      ensures !ExitsAt(p, bars, entryIndex, cfg.timeStopBars, j)
    {
      assert QuietAt(cfg, t, bars, entryIndex, j);
      assert Best(p, bars, entryIndex, j) == 0 && Best(p, bars, entryIndex, j - 1) == 0;
    }
    assert Best(p, bars, entryIndex, o - 1) == 0;
    assert ExitsAt(p, bars, entryIndex, cfg.timeStopBars, o);
  }
}
