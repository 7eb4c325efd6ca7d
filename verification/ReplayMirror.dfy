/** Long and short are the same strategy: reflecting every price swaps the sides and changes nothing else. */
module ReplayMirror {
  import opened Prelude
  import opened Market
  import opened SleeveB
  import opened SleeveBReplay

  /** The same plan on the reflected market, possibly with another position size. */
  function MirrorPlan(c: real, p: Plan, quantity: real): Plan {
    Plan(p.side.Flip(), c - p.entry, p.stopDistance, c - p.initialStop, quantity,
         seq(|p.targets|, i requires 0 <= i < |p.targets| =>
           Target(p.targets[i].rung, c - p.targets[i].price, p.targets[i].fraction)))
  }

  /** Every field agrees up to reflection; the realized PnL agrees when the sizes do. */
  ghost predicate MirrorState(c: real, sameSize: bool, s: State, m: State) {
    && m.remaining == s.remaining && m.hits == s.hits && m.reason == s.reason
    && m.stop == c - s.stop && m.exitPrice == c - s.exitPrice
    && (sameSize ==> m.realized == s.realized)
  }

  lemma LegPnlMirror(c: real, p: Plan, quantity: real, price: real, fraction: real)
    ensures quantity == p.quantity ==>
              LegPnl(MirrorPlan(c, p, quantity), c - price, fraction) == LegPnl(p, price, fraction)
  {
    var m := MirrorPlan(c, p, quantity);
    if quantity == p.quantity {
      ScaleEqual(fraction, m.quantity, p.quantity);
      ScaleEqual(p.quantity * fraction, Move(m.side, m.entry, c - price), Move(p.side, p.entry, price));
    }
  }

  lemma BookTargetMirror(c: real, p: Plan, quantity: real, bar: Bar, k: nat, s: State, m: State)
    requires k < |p.targets|
    requires MirrorState(c, quantity == p.quantity, s, m)
    ensures var q := MirrorPlan(c, p, quantity);
            MirrorState(c, quantity == p.quantity,
                        BookTarget(p, bar, p.targets[k], s), BookTarget(q, Reflect(c, bar), q.targets[k], m))
  {
    LegPnlMirror(c, p, quantity, p.targets[k].price, Min(p.targets[k].fraction, s.remaining));
    hide LegPnl;
  }

  lemma {:induction false} BookTargetsMirror(c: real, p: Plan, quantity: real, bar: Bar, k: nat, s: State, m: State)
    requires k <= |p.targets|
    requires MirrorState(c, quantity == p.quantity, s, m)
    ensures MirrorState(c, quantity == p.quantity,
                        BookTargets(p, bar, k, s), BookTargets(MirrorPlan(c, p, quantity), Reflect(c, bar), k, m))
  {
    hide BookTarget, MirrorState;
    if k > 0 {
      BookTargetsMirror(c, p, quantity, bar, k - 1, s, m);
      BookTargetMirror(c, p, quantity, bar, k - 1, BookTargets(p, bar, k - 1, s),
                       BookTargets(MirrorPlan(c, p, quantity), Reflect(c, bar), k - 1, m));
    }
  }

  lemma CloseRestMirror(c: real, p: Plan, quantity: real, s: State, m: State, price: real, reason: ExitReason)
    requires MirrorState(c, quantity == p.quantity, s, m)
    ensures MirrorState(c, quantity == p.quantity,
                        CloseRest(p, s, price, reason),
                        CloseRest(MirrorPlan(c, p, quantity), m, c - price, reason))
  {
    LegPnlMirror(c, p, quantity, price, s.remaining);
    hide LegPnl;
  }

  lemma StepBarMirror(
    c: real, p: Plan, quantity: real, bar: Bar, offset: nat, timeStopBars: int, s: State, m: State)
    requires MirrorState(c, quantity == p.quantity, s, m)
    ensures var a := StepBar(p, bar, offset, timeStopBars, s);
            var b := StepBar(MirrorPlan(c, p, quantity), Reflect(c, bar), offset, timeStopBars, m);
            a.1 == b.1 && MirrorState(c, quantity == p.quantity, a.0, b.0)
  {
    var q, n := MirrorPlan(c, p, quantity), |p.targets|;
    BookTargetsMirror(c, p, quantity, bar, n, s, m);
    CloseRestMirror(c, p, quantity, s, m, s.stop, StopReason(p, s));
    CloseRestMirror(c, p, quantity, BookTargets(p, bar, n, s), BookTargets(q, Reflect(c, bar), n, m), bar.close, TimeStop);
    hide CloseRest, BookTargets;
  }

  lemma {:induction false} WalkMirror(
    c: real, p: Plan, quantity: real, bars: seq<Bar>, entryIndex: nat, timeStopBars: int, held: nat, s: State, m: State)
    requires entryIndex + held < |bars|
    requires MirrorState(c, quantity == p.quantity, s, m)
    ensures var a := Walk(p, bars, entryIndex, timeStopBars, held, s);
            var b := Walk(MirrorPlan(c, p, quantity), ReflectBars(c, bars), entryIndex, timeStopBars, held, m);
            a.held == b.held && MirrorState(c, quantity == p.quantity, a.state, b.state)
    decreases |bars| - held
  {
    hide StepBar, MirrorPlan, CloseRest;
    var here := entryIndex + held;
    if here + 1 == |bars| {
      CloseRestMirror(c, p, quantity, s, m, bars[here].close, EndOfData);
    } else {
      StepBarMirror(c, p, quantity, bars[here + 1], held + 1, timeStopBars, s, m);
      var a := StepBar(p, bars[here + 1], held + 1, timeStopBars, s);
      var b := StepBar(MirrorPlan(c, p, quantity), ReflectBars(c, bars)[here + 1], held + 1, timeStopBars, m);
      if !a.1 {
        WalkMirror(c, p, quantity, bars, entryIndex, timeStopBars, held + 1, a.0, b.0);
      }
    }
  }

  /** b is the trade a seen in the mirror; money amounts agree when the sizes do. */
  ghost predicate MirrorTrade(c: real, a: Trade, b: Trade) {
    && b.symbol == a.symbol && b.side == a.side.Flip()
    && b.entryTime == a.entryTime && b.exitTime == a.exitTime
    && b.entryPrice == c - a.entryPrice && b.initialStop == c - a.initialStop && b.exitPrice == c - a.exitPrice
    && b.exitReason == a.exitReason && b.barsHeld == a.barsHeld && b.tpHits == a.tpHits
    && (b.quantity == a.quantity ==> b.realizedPnl == a.realizedPnl && b.grossR == a.grossR)
  }

  lemma PlanMirror(c: real, side: PositionSide, entry: real, stopDistance: real, cfg: ReplayConfig)
    requires stopDistance != 0.0 && entry != 0.0 && c - entry != 0.0
    ensures PlanAt(side.Flip(), c - entry, stopDistance, cfg)
         == MirrorPlan(c, PlanAt(side, entry, stopDistance, cfg), EntryQuantity(cfg, stopDistance, c - entry))
  {
    hide EntryQuantity, TargetDistance;
  }

  lemma MakeTradeMirror(
    symbol: string, p: Plan, quantity: real, bars: seq<Bar>, i: nat, unitR: real, x: Exit, y: Exit, c: real)
    requires i + x.held < |bars| && unitR != 0.0
    requires x.held == y.held && MirrorState(c, quantity == p.quantity, x.state, y.state)
    ensures var a := MakeTrade(symbol, p, bars, i, unitR, x);
            var b := MakeTrade(symbol, MirrorPlan(c, p, quantity), ReflectBars(c, bars), i, unitR, y);
            MirrorTrade(c, a, b) && a.quantity == p.quantity && b.quantity == quantity
  {
    hide GrossR, Notional;
  }

  /** Reflecting the bars about any level and flipping the side reflects the trade. */
  lemma SimulateMirror(symbol: string, side: PositionSide, bars: seq<Bar>, i: nat, cfg: ReplayConfig, c: real)
    requires i < |bars| && bars[i].close != 0.0 && c - bars[i].close != 0.0
    ensures var a := Simulate(symbol, side, bars, i, cfg);
            var b := Simulate(symbol, side.Flip(), ReflectBars(c, bars), i, cfg);
            if a.Failure? then b == a
            else
              && b.Success? && MirrorTrade(c, a.value, b.value)
              && (c == 2.0 * bars[i].close ==> b.value.quantity == a.value.quantity)
  {
    hide Atr, Walk, StopDistance, EntryQuantity, PlanAt, MirrorPlan, MakeTrade, MirrorTrade, MirrorState;
    var mirror := ReflectBars(c, bars);
    assert mirror[..i + 1] == ReflectBars(c, bars[..i + 1]);
    AtrReflect(c, bars[..i + 1], cfg.atrPeriod);
    var plan := MakePlan(side, bars, i, cfg);
    if plan.Success? {
      var p, entry := plan.value, bars[i].close;
      MirrorEntry(side, entry, StopDistance(Atr(bars[..i + 1], cfg.atrPeriod).value, cfg), cfg, c);
      PlanMirror(c, side, entry, p.stopDistance, cfg);
      var quantity := EntryQuantity(cfg, p.stopDistance, c - entry);
      var q := MirrorPlan(c, p, quantity);
      assert MakePlan(side.Flip(), mirror, i, cfg) == Success(q);
      InitialMirror(c, p, quantity);
      WalkStaysInside(p, bars, i, cfg.timeStopBars, 0, InitialState(p));
      WalkMirror(c, p, quantity, bars, i, cfg.timeStopBars, 0, InitialState(p), InitialState(q));
      if cfg.unitR != 0.0 {
        var x := Walk(p, bars, i, cfg.timeStopBars, 0, InitialState(p));
        var y := Walk(q, mirror, i, cfg.timeStopBars, 0, InitialState(q));
        MakeTradeMirror(symbol, p, quantity, bars, i, cfg.unitR, x, y, c);
      }
    }
  }

  lemma InitialMirror(c: real, p: Plan, quantity: real)
    ensures MirrorState(c, quantity == p.quantity, InitialState(p), InitialState(MirrorPlan(c, p, quantity)))
  {
  }

  lemma MirrorEntry(side: PositionSide, entry: real, stopDistance: real, cfg: ReplayConfig, c: real)
    requires stopDistance != 0.0 && entry != 0.0 && c - entry != 0.0
    ensures var p := PlanAt(side, entry, stopDistance, cfg);
            && p.entry == entry && p.stopDistance == stopDistance && p.side == side
            && p.quantity == EntryQuantity(cfg, stopDistance, entry)
  {
    hide EntryQuantity, TargetDistance;
  }

  /** About the entry price itself nothing but the side and the reflected prices changes. */
  lemma SimulateMirrorAtEntry(symbol: string, side: PositionSide, bars: seq<Bar>, i: nat, cfg: ReplayConfig)
    requires i < |bars| && bars[i].close != 0.0
    ensures var c := 2.0 * bars[i].close;
            var a := Simulate(symbol, side, bars, i, cfg);
            var b := Simulate(symbol, side.Flip(), ReflectBars(c, bars), i, cfg);
            if a.Failure? then b == a
            else
              b == Success(a.value.(side := side.Flip(),
                                    initialStop := c - a.value.initialStop,
                                    exitPrice := c - a.value.exitPrice))
  {
    hide MirrorPlan, Walk, PlanAt, Simulate, GrossR, Notional;
    var c := 2.0 * bars[i].close;
    SimulateMirror(symbol, side, bars, i, cfg, c);
    var a := Simulate(symbol, side, bars, i, cfg);
    var b := Simulate(symbol, side.Flip(), ReflectBars(c, bars), i, cfg);
    if a.Success? {
      NotionalOf(symbol, side, bars, i, cfg);
      NotionalOf(symbol, side.Flip(), ReflectBars(c, bars), i, cfg);
    }
  }

  lemma NotionalOf(symbol: string, side: PositionSide, bars: seq<Bar>, i: nat, cfg: ReplayConfig)
    requires i < |bars|
    ensures var a := Simulate(symbol, side, bars, i, cfg);
            a.Success? ==>
              && a.value.notional == Notional(a.value.quantity, a.value.entryPrice)
              && a.value.side == side && a.value.entryPrice == bars[i].close
  {
    hide Walk, StopDistance, EntryQuantity, TargetDistance, Notional;
  }

  // ---------------------------------------------------------------- whole replays

  lemma {:induction false} DailyMirror(c: real, daily: seq<Bar>, t: int)
    ensures DailyClosesUntil(ReflectBars(c, daily), t) == ReflectValues(c, DailyClosesUntil(daily, t))
  {
    if |daily| > 0 {
      var init := daily[..|daily| - 1];
      DailyMirror(c, init, t);
      assert ReflectBars(c, daily)[..|daily| - 1] == ReflectBars(c, init);
    }
  }

  lemma SideMirror(c: real, daily: seq<Bar>, bars: seq<Bar>, i: nat, cfg: ReplayConfig)
    requires i < |bars| && cfg.lookback >= 1
    ensures var a := SideAt(daily, bars, i, cfg);
            SideAt(ReflectBars(c, daily), ReflectBars(c, bars), i, cfg)
            == if a.Some? then Some(a.value.Flip()) else None
  {
    var t := bars[i].timestamp;
    DailyMirror(c, daily, t);
    RegimeReflect(c, DailyClosesUntil(daily, t));
    assert ReflectBars(c, bars)[..i + 1] == ReflectBars(c, bars[..i + 1]);
    DonchianReflect(c, RegimeFromDailyClose(DailyClosesUntil(daily, t)), bars[..i + 1], cfg.lookback);
    hide DonchianSignal, RegimeFromDailyClose, DailyClosesUntil;
  }

  ghost predicate PositiveBelow(c: real, bars: seq<Bar>) {
    forall i :: 0 <= i < |bars| ==> 0.0 < bars[i].close < c
  }

  /**
    Reflecting both timeframes about any level above all prices mirrors the whole replay: the same entries,
    exits, exit reasons and targets, on the other side.
   */
  lemma {:induction false} ScanMirror(
    symbol: string, daily: seq<Bar>, bars: seq<Bar>, cfg: ReplayConfig, c: real, index: nat)
    requires cfg.lookback >= 1 && PositiveBelow(c, bars)
    ensures var a := Scan(symbol, daily, bars, cfg, index);
            var b := Scan(symbol, ReflectBars(c, daily), ReflectBars(c, bars), cfg, index);
            if a.Failure? then b == a
            else
              && b.Success? && |a.value| == |b.value|
              && forall k :: 0 <= k < |a.value| ==>
                   a.value[k].index == b.value[k].index && MirrorTrade(c, a.value[k].trade, b.value[k].trade)
    decreases |bars| - index
  {
    hide SideAt, Simulate, MirrorTrade;
    if index < |bars| {
      var side := SideAt(daily, bars, index, cfg);
      SideMirror(c, daily, bars, index, cfg);
      if side.None? {
        ScanMirror(symbol, daily, bars, cfg, c, index + 1);
      } else {
        SimulateMirror(symbol, side.value, bars, index, cfg, c);
        var trade := Simulate(symbol, side.value, bars, index, cfg);
        if trade.Success? {
          var mirrored := Simulate(symbol, side.value.Flip(), ReflectBars(c, bars), index, cfg).value;
          SameHolding(c, trade.value, mirrored);
          ScanMirror(symbol, daily, bars, cfg, c, NextIndex(Entry(index, trade.value)));
        }
      }
    }
  }

  lemma SameHolding(c: real, a: Trade, b: Trade)
    requires MirrorTrade(c, a, b)
    ensures a.barsHeld == b.barsHeld
  {
  }
}
