/** Properties of whole replays: no errors, the greedy schedule, no look-ahead, the mirror and the drawdown bound. */
module ReplayTheorems {
  import opened Prelude
  import opened Market
  import opened SleeveB
  import opened SleeveBReplay

  // ---------------------------------------------------------------- the replay never raises

  /** A signal always comes with a usable stop, so the trade it opens is simulated without an error. */
  lemma SignalledTradeSucceeds(
    symbol: string, side: PositionSide, daily: seq<Bar>, bars: seq<Bar>, i: nat, cfg: ReplayConfig)
    requires cfg.Valid() && WellFormedBars(bars)
    requires i < |bars| && i >= StartIndex(cfg)
    requires SideAt(daily, bars, i, cfg).Some?
    ensures Simulate(symbol, side, bars, i, cfg).Success?
  {
    var seen := bars[..i + 1];
    assert forall k :: 0 <= k < |seen| ==> seen[k] == bars[k];
    var regime := RegimeFromDailyClose(DailyClosesUntil(daily, bars[i].timestamp));
    hide RegimeFromDailyClose;
    SignalImpliesPositiveAtr(regime, seen, cfg.lookback, cfg.atrPeriod);
    var stopDistance := ProductPositive(Atr(seen, cfg.atrPeriod).value, cfg.stopAtrMultiple);
    assert bars[i].WellFormed();
    hide Atr, PlanAt, Walk, MakeTrade;
    assert MakePlan(side, bars, i, cfg).Success?;
  }

  lemma {:induction false} ScanSucceeds(symbol: string, daily: seq<Bar>, bars: seq<Bar>, cfg: ReplayConfig, index: nat)
    requires cfg.Valid() && WellFormedBars(bars) && index >= StartIndex(cfg)
    ensures Scan(symbol, daily, bars, cfg, index).Success?
    decreases |bars| - index
  {
    hide SideAt, Simulate;
    if index < |bars| {
      var side := SideAt(daily, bars, index, cfg);
      if side.None? {
        ScanSucceeds(symbol, daily, bars, cfg, index + 1);
      } else {
        SignalledTradeSucceeds(symbol, side.value, daily, bars, index, cfg);
        var trade := Simulate(symbol, side.value, bars, index, cfg).value;
        ScanSucceeds(symbol, daily, bars, cfg, NextIndex(Entry(index, trade)));
      }
    }
  }

  // ---------------------------------------------------------------- the greedy schedule

  ghost predicate NoSignal(daily: seq<Bar>, bars: seq<Bar>, cfg: ReplayConfig, lo: nat, hi: nat)
    requires cfg.lookback >= 1
  {
    forall i :: lo <= i < hi && i < |bars| ==> SideAt(daily, bars, i, cfg).None?
  }

  /** Where the scan for the k-th entry starts: on the exit bar of the trade before it, or one bar after its entry. */
  function OpenIndex(start: nat, entries: seq<Entry>, k: nat): nat
    requires k <= |entries|
  {
    if k == 0 then start
    else
      var e := entries[k - 1];
      if e.trade.barsHeld > 0 then e.index + e.trade.barsHeld else e.index + 1
  }

  /** The k-th entry is the first signalling index from its start; after the last entry there is none. */
  ghost predicate GreedyAt(
    symbol: string, daily: seq<Bar>, bars: seq<Bar>, cfg: ReplayConfig, start: nat, entries: seq<Entry>, k: nat)
    requires cfg.lookback >= 1 && k <= |entries|
  {
    var open := OpenIndex(start, entries, k);
    if k == |entries| then NoSignal(daily, bars, cfg, open, |bars|)
    else
      && open <= entries[k].index < |bars|
      && NoSignal(daily, bars, cfg, open, entries[k].index)
      && SideAt(daily, bars, entries[k].index, cfg).Some?
      && Simulate(symbol, SideAt(daily, bars, entries[k].index, cfg).value, bars, entries[k].index, cfg)
         == Success(entries[k].trade)
  }

  ghost predicate Greedy(
    symbol: string, daily: seq<Bar>, bars: seq<Bar>, cfg: ReplayConfig, start: nat, entries: seq<Entry>)
    requires cfg.lookback >= 1
  {
    forall k :: 0 <= k <= |entries| ==> GreedyAt(symbol, daily, bars, cfg, start, entries, k)
  }

  lemma GreedyCons(
    symbol: string, daily: seq<Bar>, bars: seq<Bar>, cfg: ReplayConfig, first: Entry, rest: seq<Entry>)
    requires cfg.lookback >= 1 && first.index < |bars|
    requires SideAt(daily, bars, first.index, cfg).Some?
    requires Simulate(symbol, SideAt(daily, bars, first.index, cfg).value, bars, first.index, cfg)
             == Success(first.trade)
    requires Greedy(symbol, daily, bars, cfg, NextIndex(first), rest)
    ensures Greedy(symbol, daily, bars, cfg, first.index, [first] + rest)
  {
    hide SideAt, Simulate;
    var entries := [first] + rest;
    forall k | 0 <= k <= |entries|
      ensures GreedyAt(symbol, daily, bars, cfg, first.index, entries, k)
    {
      if k > 0 {
        assert GreedyAt(symbol, daily, bars, cfg, NextIndex(first), rest, k - 1);
        assert OpenIndex(first.index, entries, k) == OpenIndex(NextIndex(first), rest, k - 1);
      }
    }
  }

  lemma GreedySkip(
    symbol: string, daily: seq<Bar>, bars: seq<Bar>, cfg: ReplayConfig, index: nat, entries: seq<Entry>)
    requires cfg.lookback >= 1 && index < |bars|
    requires SideAt(daily, bars, index, cfg).None?
    requires Greedy(symbol, daily, bars, cfg, index + 1, entries)
    ensures Greedy(symbol, daily, bars, cfg, index, entries)
  {
    hide SideAt, Simulate;
    forall k | 0 <= k <= |entries|
      ensures GreedyAt(symbol, daily, bars, cfg, index, entries, k)
    {
      assert GreedyAt(symbol, daily, bars, cfg, index + 1, entries, k);
    }
  }

  /** The replay loop computes a greedy schedule. */
  lemma {:induction false} ScanIsGreedy(symbol: string, daily: seq<Bar>, bars: seq<Bar>, cfg: ReplayConfig, index: nat)
    requires cfg.lookback >= 1
    requires Scan(symbol, daily, bars, cfg, index).Success?
    ensures Greedy(symbol, daily, bars, cfg, index, Scan(symbol, daily, bars, cfg, index).value)
    decreases |bars| - index
  {
    hide SideAt, Simulate, Greedy;
    if index < |bars| {
      var side := SideAt(daily, bars, index, cfg);
      if side.None? {
        ScanIsGreedy(symbol, daily, bars, cfg, index + 1);
        GreedySkip(symbol, daily, bars, cfg, index, Scan(symbol, daily, bars, cfg, index).value);
      } else {
        var first := Entry(index, Simulate(symbol, side.value, bars, index, cfg).value);
        ScanIsGreedy(symbol, daily, bars, cfg, NextIndex(first));
        GreedyCons(symbol, daily, bars, cfg, first, Scan(symbol, daily, bars, cfg, NextIndex(first)).value);
      }
    } else {
      NothingLeftToScan(symbol, daily, bars, cfg, index);
    }
  }

  lemma NothingLeftToScan(symbol: string, daily: seq<Bar>, bars: seq<Bar>, cfg: ReplayConfig, index: nat)
    requires cfg.lookback >= 1 && index >= |bars|
    ensures Greedy(symbol, daily, bars, cfg, index, [])
  {
  }

  /** There is only one greedy schedule, so the specification pins the replay down completely. */
  lemma {:induction false} GreedyAgree(
    symbol: string, daily: seq<Bar>, bars: seq<Bar>, cfg: ReplayConfig, start: nat,
    a: seq<Entry>, b: seq<Entry>, k: nat)
    requires cfg.lookback >= 1
    requires Greedy(symbol, daily, bars, cfg, start, a) && Greedy(symbol, daily, bars, cfg, start, b)
    requires k <= |a|
    ensures k <= |b| && a[..k] == b[..k]
  {
    hide SideAt, Simulate;
    if k > 0 {
      GreedyAgree(symbol, daily, bars, cfg, start, a, b, k - 1);
      assert k - 1 > 0 ==> a[k - 2] == a[..k - 1][k - 2] == b[..k - 1][k - 2] == b[k - 2];
      assert OpenIndex(start, a, k - 1) == OpenIndex(start, b, k - 1);
      assert GreedyAt(symbol, daily, bars, cfg, start, a, k - 1);
      assert GreedyAt(symbol, daily, bars, cfg, start, b, k - 1);
      assert SideAt(daily, bars, a[k - 1].index, cfg).Some?;
      assert k - 1 < |b|;
      assert SideAt(daily, bars, b[k - 1].index, cfg).Some?;
      assert a[k - 1].index == b[k - 1].index;
      assert a[..k] == a[..k - 1] + [a[k - 1]] && b[..k] == b[..k - 1] + [b[k - 1]];
    }
  }

  lemma GreedyIsUnique(
    symbol: string, daily: seq<Bar>, bars: seq<Bar>, cfg: ReplayConfig, start: nat, a: seq<Entry>, b: seq<Entry>)
    requires cfg.lookback >= 1
    requires Greedy(symbol, daily, bars, cfg, start, a) && Greedy(symbol, daily, bars, cfg, start, b)
    ensures a == b
  {
    hide Greedy;
    GreedyAgree(symbol, daily, bars, cfg, start, a, b, |a|);
    GreedyAgree(symbol, daily, bars, cfg, start, b, a, |b|);
    assert a[..|a|] == a && b[..|b|] == b;
  }

  /** Holding intervals never overlap: a later entry opens at or after the exit of every earlier one. */
  lemma {:induction false} HoldingsDisjoint(
    symbol: string, daily: seq<Bar>, bars: seq<Bar>, cfg: ReplayConfig, start: nat, entries: seq<Entry>,
    i: nat, j: nat)
    requires cfg.lookback >= 1
    requires Greedy(symbol, daily, bars, cfg, start, entries)
    requires i < j < |entries|
    ensures entries[i].index + entries[i].trade.barsHeld <= entries[j].index
    ensures entries[i].index < entries[j].index
    decreases j - i
  {
    hide SideAt, Simulate, NoSignal;
    assert GreedyAt(symbol, daily, bars, cfg, start, entries, j);
    if i < j - 1 {
      HoldingsDisjoint(symbol, daily, bars, cfg, start, entries, i, j - 1);
    }
  }

  // ---------------------------------------------------------------- exactly where the replay enters

  /** No trade is open across bar i: every one was entered at or after it, or has exited by then. */
  ghost predicate Flat(entries: seq<Entry>, i: nat) {
    forall k :: 0 <= k < |entries| ==> i <= entries[k].index || entries[k].index + entries[k].trade.barsHeld <= i
  }

  ghost predicate Enters(entries: seq<Entry>, i: nat) {
    exists k :: 0 <= k < |entries| && entries[k].index == i
  }

  lemma EntryIsFlat(
    symbol: string, daily: seq<Bar>, bars: seq<Bar>, cfg: ReplayConfig, start: nat, entries: seq<Entry>, k: nat)
    requires cfg.lookback >= 1 && Greedy(symbol, daily, bars, cfg, start, entries) && k < |entries|
    ensures Flat(entries, entries[k].index)
  {
    hide Greedy;
    forall j | 0 <= j < |entries|
      ensures entries[k].index <= entries[j].index
           || entries[j].index + entries[j].trade.barsHeld <= entries[k].index
    {
      if j < k {
        HoldingsDisjoint(symbol, daily, bars, cfg, start, entries, j, k);
      } else if k < j {
        HoldingsDisjoint(symbol, daily, bars, cfg, start, entries, k, j);
      }
    }
  }

  /** From the first of the last n entries on, no flat bar with a signal is passed over. */
  lemma {:induction false} FlatSignalEnters(
    symbol: string, daily: seq<Bar>, bars: seq<Bar>, cfg: ReplayConfig, start: nat, entries: seq<Entry>, i: nat, k: nat)
    requires cfg.lookback >= 1 && Greedy(symbol, daily, bars, cfg, start, entries) && k <= |entries|
    requires OpenIndex(start, entries, k) <= i < |bars| && Flat(entries, i) && SideAt(daily, bars, i, cfg).Some?
    ensures Enters(entries, i)
    decreases |entries| - k
  {
    hide SideAt, Simulate;
    assert GreedyAt(symbol, daily, bars, cfg, start, entries, k);
    if k < |entries| && entries[k].index < i {
      FlatSignalEnters(symbol, daily, bars, cfg, start, entries, i, k + 1);
    }
  }

  /**
    A greedy schedule enters at exactly the signalling bars from its start on where it is flat. The exit bar of a trade
    counts as flat, so it can be the entry bar of the next.
   */
  lemma EntersIff(
    symbol: string, daily: seq<Bar>, bars: seq<Bar>, cfg: ReplayConfig, start: nat, entries: seq<Entry>, i: nat)
    requires cfg.lookback >= 1 && Greedy(symbol, daily, bars, cfg, start, entries) && i < |bars|
    ensures Enters(entries, i) <==> start <= i && SideAt(daily, bars, i, cfg).Some? && Flat(entries, i)
  {
    hide SideAt, Simulate, Greedy;
    if Enters(entries, i) {
      var k :| 0 <= k < |entries| && entries[k].index == i;
      EntryIsFlat(symbol, daily, bars, cfg, start, entries, k);
      StartsAfter(symbol, daily, bars, cfg, start, entries, k);
    } else if start <= i && SideAt(daily, bars, i, cfg).Some? && Flat(entries, i) {
      FlatSignalEnters(symbol, daily, bars, cfg, start, entries, i, 0);
    }
  }

  lemma StartsAfter(
    symbol: string, daily: seq<Bar>, bars: seq<Bar>, cfg: ReplayConfig, start: nat, entries: seq<Entry>, k: nat)
    requires cfg.lookback >= 1 && Greedy(symbol, daily, bars, cfg, start, entries) && k < |entries|
    ensures start <= entries[k].index < |bars| && SideAt(daily, bars, entries[k].index, cfg).Some?
  {
    hide SideAt, Simulate, NoSignal;
    assert GreedyAt(symbol, daily, bars, cfg, start, entries, 0);
    assert GreedyAt(symbol, daily, bars, cfg, start, entries, k);
    if k > 0 {
      HoldingsDisjoint(symbol, daily, bars, cfg, start, entries, 0, k);
    }
  }

  /** The signal at bar i, in prices: a close beyond every high or low of the lookback bars before it, in the trend. */
  lemma SideInPrices(daily: seq<Bar>, bars: seq<Bar>, i: nat, cfg: ReplayConfig)
    requires cfg.lookback >= 1 && i < |bars|
    ensures SideAt(daily, bars, i, cfg) == Some(Long)
       <==> && RegimeAt(daily, bars, i) == Bull && cfg.lookback <= i
            && forall j :: i - cfg.lookback <= j < i ==> bars[j].high < bars[i].close
    ensures SideAt(daily, bars, i, cfg) == Some(Short)
       <==> && RegimeAt(daily, bars, i) == Bear && cfg.lookback <= i
            && forall j :: i - cfg.lookback <= j < i ==> bars[j].low > bars[i].close
  {
    var seen := bars[..i + 1];
    assert forall j :: 0 <= j <= i ==> seen[j] == bars[j];
    hide RegimeFromDailyClose, DailyClosesUntil;
  }

  /**
    The replay in its inputs: it enters at exactly the bars after the first max(lookback, ATR period) + 1 where it is
    flat and the close breaks the channel in the trend's direction.
   */
  lemma {:induction false} ReplayEntersIff(
    symbol: string, daily: seq<Bar>, bars: seq<Bar>, cfg: ReplayConfig, i: nat)
    requires cfg.lookback >= 1 && i < |bars|
    requires ScanFrom(symbol, daily, bars, cfg, StartIndex(cfg)).Success?
    ensures var entries := ScanFrom(symbol, daily, bars, cfg, StartIndex(cfg)).value;
            && (Enters(entries, i)
                <==> && cfg.lookback < i && cfg.atrPeriod < i && Flat(entries, i)
                     && (|| (RegimeAt(daily, bars, i) == Bull
                             && forall j :: i - cfg.lookback <= j < i ==> bars[j].high < bars[i].close)
                         || (RegimeAt(daily, bars, i) == Bear
                             && forall j :: i - cfg.lookback <= j < i ==> bars[j].low > bars[i].close)))
  {
    assert StartIndex(cfg) >= 2 && (StartIndex(cfg) <= i <==> cfg.lookback < i && cfg.atrPeriod < i);
    var start: nat := StartIndex(cfg);
    assert ScanFrom(symbol, daily, bars, cfg, start) == Scan(symbol, daily, bars, cfg, start);
    hide Scan, ScanFrom, SideAt, Greedy, StartIndex, Enters, Flat, RegimeAt;
    ScanIsGreedy(symbol, daily, bars, cfg, start);
    EntersIff(symbol, daily, bars, cfg, start, Scan(symbol, daily, bars, cfg, start).value, i);
    SideInPrices(daily, bars, i, cfg);
  }

  // ---------------------------------------------------------------- the end of the data

  lemma {:induction false} EndOfDataAtLastBar(
    p: Plan, bars: seq<Bar>, entryIndex: nat, timeStopBars: int, held: nat, s: State)
    requires entryIndex + held < |bars| && s.remaining > 0.0
    ensures var x := Walk(p, bars, entryIndex, timeStopBars, held, s);
            x.state.reason == EndOfData ==> entryIndex + x.held + 1 == |bars|
    decreases |bars| - held
  {
    hide LegPnl, BookTargets;
    var here := entryIndex + held;
    if here + 1 < |bars| {
      var (next, done) := StepBar(p, bars[here + 1], held + 1, timeStopBars, s);
      if done {
        DoneIsNotEndOfData(p, bars[here + 1], held + 1, timeStopBars, s);
      } else {
        StepStaysOpen(p, bars[here + 1], held + 1, timeStopBars, s);
        EndOfDataAtLastBar(p, bars, entryIndex, timeStopBars, held + 1, next);
      }
    }
  }

  lemma DoneIsNotEndOfData(p: Plan, bar: Bar, offset: nat, timeStopBars: int, s: State)
    requires s.remaining > 0.0
    ensures var (next, done) := StepBar(p, bar, offset, timeStopBars, s);
            done ==> next.reason != EndOfData
  {
    hide LegPnl;
    BookedReason(p, bar, |p.targets|, s);
  }

  /** Booking either leaves the state alone or stamps a target exit on it. */
  lemma {:induction false} BookedReason(p: Plan, bar: Bar, k: nat, s: State)
    requires k <= |p.targets|
    ensures var t := BookTargets(p, bar, k, s);
            t == s || t.reason.TargetExit?
  {
    hide LegPnl;
    if k > 0 {
      BookedReason(p, bar, k - 1, s);
    }
  }

  lemma EndOfDataTrade(symbol: string, side: PositionSide, bars: seq<Bar>, i: nat, cfg: ReplayConfig, t: Trade)
    requires i < |bars| && Simulate(symbol, side, bars, i, cfg) == Success(t)
    ensures t.exitReason == EndOfData ==> i + t.barsHeld + 1 == |bars|
    ensures i + 1 == |bars| ==> t.exitReason == EndOfData && t.barsHeld == 0 && t.realizedPnl == 0.0 && t.tpHits == []
  {
    hide StopDistance, EntryQuantity, TargetDistance, LegPnl;
    var p := MakePlan(side, bars, i, cfg).value;
    WalkStaysInside(p, bars, i, cfg.timeStopBars, 0, InitialState(p));
    EndOfDataAtLastBar(p, bars, i, cfg.timeStopBars, 0, InitialState(p));
    if i + 1 == |bars| {
      ClosedAtEntry(p, bars[i].close);
    }
  }

  lemma ClosedAtEntry(p: Plan, price: real)
    ensures price == p.entry ==> LegPnl(p, price, 1.0) == 0.0
  {
  }

  /**
    An END_OF_DATA trade is the last one, except that a second one may open and close on the last bar; that one
    holds no bars and makes no PnL.
   */
  lemma AtMostOneTradeAfterEndOfData(
    symbol: string, daily: seq<Bar>, bars: seq<Bar>, cfg: ReplayConfig, start: nat, entries: seq<Entry>, k: nat)
    requires cfg.lookback >= 1 && Greedy(symbol, daily, bars, cfg, start, entries)
    requires k < |entries| && entries[k].trade.exitReason == EndOfData
    ensures |entries| <= k + 2
    ensures k + 1 < |entries| ==>
              && entries[k + 1].index + 1 == |bars|
              && entries[k + 1].trade.exitReason == EndOfData
              && entries[k + 1].trade.barsHeld == 0
              && entries[k + 1].trade.realizedPnl == 0.0
  {
    hide SideAt, Simulate, NoSignal;
    assert GreedyAt(symbol, daily, bars, cfg, start, entries, k);
    EndOfDataTrade(symbol, SideAt(daily, bars, entries[k].index, cfg).value, bars, entries[k].index, cfg, entries[k].trade);
    if k + 1 < |entries| {
      assert GreedyAt(symbol, daily, bars, cfg, start, entries, k + 1);
      EndOfDataTrade(symbol, SideAt(daily, bars, entries[k + 1].index, cfg).value, bars, entries[k + 1].index, cfg,
                     entries[k + 1].trade);
      assert GreedyAt(symbol, daily, bars, cfg, start, entries, k + 2);
    }
  }

  // ---------------------------------------------------------------- no look-ahead

  lemma {:induction false} WalkPrefix(
    p: Plan, bars: seq<Bar>, longer: seq<Bar>, entryIndex: nat, timeStopBars: int, held: nat, s: State)
    requires bars <= longer && entryIndex + held < |bars| && s.remaining > 0.0
    ensures var x := Walk(p, bars, entryIndex, timeStopBars, held, s);
            x.state.reason != EndOfData ==> x == Walk(p, longer, entryIndex, timeStopBars, held, s)
    decreases |bars| - held
  {
    hide StepBar, LegPnl;
    var here := entryIndex + held;
    if here + 1 < |bars| {
      var (next, done) := StepBar(p, bars[here + 1], held + 1, timeStopBars, s);
      if !done {
        StepStaysOpen(p, bars[here + 1], held + 1, timeStopBars, s);
        WalkPrefix(p, bars, longer, entryIndex, timeStopBars, held + 1, next);
      }
    }
  }

  lemma StepStaysOpen(p: Plan, bar: Bar, offset: nat, timeStopBars: int, s: State)
    ensures var (next, done) := StepBar(p, bar, offset, timeStopBars, s);
            !done ==> next.remaining > 0.0
  {
  }

  /** What a trade fixes at entry, and its whole record unless it ended for lack of data, is settled by the bars seen. */
  ghost predicate SameSoFar(a: Trade, b: Trade) {
    && a.symbol == b.symbol && a.side == b.side && a.entryTime == b.entryTime && a.entryPrice == b.entryPrice
    && a.initialStop == b.initialStop && a.quantity == b.quantity && a.notional == b.notional
    && (a.exitReason != EndOfData ==> a == b)
  }

  lemma SimulatePrefix(
    symbol: string, side: PositionSide, bars: seq<Bar>, longer: seq<Bar>, i: nat, cfg: ReplayConfig)
    requires bars <= longer && i < |bars|
    ensures var a := Simulate(symbol, side, bars, i, cfg);
            var b := Simulate(symbol, side, longer, i, cfg);
            if a.Failure? then a == b else b.Success? && SameSoFar(a.value, b.value)
  {
    assert bars[..i + 1] == longer[..i + 1];
    hide Atr, PlanAt, Walk, StopDistance;
    assert MakePlan(side, bars, i, cfg) == MakePlan(side, longer, i, cfg);
    var plan := MakePlan(side, bars, i, cfg);
    if plan.Success? {
      WalkStaysInside(plan.value, bars, i, cfg.timeStopBars, 0, InitialState(plan.value));
      WalkStaysInside(plan.value, longer, i, cfg.timeStopBars, 0, InitialState(plan.value));
      WalkPrefix(plan.value, bars, longer, i, cfg.timeStopBars, 0, InitialState(plan.value));
    }
  }

  lemma SignalAtPrefix(daily: seq<Bar>, bars: seq<Bar>, longer: seq<Bar>, i: nat, cfg: ReplayConfig)
    requires bars <= longer && i < |bars|
    ensures SignalAt(daily, bars, i, cfg) == SignalAt(daily, longer, i, cfg)
  {
    assert bars[..i + 1] == longer[..i + 1];
  }

  /**
    No look-ahead. Appending 4H bars keeps every trade before the first END_OF_DATA trade identical, and that
    trade keeps everything fixed at its entry.
   */
  lemma {:induction false} ScanPrefix(
    symbol: string, daily: seq<Bar>, bars: seq<Bar>, longer: seq<Bar>, cfg: ReplayConfig, index: nat, k: nat)
    requires bars <= longer
    requires Scan(symbol, daily, bars, cfg, index).Success? && Scan(symbol, daily, longer, cfg, index).Success?
    requires var a := Scan(symbol, daily, bars, cfg, index).value;
             k < |a| && forall i :: 0 <= i < k ==> a[i].trade.exitReason != EndOfData
    ensures var a := Scan(symbol, daily, bars, cfg, index).value;
            var b := Scan(symbol, daily, longer, cfg, index).value;
            k < |b| && a[k].index == b[k].index && SameSoFar(a[k].trade, b[k].trade)
    decreases |bars| - index
  {
    hide SignalAt, Simulate;
    if index < |bars| {
      var side := SignalAt(daily, bars, index, cfg).value;
      SignalAtPrefix(daily, bars, longer, index, cfg);
      if side.None? {
        ScanPrefix(symbol, daily, bars, longer, cfg, index + 1, k);
      } else {
        SimulatePrefix(symbol, side.value, bars, longer, index, cfg);
        var a := Scan(symbol, daily, bars, cfg, index).value;
        if k > 0 {
          assert a[0].trade.exitReason != EndOfData;
          var rest := Scan(symbol, daily, bars, cfg, NextIndex(a[0])).value;
          assert forall i :: 0 <= i < k - 1 ==> rest[i] == a[i + 1];
          ScanPrefix(symbol, daily, bars, longer, cfg, NextIndex(a[0]), k - 1);
        }
      }
    }
  }

  /** With the daily bars in order, a 4H bar sees exactly the closes stamped at or before it. */
  lemma {:induction false} DailyClosesArePrefix(daily: seq<Bar>, n: nat, now: int)
    requires n <= |daily|
    requires forall i :: 0 <= i < n ==> daily[i].timestamp <= now
    requires forall i :: n <= i < |daily| ==> daily[i].timestamp > now
    ensures |DailyClosesUntil(daily, now)| == n
    ensures forall i :: 0 <= i < n ==> DailyClosesUntil(daily, now)[i] == daily[i].close
    decreases |daily|
  {
    if |daily| > 0 {
      DailyClosesArePrefix(daily[..|daily| - 1], if n == |daily| then n - 1 else n, now);
    }
  }

  /** Daily bars stamped no later than t. */
  function DailyUntil(daily: seq<Bar>, t: int): seq<Bar> {
    if |daily| == 0 then []
    else
      var rest := DailyUntil(daily[..|daily| - 1], t);
      if daily[|daily| - 1].timestamp <= t then rest + [daily[|daily| - 1]] else rest
  }

  lemma {:induction false} ClosesIgnoreLater(daily: seq<Bar>, t: int, now: int)
    requires now <= t
    ensures DailyClosesUntil(DailyUntil(daily, t), now) == DailyClosesUntil(daily, now)
  {
    if |daily| > 0 {
      var init, last := daily[..|daily| - 1], daily[|daily| - 1];
      ClosesIgnoreLater(init, t, now);
      var rest := DailyUntil(init, t);
      assert (rest + [last])[..|rest|] == rest;
    }
  }

  /** Daily bars stamped later than every 4H bar never matter. */
  lemma {:induction false} LaterDailyBarsNeverMatter(
    symbol: string, daily: seq<Bar>, bars: seq<Bar>, cfg: ReplayConfig, t: int, index: nat)
    requires forall i :: 0 <= i < |bars| ==> bars[i].timestamp <= t
    ensures Scan(symbol, DailyUntil(daily, t), bars, cfg, index) == Scan(symbol, daily, bars, cfg, index)
    decreases |bars| - index
  {
    if index < |bars| {
      ClosesIgnoreLater(daily, t, bars[index].timestamp);
      hide Simulate, DailyUntil, DailyClosesUntil, DonchianSignal, WrappedSide, RegimeFromDailyClose;
      var signal := SignalAt(daily, bars, index, cfg);
      assert signal == SignalAt(DailyUntil(daily, t), bars, index, cfg);
      hide SignalAt;
      if signal == Success(None) {
        LaterDailyBarsNeverMatter(symbol, daily, bars, cfg, t, index + 1);
      } else if signal.Success? {
        var trade := Simulate(symbol, signal.value.value, bars, index, cfg);
        if trade.Success? {
          LaterDailyBarsNeverMatter(symbol, daily, bars, cfg, t, NextIndex(Entry(index, trade.value)));
        }
      }
    }
  }

  // ---------------------------------------------------------------- unchecked configurations

  function RegimeAt(daily: seq<Bar>, bars: seq<Bar>, i: nat): Regime
    requires i < |bars|
  {
    RegimeFromDailyClose(DailyClosesUntil(daily, bars[i].timestamp))
  }

  /** With a lookback of zero nothing is ever traded: the replay raises exactly when some bar it scans is in a trend. */
  lemma {:induction false} ZeroLookbackNeverTrades(
    symbol: string, daily: seq<Bar>, bars: seq<Bar>, cfg: ReplayConfig, index: nat)
    requires cfg.lookback == 0
    ensures Scan(symbol, daily, bars, cfg, index)
         == if exists i :: index <= i < |bars| && RegimeAt(daily, bars, i) in {Bull, Bear} then Failure(EmptyWindow)
            else Success([])
    decreases |bars| - index
  {
    hide RegimeFromDailyClose, DailyClosesUntil;
    if index < |bars| {
      ZeroLookbackNeverTrades(symbol, daily, bars, cfg, index + 1);
      assert RegimeAt(daily, bars, index) in {Bull, Bear} <==> SignalAt(daily, bars, index, cfg).Failure?;
    }
  }

  lemma NegativePeriodRaises(symbol: string, side: PositionSide, bars: seq<Bar>, i: nat, cfg: ReplayConfig)
    requires i < |bars| && cfg.atrPeriod < 0
    ensures Simulate(symbol, side, bars, i, cfg) == Failure(NonPositiveStopDistance)
  {
    assert StopDistance(0.0, cfg) == 0.0;
  }

  /** With a negative ATR period nothing is ever traded, wherever the scan starts: the first signal raises. */
  lemma {:induction false} NegativePeriodNeverTrades(
    symbol: string, daily: seq<Bar>, bars: seq<Bar>, cfg: ReplayConfig, index: int)
    requires cfg.atrPeriod < 0 && (index < 0 ==> cfg.lookback < 1)
    ensures var r := ScanFrom(symbol, daily, bars, cfg, index);
            r.Success? ==> r.value == []
    decreases |bars| - index
  {
    hide SignalAt, SignalFromEnd, Simulate;
    if index < |bars| {
      NegativePeriodNeverTrades(symbol, daily, bars, cfg, index + 1);
    }
    if 0 <= index < |bars| {
      var signal := SignalAt(daily, bars, index, cfg);
      if signal.Success? && signal.value.Some? {
        NegativePeriodRaises(symbol, signal.value.value, bars, index, cfg);
      }
    }
  }
}
