/** The portfolio once the orders of a run are filled: which caps survive, and exactly when. */
module Portfolio {
  import opened Prelude
  import opened Market
  import opened Models
  import opened Filters
  import opened Allocator
  import opened EntryIntent
  import opened OrderStorage
  import opened Routing
  import opened AutoLoop
  import opened AutoLoopTheorems

  ghost predicate WellFormedRun(w: World, candidates: seq<Candidate>) {
    && w.sizing.maxLeverage > 0.0 && w.loopConfig.limitPriceOffsetBps >= 0.0
    && (forall symbol :: symbol in w.filters ==> w.filters[symbol].minNotional >= 0.0)
    && (forall i :: 0 <= i < |candidates| ==> candidates[i].entryPrice > 0.0)
  }

  /** The position a limit order turns into when all of it fills at its limit. */
  function FillAtLimit(order: OrderIntent): PositionSnapshot
    requires order.price.Some?
  {
    PositionSnapshot(order.symbol, "BOTH", if order.side == Buy then order.quantity else -order.quantity,
                     order.price, Notional(order.quantity, order.price.value))
  }

  function OrderMargin(cfg: AllocatorConfig, order: OrderIntent): real
    requires cfg.maxLeverage != 0.0 && order.price.Some?
  {
    MarginOf(Notional(order.quantity, order.price.value), cfg.maxLeverage)
  }

  /** The fill of the order a decision submitted, if it submitted one. */
  function FillOf(d: LoopDecision): seq<PositionSnapshot> {
    if d.accepted && d.route.Some? && d.route.value.order.Some? && d.route.value.order.value.1.intent.price.Some? then
      [FillAtLimit(d.route.value.order.value.1.intent)]
    else []
  }

  function Fills(decisions: seq<LoopDecision>): seq<PositionSnapshot> {
    if |decisions| == 0 then [] else Fills(decisions[..|decisions| - 1]) + FillOf(decisions[|decisions| - 1])
  }

  lemma FillsNext(decisions: seq<LoopDecision>, d: LoopDecision)
    ensures Fills(decisions + [d]) == Fills(decisions) + FillOf(d)
  {
    assert (decisions + [d])[..|decisions|] == decisions;
  }

  /** The positions after every order of a run is filled at its limit. */
  function PortfolioAfter(w: World, s: LoopState): seq<PositionSnapshot> {
    w.positions + Fills(s.decisions)
  }

  ghost predicate OnePerSymbol(positions: seq<PositionSnapshot>) {
    forall i, j :: 0 <= i < j < |positions| && !positions[i].IsFlat() && !positions[j].IsFlat() ==>
      positions[i].symbol != positions[j].symbol
  }

  predicate WithinMarginCap(cfg: AllocatorConfig, account: AccountSnapshot, positions: seq<PositionSnapshot>)
    requires cfg.maxLeverage != 0.0
  {
    UsedMargin(OpenPositions(positions), cfg.maxLeverage) <= PortfolioCap(cfg, account)
  }

  predicate WithinCountCap(cfg: AllocatorConfig, positions: seq<PositionSnapshot>) {
    |OpenPositions(positions)| <= cfg.maxConcurrentPositions
  }

  /** No position uses more than the margin allowed per position. */
  predicate WithinPositionCap(cfg: AllocatorConfig, account: AccountSnapshot, positions: seq<PositionSnapshot>)
    requires cfg.maxLeverage != 0.0
  {
    forall i :: 0 <= i < |positions| ==>
      MarginOf(PositionNotional(positions[i]), cfg.maxLeverage) <= PerPositionCap(cfg, account)
  }

  // ---------------------------------------------------------------- one submitted order

  /** The order of a sendable candidate carries the allocated quantity at the limit on the tick. */
  lemma OrderFacts(w: World, c: Candidate)
    requires w.sizing.maxLeverage > 0.0 && c.entryPrice > 0.0 && Sendable(w, c)
    requires w.filters[c.symbol].minNotional >= 0.0
    ensures w.filters[c.symbol].tickSize > 0.0 && OrderOf(w, c).price.Some?
    ensures var d := Allocation(w, c).value;
            var limit := LimitOnTick(c, w.loopConfig.limitPriceOffsetBps, w.filters[c.symbol]);
            && OrderOf(w, c).symbol == c.symbol && OrderOf(w, c).quantity == d.quantity > 0.0
            && OrderOf(w, c).price == Some(limit)
            && Notional(d.quantity, limit) >= 0.0
            && OrderMargin(w.sizing, OrderOf(w, c)) == MarginAtLimit(w.sizing, d, limit) >= 0.0
    ensures !HasOpenPosition(c.symbol, w.positions)
    ensures |OpenPositions(w.positions)| < w.sizing.maxConcurrentPositions
    ensures RemainingMargin(w.sizing, w.account, OpenPositions(w.positions)) > 0.0
  {
    hide Allocate, Notional, MarginOf, LimitOnTick, SubmittedIntent, RemainingMargin, HasOpenPosition, OpenPositions,
         AllowedNotional, AllowedMargin, RiskBudget, FloorToStep;
    var d, filters := Allocation(w, c).value, w.filters[c.symbol];
    var offset := w.loopConfig.limitPriceOffsetBps;
    AllocatedFacts(w.sizing, c, w.account, w.positions, filters, d);
    AcceptedIsSized(w.sizing, c, w.account, w.positions, filters, d);
    NormalisationKeepsQuantity(w.sizing, c, w.account, w.positions, filters, d, offset);
    MarginNonNegative(Notional(d.quantity, LimitOnTick(c, offset, filters)), w.sizing.maxLeverage);
  }

  lemma FillFacts(w: World, c: Candidate)
    requires w.sizing.maxLeverage > 0.0 && c.entryPrice > 0.0 && Sendable(w, c)
    requires w.filters[c.symbol].minNotional >= 0.0
    ensures OrderOf(w, c).price.Some?
    ensures var fill := FillAtLimit(OrderOf(w, c));
            && fill.symbol == c.symbol && !fill.IsFlat()
            && fill.amount == (if c.side == Long then Allocation(w, c).value.quantity
                               else -Allocation(w, c).value.quantity)
            && (fill.amount > 0.0 <==> c.side == Long)
            && MarginOf(PositionNotional(fill), w.sizing.maxLeverage) == OrderMargin(w.sizing, OrderOf(w, c))
  {
    OrderFacts(w, c);
    OrderOpensFor(w, c);
    hide OrderOf, Sendable, MarginAtLimit, LimitOnTick;
    NotionalOfFill(OrderOf(w, c));
  }

  lemma NotionalOfFill(order: OrderIntent)
    requires order.price.Some? && Notional(order.quantity, order.price.value) >= 0.0
    ensures PositionNotional(FillAtLimit(order)) == Notional(order.quantity, order.price.value)
  {
  }

  lemma FillOfAnswer(w: World, c: Candidate, env: Environment, d: LoopDecision)
    requires w.sizing.maxLeverage > 0.0 && c.entryPrice > 0.0 && Answers(w, c, env, d)
    requires c.symbol in w.filters ==> w.filters[c.symbol].minNotional >= 0.0
    ensures d.accepted ==> c.symbol in w.filters && Sendable(w, c) && OrderOf(w, c).price.Some?
                           && FillOf(d) == [FillAtLimit(OrderOf(w, c))]
    ensures !d.accepted ==> FillOf(d) == []
  {
    if d.accepted {
      OrderFacts(w, c);
      hide Sendable, OrderOf;
    }
  }

  // ---------------------------------------------------------------- adding a position

  lemma OpenAfter(positions: seq<PositionSnapshot>, p: PositionSnapshot)
    ensures OpenPositions(positions + [p]) == OpenPositions(positions) + if p.IsFlat() then [] else [p]
  {
    assert (positions + [p])[..|positions|] == positions;
  }

  lemma UsedAfter(positions: seq<PositionSnapshot>, p: PositionSnapshot, leverage: real)
    requires leverage != 0.0
    ensures UsedMargin(positions + [p], leverage)
         == UsedMargin(positions, leverage) + MarginOf(PositionNotional(p), leverage)
  {
    assert (positions + [p])[..|positions|] == positions;
  }

  lemma OnePerSymbolAfter(positions: seq<PositionSnapshot>, p: PositionSnapshot)
    requires !p.IsFlat()
    ensures OnePerSymbol(positions + [p]) <==> OnePerSymbol(positions) && !HasOpenPosition(p.symbol, positions)
  {
    var after := positions + [p];
    assert after[|positions|] == p;
    assert forall i :: 0 <= i < |positions| ==> after[i] == positions[i];
  }

  lemma HasOpenAfter(positions: seq<PositionSnapshot>, p: PositionSnapshot, symbol: string)
    requires !p.IsFlat()
    ensures HasOpenPosition(symbol, positions + [p]) <==> HasOpenPosition(symbol, positions) || p.symbol == symbol
  {
    var after := positions + [p];
    assert after[|positions|] == p;
    assert forall i :: 0 <= i < |positions| ==> after[i] == positions[i];
  }

  // ---------------------------------------------------------------- the portfolio after a run, from its inputs

  /** The margin of the selected orders among the first n candidates, at their limits. */
  function SubmittedMargin(w: World, candidates: seq<Candidate>, envs: seq<Environment>, n: nat): real
    requires n <= |candidates| == |envs| && WellFormedRun(w, candidates)
  {
    if n == 0 then 0.0
    else
      SubmittedMargin(w, candidates, envs, n - 1)
      + if Selected(w, candidates, envs, n - 1) then
          OrderFacts(w, candidates[n - 1]); OrderMargin(w.sizing, OrderOf(w, candidates[n - 1]))
        else 0.0
  }

  /** No two selected candidates share a symbol. */
  ghost predicate DistinctSelected(w: World, candidates: seq<Candidate>, envs: seq<Environment>, n: nat)
    requires n <= |candidates| == |envs|
  {
    forall i, j :: 0 <= i < j < n && Selected(w, candidates, envs, i) && Selected(w, candidates, envs, j) ==>
      candidates[i].symbol != candidates[j].symbol
  }

  ghost predicate SelectedSymbol(w: World, candidates: seq<Candidate>, envs: seq<Environment>, n: nat, symbol: string)
    requires n <= |candidates| == |envs|
  {
    exists i :: 0 <= i < n && Selected(w, candidates, envs, i) && candidates[i].symbol == symbol
  }

  /** The decisions are those of the first candidates, selected ones accepted and no others. */
  ghost predicate DecidedBy(
    w: World, candidates: seq<Candidate>, envs: seq<Environment>, decisions: seq<LoopDecision>)
    requires |candidates| == |envs|
  {
    && |decisions| <= |candidates|
    && (forall i :: 0 <= i < |decisions| ==> Answers(w, candidates[i], envs[i], decisions[i]))
    && (forall i :: 0 <= i < |decisions| ==> (decisions[i].accepted <==> Selected(w, candidates, envs, i)))
  }

  /** The positions are those of the snapshot plus the selected fills among the first n candidates, count of them. */
  ghost predicate FilledUpTo(
    w: World, candidates: seq<Candidate>, envs: seq<Environment>, n: nat, count: nat, positions: seq<PositionSnapshot>)
    requires n <= |candidates| == |envs| && WellFormedRun(w, candidates)
  {
    && |OpenPositions(positions)| == |OpenPositions(w.positions)| + count
    && UsedMargin(OpenPositions(positions), w.sizing.maxLeverage)
       == UsedMargin(OpenPositions(w.positions), w.sizing.maxLeverage) + SubmittedMargin(w, candidates, envs, n)
    && (forall symbol ::
          (HasOpenPosition(symbol, positions)
           <==> HasOpenPosition(symbol, w.positions) || SelectedSymbol(w, candidates, envs, n, symbol)))
    && (OnePerSymbol(w.positions) ==> (OnePerSymbol(positions) <==> DistinctSelected(w, candidates, envs, n)))
  }

  lemma SkipNext(
    w: World, candidates: seq<Candidate>, envs: seq<Environment>, n: nat, count: nat, positions: seq<PositionSnapshot>)
    requires n < |candidates| == |envs| && WellFormedRun(w, candidates)
    requires FilledUpTo(w, candidates, envs, n, count, positions) && !Selected(w, candidates, envs, n)
    ensures FilledUpTo(w, candidates, envs, n + 1, count, positions)
  {
    hide HasOpenPosition, OnePerSymbol, OpenPositions, UsedMargin, OrderMargin, Selected;
    forall symbol
      ensures SelectedSymbol(w, candidates, envs, n + 1, symbol) <==> SelectedSymbol(w, candidates, envs, n, symbol)
    {
    }
  }

  lemma FillNext(
    w: World, candidates: seq<Candidate>, envs: seq<Environment>, n: nat, count: nat, positions: seq<PositionSnapshot>,
    fill: PositionSnapshot)
    requires n < |candidates| == |envs| && WellFormedRun(w, candidates)
    requires FilledUpTo(w, candidates, envs, n, count, positions) && Selected(w, candidates, envs, n)
    requires Sendable(w, candidates[n]) && OrderOf(w, candidates[n]).price.Some?
    requires fill.symbol == candidates[n].symbol && !fill.IsFlat() && !HasOpenPosition(fill.symbol, w.positions)
    requires MarginOf(PositionNotional(fill), w.sizing.maxLeverage) == OrderMargin(w.sizing, OrderOf(w, candidates[n]))
    ensures FilledUpTo(w, candidates, envs, n + 1, count + 1, positions + [fill])
  {
    hide HasOpenPosition, OnePerSymbol, OpenPositions, UsedMargin, OrderMargin, MarginOf, PositionNotional, Selected,
         Sendable, OrderOf;
    OpenAfter(positions, fill);
    UsedAfter(OpenPositions(positions), fill, w.sizing.maxLeverage);
    OnePerSymbolAfter(positions, fill);
    forall symbol
      ensures HasOpenPosition(symbol, positions + [fill]) <==> HasOpenPosition(symbol, positions) || fill.symbol == symbol
      ensures SelectedSymbol(w, candidates, envs, n + 1, symbol)
         <==> SelectedSymbol(w, candidates, envs, n, symbol) || fill.symbol == symbol
    {
      HasOpenAfter(positions, fill, symbol);
    }
    assert DistinctSelected(w, candidates, envs, n + 1)
      <==> DistinctSelected(w, candidates, envs, n) && !SelectedSymbol(w, candidates, envs, n, fill.symbol);
  }

  /** One more decision, accepted exactly when its candidate is selected. */
  lemma FilledNext(
    w: World, candidates: seq<Candidate>, envs: seq<Environment>, decisions: seq<LoopDecision>, d: LoopDecision)
    requires |decisions| < |candidates| == |envs| && WellFormedRun(w, candidates)
    requires FilledUpTo(w, candidates, envs, |decisions|, AcceptedCount(decisions), w.positions + Fills(decisions))
    requires Answers(w, candidates[|decisions|], envs[|decisions|], d)
    requires d.accepted <==> Selected(w, candidates, envs, |decisions|)
    ensures FilledUpTo(w, candidates, envs, |decisions| + 1, AcceptedCount(decisions + [d]),
                       w.positions + Fills(decisions + [d]))
  {
    hide OrderMargin, MarginOf, PositionNotional, FillAtLimit, FillOf, Answers, Selected, OrderOf, Sendable, FilledUpTo,
         Fills, AcceptedCount, HasOpenPosition, OpenPositions;
    var k, c, before := |decisions|, candidates[|decisions|], w.positions + Fills(decisions);
    FillOfAnswer(w, c, envs[k], d);
    AcceptedCountNext(decisions, d);
    FillsNext(decisions, d);
    assert w.positions + Fills(decisions + [d]) == before + FillOf(d);
    if d.accepted {
      FillFacts(w, c);
      OrderFacts(w, c);
      FillNext(w, candidates, envs, k, AcceptedCount(decisions), before, FillAtLimit(OrderOf(w, c)));
    } else {
      assert before + [] == before;
      SkipNext(w, candidates, envs, k, AcceptedCount(decisions), before);
    }
  }

  lemma {:induction false} FilledPortfolio(
    w: World, candidates: seq<Candidate>, envs: seq<Environment>, decisions: seq<LoopDecision>)
    requires |candidates| == |envs| && WellFormedRun(w, candidates)
    requires DecidedBy(w, candidates, envs, decisions)
    ensures FilledUpTo(w, candidates, envs, |decisions|, AcceptedCount(decisions), w.positions + Fills(decisions))
  {
    hide Answers, Selected, FilledUpTo;
    if |decisions| == 0 {
      assert w.positions + Fills(decisions) == w.positions;
      NothingFilled(w, candidates, envs);
    } else {
      var init, d := decisions[..|decisions| - 1], decisions[|decisions| - 1];
      assert decisions == init + [d];
      FilledPortfolio(w, candidates, envs, init);
      FilledNext(w, candidates, envs, init, d);
    }
  }

  lemma NothingFilled(w: World, candidates: seq<Candidate>, envs: seq<Environment>)
    requires |candidates| == |envs| && WellFormedRun(w, candidates)
    ensures FilledUpTo(w, candidates, envs, 0, 0, w.positions)
  {
    hide HasOpenPosition, OnePerSymbol, OpenPositions, UsedMargin;
  }

  // ---------------------------------------------------------------- margin bounds

  function Times(n: nat, x: real): real {
    n as real * x
  }

  lemma OneMore(n: nat, x: real)
    ensures Times(n + 1, x) == Times(n, x) + x
  {
  }

  /** The margin the snapshot leaves for one order. */
  function WorldMargin(w: World): real
    requires w.sizing.maxLeverage != 0.0
  {
    AllowedMargin(w.sizing, w.account, OpenPositions(w.positions))
  }

  function WorldStretch(w: World): real {
    1.0 + Offset(w.loopConfig.limitPriceOffsetBps)
  }

  /** One submitted order: sized within the margin left, at its limit for a LONG as well, up to the offset for a SHORT. */
  lemma OrderMarginBound(w: World, c: Candidate)
    requires w.sizing.maxLeverage > 0.0 && c.entryPrice > 0.0 && w.loopConfig.limitPriceOffsetBps >= 0.0
    requires Sendable(w, c) && w.filters[c.symbol].minNotional >= 0.0
    ensures OrderOf(w, c).price.Some?
    ensures OrderMargin(w.sizing, OrderOf(w, c)) <= Scaled(WorldMargin(w), WorldStretch(w))
    ensures c.side == Long ==> OrderMargin(w.sizing, OrderOf(w, c)) <= WorldMargin(w)
  {
    hide Allocate, AllowedMargin, MarginAtLimit, LimitOnTick, OrderMargin, SubmittedIntent, Offset, Scaled;
    OrderFacts(w, c);
    MarginSurvives(w.sizing, c, w.account, w.positions, w.filters[c.symbol], Allocation(w, c).value,
                   w.loopConfig.limitPriceOffsetBps);
    if c.side == Long {
      StretchGrows(WorldMargin(w), w.loopConfig.limitPriceOffsetBps);
    }
  }

  lemma StretchGrows(margin: real, offsetBps: real)
    requires margin >= 0.0 && offsetBps >= 0.0
    ensures margin <= Scaled(margin, 1.0 + Offset(offsetBps))
  {
  }

  lemma {:induction false} SubmittedMarginBound(
    w: World, candidates: seq<Candidate>, envs: seq<Environment>, decisions: seq<LoopDecision>)
    requires |candidates| == |envs| && WellFormedRun(w, candidates)
    requires DecidedBy(w, candidates, envs, decisions)
    ensures var margin := SubmittedMargin(w, candidates, envs, |decisions|);
            && margin <= Times(AcceptedCount(decisions), Scaled(WorldMargin(w), WorldStretch(w)))
            && ((forall i :: 0 <= i < |decisions| && decisions[i].accepted ==> candidates[i].side == Long) ==>
                  margin <= Times(AcceptedCount(decisions), WorldMargin(w)))
  {
    hide WorldMargin, WorldStretch, Times, Scaled, OrderMargin, Answers, Selected, Sendable, OrderOf;
    NoTimes(WorldMargin(w));
    NoTimes(Scaled(WorldMargin(w), WorldStretch(w)));
    if |decisions| > 0 {
      var k := |decisions| - 1;
      var init, d := decisions[..k], decisions[k];
      assert decisions == init + [d];
      SubmittedMarginBound(w, candidates, envs, init);
      if d.accepted {
        AcceptedIsSendable(w, candidates[k], envs[k], d);
        OrderMarginBound(w, candidates[k]);
        OneMore(AcceptedCount(init), WorldMargin(w));
        OneMore(AcceptedCount(init), Scaled(WorldMargin(w), WorldStretch(w)));
      }
    }
  }

  lemma NoTimes(x: real)
    ensures Times(0, x) == 0.0
  {
  }

  lemma AcceptedIsSendable(w: World, c: Candidate, env: Environment, d: LoopDecision)
    requires d.accepted && Answers(w, c, env, d)
    ensures Sendable(w, c)
  {
  }

  /** What the allocator reported as initial margin for the accepted decisions. */
  function AllocatedMargin(decisions: seq<LoopDecision>): real {
    if |decisions| == 0 then 0.0
    else
      AllocatedMargin(decisions[..|decisions| - 1])
      + if decisions[|decisions| - 1].accepted then decisions[|decisions| - 1].allocation.initialMargin else 0.0
  }

  lemma OneAllocatedMargin(w: World, c: Candidate, env: Environment, d: LoopDecision)
    requires w.sizing.maxLeverage > 0.0 && c.entryPrice > 0.0
    requires d.accepted && Answers(w, c, env, d)
    ensures d.allocation.initialMargin <= WorldMargin(w)
  {
    hide PerPositionCap, PortfolioCap, Notional, MarginOf, Allocate, UsedMargin, SubmittedIntent;
    AllocatorCaps(w.sizing, c, w.account, w.positions, w.filters[c.symbol], d.allocation);
  }

  lemma {:induction false} AllocatedMarginBound(
    w: World, candidates: seq<Candidate>, envs: seq<Environment>, decisions: seq<LoopDecision>)
    requires |candidates| == |envs| && WellFormedRun(w, candidates)
    requires DecidedBy(w, candidates, envs, decisions)
    ensures AllocatedMargin(decisions) <= Times(AcceptedCount(decisions), WorldMargin(w))
  {
    hide WorldMargin, Times, Answers, Selected;
    NoTimes(WorldMargin(w));
    if |decisions| > 0 {
      var k := |decisions| - 1;
      var init, d := decisions[..k], decisions[k];
      assert decisions == init + [d];
      AllocatedMarginBound(w, candidates, envs, init);
      if d.accepted {
        OneAllocatedMargin(w, candidates[k], envs[k], d);
        OneMore(AcceptedCount(init), WorldMargin(w));
      }
    }
  }

  /**
    k orders of one run are allocated at most k times the margin left in the snapshot. Filled at their limits they use
    no more than that when all are LONG, and (1 + offset) times that in any case.
   */
  lemma {:induction false} RunMarginBound(
    w: World, candidates: seq<Candidate>, envs: seq<Environment>, book: OrderTable, store: OrderTable)
    requires |candidates| == |envs| && WellFormedRun(w, candidates)
    ensures var s := LoopRun(w, candidates, envs, Fresh(book, store), |candidates|).0;
            var before, after := OpenPositions(w.positions), OpenPositions(PortfolioAfter(w, s));
            var added := UsedMargin(after, w.sizing.maxLeverage) - UsedMargin(before, w.sizing.maxLeverage);
            && |s.decisions| <= |candidates|
            && AllocatedMargin(s.decisions) <= Times(s.submitted, WorldMargin(w))
            && added <= Times(s.submitted, Scaled(WorldMargin(w), WorldStretch(w)))
            && ((forall i :: 0 <= i < |s.decisions| && s.decisions[i].accepted ==> candidates[i].side == Long) ==>
                  added <= Times(s.submitted, WorldMargin(w)))
  {
    hide LoopRun, WorldMargin, WorldStretch, Times, Scaled, Answers, Selected, Fills, OpenPositions, UsedMargin,
         SubmittedMargin, SubmittedCount, DecidedCount;
    RunAnswers(w, candidates, envs, book, store, |candidates|);
    var s := LoopRun(w, candidates, envs, Fresh(book, store), |candidates|).0;
    FilledPortfolio(w, candidates, envs, s.decisions);
    SubmittedMarginBound(w, candidates, envs, s.decisions);
    AllocatedMarginBound(w, candidates, envs, s.decisions);
  }

  // ---------------------------------------------------------------- the margin per position

  /** A SHORT whose quantity at its limit exceeds the notional one position may have. */
  predicate OverPositionCap(w: World, c: Candidate) {
    && c.side == Short && Sendable(w, c) && w.filters[c.symbol].tickSize > 0.0
    && Notional(Allocation(w, c).value.quantity, LimitOnTick(c, w.loopConfig.limitPriceOffsetBps, w.filters[c.symbol]))
       > AllowedNotional(w.sizing, PerPositionCap(w.sizing, w.account))
  }

  /** A submitted LONG is within the per-position cap; a SHORT is exactly when its notional at the limit is. */
  lemma OrderWithinPositionCapIff(w: World, c: Candidate)
    requires w.sizing.maxLeverage > 0.0 && c.entryPrice > 0.0 && w.loopConfig.limitPriceOffsetBps >= 0.0
    requires Sendable(w, c) && w.filters[c.symbol].minNotional >= 0.0
    ensures OrderOf(w, c).price.Some? && w.filters[c.symbol].tickSize > 0.0
    ensures OrderMargin(w.sizing, OrderOf(w, c)) <= PerPositionCap(w.sizing, w.account) <==> !OverPositionCap(w, c)
  {
    hide PerPositionCap, RemainingMargin, LimitOnTick, Notional, MarginOf, AllowedNotional, Scaled;
    OrderFacts(w, c);
    OrderMarginBound(w, c);
    var cap := PerPositionCap(w.sizing, w.account);
    hide Sendable, OrderOf, Allocation;
    CapNotional(w.sizing, OrderOf(w, c), cap);
  }

  lemma CapNotional(cfg: AllocatorConfig, order: OrderIntent, cap: real)
    requires cfg.maxLeverage > 0.0 && order.price.Some?
    ensures OrderMargin(cfg, order) <= cap
       <==> Notional(order.quantity, order.price.value) <= AllowedNotional(cfg, cap)
  {
    MarginWithin(Notional(order.quantity, order.price.value), cap, AllowedNotional(cfg, cap), cfg.maxLeverage);
  }

  /** Among the first n candidates no selected one is over the per-position cap. */
  ghost predicate NoneOverPositionCap(w: World, candidates: seq<Candidate>, envs: seq<Environment>, n: nat)
    requires n <= |candidates| == |envs|
  {
    forall i :: 0 <= i < n && Selected(w, candidates, envs, i) ==> !OverPositionCap(w, candidates[i])
  }

  lemma {:induction false} FillsWithinPositionCapIff(
    w: World, candidates: seq<Candidate>, envs: seq<Environment>, decisions: seq<LoopDecision>)
    requires |candidates| == |envs| && WellFormedRun(w, candidates)
    requires DecidedBy(w, candidates, envs, decisions)
    ensures WithinPositionCap(w.sizing, w.account, Fills(decisions))
       <==> NoneOverPositionCap(w, candidates, envs, |decisions|)
  {
    hide MarginOf, PositionNotional, PerPositionCap, FillOf, FillAtLimit, Answers, Selected, Sendable, OrderOf, OrderMargin;
    if |decisions| > 0 {
      var k := |decisions| - 1;
      var init, d, c := decisions[..k], decisions[k], candidates[k];
      assert decisions == init + [d];
      FillsWithinPositionCapIff(w, candidates, envs, init);
      FillOfAnswer(w, c, envs[k], d);
      if d.accepted {
        FillFacts(w, c);
        OrderWithinPositionCapIff(w, c);
        WithinCapAfter(w.sizing, w.account, Fills(init), FillAtLimit(OrderOf(w, c)));
      } else {
        assert Fills(init) + [] == Fills(init);
      }
    }
  }

  lemma WithinCapAfter(
    cfg: AllocatorConfig, account: AccountSnapshot, positions: seq<PositionSnapshot>, p: PositionSnapshot)
    requires cfg.maxLeverage != 0.0
    ensures WithinPositionCap(cfg, account, positions + [p])
       <==> WithinPositionCap(cfg, account, positions)
            && MarginOf(PositionNotional(p), cfg.maxLeverage) <= PerPositionCap(cfg, account)
  {
    var after := positions + [p];
    assert after[|positions|] == p;
    assert forall i :: 0 <= i < |positions| ==> after[i] == positions[i];
  }

  // ---------------------------------------------------------------- the caps after a run

  /**
    Which caps hold once every accepted order of a run is filled at its limit, decided from the run's inputs: the
    portfolio margin cap exactly when the selected orders' margin fits in what was left, the per-position margin cap
    exactly when no selected SHORT is over it at its limit, the position cap exactly when the open positions and the
    submitted orders together fit, the one-per-symbol rule exactly when no two selected candidates share a symbol.
   */
  lemma {:induction false} RunKeepsCapsIff(
    w: World, candidates: seq<Candidate>, envs: seq<Environment>, book: OrderTable, store: OrderTable)
    requires |candidates| == |envs| && WellFormedRun(w, candidates)
    ensures var s := LoopRun(w, candidates, envs, Fresh(book, store), |candidates|).0;
            var after, before := PortfolioAfter(w, s), OpenPositions(w.positions);
            var n := DecidedCount(w, candidates, envs, |candidates|);
            && (WithinMarginCap(w.sizing, w.account, after)
                <==> SubmittedMargin(w, candidates, envs, n) <= RemainingMargin(w.sizing, w.account, before))
            && (WithinPositionCap(w.sizing, w.account, Fills(s.decisions))
                <==> NoneOverPositionCap(w, candidates, envs, n))
            && (WithinCountCap(w.sizing, after)
                <==> |before| + SubmittedCount(w, candidates, envs, |candidates|) <= w.sizing.maxConcurrentPositions)
            && (OnePerSymbol(w.positions) ==> (OnePerSymbol(after) <==> DistinctSelected(w, candidates, envs, n)))
  {
    hide LoopRun, OnePerSymbol, PortfolioCap, OpenPositions, DistinctSelected, Answers, Selected, Fills, SubmittedMargin,
         DecidedCount, SubmittedCount, WithinPositionCap, NoneOverPositionCap;
    RunAnswers(w, candidates, envs, book, store, |candidates|);
    var s := LoopRun(w, candidates, envs, Fresh(book, store), |candidates|).0;
    FilledPortfolio(w, candidates, envs, s.decisions);
    FillsWithinPositionCapIff(w, candidates, envs, s.decisions);
  }

  /** With distinct symbols the one-per-symbol rule survives a run with any maximum. */
  lemma {:induction false} DistinctSymbolsKeepRule(
    w: World, candidates: seq<Candidate>, envs: seq<Environment>, book: OrderTable, store: OrderTable)
    requires |candidates| == |envs| && WellFormedRun(w, candidates) && OnePerSymbol(w.positions)
    requires forall i, j :: 0 <= i < j < |candidates| ==> candidates[i].symbol != candidates[j].symbol
    ensures OnePerSymbol(PortfolioAfter(w, LoopRun(w, candidates, envs, Fresh(book, store), |candidates|).0))
  {
    hide LoopRun, OnePerSymbol, PortfolioAfter;
    RunKeepsCapsIff(w, candidates, envs, book, store);
  }

  // ---------------------------------------------------------------- at most one order

  lemma {:induction false} CountGrows(
    w: World, candidates: seq<Candidate>, envs: seq<Environment>, m: nat, n: nat)
    requires m <= n <= |candidates| == |envs|
    ensures SubmittableCount(w, candidates, envs, m) <= SubmittableCount(w, candidates, envs, n)
  {
    if m < n {
      CountGrows(w, candidates, envs, m, n - 1);
    }
  }

  lemma OnlyOneSelected(w: World, candidates: seq<Candidate>, envs: seq<Environment>, i: nat, j: nat)
    requires i < j < |candidates| == |envs| && w.loopConfig.maxNewOrders <= 1
    ensures !(Selected(w, candidates, envs, i) && Selected(w, candidates, envs, j))
  {
    CountGrows(w, candidates, envs, i + 1, j);
  }

  lemma {:induction false} OneMargin(
    w: World, candidates: seq<Candidate>, envs: seq<Environment>, n: nat, i: nat)
    requires i < n <= |candidates| == |envs| && WellFormedRun(w, candidates)
    requires w.loopConfig.maxNewOrders <= 1 && Selected(w, candidates, envs, i)
    ensures Sendable(w, candidates[i]) && OrderOf(w, candidates[i]).price.Some?
    ensures SubmittedMargin(w, candidates, envs, n) == OrderMargin(w.sizing, OrderOf(w, candidates[i]))
  {
    OrderFacts(w, candidates[i]);
    hide OrderMargin, OrderOf, Sendable, HasRoom;
    if i < n - 1 {
      OnlyOneSelected(w, candidates, envs, i, n - 1);
      OneMargin(w, candidates, envs, n - 1, i);
    } else {
      NoMargin(w, candidates, envs, i, i);
    }
  }

  lemma {:induction false} NoMargin(w: World, candidates: seq<Candidate>, envs: seq<Environment>, n: nat, i: nat)
    requires n <= i < |candidates| == |envs| && WellFormedRun(w, candidates)
    requires w.loopConfig.maxNewOrders <= 1 && Selected(w, candidates, envs, i)
    ensures SubmittedMargin(w, candidates, envs, n) == 0.0
  {
    hide OrderMargin, Selected;
    if n > 0 {
      OnlyOneSelected(w, candidates, envs, n - 1, i);
      NoMargin(w, candidates, envs, n - 1, i);
    }
  }

  /**
    The run with a maximum of one, once its order is filled at its limit: the position cap and the one-per-symbol rule
    hold, and both margin caps for a LONG. For a SHORT the portfolio margin cap holds exactly when the margin at the
    limit fits in what was left, the per-position cap exactly when its notional at the limit does, and the used margin
    rises by at most (1 + offset) times the margin left.
   */
  lemma {:induction false} SingleOrderRunKeepsCaps(
    w: World, candidates: seq<Candidate>, envs: seq<Environment>, book: OrderTable, store: OrderTable, i: nat)
    requires |candidates| == |envs| && WellFormedRun(w, candidates) && w.loopConfig.maxNewOrders <= 1
    requires i < |candidates|
    requires var s := LoopRun(w, candidates, envs, Fresh(book, store), |candidates|).0;
             i < |s.decisions| && s.decisions[i].accepted
    ensures var (cfg, account, c) := (w.sizing, w.account, candidates[i]);
            var s := LoopRun(w, candidates, envs, Fresh(book, store), |candidates|).0;
            var after, before := PortfolioAfter(w, s), OpenPositions(w.positions);
            && Sendable(w, c) && w.filters[c.symbol].tickSize > 0.0
            && var d, limit := s.decisions[i].allocation,
                               LimitOnTick(c, w.loopConfig.limitPriceOffsetBps, w.filters[c.symbol]);
               && s.submitted == 1
               && WithinCountCap(cfg, after) && (OnePerSymbol(w.positions) ==> OnePerSymbol(after))
               && (WithinMarginCap(cfg, account, after)
                   <==> MarginAtLimit(cfg, d, limit) <= RemainingMargin(cfg, account, before))
               && (WithinPositionCap(cfg, account, Fills(s.decisions))
                   <==> c.side == Long || Notional(d.quantity, limit) <= AllowedNotional(cfg, PerPositionCap(cfg, account)))
               && (c.side == Long ==> WithinMarginCap(cfg, account, after))
               && UsedMargin(OpenPositions(after), cfg.maxLeverage)
                  <= UsedMargin(before, cfg.maxLeverage) + Scaled(WorldMargin(w), WorldStretch(w))
  {
    hide LoopRun, OnePerSymbol, Answers, Scaled, WorldStretch, WorldMargin, PortfolioAfter, OpenPositions, UsedMargin,
         SubmittedMargin, WithinMarginCap, MarginAtLimit, LimitOnTick, OrderMargin, OrderOf, Allocation, Selected, Times,
         Sendable, WithinPositionCap, DecidedCount, AllocatedMargin, Fills, Notional, AllowedNotional, PerPositionCap;
    var c := candidates[i];
    RunAnswers(w, candidates, envs, book, store, |candidates|);
    RunKeepsCapsIff(w, candidates, envs, book, store);
    RunMarginBound(w, candidates, envs, book, store);
    var s := LoopRun(w, candidates, envs, Fresh(book, store), |candidates|).0;
    OneIsSubmitted(w, candidates, envs, |s.decisions|, i);
    AllocationOfAnswer(w, c, envs[i], s.decisions[i]);
    OneMargin(w, candidates, envs, |s.decisions|, i);
    OrderFacts(w, c);
    forall j, k | 0 <= j < k < |s.decisions|
      ensures !(Selected(w, candidates, envs, j) && Selected(w, candidates, envs, k))
    {
      OnlyOneSelected(w, candidates, envs, j, k);
    }
    OnceIsItself(Scaled(WorldMargin(w), WorldStretch(w)));
    OrderMarginBound(w, c);
    MarginLeftFits(w);
  }

  lemma OneIsSubmitted(w: World, candidates: seq<Candidate>, envs: seq<Environment>, n: nat, i: nat)
    requires i < n <= |candidates| == |envs|
    requires w.loopConfig.maxNewOrders <= 1 && Selected(w, candidates, envs, i)
    ensures MinInt(SubmittableCount(w, candidates, envs, n), MaxInt(w.loopConfig.maxNewOrders, 0)) == 1
  {
    CountGrows(w, candidates, envs, i + 1, n);
  }

  lemma AllocationOfAnswer(w: World, c: Candidate, env: Environment, d: LoopDecision)
    requires d.accepted && Answers(w, c, env, d)
    ensures Sendable(w, c) && Allocation(w, c) == Success(d.allocation)
  {
  }

  lemma OnceIsItself(x: real)
    ensures Times(1, x) == x
  {
  }

  lemma MarginLeftFits(w: World)
    requires w.sizing.maxLeverage != 0.0
    ensures WorldMargin(w) <= RemainingMargin(w.sizing, w.account, OpenPositions(w.positions))
  {
  }

  // ---------------------------------------------------------------- more than one order

  lemma {:induction false} AllSubmittableCount(
    w: World, candidates: seq<Candidate>, envs: seq<Environment>, n: nat)
    requires n <= |candidates| == |envs|
    requires forall i :: 0 <= i < |candidates| ==> Submittable(w, candidates[i], envs[i])
    ensures SubmittableCount(w, candidates, envs, n) == n
  {
    hide Submittable;
    if n > 0 {
      AllSubmittableCount(w, candidates, envs, n - 1);
    }
  }

  /** When there is room for all, a run submits every candidate the snapshot lets through, however they add up. */
  lemma {:induction false} AllAreSubmitted(
    w: World, candidates: seq<Candidate>, envs: seq<Environment>, book: OrderTable, store: OrderTable)
    requires |candidates| == |envs| && |candidates| <= w.loopConfig.maxNewOrders
    requires forall i :: 0 <= i < |candidates| ==> Submittable(w, candidates[i], envs[i])
    ensures var (s, raised) := LoopRun(w, candidates, envs, Fresh(book, store), |candidates|);
            raised.None? && s.submitted == |s.decisions| == |candidates|
    ensures DecidedCount(w, candidates, envs, |candidates|) == |candidates|
    ensures SubmittedCount(w, candidates, envs, |candidates|) == |candidates|
    ensures forall i :: 0 <= i < |candidates| ==> Selected(w, candidates, envs, i)
  {
    hide LoopRun, Answers, Submittable;
    RunAnswers(w, candidates, envs, book, store, |candidates|);
    var k := DecidedCount(w, candidates, envs, |candidates|);
    assert k <= |candidates|;
    hide DecidedCount;
    AllSubmittableCount(w, candidates, envs, k);
    if k < |candidates| {
      DecidedBeforeRaise(w, candidates, envs, |candidates|, k);
      NeverRaises(w, candidates, envs, k);
    }
    assert LoopRun(w, candidates, envs, Fresh(book, store), |candidates|).1.None?;
    forall i | 0 <= i < |candidates|
      ensures Selected(w, candidates, envs, i)
    {
      AllSubmittableCount(w, candidates, envs, i);
    }
  }

  lemma NeverRaises(w: World, candidates: seq<Candidate>, envs: seq<Environment>, i: nat)
    requires i < |candidates| == |envs| && Submittable(w, candidates[i], envs[i])
    ensures !RaisesAt(w, candidates, envs, i)
  {
  }

  lemma {:induction false} EqualMargins(
    w: World, candidates: seq<Candidate>, envs: seq<Environment>, n: nat, margin: real)
    requires n <= |candidates| == |envs| && WellFormedRun(w, candidates)
    requires forall i :: 0 <= i < |candidates| ==>
               && Selected(w, candidates, envs, i)
               && OrderOf(w, candidates[i]).price.Some? && OrderMargin(w.sizing, OrderOf(w, candidates[i])) == margin
    ensures SubmittedMargin(w, candidates, envs, n) == Times(n, margin)
  {
    hide Selected, OrderMargin, OrderOf, Times;
    if n > 0 {
      EqualMargins(w, candidates, envs, n - 1, margin);
      OneMore(n - 1, margin);
    } else {
      NoTimes(margin);
    }
  }

  /** Whenever there is room for two, a candidate the snapshot lets through is submitted as often as it is listed. */
  lemma {:induction false} DuplicateIsSubmittedTwice(
    w: World, c: Candidate, envs: seq<Environment>, book: OrderTable, store: OrderTable)
    requires |envs| == 2 && w.loopConfig.maxNewOrders >= 2
    requires WellFormedRun(w, [c, c]) && OnePerSymbol(w.positions)
    requires Submittable(w, c, envs[0]) && Submittable(w, c, envs[1])
    ensures var (s, raised) := LoopRun(w, [c, c], envs, Fresh(book, store), 2);
            raised.None? && s.submitted == 2 && !OnePerSymbol(PortfolioAfter(w, s))
  {
    hide LoopRun, OnePerSymbol, PortfolioAfter, Submittable, Selected, DecidedCount, SubmittedCount;
    var candidates := [c, c];
    AllAreSubmitted(w, candidates, envs, book, store);
    RunKeepsCapsIff(w, candidates, envs, book, store);
    assert Selected(w, candidates, envs, 0) && Selected(w, candidates, envs, 1);
  }
}
