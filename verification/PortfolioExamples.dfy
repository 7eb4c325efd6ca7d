/**
  Concrete runs, with the default sizing, whose orders end outside the portfolio margin cap, the per-position margin cap,
  the position cap or the one-per-symbol rule.
 */
module PortfolioExamples {
  import opened Prelude
  import opened Market
  import opened Models
  import opened Filters
  import opened Allocator
  import opened EntryIntent
  import opened Routing
  import opened AutoLoop
  import opened AutoLoopTheorems
  import opened Portfolio

  const EXAMPLE_FILTERS := SymbolFilters(0.01, 0.001, 5.0)

  /** A balance of 10000, so that the portfolio cap is 2500 and the per-position cap 600. */
  function ExampleWorld(maxNewOrders: int, positions: seq<PositionSnapshot>): World {
    World(DEFAULT_CONFIG, DEFAULT_LOOP_CONFIG.(maxNewOrders := maxNewOrders, requireAck := true), true,
          AccountSnapshot(10000.0), positions, map["BTCUSDT" := EXAMPLE_FILTERS, "ETHUSDT" := EXAMPLE_FILTERS])
  }

  function Held(symbol: string, notional: real): PositionSnapshot {
    PositionSnapshot(symbol, "BOTH", 1.0, None, notional)
  }

  /** One position of 7200 leaves a margin of 100. */
  const ONE_HELD := [Held("SOLUSDT", 7200.0)]

  /** Two positions of 3600 leave the same. */
  const TWO_HELD := [Held("SOLUSDT", 3600.0), Held("BNBUSDT", 3600.0)]

  function ExampleCandidate(symbol: string, side: PositionSide): Candidate {
    Candidate(symbol, side, 100.0, if side == Long then 99.0 else 101.0, "setup")
  }

  function ExampleReply(id: string): Environment {
    Environment(id, Taken(None, None, None, None))
  }

  ghost predicate Leaves100(positions: seq<PositionSnapshot>) {
    && OpenPositions(positions) == positions && 0 < |positions| < 3
    && UsedMargin(positions, 3.0) == 2400.0
    && !HasOpenPosition("BTCUSDT", positions) && !HasOpenPosition("ETHUSDT", positions)
    && OnePerSymbol(positions)
  }

  lemma HeldLeaves100()
    ensures Leaves100(ONE_HELD) && Leaves100(TWO_HELD)
  {
    OpenAfter([], ONE_HELD[0]);
    UsedAfter([], ONE_HELD[0], 3.0);
    assert [] + [ONE_HELD[0]] == ONE_HELD;
    OpenAfter([], TWO_HELD[0]);
    UsedAfter([], TWO_HELD[0], 3.0);
    OpenAfter([TWO_HELD[0]], TWO_HELD[1]);
    UsedAfter([TWO_HELD[0]], TWO_HELD[1], 3.0);
    assert [] + [TWO_HELD[0]] == [TWO_HELD[0]];
    assert [TWO_HELD[0]] + [TWO_HELD[1]] == TWO_HELD;
  }

  /** Against a margin of 100 an example candidate is sized at 3.0 and sent at its offset limit. */
  lemma ExampleOrder(w: World, symbol: string, side: PositionSide)
    requires Leaves100(w.positions) && w == ExampleWorld(w.loopConfig.maxNewOrders, w.positions)
    requires symbol == "BTCUSDT" || symbol == "ETHUSDT"
    ensures var c := ExampleCandidate(symbol, side);
            && Sendable(w, c) && OrderOf(w, c).price.Some?
            && OrderMargin(w.sizing, OrderOf(w, c)) == if side == Long then 99.95 else 100.05
    ensures RemainingMargin(w.sizing, w.account, OpenPositions(w.positions)) == 100.0
  {
    var c, account := ExampleCandidate(symbol, side), AccountSnapshot(10000.0);
    assert Usable(w.sizing, account) == 5000.0;
    assert RemainingMargin(w.sizing, account, w.positions) == 100.0;
    assert PerPositionCap(w.sizing, account) == 600.0;
    assert RiskBudget(w.sizing, account) == 50.0;
    assert c.StopDistance() == 1.0;
    assert RawQuantity(w.sizing, c, 50.0, 100.0) == 3.0;
    assert 3.0 / 0.001 == 3000.0 && 100.0 / 0.01 == 10000.0;
    assert FloorToStep(3.0, 0.001) == Success(3.0);
    assert FloorToStep(100.0, 0.01) == Success(100.0);
    assert MarginOf(300.0, 3.0) == 100.0;
    QuantizeRoundsDown(100.0);
    var d := Allocation(w, c).value;
    assert d.accepted && d.quantity == 3.0;
    if side == Long {
      assert EntryLimitPrice(c, 5.0) == 99.95;
      assert 99.95 / 0.01 == 9995.0;
      assert FloorToStep(99.95, 0.01) == Success(99.95);
    } else {
      assert EntryLimitPrice(c, 5.0) == 100.05;
      assert 100.05 / 0.01 == 10005.0;
      assert FloorToStep(100.05, 0.01) == Success(100.05);
    }
  }

  /** One SHORT order breaks the portfolio margin cap: its limit is above the price it was sized at. */
  lemma OneShortBreaksMarginCap()
    ensures var w := ExampleWorld(1, ONE_HELD);
            var candidates := [ExampleCandidate("BTCUSDT", Short)];
            var (s, raised) := LoopRun(w, candidates, [ExampleReply("id-1")], Fresh(map[], map[]), 1);
            && raised.None? && s.submitted == 1
            && WithinMarginCap(w.sizing, w.account, w.positions)
            && !WithinMarginCap(w.sizing, w.account, PortfolioAfter(w, s))
  {
    hide Sendable, OrderOf, OrderMargin, LoopRun, PortfolioAfter, WithinMarginCap, WithinCountCap, OnePerSymbol,
         RemainingMargin, Leaves100, OpenPositions;
    HeldLeaves100();
    var w, candidates, envs := ExampleWorld(1, ONE_HELD), [ExampleCandidate("BTCUSDT", Short)], [ExampleReply("id-1")];
    HeldWithinCaps(w);
    ExampleOrder(w, "BTCUSDT", Short);
    ExampleRun(w, candidates, envs, 100.05);
    assert Times(1, 100.05) == 100.05;
  }

  /** With nothing held an example SHORT is sized at 18.0, just the per-position cap of 600 at its entry. */
  lemma FirstShortSize(c: Candidate, account: AccountSnapshot)
    requires c == ExampleCandidate("BTCUSDT", Short) && account == AccountSnapshot(10000.0)
    ensures var r := Allocate(DEFAULT_CONFIG, c, account, [], EXAMPLE_FILTERS);
            r.Success? && r.value.accepted && r.value.quantity == 18.0
  {
    assert Usable(DEFAULT_CONFIG, account) == 5000.0;
    assert RemainingMargin(DEFAULT_CONFIG, account, []) == 2500.0;
    assert PerPositionCap(DEFAULT_CONFIG, account) == 600.0;
    assert RiskBudget(DEFAULT_CONFIG, account) == 50.0;
    assert c.StopDistance() == 1.0;
    assert RawQuantity(DEFAULT_CONFIG, c, 50.0, 600.0) == 18.0;
    hide RawQuantity, RiskBudget, PerPositionCap, RemainingMargin, Usable;
    assert 18.0 / 0.001 == 18000.0 && 100.0 / 0.01 == 10000.0;
    assert FloorToStep(18.0, 0.001) == Success(18.0);
    assert FloorToStep(100.0, 0.01) == Success(100.0);
    assert MarginOf(1800.0, 3.0) == 600.0;
    QuantizeRoundsDown(600.0);
  }

  /** Its limit of 100.05 takes it over. */
  lemma FirstShort(w: World)
    requires w == ExampleWorld(1, [])
    ensures var c := ExampleCandidate("BTCUSDT", Short);
            Sendable(w, c) && OverPositionCap(w, c)
  {
    var c := ExampleCandidate("BTCUSDT", Short);
    FirstShortSize(c, w.account);
    assert PerPositionCap(w.sizing, w.account) == 600.0;
    hide Allocate, PerPositionCap;
    assert EntryLimitPrice(c, 5.0) == 100.05;
    hide EntryLimitPrice;
    assert 100.05 / 0.01 == 10005.0 && 18.0 / 0.001 == 18000.0;
    assert FloorToStep(100.05, 0.01) == Success(100.05);
    assert FloorToStep(18.0, 0.001) == Success(18.0);
    assert AllowedNotional(w.sizing, 600.0) == 1800.0;
  }

  /** The first SHORT of an empty portfolio breaks the per-position margin cap. */
  lemma OneShortBreaksPositionCap()
    ensures var w := ExampleWorld(1, []);
            var candidates := [ExampleCandidate("BTCUSDT", Short)];
            var (s, raised) := LoopRun(w, candidates, [ExampleReply("id-1")], Fresh(map[], map[]), 1);
            && raised.None? && s.submitted == 1
            && !WithinPositionCap(w.sizing, w.account, Fills(s.decisions))
  {
    hide Sendable, OrderOf, OrderMargin, LoopRun, PortfolioAfter, WithinMarginCap, WithinCountCap, OnePerSymbol,
         WithinPositionCap, OverPositionCap, DecidedCount, SubmittedCount, SubmittedMargin, Fills, Selected;
    var w, candidates, envs := ExampleWorld(1, []), [ExampleCandidate("BTCUSDT", Short)], [ExampleReply("id-1")];
    FirstShort(w);
    AllAreSubmitted(w, candidates, envs, map[], map[]);
    RunKeepsCapsIff(w, candidates, envs, map[], map[]);
    assert Selected(w, candidates, envs, 0) && OverPositionCap(w, candidates[0]);
  }

  /** A run of example candidates that fit one by one submits them all, at the margin of each. */
  lemma {:induction false} ExampleRun(w: World, candidates: seq<Candidate>, envs: seq<Environment>, margin: real)
    requires |candidates| == |envs| <= w.loopConfig.maxNewOrders
    requires WellFormedRun(w, candidates) && OnePerSymbol(w.positions)
    requires forall i :: 0 <= i < |candidates| ==>
               && Submittable(w, candidates[i], envs[i])
               && OrderOf(w, candidates[i]).price.Some? && OrderMargin(w.sizing, OrderOf(w, candidates[i])) == margin
    ensures var (s, raised) := LoopRun(w, candidates, envs, Fresh(map[], map[]), |candidates|);
            var after, before := PortfolioAfter(w, s), OpenPositions(w.positions);
            && raised.None? && s.submitted == |candidates|
            && (WithinMarginCap(w.sizing, w.account, after)
                <==> Times(|candidates|, margin) <= RemainingMargin(w.sizing, w.account, before))
            && (WithinCountCap(w.sizing, after) <==> |before| + |candidates| <= w.sizing.maxConcurrentPositions)
            && ((forall i, j :: 0 <= i < j < |candidates| ==> candidates[i].symbol != candidates[j].symbol) ==>
                  OnePerSymbol(after))
  {
    hide LoopRun, PortfolioAfter, OnePerSymbol, WithinMarginCap, WithinCountCap, Times, Selected, OrderMargin, OrderOf,
         DecidedCount, SubmittedCount, WithinPositionCap, Fills, Sendable;
    AllAreSubmitted(w, candidates, envs, map[], map[]);
    EqualMargins(w, candidates, envs, |candidates|, margin);
    RunKeepsCapsIff(w, candidates, envs, map[], map[]);
  }

  lemma HeldWithinCaps(w: World)
    requires Leaves100(w.positions) && w == ExampleWorld(w.loopConfig.maxNewOrders, w.positions)
    ensures OpenPositions(w.positions) == w.positions && OnePerSymbol(w.positions)
    ensures WithinMarginCap(w.sizing, w.account, w.positions) && WithinCountCap(w.sizing, w.positions)
  {
    assert Usable(w.sizing, w.account) == 5000.0;
  }

  /** Two LONG orders on different symbols break the margin cap and the position cap, and keep one per symbol. */
  lemma TwoOrdersBreakCaps()
    ensures var w := ExampleWorld(2, TWO_HELD);
            var candidates := [ExampleCandidate("BTCUSDT", Long), ExampleCandidate("ETHUSDT", Long)];
            var (s, raised) := LoopRun(w, candidates, [ExampleReply("id-1"), ExampleReply("id-2")], Fresh(map[], map[]), 2);
            var after := PortfolioAfter(w, s);
            && raised.None? && s.submitted == 2
            && WithinMarginCap(w.sizing, w.account, w.positions) && WithinCountCap(w.sizing, w.positions)
            && !WithinMarginCap(w.sizing, w.account, after) && !WithinCountCap(w.sizing, after) && OnePerSymbol(after)
  {
    hide Sendable, OrderOf, OrderMargin, LoopRun, PortfolioAfter, WithinMarginCap, WithinCountCap, OnePerSymbol,
         RemainingMargin, Leaves100, OpenPositions;
    HeldLeaves100();
    var w, envs := ExampleWorld(2, TWO_HELD), [ExampleReply("id-1"), ExampleReply("id-2")];
    var candidates := [ExampleCandidate("BTCUSDT", Long), ExampleCandidate("ETHUSDT", Long)];
    HeldWithinCaps(w);
    ExampleOrder(w, "BTCUSDT", Long);
    ExampleOrder(w, "ETHUSDT", Long);
    ExampleRun(w, candidates, envs, 99.95);
    assert Times(2, 99.95) == 199.9;
  }

  /** The same candidate twice: two orders on one symbol. */
  lemma RepeatedCandidateBreaksOnePerSymbol()
    ensures var w := ExampleWorld(2, ONE_HELD);
            var c := ExampleCandidate("BTCUSDT", Long);
            var (s, raised) := LoopRun(w, [c, c], [ExampleReply("id-1"), ExampleReply("id-2")], Fresh(map[], map[]), 2);
            && raised.None? && s.submitted == 2
            && OnePerSymbol(w.positions) && !OnePerSymbol(PortfolioAfter(w, s))
  {
    HeldLeaves100();
    var w, c := ExampleWorld(2, ONE_HELD), ExampleCandidate("BTCUSDT", Long);
    ExampleOrder(w, "BTCUSDT", Long);
    hide Sendable, LoopRun, PortfolioAfter;
    DuplicateIsSubmittedTwice(w, c, [ExampleReply("id-1"), ExampleReply("id-2")], map[], map[]);
  }
}
