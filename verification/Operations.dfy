/** The components together: trading, repair, reconciliation and the operator acting on one store and one SAFE_MODE. */
module Operations {
  import opened Prelude
  import opened Models
  import opened Allocator
  import opened OrderStorage
  import opened SafeMode
  import opened Routing
  import opened AutoLoop
  import opened AutoLoopTheorems
  import opened Reconciliation
  import opened Repair
  import opened Positions
  import opened Daemon

  datatype System = System(safeModeActive: bool, book: OrderTable, orders: OrderTable, positions: PositionTable)

  /** One operation on the system; each carries whatever the environment decides during it. */
  datatype Operation =
    | Trade(world: World, candidates: seq<Candidate>, envs: seq<Environment>)
    | RepairOrder(exchange: Exchange, id: string)
    | Iterate(replies: Replies, refresh: bool, tolerance: real)
    | OperatorExit

  predicate WellTyped(op: Operation) {
    op.Trade? ==> |op.candidates| == |op.envs|
  }

  /** The run a trade operation performs in the given system; without acknowledgement it does nothing. */
  function TradeRun(s: System, op: Operation): (LoopState, Option<PipelineError>)
    requires op.Trade? && WellTyped(op)
  {
    if !op.world.loopConfig.requireAck then (Fresh(s.book, s.orders), None)
    else
      LoopRun(op.world.(allowsEntries := !s.safeModeActive), op.candidates, op.envs, Fresh(s.book, s.orders),
              |op.candidates|)
  }

  function Submissions(s: System, op: Operation): nat
    requires WellTyped(op)
  {
    if op.Trade? then TradeRun(s, op).0.submitted else 0
  }

  function Step(s: System, op: Operation): System
    requires WellTyped(op)
  {
    match op
    case Trade(_, _, _) =>
      var run := TradeRun(s, op).0;
      s.(book := run.book, orders := run.store)
    case RepairOrder(ex, id) =>
      var effect := RepairOne(s.orders, ex, id);
      s.(orders := effect.table, safeModeActive := s.safeModeActive || effect.alarm.Some?)
    case Iterate(replies, refresh, tolerance) =>
      if refresh && replies.refresh.Failure? then s
      else
        var positions := TableAt(s.positions, [replies], refresh, 0);
        var consistent := OrderReport(s.orders, replies.openOrders).consistent
                       && PositionReport(positions, replies.positions, tolerance).consistent;
        s.(positions := positions, safeModeActive := s.safeModeActive || !consistent)
    case OperatorExit =>
      s.(safeModeActive := false)
  }

  /** The live components of one process: they share one order store, one position store and one SAFE_MODE switch. */
  class Desk {
    const exchange: LoopExchange
    const orderStore: OrderStore
    const positionStore: PositionStore
    const safeMode: SafeModeController

    constructor (
      exchange: LoopExchange, orderStore: OrderStore, positionStore: PositionStore, safeMode: SafeModeController)
      ensures this.exchange == exchange && this.orderStore == orderStore
      ensures this.positionStore == positionStore && this.safeMode == safeMode
    {
      this.exchange, this.orderStore := exchange, orderStore;
      this.positionStore, this.safeMode := positionStore, safeMode;
    }

    function State(): System
      reads exchange, orderStore, positionStore, safeMode
    {
      System(!safeMode.AllowsNewEntries(), exchange.book, orderStore.orders, positionStore.positions)
    }

    /** Every operation, performed by the components themselves, is the step of the specification. */
    method Perform(op: Operation)
      requires WellTyped(op)
      modifies exchange, orderStore, positionStore, safeMode
      ensures State() == Step(old(State()), op)
    {
      hide LoopRun, TableAt, OrderReport, PositionReport, RepairOne;
      match op
      case Trade(world, candidates, envs) =>
        exchange.account, exchange.positions, exchange.filters := world.account, world.positions, world.filters;
        var loop := new SleeveBAutoLoop(exchange, orderStore, safeMode, world.sizing, world.loopConfig);
        var result := loop.RunOnce(candidates, envs);
      case RepairOrder(ex, id) =>
        var engine := new OrderRepairEngine(orderStore, safeMode);
        var recommendation := engine.RepairByClientOrderId(ex, id);
      case Iterate(replies, refresh, tolerance) =>
        var orderReconciler := new OrderReconciler(orderStore, safeMode);
        var positionReconciler := new PositionReconciler(positionStore, safeMode, tolerance);
        var daemon := new DaemonRunner(orderReconciler, positionReconciler, safeMode, DaemonConfig(Some(1), true, refresh));
        var result := daemon.RunOnce(replies);
      case OperatorExit =>
        safeMode.Exit("operator");
    }
  }

  /** The system after the first n operations. */
  function Run(s: System, ops: seq<Operation>, n: nat): System
    requires n <= |ops| && forall i :: 0 <= i < |ops| ==> WellTyped(ops[i])
  {
    if n == 0 then s else Step(Run(s, ops, n - 1), ops[n - 1])
  }

  /**
    Safety over every run: once SAFE_MODE is active at m, then until the operator exits it stays active and no
    operation submits an order or touches the exchange book.
   */
  lemma {:induction false} NothingSubmittedUntilExit(s: System, ops: seq<Operation>, m: nat, n: nat)
    requires m <= n <= |ops| && forall i :: 0 <= i < |ops| ==> WellTyped(ops[i])
    requires Run(s, ops, m).safeModeActive
    requires forall i :: m <= i < n ==> ops[i] != OperatorExit
    ensures Run(s, ops, n).safeModeActive
    ensures Run(s, ops, n).book == Run(s, ops, m).book
    ensures n < |ops| ==> Submissions(Run(s, ops, n), ops[n]) == 0
    decreases n
  {
    hide LoopRun, OrderReport, PositionReport, TableAt, RepairOne;
    if m < n {
      NothingSubmittedUntilExit(s, ops, m, n - 1);
    }
    if n < |ops| {
      TradeInSafeMode(Run(s, ops, n), ops[n]);
    }
    if m < n {
      TradeInSafeMode(Run(s, ops, n - 1), ops[n - 1]);
    }
  }

  lemma TradeInSafeMode(s: System, op: Operation)
    requires WellTyped(op)
    ensures s.safeModeActive ==>
              && Submissions(s, op) == 0
              && (op.Trade? ==> Step(s, op).book == s.book && Step(s, op).orders == s.orders)
  {
    if s.safeModeActive && op.Trade? {
      hide LoopRun;
      SafeModeSubmitsNothing(op.world.(allowsEntries := false), op.candidates, op.envs, s.book, s.orders,
                             |op.candidates|);
    }
  }

  /** An iteration whose refresh does not raise and whose reports are not both consistent. */
  predicate FindsMismatch(s: System, op: Operation) {
    && op.Iterate? && !(op.refresh && op.replies.refresh.Failure?)
    && !(OrderReport(s.orders, op.replies.openOrders).consistent
         && PositionReport(TableAt(s.positions, [op.replies], op.refresh, 0), op.replies.positions, op.tolerance).consistent)
  }

  /** Over every run: once an iteration finds a mismatch at m, nothing is submitted until the operator exits. */
  lemma {:induction false} MismatchHaltsTrading(s: System, ops: seq<Operation>, m: nat, n: nat)
    requires m < n <= |ops| && forall i :: 0 <= i < |ops| ==> WellTyped(ops[i])
    requires FindsMismatch(Run(s, ops, m), ops[m])
    requires forall i :: m < i < n ==> ops[i] != OperatorExit
    ensures Run(s, ops, n).safeModeActive
    ensures Run(s, ops, n).book == Run(s, ops, m).book
    ensures n < |ops| ==> Submissions(Run(s, ops, n), ops[n]) == 0
  {
    hide LoopRun, TableAt, PositionReport, OrderReport;
    assert Run(s, ops, m + 1) == Step(Run(s, ops, m), ops[m]);
    NothingSubmittedUntilExit(s, ops, m + 1, n);
  }

  /** Stored intents are permanent: no operation deletes a row or changes the intent it was first written with. */
  lemma {:induction false} IntentsArePermanent(s: System, ops: seq<Operation>, m: nat, n: nat, id: string)
    requires m <= n <= |ops| && forall i :: 0 <= i < |ops| ==> WellTyped(ops[i])
    requires id in Run(s, ops, m).orders
    ensures id in Run(s, ops, n).orders
    ensures Run(s, ops, n).orders[id].intent == Run(s, ops, m).orders[id].intent
    decreases n
  {
    hide LoopRun, OrderReport, PositionReport, TableAt;
    if m < n {
      IntentsArePermanent(s, ops, m, n - 1, id);
      hide Step;
      StepKeepsIntent(Run(s, ops, n - 1), ops[n - 1], id);
    }
  }

  lemma StepKeepsIntent(s: System, op: Operation, id: string)
    requires WellTyped(op) && id in s.orders
    ensures id in Step(s, op).orders && Step(s, op).orders[id].intent == s.orders[id].intent
  {
    hide LoopRun, OrderReport, PositionReport, TableAt;
    if op.Trade? {
      TradeKeepsIntents(op.world.(allowsEntries := !s.safeModeActive), op.candidates, op.envs, s.book, s.orders,
                        |op.candidates|, id);
    }
  }

  lemma {:induction false} TradeKeepsIntents(
    w: World, candidates: seq<Candidate>, envs: seq<Environment>, book: OrderTable, store: OrderTable, n: nat, id: string)
    requires n <= |candidates| == |envs| && id in store
    ensures var s := LoopRun(w, candidates, envs, Fresh(book, store), n).0;
            id in s.store && s.store[id].intent == store[id].intent
  {
    hide LoopStep, Answers;
    if n > 0 {
      TradeKeepsIntents(w, candidates, envs, book, store, n - 1, id);
      var (before, raised) := LoopRun(w, candidates, envs, Fresh(book, store), n - 1);
      if raised.None? {
        StepAnswers(w, candidates[n - 1], envs[n - 1], before);
      }
    }
  }

  // ---------------------------------------------------------------- a trading run, then reconciliation

  /** The exchange's open list, read off its book. */
  function OpenOrders(book: OrderTable): map<string, OrderStatus> {
    map id | id in book && !book[id].status.Terminal() :: book[id].status
  }

  /**
    A run that starts in agreement with the exchange and returns is followed by a clean reconciliation. If it
    raises, reconciliation reports at most one order, as unknown: the one that reached the exchange before the
    submission failed.
   */
  lemma RunThenReconcile(
    w: World, candidates: seq<Candidate>, envs: seq<Environment>, table: OrderTable)
    requires |candidates| == |envs| && FreshIds(envs, table, table)
    ensures var (s, raised) := LoopRun(w, candidates, envs, Fresh(table, table), |candidates|);
            var report := OrderReport(s.store, Success(OpenOrders(s.book)));
            && (raised.None? ==> report.consistent)
            && (raised.Some? ==>
                  && report.missing == {} && report.mismatched == {}
                  && |s.decisions| < |envs|
                  && report.unknown == if s.book == s.store then {} else {envs[|s.decisions|].clientOrderId})
  {
    hide LoopRun;
    RunKeepsAgreement(w, candidates, envs, table, |candidates|);
    RunAnswers(w, candidates, envs, table, table, |candidates|);
    var (s, raised) := LoopRun(w, candidates, envs, Fresh(table, table), |candidates|);
    if s.book == s.store {
      AgreementIsConsistent(s.store);
    } else {
      AheadByIsUnknown(s.book, s.store, envs[|s.decisions|].clientOrderId);
    }
  }

  lemma AgreementIsConsistent(table: OrderTable)
    ensures OrderReport(table, Success(OpenOrders(table))) == Report(true, {}, {}, {}, false)
  {
  }

  lemma AheadByIsUnknown(book: OrderTable, store: OrderTable, id: string)
    requires AheadBy(book, store, id)
    ensures OrderReport(store, Success(OpenOrders(book))) == Report(false, {}, {id}, {}, false)
  {
    var report := OrderReport(store, Success(OpenOrders(book)));
    assert OpenOrders(book).Keys == OpenRows(store).Keys + {id};
    assert report.mismatched == {};
    assert id in report.unknown;
  }
}
