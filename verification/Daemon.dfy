/** The reconciliation daemon: optional refresh, two reports, an alert and the iteration loop. */
module Daemon {
  import opened Prelude
  import opened Models
  import opened OrderStorage
  import opened SafeMode
  import opened Reconciliation
  import opened Positions

  /** maxIterations None runs until the environment's script ends. */
  datatype DaemonConfig = DaemonConfig(maxIterations: Option<int>, stopOnMismatch: bool, refreshPositions: bool)

  /** What the exchange answers during one iteration; a failed fetch is a raised exception. */
  datatype Replies = Replies(refresh: PositionReply, openOrders: OpenReply, positions: PositionReply)

  datatype IterationResult = IterationResult(
    orderReport: Report<string>, positionReport: Report<PositionKey>, safeModeActive: bool)
  {
    predicate Consistent() {
      orderReport.consistent && positionReport.consistent
    }
  }

  /** The inconsistent results, in order: one alert is sent for each. */
  function Inconsistent(results: seq<IterationResult>): seq<IterationResult> {
    if |results| == 0 then []
    else
      var rest := Inconsistent(results[..|results| - 1]);
      var last := results[|results| - 1];
      if last.Consistent() then rest else rest + [last]
  }

  /** The position table when the iteration with index i compares it with the exchange. */
  function TableAt(table: PositionTable, script: seq<Replies>, refresh: bool, i: nat): PositionTable
    requires i < |script|
    decreases i
  {
    var before := if i == 0 then table else TableAt(table, script, refresh, i - 1);
    if refresh && script[i].refresh.Success? then
      Refreshed(before, script[i].refresh.value, |script[i].refresh.value|)
    else before
  }

  /** The two reports of iteration i. */
  ghost predicate ReportsAt(
    orders: OrderTable, table: PositionTable, script: seq<Replies>, refresh: bool, tolerance: real, i: nat,
    result: IterationResult)
    requires i < |script|
  {
    && result.orderReport == OrderReport(orders, script[i].openOrders)
    && result.positionReport == PositionReport(TableAt(table, script, refresh, i), script[i].positions, tolerance)
  }

  ghost predicate AnyInconsistent(results: seq<IterationResult>, n: nat)
    requires n <= |results|
  {
    exists j :: 0 <= j < n && !results[j].Consistent()
  }

  /** SAFE_MODE at each iteration of a run is exactly "some iteration so far was inconsistent". */
  ghost predicate SafeModeTracks(active: bool, results: seq<IterationResult>) {
    forall i :: 0 <= i < |results| ==>
      (results[i].safeModeActive <==> active || AnyInconsistent(results, i + 1))
  }

  lemma AnyOfPrefix(results: seq<IterationResult>, last: IterationResult, n: nat)
    requires n <= |results|
    ensures AnyInconsistent(results + [last], n) <==> AnyInconsistent(results, n)
  {
    assert forall j :: 0 <= j < n ==> (results + [last])[j] == results[j];
  }

  lemma TracksNext(active: bool, results: seq<IterationResult>, last: IterationResult)
    requires SafeModeTracks(active, results)
    requires last.safeModeActive <==> active || AnyInconsistent(results, |results|) || !last.Consistent()
    ensures SafeModeTracks(active, results + [last])
    ensures AnyInconsistent(results + [last], |results| + 1) <==> AnyInconsistent(results, |results|) || !last.Consistent()
  {
    var longer := results + [last];
    AnyOfPrefix(results, last, |results|);
    assert longer[|results|] == last;
    forall i | 0 <= i < |results|
      ensures longer[i].safeModeActive <==> active || AnyInconsistent(longer, i + 1)
    {
      AnyOfPrefix(results, last, i + 1);
    }
  }

  /** What holds after some iterations of a run, given the position table and SAFE_MODE at that point. */
  ghost predicate RunSoFar(
    config: DaemonConfig, orders: OrderTable, table: PositionTable, script: seq<Replies>, tolerance: real,
    active: bool, results: seq<IterationResult>, tableNow: PositionTable, activeNow: bool)
  {
    && |results| <= |script|
    && tableNow == (if |results| == 0 then table
                    else TableAt(table, script, config.refreshPositions, |results| - 1))
    && (forall i :: 0 <= i < |results| ==>
          ReportsAt(orders, table, script, config.refreshPositions, tolerance, i, results[i]))
    && SafeModeTracks(active, results)
    && (activeNow <==> active || AnyInconsistent(results, |results|))
    && (config.stopOnMismatch ==> forall i :: 0 <= i < |results| - 1 ==> results[i].Consistent())
  }

  lemma RunSoFarNext(
    config: DaemonConfig, orders: OrderTable, table: PositionTable, script: seq<Replies>, tolerance: real,
    active: bool, results: seq<IterationResult>, tableNow: PositionTable, activeNow: bool,
    last: IterationResult)
    requires RunSoFar(config, orders, table, script, tolerance, active, results, tableNow, activeNow)
    requires |results| < |script|
    requires config.stopOnMismatch && |results| > 0 ==> results[|results| - 1].Consistent()
    requires ReportsAt(orders, tableNow, [script[|results|]], config.refreshPositions, tolerance, 0, last)
    requires last.safeModeActive <==> activeNow || !last.Consistent()
    ensures RunSoFar(config, orders, table, script, tolerance, active, results + [last],
                     TableAt(tableNow, [script[|results|]], config.refreshPositions, 0), last.safeModeActive)
  {
    hide TableAt, ReportsAt, SafeModeTracks, AnyInconsistent;
    ReportMoves(orders, table, script, config.refreshPositions, tolerance, |results|, last);
    TracksNext(active, results, last);
  }

  class DaemonRunner {
    const orderReconciler: OrderReconciler
    const positionReconciler: PositionReconciler
    const safeMode: SafeModeController
    const config: DaemonConfig
    var alerts: seq<IterationResult>

    constructor (
      orderReconciler: OrderReconciler, positionReconciler: PositionReconciler, safeMode: SafeModeController,
      config: DaemonConfig)
      ensures this.orderReconciler == orderReconciler && this.positionReconciler == positionReconciler
      ensures this.safeMode == safeMode && this.config == config && alerts == []
    {
      this.orderReconciler, this.positionReconciler := orderReconciler, positionReconciler;
      this.safeMode, this.config, alerts := safeMode, config, [];
    }

    /** Both reconcilers report to the daemon's own SAFE_MODE switch. */
    ghost predicate Wired() {
      orderReconciler.safeMode == safeMode && positionReconciler.safeMode == safeMode
    }

    method RunOnce(replies: Replies) returns (r: Result<IterationResult, ()>)
      requires Wired()
      modifies this`alerts, safeMode, positionReconciler.store
      ensures var refresh := config.refreshPositions;
              var table := old(positionReconciler.store.positions);
              if refresh && replies.refresh.Failure? then
                && r.Failure? && alerts == old(alerts) && safeMode.state == old(safeMode.state)
                && positionReconciler.store.positions == table
              else
                && r.Success?
                && positionReconciler.store.positions == TableAt(table, [replies], refresh, 0)
                && ReportsAt(orderReconciler.store.orders, table, [replies], refresh, positionReconciler.tolerance, 0, r.value)
                && alerts == old(alerts) + Inconsistent([r.value])
                && (safeMode.state == Normal <==> old(safeMode.state) == Normal && r.value.Consistent())
                && r.value.safeModeActive == (safeMode.state != Normal)
    {
      if config.refreshPositions {
        if replies.refresh.Failure? {
          return Failure(());
        }
        positionReconciler.RefreshLocalPositions(replies.refresh.value);
      }
      var orderReport := orderReconciler.ReconcileOpenOrders(replies.openOrders);
      var positionReport := positionReconciler.ReconcilePositions(replies.positions);
      var result := IterationResult(orderReport, positionReport, !safeMode.AllowsNewEntries());
      if !result.Consistent() {
        alerts := alerts + [result];
      }
      assert Inconsistent([result]) == if result.Consistent() then [] else [result];
      r := Success(result);
    }

    /**
      The whole run. The results are those of the first iterations of the script, SAFE_MODE tracks them, alerts are
      the inconsistent ones, and with stopOnMismatch only the last can be inconsistent. A refresh that raises ends
      the run without results, but everything the earlier iterations did stands.
     */
    method Run(script: seq<Replies>) returns (r: Result<seq<IterationResult>, ()>)
      requires Wired()
      requires config.maxIterations.Some? ==> config.maxIterations.value <= |script|
      modifies this`alerts, safeMode, positionReconciler.store
      ensures r.Failure? ==>
                exists results ::
                  && RunSoFar(config, orderReconciler.store.orders, old(positionReconciler.store.positions), script,
                              positionReconciler.tolerance, old(safeMode.state) != Normal, results,
                              positionReconciler.store.positions, safeMode.state != Normal)
                  && alerts == old(alerts) + Inconsistent(results)
                  && |results| < RunLength(config, script)
                  && config.refreshPositions && script[|results|].refresh.Failure?
      ensures r.Success? ==>
                var results := r.value;
                && RunSoFar(config, orderReconciler.store.orders, old(positionReconciler.store.positions), script,
                            positionReconciler.tolerance, old(safeMode.state) != Normal, results,
                            positionReconciler.store.positions, safeMode.state != Normal)
                && alerts == old(alerts) + Inconsistent(results)
                && (|results| == RunLength(config, script)
                    || (config.stopOnMismatch && |results| > 0 && !results[|results| - 1].Consistent()))
    {
      hide OrderReport, PositionReport, SafeModeTracks, AnyInconsistent, ReportsAt, TableAt, RunSoFar;
      var results: seq<IterationResult> := [];
      var iterations := 0;
      ghost var table := positionReconciler.store.positions;
      ghost var active := safeMode.state != Normal;
      NothingYet(config, orderReconciler.store.orders, table, script, positionReconciler.tolerance, active);
      while iterations < |script|
            && (config.maxIterations.None? || iterations < config.maxIterations.value)
        invariant iterations == |results| <= RunLength(config, script)
        invariant RunSoFar(config, orderReconciler.store.orders, table, script, positionReconciler.tolerance, active,
                           results, positionReconciler.store.positions, safeMode.state != Normal)
        invariant alerts == old(alerts) + Inconsistent(results)
        invariant config.stopOnMismatch && |results| > 0 ==> results[|results| - 1].Consistent()
        decreases |script| - iterations
      {
        ghost var tableNow, activeNow := positionReconciler.store.positions, safeMode.state != Normal;
        var result := RunOnce(script[iterations]);
        if result.Failure? {
          return Failure(());
        }
        RunSoFarNext(config, orderReconciler.store.orders, table, script, positionReconciler.tolerance, active,
                     results, tableNow, activeNow, result.value);
        OneMoreResult(results, result.value);
        results := results + [result.value];
        iterations := iterations + 1;
        if config.stopOnMismatch && !result.value.Consistent() {
          break;
        }
      }
      r := Success(results);
    }
  }

  lemma NothingYet(
    config: DaemonConfig, orders: OrderTable, table: PositionTable, script: seq<Replies>, tolerance: real, active: bool)
    ensures RunSoFar(config, orders, table, script, tolerance, active, [], table, active)
  {
  }

  /** How many iterations a run makes when nothing stops it. */
  function RunLength(config: DaemonConfig, script: seq<Replies>): nat {
    if config.maxIterations.None? || config.maxIterations.value > |script| then |script|
    else if config.maxIterations.value < 0 then 0
    else config.maxIterations.value
  }

  lemma OneMoreResult(results: seq<IterationResult>, last: IterationResult)
    ensures Inconsistent(results + [last]) == Inconsistent(results) + Inconsistent([last])
  {
  }

  /** One iteration on its own is the corresponding iteration of the whole script. */
  lemma ReportMoves(
    orders: OrderTable, table: PositionTable, script: seq<Replies>, refresh: bool, tolerance: real, i: nat,
    result: IterationResult)
    requires i < |script|
    ensures var before := if i == 0 then table else TableAt(table, script, refresh, i - 1);
            && TableAt(table, script, refresh, i) == TableAt(before, [script[i]], refresh, 0)
            && (ReportsAt(orders, before, [script[i]], refresh, tolerance, 0, result)
                <==> ReportsAt(orders, table, script, refresh, tolerance, i, result))
  {
  }

  // ---------------------------------------------------------------- a frozen exchange

  /** Every iteration sees the same position reply. */
  ghost predicate Frozen(script: seq<Replies>, reply: seq<PositionSnapshot>) {
    forall i :: 0 <= i < |script| ==> script[i].refresh == Success(reply) && script[i].positions == Success(reply)
  }

  lemma {:induction false} FrozenTable(table: PositionTable, script: seq<Replies>, reply: seq<PositionSnapshot>, i: nat)
    requires Frozen(script, reply) && i < |script|
    ensures TableAt(table, script, true, i) == Refreshed(table, reply, |reply|)
  {
    if i > 0 {
      FrozenTable(table, script, reply, i - 1);
      RefreshIdempotent(table, reply);
    }
  }

  /**
    With refresh on and a frozen exchange with distinct keys, every iteration of every run can report only open
    local positions the exchange's reply does not mention.
   */
  lemma FrozenRunReportsOnlyOrphans(
    orders: OrderTable, table: PositionTable, script: seq<Replies>, reply: seq<PositionSnapshot>, tolerance: real,
    i: nat, result: IterationResult)
    requires Frozen(script, reply) && DistinctKeys(reply) && tolerance >= 0.0 && i < |script|
    requires ReportsAt(orders, table, script, true, tolerance, i, result)
    ensures result.positionReport.unknown == {} && result.positionReport.mismatched == {}
    ensures result.positionReport.missing
         == set k | k in table && !table[k].IsFlat() && !Mentions(reply, |reply|, k)
  {
    FrozenTable(table, script, reply, i);
    RefreshThenReconcile(table, reply, tolerance);
    forall k: PositionKey
      ensures !ReopenedFlat(reply, |reply|, k)
    {
      DistinctNeverReopens(reply, |reply|, k);
    }
    assert forall k :: k !in result.positionReport.unknown;
  }
}
