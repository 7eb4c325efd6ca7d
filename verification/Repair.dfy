/** Repairing stored orders one id at a time from the exchange, and what a sweep over all of them achieves. */
module Repair {
  import opened Prelude
  import opened Models
  import opened Orders
  import opened OrderStorage
  import opened SafeMode
  import opened Reconciliation

  datatype RemoteOrder = RemoteOrder(
    symbol: string, status: OrderStatus, exchangeOrderId: Option<string>, executed: real, average: Option<real>)

  /** A frozen exchange: its orders, and the ids for which a query raises. */
  datatype Exchange = Exchange(orders: map<string, RemoteOrder>, failing: set<string>)

  /** Its open list is exactly its non-terminal orders. */
  function OpenList(ex: Exchange): map<string, OrderStatus> {
    map id | id in ex.orders && !ex.orders[id].status.Terminal() :: ex.orders[id].status
  }

  datatype RepairAction = NoAction | UpdatedLocalFromExchange | EnteredSafeMode | ManualReview

  datatype RepairReason =
    | Consistent | LocalOrderMissing | ExchangeOrderMissing | ExchangeFetchFailed | LocalUpdated | SymbolMismatch

  datatype Recommendation = Recommendation(id: string, action: RepairAction, reason: RepairReason)

  /** The row with the exchange's four fields copied over it. */
  function Mirrored(row: OrderRow, remote: RemoteOrder): OrderRow {
    row.(status := remote.status,
         exchangeOrderId := remote.exchangeOrderId,
         filledQuantity := remote.executed,
         averageFillPrice := remote.average)
  }

  datatype RepairEffect = RepairEffect(
    recommendation: Recommendation, table: OrderTable, alarm: Option<SafeModeReason>)

  function RepairOne(table: OrderTable, ex: Exchange, id: string): RepairEffect {
    if id !in table then
      RepairEffect(Recommendation(id, ManualReview, LocalOrderMissing), table, Some(RepairLocalOrderMissing(id)))
    else if id in ex.failing then
      RepairEffect(Recommendation(id, EnteredSafeMode, ExchangeFetchFailed), table, Some(RepairQueryFailed(id)))
    else if id !in ex.orders then
      RepairEffect(Recommendation(id, ManualReview, ExchangeOrderMissing), table, Some(RepairExchangeOrderMissing(id)))
    else if ex.orders[id].symbol != table[id].intent.symbol then
      RepairEffect(Recommendation(id, ManualReview, SymbolMismatch), table, Some(RepairSymbolMismatch(id)))
    else if Mirrored(table[id], ex.orders[id]) == table[id] then
      RepairEffect(Recommendation(id, NoAction, Consistent), table, None)
    else
      RepairEffect(Recommendation(id, UpdatedLocalFromExchange, LocalUpdated),
                   Upserted(table, id, Mirrored(table[id], ex.orders[id])), None)
  }

  /** Each outcome of a repair by what is stored and what the exchange answers, in the order the checks are made. */
  lemma RepairOutcomes(table: OrderTable, ex: Exchange, id: string)
    ensures var effect := RepairOne(table, ex, id);
            var (reason, action) := (effect.recommendation.reason, effect.recommendation.action);
            var stored := id in table;
            var answered := stored && id !in ex.failing;
            var known := answered && id in ex.orders;
            var same := known && ex.orders[id].symbol == table[id].intent.symbol;
            && effect.recommendation.id == id
            && (reason == LocalOrderMissing <==> !stored)
            && (reason == ExchangeFetchFailed <==> stored && !answered)
            && (reason == ExchangeOrderMissing <==> answered && !known)
            && (reason == SymbolMismatch <==> known && !same)
            && (reason in {Consistent, LocalUpdated} <==> same)
            && (action == ManualReview <==> reason in {LocalOrderMissing, ExchangeOrderMissing, SymbolMismatch})
            && (action == EnteredSafeMode <==> reason == ExchangeFetchFailed)
            && (action == UpdatedLocalFromExchange <==> reason == LocalUpdated)
            && (effect.alarm.Some? <==> !same)
            && (reason == LocalUpdated <==> effect.table != table)
            && (same ==> id in effect.table && MirrorsRemote(effect.table[id], table[id], ex.orders[id]))
            && (forall other :: other != id ==>
                  (other in effect.table <==> other in table)
                  && (other in table ==> effect.table[other] == table[other]))
  {
  }

  /** The exchange's status, id, executed quantity and average price on the intent stored before. */
  ghost predicate MirrorsRemote(row: OrderRow, before: OrderRow, remote: RemoteOrder) {
    && row.intent == before.intent && row.status == remote.status
    && row.exchangeOrderId == remote.exchangeOrderId
    && row.filledQuantity == remote.executed && row.averageFillPrice == remote.average
  }

  method ApplyRemoteSnapshot(local: OrderRecord, remote: RemoteOrder) returns (changed: bool)
    modifies local
    ensures local.Row() == Mirrored(old(local.Row()), remote)
    ensures changed <==> local.Row() != old(local.Row())
  {
    changed := false;
    if local.status != remote.status {
      local.status := remote.status;
      changed := true;
    }
    if local.exchangeOrderId != remote.exchangeOrderId {
      local.exchangeOrderId := remote.exchangeOrderId;
      changed := true;
    }
    if local.filledQuantity != remote.executed {
      local.filledQuantity := remote.executed;
      changed := true;
    }
    if local.averageFillPrice != remote.average {
      local.averageFillPrice := remote.average;
      changed := true;
    }
  }

  class OrderRepairEngine {
    const store: OrderStore
    const safeMode: SafeModeController

    constructor (store: OrderStore, safeMode: SafeModeController)
      ensures this.store == store && this.safeMode == safeMode
    {
      this.store, this.safeMode := store, safeMode;
    }

    method RepairByClientOrderId(ex: Exchange, id: string) returns (r: Recommendation)
      modifies store, safeMode
      ensures var effect := RepairOne(old(store.orders), ex, id);
              && r == effect.recommendation
              && store.orders == effect.table
              && (effect.alarm.None? ==>
                    safeMode.state == old(safeMode.state) && safeMode.reasons == old(safeMode.reasons))
              && (effect.alarm.Some? ==>
                    && safeMode.state == SafeModeActive
                    && safeMode.reasons == old(safeMode.reasons) + [effect.alarm.value])
    {
      var local := store.GetOrder(id);
      if local == null {
        safeMode.Enter(RepairLocalOrderMissing(id));
        return Recommendation(id, ManualReview, LocalOrderMissing);
      }
      if id in ex.failing {
        safeMode.Enter(RepairQueryFailed(id));
        return Recommendation(id, EnteredSafeMode, ExchangeFetchFailed);
      }
      if id !in ex.orders {
        safeMode.Enter(RepairExchangeOrderMissing(id));
        return Recommendation(id, ManualReview, ExchangeOrderMissing);
      }
      var remote := ex.orders[id];
      if remote.symbol != local.intent.symbol {
        safeMode.Enter(RepairSymbolMismatch(id));
        return Recommendation(id, ManualReview, SymbolMismatch);
      }
      var changed := ApplyRemoteSnapshot(local, remote);
      if changed {
        store.UpsertOrder(local);
        return Recommendation(id, UpdatedLocalFromExchange, LocalUpdated);
      }
      r := Recommendation(id, NoAction, Consistent);
    }
  }

  // ---------------------------------------------------------------- sweeps

  /** An order the exchange answers for, under the symbol it was stored with. */
  predicate Repairable(row: OrderRow, ex: Exchange, id: string) {
    id in ex.orders && id !in ex.failing && ex.orders[id].symbol == row.intent.symbol
  }

  /** Repairing the first n of the ids, one after the other. */
  function Sweep(table: OrderTable, ex: Exchange, ids: seq<string>, n: nat): OrderTable
    requires n <= |ids|
  {
    if n == 0 then table else RepairOne(Sweep(table, ex, ids, n - 1), ex, ids[n - 1]).table
  }

  /** The table with every repairable row among the ids mirrored from the exchange. */
  function MirroredTable(table: OrderTable, ex: Exchange, ids: set<string>): OrderTable {
    map id | id in table ::
      if id in ids && Repairable(table[id], ex, id) then Mirrored(table[id], ex.orders[id]) else table[id]
  }

  function IdSet(ids: seq<string>, n: nat): set<string>
    requires n <= |ids|
  {
    set i | 0 <= i < n :: ids[i]
  }

  /**
    Repairing ids in any order, with any repetition, mirrors exactly the repairable rows among them: the
    intents stay as first written and only the four exchange fields change.
   */
  lemma {:induction false} SweepMirrors(table: OrderTable, ex: Exchange, ids: seq<string>, n: nat)
    requires n <= |ids|
    ensures Sweep(table, ex, ids, n) == MirroredTable(table, ex, IdSet(ids, n))
  {
    if n > 0 {
      SweepMirrors(table, ex, ids, n - 1);
      hide RepairOne, MirroredTable;
      OneMoreMirrored(table, ex, IdSet(ids, n - 1), ids[n - 1]);
      assert IdSet(ids, n) == IdSet(ids, n - 1) + {ids[n - 1]};
    } else {
      assert MirroredTable(table, ex, {}) == table;
      assert IdSet(ids, 0) == {};
    }
  }

  lemma OneMoreMirrored(table: OrderTable, ex: Exchange, ids: set<string>, id: string)
    ensures RepairOne(MirroredTable(table, ex, ids), ex, id).table == MirroredTable(table, ex, ids + {id})
  {
  }

  /** A sweep raises SAFE_MODE at an id exactly when that id is not a stored, repairable order. */
  lemma SweepAlarms(table: OrderTable, ex: Exchange, ids: seq<string>, n: nat)
    requires n < |ids|
    ensures RepairOne(Sweep(table, ex, ids, n), ex, ids[n]).alarm.None?
       <==> ids[n] in table && Repairable(table[ids[n]], ex, ids[n])
  {
    SweepMirrors(table, ex, ids, n);
  }

  /** A second sweep, in any order, changes nothing and finds every repairable row consistent. */
  lemma SecondSweepChangesNothing(table: OrderTable, ex: Exchange, ids: seq<string>, again: seq<string>)
    requires forall id :: id in again ==> id in ids
    ensures var once := Sweep(table, ex, ids, |ids|);
            && Sweep(once, ex, again, |again|) == once
            && forall id :: id in again && id in once && Repairable(once[id], ex, id) ==>
                 RepairOne(once, ex, id).recommendation == Recommendation(id, NoAction, Consistent)
  {
    var once := Sweep(table, ex, ids, |ids|);
    SweepMirrors(table, ex, ids, |ids|);
    SweepMirrors(once, ex, again, |again|);
    assert forall id :: id in again ==> id in IdSet(ids, |ids|);
  }

  // ---------------------------------------------------------------- repair, then reconcile

  /**
    After a sweep over every stored id of an exchange that answers and agrees on symbols, reconciliation finds
    no status mismatch: what is missing is locally open and unknown to the exchange, what is unknown is open on
    the exchange and was never stored.
   */
  lemma RepairThenReconcile(table: OrderTable, ex: Exchange, ids: seq<string>)
    requires forall id :: id in table ==> id in ids
    requires forall id :: id in table && id in ex.orders ==> Repairable(table[id], ex, id)
    ensures var report := OrderReport(Sweep(table, ex, ids, |ids|), Success(OpenList(ex)));
            && !report.failed
            && report.mismatched == {}
            && report.missing == (set id | id in table && id !in ex.orders && IsOpenStatus(table[id].status))
            && report.unknown == (set id | id in ex.orders && id !in table && !ex.orders[id].status.Terminal())
            && (report.consistent <==> report.missing == {} && report.unknown == {})
  {
    SweepMirrors(table, ex, ids, |ids|);
    var repaired := Sweep(table, ex, ids, |ids|);
    assert forall id :: id in table ==> id in IdSet(ids, |ids|);
    forall id | id in table && id in ex.orders
      ensures repaired[id].status == ex.orders[id].status
    {
    }
    assert OpenRows(repaired).Keys - OpenList(ex).Keys
        == set id | id in table && id !in ex.orders && IsOpenStatus(table[id].status);
    assert OpenList(ex).Keys - OpenRows(repaired).Keys
        == set id | id in ex.orders && id !in table && !ex.orders[id].status.Terminal();
  }
}
