/** Comparing the store's open orders with the exchange's. */
module Reconciliation {
  import opened Prelude
  import opened Models
  import opened OrderStorage
  import opened SafeMode

  /** A difference report; failed means the fetch raised. The sorted id tuples are sets here. */
  datatype Report<!K> = Report(consistent: bool, missing: set<K>, unknown: set<K>, mismatched: set<K>, failed: bool)

  predicate MeaningfulStatusMismatch(local: OrderStatus, remote: OrderStatus) {
    local != Unknown && remote != Unknown && local != remote && (local.Terminal() || remote.Terminal())
  }

  /** The exchange's open-order reply, by client order id. */
  type OpenReply = Result<map<string, OrderStatus>, ()>

  function OrderReport(orders: OrderTable, reply: OpenReply): Report<string> {
    if reply.Failure? then Report(false, {}, {}, {}, true)
    else
      var local, remote := OpenRows(orders), reply.value;
      var missing := local.Keys - remote.Keys;
      var unknown := remote.Keys - local.Keys;
      var mismatched := set id | id in local && id in remote && MeaningfulStatusMismatch(local[id].status, remote[id]);
      Report(missing == {} && unknown == {} && mismatched == {}, missing, unknown, mismatched, false)
  }

  /**
    What reconciliation compares, for any reply: ids open on one side only, and ids open locally under a known status
    that the reply lists as finished. A partial fill is not a mismatch.
   */
  lemma ReportContents(orders: OrderTable, remote: map<string, OrderStatus>)
    ensures var report := OrderReport(orders, Success(remote));
            && !report.failed
            && (forall id :: id in report.missing <==>
                  id in orders && orders[id].status in {Created, Submitted, PartiallyFilled, Unknown} && id !in remote)
            && (forall id :: id in report.unknown <==>
                  id in remote && (id in orders ==> orders[id].status in {Filled, Canceled, Rejected, Expired}))
            && (forall id :: id in report.mismatched <==>
                  && id in orders && orders[id].status in {Created, Submitted, PartiallyFilled}
                  && id in remote && remote[id] in {Filled, Canceled, Rejected, Expired})
            && (report.consistent <==> report.missing == {} && report.unknown == {} && report.mismatched == {})
  {
    forall id | id in orders
      ensures id in OpenRows(orders) <==> orders[id].status !in {Filled, Canceled, Rejected, Expired}
    {
      OpenIsNotTerminal(orders[id].status);
    }
  }

  /** Against a list of open orders only the two sets of ids matter. */
  lemma OpenListNeverMismatches(orders: OrderTable, remote: map<string, OrderStatus>)
    requires forall id :: id in remote ==> !remote[id].Terminal()
    ensures var report := OrderReport(orders, Success(remote));
            && report.mismatched == {}
            && (report.consistent <==> OpenRows(orders).Keys == remote.Keys)
  {
  }

  class OrderReconciler {
    const store: OrderStore
    const safeMode: SafeModeController

    constructor (store: OrderStore, safeMode: SafeModeController)
      ensures this.store == store && this.safeMode == safeMode
    {
      this.store, this.safeMode := store, safeMode;
    }

    method ReconcileOpenOrders(reply: OpenReply) returns (r: Report<string>)
      modifies safeMode
      ensures r == OrderReport(store.orders, reply)
      ensures r.consistent ==> safeMode.state == old(safeMode.state) && safeMode.reasons == old(safeMode.reasons)
      ensures !r.consistent ==>
                && safeMode.state == SafeModeActive
                && safeMode.reasons
                   == old(safeMode.reasons) + [if reply.Failure? then ReconciliationFetchFailed else ReconciliationMismatch]
    {
      var local := store.ListOpenOrders();
      if reply.Failure? {
        safeMode.Enter(ReconciliationFetchFailed);
        return Report(false, {}, {}, {}, true);
      }
      var remote := reply.value;
      var missing := local.Keys - remote.Keys;
      var unknown := remote.Keys - local.Keys;
      var mismatched := set id | id in local && id in remote && MeaningfulStatusMismatch(local[id].status, remote[id]);
      var consistent := missing == {} && unknown == {} && mismatched == {};
      if !consistent {
        safeMode.Enter(ReconciliationMismatch);
      }
      r := Report(consistent, missing, unknown, mismatched, false);
    }
  }
}
