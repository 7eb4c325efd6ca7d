/** The position table, its refresh from the exchange and its reconciliation. */
module Positions {
  import opened Prelude
  import opened Models
  import opened SafeMode
  import opened Reconciliation

  type PositionKey = (string, string)
  type PositionTable = map<PositionKey, PositionSnapshot>
  type PositionReply = Result<seq<PositionSnapshot>, ()>

  class PositionStore {
    var positions: PositionTable

    constructor ()
      ensures positions == map[]
    {
      positions := map[];
    }

    method UpsertPosition(p: PositionSnapshot)
      modifies this
      ensures positions == old(positions)[p.Key() := p]
    {
      positions := positions[p.Key() := p];
    }

    method ListPositions(includeFlat: bool) returns (r: PositionTable)
      ensures r == if includeFlat then positions else NonFlat(positions)
    {
      if includeFlat {
        return positions;
      }
      r := map k | k in positions && !positions[k].IsFlat() :: positions[k];
    }
  }

  function NonFlat(table: PositionTable): PositionTable {
    map k | k in table && !table[k].IsFlat() :: table[k]
  }

  /** The table after the first n snapshots have been upserted. */
  function Refreshed(table: PositionTable, reply: seq<PositionSnapshot>, n: nat): PositionTable
    requires n <= |reply|
  {
    if n == 0 then table else Refreshed(table, reply, n - 1)[reply[n - 1].Key() := reply[n - 1]]
  }

  /** The non-flat snapshots by key; a later one replaces an earlier one. */
  function RemoteByKey(reply: seq<PositionSnapshot>, n: nat): PositionTable
    requires n <= |reply|
  {
    if n == 0 then map[]
    else if reply[n - 1].IsFlat() then RemoteByKey(reply, n - 1)
    else RemoteByKey(reply, n - 1)[reply[n - 1].Key() := reply[n - 1]]
  }

  function PositionReport(table: PositionTable, reply: PositionReply, tolerance: real): Report<PositionKey> {
    if reply.Failure? then Report(false, {}, {}, {}, true)
    else
      var local, remote := NonFlat(table), RemoteByKey(reply.value, |reply.value|);
      var missing := local.Keys - remote.Keys;
      var unknown := remote.Keys - local.Keys;
      var mismatched := set k | k in local && k in remote && Abs(local[k].amount - remote[k].amount) > tolerance;
      Report(missing == {} && unknown == {} && mismatched == {}, missing, unknown, mismatched, false)
  }

  class PositionReconciler {
    const store: PositionStore
    const safeMode: SafeModeController
    const tolerance: real

    constructor (store: PositionStore, safeMode: SafeModeController, tolerance: real)
      ensures this.store == store && this.safeMode == safeMode && this.tolerance == tolerance
    {
      this.store, this.safeMode, this.tolerance := store, safeMode, tolerance;
    }

    method RefreshLocalPositions(reply: seq<PositionSnapshot>)
      modifies store
      ensures store.positions == Refreshed(old(store.positions), reply, |reply|)
    {
      for n := 0 to |reply|
        invariant store.positions == Refreshed(old(store.positions), reply, n)
      {
        store.UpsertPosition(reply[n]);
      }
    }

    method ReconcilePositions(reply: PositionReply) returns (r: Report<PositionKey>)
      modifies safeMode
      ensures r == PositionReport(store.positions, reply, tolerance)
      ensures r.consistent ==> safeMode.state == old(safeMode.state) && safeMode.reasons == old(safeMode.reasons)
      ensures !r.consistent ==>
                && safeMode.state == SafeModeActive
                && safeMode.reasons
                   == old(safeMode.reasons) + [if reply.Failure? then PositionFetchFailed else PositionMismatch]
    {
      var local := store.ListPositions(false);
      if reply.Failure? {
        safeMode.Enter(PositionFetchFailed);
        return Report(false, {}, {}, {}, true);
      }
      var remote: PositionTable := map[];
      for n := 0 to |reply.value|
        invariant remote == RemoteByKey(reply.value, n)
      {
        if !reply.value[n].IsFlat() {
          remote := remote[reply.value[n].Key() := reply.value[n]];
        }
      }
      var missing := local.Keys - remote.Keys;
      var unknown := remote.Keys - local.Keys;
      var mismatched := set k | k in local && k in remote && Abs(local[k].amount - remote[k].amount) > tolerance;
      var consistent := missing == {} && unknown == {} && mismatched == {};
      if !consistent {
        safeMode.Enter(PositionMismatch);
      }
      r := Report(consistent, missing, unknown, mismatched, false);
    }
  }

  // ---------------------------------------------------------------- what a report lists

  /** Entry i of the first n is the last open one for the symbol and side. */
  ghost predicate LastOpenAt(reply: seq<PositionSnapshot>, n: nat, k: PositionKey, i: int)
    requires n <= |reply|
  {
    && 0 <= i < n && OpenFor(reply[i], k)
    && forall j :: i < j < n ==> !OpenFor(reply[j], k)
  }

  predicate OpenFor(p: PositionSnapshot, k: PositionKey) {
    p.symbol == k.0 && p.positionSide == k.1 && p.amount != 0.0
  }

  lemma {:induction false} RemoteIsLastOpen(reply: seq<PositionSnapshot>, n: nat, k: PositionKey) returns (i: int)
    requires n <= |reply|
    ensures k in RemoteByKey(reply, n) ==> LastOpenAt(reply, n, k, i) && RemoteByKey(reply, n)[k] == reply[i]
    ensures k !in RemoteByKey(reply, n) ==> forall j :: 0 <= j < n ==> !OpenFor(reply[j], k)
  {
    i := -1;
    if n > 0 {
      i := RemoteIsLastOpen(reply, n - 1, k);
      if OpenFor(reply[n - 1], k) {
        i := n - 1;
      }
    }
  }

  /**
    What reconciliation lists, for any table and reply: keys open on one side only, and keys open on both whose amounts
    differ by more than the tolerance, the last open entry of the reply counting.
   */
  lemma PositionReportContents(table: PositionTable, reply: seq<PositionSnapshot>, tolerance: real, k: PositionKey)
    ensures var report, n := PositionReport(table, Success(reply), tolerance), |reply|;
            var local := k in table && table[k].amount != 0.0;
            var remote := exists i :: LastOpenAt(reply, n, k, i);
            && !report.failed
            && (k in report.missing <==> local && !remote)
            && (k in report.unknown <==> remote && !local)
            && (k in report.mismatched <==>
                  && local
                  && exists i :: LastOpenAt(reply, n, k, i)
                       && (|| table[k].amount - reply[i].amount > tolerance
                           || reply[i].amount - table[k].amount > tolerance))
            && (report.consistent <==> report.missing == {} && report.unknown == {} && report.mismatched == {})
  {
    var i := RemoteIsLastOpen(reply, |reply|, k);
    forall j, m | LastOpenAt(reply, |reply|, k, j) && LastOpenAt(reply, |reply|, k, m)
      ensures j == m
    {
    }
  }

  // ---------------------------------------------------------------- refresh, then reconcile

  predicate Mentions(reply: seq<PositionSnapshot>, n: nat, k: PositionKey)
    requires n <= |reply|
  {
    exists i :: 0 <= i < n && reply[i].Key() == k
  }

  /** The last of the first n snapshots for the key. */
  function LastFor(reply: seq<PositionSnapshot>, n: nat, k: PositionKey): PositionSnapshot
    requires n <= |reply| && Mentions(reply, n, k)
  {
    if reply[n - 1].Key() == k then reply[n - 1] else LastFor(reply, n - 1, k)
  }

  /** The reply reports the key open and then, in a later entry, flat. */
  ghost predicate ReopenedFlat(reply: seq<PositionSnapshot>, n: nat, k: PositionKey)
    requires n <= |reply|
  {
    && Mentions(reply, n, k) && LastFor(reply, n, k).IsFlat()
    && exists i :: 0 <= i < n && reply[i].Key() == k && !reply[i].IsFlat()
  }

  lemma {:induction false} RefreshedKeepsLast(table: PositionTable, reply: seq<PositionSnapshot>, n: nat, k: PositionKey)
    requires n <= |reply|
    ensures var t := Refreshed(table, reply, n);
            if Mentions(reply, n, k) then k in t && t[k] == LastFor(reply, n, k)
            else (k in t <==> k in table) && (k in t ==> t[k] == table[k])
  {
    if n > 0 {
      RefreshedKeepsLast(table, reply, n - 1, k);
    }
  }

  lemma {:induction false} RemoteKeepsLastOpen(reply: seq<PositionSnapshot>, n: nat, k: PositionKey)
    requires n <= |reply|
    ensures var r := RemoteByKey(reply, n);
            && (k in r <==> exists i :: 0 <= i < n && reply[i].Key() == k && !reply[i].IsFlat())
            && (Mentions(reply, n, k) && !LastFor(reply, n, k).IsFlat() ==> k in r && r[k] == LastFor(reply, n, k))
  {
    if n > 0 {
      RemoteKeepsLastOpen(reply, n - 1, k);
    }
  }

  /**
    Refreshing from a reply and reconciling with the same reply leaves no amount mismatch; missing are exactly the
    open local keys the reply does not mention, and unknown exactly the keys it reports open and then flat.
   */
  lemma RefreshThenReconcile(table: PositionTable, reply: seq<PositionSnapshot>, tolerance: real)
    requires tolerance >= 0.0
    ensures var n := |reply|;
            var report := PositionReport(Refreshed(table, reply, n), Success(reply), tolerance);
            && report.mismatched == {}
            && report.missing == (set k | k in table && !table[k].IsFlat() && !Mentions(reply, n, k))
            && forall k :: k in report.unknown <==> ReopenedFlat(reply, n, k)
  {
    var n := |reply|;
    var t := Refreshed(table, reply, n);
    forall k: PositionKey
      ensures if Mentions(reply, n, k) then k in t && t[k] == LastFor(reply, n, k)
              else (k in t <==> k in table) && (k in t ==> t[k] == table[k])
    {
      RefreshedKeepsLast(table, reply, n, k);
    }
    forall k: PositionKey
      ensures k in RemoteByKey(reply, n) <==> exists i :: 0 <= i < n && reply[i].Key() == k && !reply[i].IsFlat()
      ensures Mentions(reply, n, k) && !LastFor(reply, n, k).IsFlat() ==>
                k in RemoteByKey(reply, n) && RemoteByKey(reply, n)[k] == LastFor(reply, n, k)
    {
      RemoteKeepsLastOpen(reply, n, k);
    }
  }

  ghost predicate DistinctKeys(reply: seq<PositionSnapshot>) {
    forall i, j :: 0 <= i < j < |reply| ==> reply[i].Key() != reply[j].Key()
  }

  lemma {:induction false} DistinctNeverReopens(reply: seq<PositionSnapshot>, n: nat, k: PositionKey)
    requires n <= |reply| && DistinctKeys(reply)
    ensures !ReopenedFlat(reply, n, k)
  {
    if n > 0 {
      DistinctNeverReopens(reply, n - 1, k);
    }
  }

  /** Refreshing twice from the same reply is refreshing once. */
  lemma RefreshIdempotent(table: PositionTable, reply: seq<PositionSnapshot>)
    ensures Refreshed(Refreshed(table, reply, |reply|), reply, |reply|) == Refreshed(table, reply, |reply|)
  {
    var once := Refreshed(table, reply, |reply|);
    var twice := Refreshed(once, reply, |reply|);
    forall k: PositionKey
      ensures (k in twice <==> k in once) && (k in once ==> twice[k] == once[k])
    {
      RefreshedKeepsLast(table, reply, |reply|, k);
      RefreshedKeepsLast(once, reply, |reply|, k);
    }
  }
}
