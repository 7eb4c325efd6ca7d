/** The order table: one row per client order id, intent kept from the first write. */
module OrderStorage {
  import opened Models
  import opened Orders

  type OrderTable = map<string, OrderRow>

  /** INSERT ... ON CONFLICT DO UPDATE of the four exchange fields only. */
  function Upserted(table: OrderTable, id: string, row: OrderRow): OrderTable {
    table[id := if id in table then row.(intent := table[id].intent) else row]
  }

  predicate IsOpenStatus(status: OrderStatus) {
    status in {Created, Submitted, PartiallyFilled, Unknown}
  }

  function OpenRows(table: OrderTable): OrderTable {
    map id | id in table && IsOpenStatus(table[id].status) :: table[id]
  }

  /** The open statuses are the ones that are not terminal. */
  lemma OpenIsNotTerminal(status: OrderStatus)
    ensures IsOpenStatus(status) <==> !status.Terminal()
  {
  }

  class OrderStore {
    var orders: OrderTable

    constructor ()
      ensures orders == map[]
    {
      orders := map[];
    }

    method UpsertOrder(order: OrderRecord)
      modifies this
      ensures orders == Upserted(old(orders), order.clientOrderId, order.Row())
    {
      var id := order.clientOrderId;
      if id in orders {
        orders := orders[id := orders[id].(
          exchangeOrderId := order.exchangeOrderId,
          status := order.status,
          filledQuantity := order.filledQuantity,
          averageFillPrice := order.averageFillPrice)];
      } else {
        orders := orders[id := order.Row()];
      }
    }

    method GetOrder(id: string) returns (order: OrderRecord?)
      ensures order == null <==> id !in orders
      ensures order != null ==> fresh(order) && order.clientOrderId == id && order.Row() == orders[id]
    {
      if id !in orders {
        return null;
      }
      order := new OrderRecord.FromRow(id, orders[id]);
    }

    method ListOpenOrders() returns (open: OrderTable)
      ensures open == OpenRows(orders)
    {
      open := map id | id in orders && IsOpenStatus(orders[id].status) :: orders[id];
    }
  }

  // ---------------------------------------------------------------- histories of writes

  datatype Write = Write(id: string, row: OrderRow)

  /** The table after the first n writes. */
  function Written(table: OrderTable, writes: seq<Write>, n: nat): OrderTable
    requires n <= |writes|
  {
    if n == 0 then table else Upserted(Written(table, writes, n - 1), writes[n - 1].id, writes[n - 1].row)
  }

  /** Position of the first write to id among the first n. */
  ghost predicate FirstWrite(writes: seq<Write>, n: nat, id: string, first: nat) {
    first < n <= |writes| && writes[first].id == id && forall i :: 0 <= i < first ==> writes[i].id != id
  }

  ghost predicate LastWrite(writes: seq<Write>, n: nat, id: string, last: nat) {
    last < n <= |writes| && writes[last].id == id && forall i :: last < i < n ==> writes[i].id != id
  }

  /**
    After any history of writes to an empty table a row exists exactly for the ids written, it holds the
    intent of the first write and the four exchange fields of the last one.
   */
  lemma {:induction false} HistoryOfRow(writes: seq<Write>, n: nat, id: string, first: nat, last: nat)
    requires FirstWrite(writes, n, id, first) && LastWrite(writes, n, id, last)
    ensures var table := Written(map[], writes, n);
            id in table && table[id] == writes[last].row.(intent := writes[first].row.intent)
  {
    if n - 1 > last {
      HistoryOfRow(writes, n - 1, id, first, last);
    } else if last > first {
      var previous := PreviousWrite(writes, last, id, first);
      HistoryOfRow(writes, n - 1, id, first, previous);
    } else {
      NeverWritten(writes, n - 1, id);
    }
  }

  lemma {:induction false} PreviousWrite(writes: seq<Write>, n: nat, id: string, first: nat) returns (last: nat)
    requires FirstWrite(writes, n, id, first)
    ensures LastWrite(writes, n, id, last)
  {
    if writes[n - 1].id == id {
      last := n - 1;
    } else {
      last := PreviousWrite(writes, n - 1, id, first);
    }
  }

  lemma {:induction false} NeverWritten(writes: seq<Write>, n: nat, id: string)
    requires n <= |writes| && forall i :: 0 <= i < n ==> writes[i].id != id
    ensures id !in Written(map[], writes, n)
  {
    if n > 0 {
      NeverWritten(writes, n - 1, id);
    }
  }
}
