/** Routing an intent to the exchange and persisting what was submitted. */
module Routing {
  import opened Prelude
  import opened Models
  import opened Filters
  import opened Allocator
  import opened Orders
  import opened OrderStorage
  import opened SafeMode

  /** The exchange's reply to a submission: the parsed order payload, or an exception with or without effect. */
  datatype SubmitReply =
    | Taken(
        status: Option<OrderStatus>, exchangeOrderId: Option<string>, executed: Option<real>, average: Option<real>)
    | ApiError(placed: bool)

  /** What the environment contributes to one routed order: a client order id and a reply. */
  datatype Environment = Environment(clientOrderId: string, reply: SubmitReply)

  /** A submitted row with the reply's fields written over it. */
  function Replied(row: OrderRow, reply: SubmitReply): OrderRow
    requires reply.Taken?
  {
    row.(exchangeOrderId := reply.exchangeOrderId,
         status := if reply.status.Some? then reply.status.value else row.status,
         filledQuantity := if reply.executed.Some? then reply.executed.value else row.filledQuantity,
         averageFillPrice := if reply.average.Some? then reply.average else row.averageFillPrice)
  }

  class LoopExchange {
    var account: AccountSnapshot
    var positions: seq<PositionSnapshot>
    var filters: map<string, SymbolFilters>
    /** The exchange's own order book. */
    var book: OrderTable

    constructor (account: AccountSnapshot, positions: seq<PositionSnapshot>, filters: map<string, SymbolFilters>)
      ensures this.account == account && this.positions == positions && this.filters == filters && book == map[]
    {
      this.account, this.positions, this.filters, book := account, positions, filters, map[];
    }

    method SubmitOrder(order: OrderRecord, reply: SubmitReply) returns (raised: Option<PipelineError>)
      modifies this`book, order
      ensures reply.Taken? ==>
                && raised.None?
                && order.Row() == Replied(old(order.Row()), reply)
                && book == old(book)[order.clientOrderId := order.Row()]
      ensures reply.ApiError? ==>
                && raised == Some(SubmissionFailed)
                && order.Row() == old(order.Row())
                && book == if reply.placed then old(book)[order.clientOrderId := order.Row()] else old(book)
    {
      match reply
      case ApiError(placed) =>
        if placed {
          book := book[order.clientOrderId := order.Row()];
        }
        return Some(SubmissionFailed);
      case Taken(status, exchangeOrderId, executed, average) =>
        order.exchangeOrderId := exchangeOrderId;
        if status.Some? {
          order.status := status.value;
        }
        if executed.Some? {
          order.filledQuantity := executed.value;
        }
        if average.Some? {
          order.averageFillPrice := average;
        }
        book := book[order.clientOrderId := order.Row()];
        raised := None;
    }
  }

  datatype RouteResult = RouteResult(accepted: bool, order: Option<(string, OrderRow)>, reason: Reason)

  /** The effect of routing: the result or exception, and the book and store left behind. */
  datatype RouteEffect = RouteEffect(result: Result<RouteResult, PipelineError>, book: OrderTable, store: OrderTable)

  function SubmittedRow(intent: OrderIntent): OrderRow {
    NewRow(intent).(status := Submitted)
  }

  function Routed(
    mode: TradingMode, allowsEntries: bool, intent: OrderIntent, filters: map<string, SymbolFilters>,
    env: Environment, book: OrderTable, store: OrderTable): RouteEffect
  {
    if !allowsEntries && intent.action == EntryAction then
      RouteEffect(Success(RouteResult(false, None, SafeModeBlocksNewEntries)), book, store)
    else if intent.action != EntryAction && !intent.reduceOnly then
      RouteEffect(Success(RouteResult(false, None, CloseOrderMustBeReduceOnly)), book, store)
    else if intent.symbol !in filters then
      RouteEffect(Failure(UnknownSymbol), book, store)
    else
      var normalized := NormalizeOrderIntent(intent, filters[intent.symbol]);
      var id := env.clientOrderId;
      if normalized.Failure? then RouteEffect(Failure(normalized.error), book, store)
      else if mode == SignalOnly then
        RouteEffect(Success(RouteResult(true, Some((id, NewRow(normalized.value))), SignalOnlyNoSubmit)), book, store)
      else
        var sent := SubmittedRow(normalized.value);
        match env.reply
        case ApiError(placed) =>
          RouteEffect(Failure(SubmissionFailed), if placed then book[id := sent] else book, store)
        case Taken(_, _, _, _) =>
          var row := Replied(sent, env.reply);
          RouteEffect(Success(RouteResult(true, Some((id, row)), SubmittedToSimOrTestnet)),
                      book[id := row], Upserted(store, id, row))
  }

  /**
    Every routed order by its gates: SAFE_MODE stops entries, a close must be reduce-only, the symbol and the filters
    must accept it; only then is anything sent, and only an order the exchange took is stored.
   */
  lemma RoutedByGates(
    mode: TradingMode, allowsEntries: bool, intent: OrderIntent, filters: map<string, SymbolFilters>,
    env: Environment, book: OrderTable, store: OrderTable)
    ensures var effect := Routed(mode, allowsEntries, intent, filters, env, book, store);
            var r := effect.result;
            var blocked := !allowsEntries && intent.action == EntryAction;
            var unsafe := !blocked && intent.action != EntryAction && !intent.reduceOnly;
            var passes := !blocked && !unsafe && intent.symbol in filters
                          && NormalizeOrderIntent(intent, filters[intent.symbol]).Success?;
            var sends := passes && mode != SignalOnly;
            && (blocked ==> r == Success(RouteResult(false, None, SafeModeBlocksNewEntries)))
            && (unsafe ==> r == Success(RouteResult(false, None, CloseOrderMustBeReduceOnly)))
            && (r == Failure(UnknownSymbol) <==> !blocked && !unsafe && intent.symbol !in filters)
            && (r.Success? && r.value.accepted <==> passes && (sends ==> env.reply.Taken?))
            && (r.Success? && r.value.reason == SignalOnlyNoSubmit <==> passes && !sends)
            && (effect.book != book ==> sends && (env.reply.Taken? || env.reply.placed))
            && (effect.store != store ==> sends && env.reply.Taken?)
            && (sends && env.reply.ApiError? ==>
                  && r == Failure(SubmissionFailed)
                  && (env.reply.placed ==>
                        env.clientOrderId in effect.book && effect.book[env.clientOrderId].status == Submitted))
            && (sends && env.reply.Taken? ==>
                  env.clientOrderId in effect.book && env.clientOrderId in effect.store
                  && effect.book[env.clientOrderId].status
                     == effect.store[env.clientOrderId].status
                     == if env.reply.status.Some? then env.reply.status.value else Submitted)
  {
    hide NormalizeOrderIntent, FloorToStep;
    if intent.symbol in filters {
      NormalisationOutcome(intent, filters[intent.symbol]);
    }
  }

  /** What the order router hands back: the order is the live record the exchange has just updated. */
  datatype RouterReply = RouterReply(accepted: bool, order: OrderRecord?, reason: Reason)

  class OrderRouter {
    const mode: TradingMode
    const exchange: LoopExchange
    const safeMode: SafeModeController

    constructor (mode: TradingMode, exchange: LoopExchange, safeMode: SafeModeController)
      ensures this.mode == mode && this.exchange == exchange && this.safeMode == safeMode
    {
      this.mode, this.exchange, this.safeMode := mode, exchange, safeMode;
    }

    method Route(intent: OrderIntent, env: Environment) returns (r: Result<RouterReply, PipelineError>)
      modifies exchange`book
      ensures var effect := Routed(mode, safeMode.AllowsNewEntries(), intent, exchange.filters, env,
                                   old(exchange.book), map[]);
              && exchange.book == effect.book
              && (if effect.result.Failure? then r == Failure(effect.result.error)
                  else
                    && r.Success?
                    && r.value.accepted == effect.result.value.accepted
                    && r.value.reason == effect.result.value.reason
                    && (r.value.order == null <==> effect.result.value.order.None?)
                    && (r.value.order != null ==>
                          && fresh(r.value.order)
                          && effect.result.value.order == Some((r.value.order.clientOrderId, r.value.order.Row()))))
    {
      if !safeMode.AllowsNewEntries() && intent.action == EntryAction {
        return Success(RouterReply(false, null, SafeModeBlocksNewEntries));
      }
      if intent.action != EntryAction && !intent.reduceOnly {
        return Success(RouterReply(false, null, CloseOrderMustBeReduceOnly));
      }
      if intent.symbol !in exchange.filters {
        return Failure(UnknownSymbol);
      }
      var normalized := NormalizeOrderIntent(intent, exchange.filters[intent.symbol]);
      if normalized.Failure? {
        return Failure(normalized.error);
      }
      var order := new OrderRecord(env.clientOrderId, normalized.value);
      if mode == SignalOnly {
        return Success(RouterReply(true, order, SignalOnlyNoSubmit));
      }
      var refused := Transition(order, Submitted);
      assert refused.None?;
      var raised := exchange.SubmitOrder(order, env.reply);
      if raised.Some? {
        return Failure(raised.value);
      }
      r := Success(RouterReply(true, order, SubmittedToSimOrTestnet));
    }
  }

  class PersistentOrderRouter {
    const router: OrderRouter
    const store: OrderStore

    constructor (router: OrderRouter, store: OrderStore)
      ensures this.router == router && this.store == store
    {
      this.router, this.store := router, store;
    }

    method Route(intent: OrderIntent, env: Environment) returns (r: Result<RouteResult, PipelineError>)
      modifies router.exchange`book, store
      ensures RouteEffect(r, router.exchange.book, store.orders)
           == Routed(router.mode, router.safeMode.AllowsNewEntries(), intent, router.exchange.filters, env,
                     old(router.exchange.book), old(store.orders))
    {
      hide NormalizeOrderIntent;
      var reply := router.Route(intent, env);
      if reply.Failure? {
        return Failure(reply.error);
      }
      var order := reply.value.order;
      if reply.value.accepted && order != null && reply.value.reason == SubmittedToSimOrTestnet {
        store.UpsertOrder(order);
      }
      r := Success(RouteResult(
        reply.value.accepted,
        if order == null then None else Some((order.clientOrderId, order.Row())),
        reply.value.reason));
    }
  }
}
