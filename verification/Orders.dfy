/** The order record and its state machine. */
module Orders {
  import opened Prelude
  import opened Models

  /** A mutable order; the state machine and the exchange update it in place. */
  class OrderRecord {
    const clientOrderId: string
    const intent: OrderIntent
    var status: OrderStatus
    var exchangeOrderId: Option<string>
    var filledQuantity: real
    var averageFillPrice: Option<real>

    constructor (clientOrderId: string, intent: OrderIntent)
      ensures this.clientOrderId == clientOrderId && this.intent == intent
      ensures Row() == NewRow(intent)
    {
      this.clientOrderId := clientOrderId;
      this.intent := intent;
      status, exchangeOrderId, filledQuantity, averageFillPrice := Created, None, 0.0, None;
    }

    constructor FromRow(clientOrderId: string, row: OrderRow)
      ensures this.clientOrderId == clientOrderId && this.intent == row.intent
      ensures Row() == row
    {
      this.clientOrderId := clientOrderId;
      this.intent := row.intent;
      status, exchangeOrderId := row.status, row.exchangeOrderId;
      filledQuantity, averageFillPrice := row.filledQuantity, row.averageFillPrice;
    }

    function Row(): OrderRow
      reads this
    {
      OrderRow(intent, status, exchangeOrderId, filledQuantity, averageFillPrice)
    }
  }

  function NewRow(intent: OrderIntent): OrderRow {
    OrderRow(intent, Created, None, 0.0, None)
  }

  predicate Allowed(current: OrderStatus, next: OrderStatus) {
    match current
    case Created => next in {Submitted, Rejected, Unknown}
    case Submitted => next in {PartiallyFilled, Filled, Canceled, Rejected, Expired, Unknown}
    case PartiallyFilled => next in {PartiallyFilled, Filled, Canceled, Unknown}
    case Unknown => next in {Submitted, Canceled, Filled}
    case _ => false
  }

  /**
    The transition table by target: CREATED is never entered, SUBMITTED only from CREATED or UNKNOWN, and so on. The
    terminal statuses are exactly those that lead nowhere.
   */
  lemma AllowedByTarget(current: OrderStatus, next: OrderStatus)
    ensures Allowed(current, next) <==>
              match next
              case Created => false
              case Submitted => current == Created || current == Unknown
              case PartiallyFilled => current == Submitted || current == PartiallyFilled
              case Filled => current == Submitted || current == PartiallyFilled || current == Unknown
              case Canceled => current == Submitted || current == PartiallyFilled || current == Unknown
              case Rejected => current == Created || current == Submitted
              case Expired => current == Submitted
              case Unknown => current == Created || current == Submitted || current == PartiallyFilled
  {
  }

  lemma TerminalLeadsNowhere(status: OrderStatus)
    ensures status.Terminal() <==> forall next :: !Allowed(status, next)
  {
    assert Allowed(Created, Submitted) && Allowed(Submitted, Filled) && Allowed(PartiallyFilled, Filled)
        && Allowed(Unknown, Filled);
  }

  datatype Call = TransitionTo(next: OrderStatus) | ApplyFill(quantity: real, price: real)

  /** The row after a call, and the exception it raised if any. */
  datatype Outcome = Outcome(row: OrderRow, raised: Option<PipelineError>)

  function TransitionOutcome(row: OrderRow, next: OrderStatus): Outcome {
    if Allowed(row.status, next) then Outcome(row.(status := next), None)
    else Outcome(row, Some(InvalidOrderTransition))
  }

  function FillStatus(row: OrderRow, quantity: real): OrderStatus {
    if quantity == row.intent.quantity then Filled else PartiallyFilled
  }

  function FillOutcome(row: OrderRow, quantity: real, price: real): Outcome {
    if quantity < 0.0 then Outcome(row, Some(NegativeFill))
    else if quantity > row.intent.quantity then Outcome(row, Some(FillExceedsQuantity))
    else
      var booked := row.(filledQuantity := quantity, averageFillPrice := Some(price));
      if FillStatus(row, quantity) == row.status == PartiallyFilled then Outcome(booked, None)
      else TransitionOutcome(booked, FillStatus(row, quantity))
  }

  function CallOutcome(row: OrderRow, call: Call): Outcome {
    match call
    case TransitionTo(next) => TransitionOutcome(row, next)
    case ApplyFill(quantity, price) => FillOutcome(row, quantity, price)
  }

  /**
    What a fill does, by quantity and status: out of range it changes nothing; in range it is always written, and it
    raises unless the status can take it. Filling an order that is already FILLED raises.
   */
  lemma FillByStatus(row: OrderRow, quantity: real, price: real)
    ensures var outcome := FillOutcome(row, quantity, price);
            var whole, inRange := quantity == row.intent.quantity, 0.0 <= quantity <= row.intent.quantity;
            && (outcome.raised == Some(NegativeFill) <==> quantity < 0.0)
            && (outcome.raised == Some(FillExceedsQuantity) <==> quantity >= 0.0 && quantity > row.intent.quantity)
            && (outcome.raised.None? <==>
                  && inRange
                  && (row.status in {Submitted, PartiallyFilled} || (whole && row.status == Unknown)))
            && (!inRange ==> outcome.row == row)
            && (inRange ==>
                  && outcome.row.filledQuantity == quantity && outcome.row.averageFillPrice == Some(price)
                  && outcome.row.intent == row.intent && outcome.row.exchangeOrderId == row.exchangeOrderId
                  && outcome.row.status
                     == if outcome.raised.Some? then row.status else if whole then Filled else PartiallyFilled)
  {
  }

  method Transition(order: OrderRecord, next: OrderStatus) returns (raised: Option<PipelineError>)
    modifies order
    ensures Outcome(order.Row(), raised) == TransitionOutcome(old(order.Row()), next)
  {
    if !Allowed(order.status, next) {
      return Some(InvalidOrderTransition);
    }
    order.status := next;
    raised := None;
  }

  /** The fill is written before the transition is checked, so a raising call still changes the record. */
  method ApplyFillTo(order: OrderRecord, quantity: real, price: real) returns (raised: Option<PipelineError>)
    modifies order
    ensures Outcome(order.Row(), raised) == FillOutcome(old(order.Row()), quantity, price)
  {
    if quantity < 0.0 {
      return Some(NegativeFill);
    }
    if quantity > order.intent.quantity {
      return Some(FillExceedsQuantity);
    }
    order.filledQuantity := quantity;
    order.averageFillPrice := Some(price);
    var status := if quantity == order.intent.quantity then Filled else PartiallyFilled;
    if status == order.status == PartiallyFilled {
      return None;
    }
    raised := Transition(order, status);
  }

  // ---------------------------------------------------------------- whole lifetimes

  /** The row after the first n calls, whether or not they raise. */
  function After(row: OrderRow, calls: seq<Call>, n: nat): OrderRow
    requires n <= |calls|
  {
    if n == 0 then row else CallOutcome(After(row, calls, n - 1), calls[n - 1]).row
  }

  /** Over every sequence of calls, raising ones included, from any point m of it to any later point n. */
  lemma {:induction false} Lifecycle(row: OrderRow, calls: seq<Call>, m: nat, n: nat)
    requires m <= n <= |calls|
    requires 0.0 <= row.filledQuantity <= row.intent.quantity
    ensures After(row, calls, m).status.Terminal() ==> After(row, calls, n).status == After(row, calls, m).status
    ensures After(row, calls, m).status != Created ==> After(row, calls, n).status != Created
    ensures 0.0 <= After(row, calls, n).filledQuantity <= row.intent.quantity
    ensures After(row, calls, n).intent == row.intent
    decreases n
  {
    if m < n {
      Lifecycle(row, calls, m, n - 1);
    } else if n > 0 {
      Lifecycle(row, calls, n - 1, n - 1);
    }
  }

  /** FILLED means completely filled. */
  ghost predicate FilledMeansComplete(row: OrderRow) {
    && 0.0 <= row.filledQuantity <= row.intent.quantity
    && (row.status == Filled <==> row.filledQuantity == row.intent.quantity)
  }

  /** Every call returned, and FILLED was never entered by a bare transition. */
  ghost predicate CleanRun(row: OrderRow, calls: seq<Call>) {
    forall i :: 0 <= i < |calls| ==>
      CallOutcome(After(row, calls, i), calls[i]).raised.None? && calls[i] != TransitionTo(Filled)
  }

  lemma CleanCallKeepsFilledComplete(row: OrderRow, call: Call)
    requires FilledMeansComplete(row) && row.intent.quantity > 0.0
    requires CallOutcome(row, call).raised.None? && call != TransitionTo(Filled)
    ensures FilledMeansComplete(CallOutcome(row, call).row) && CallOutcome(row, call).row.intent == row.intent
  {
  }

  lemma {:induction false} CleanRunsKeepFilledComplete(row: OrderRow, calls: seq<Call>, n: nat)
    requires CleanRun(row, calls) && n <= |calls|
    requires FilledMeansComplete(row) && row.intent.quantity > 0.0
    ensures FilledMeansComplete(After(row, calls, n)) && After(row, calls, n).intent == row.intent
  {
    hide CallOutcome, FilledMeansComplete;
    if n > 0 {
      CleanRunsKeepFilledComplete(row, calls, n - 1);
      CleanCallKeepsFilledComplete(After(row, calls, n - 1), calls[n - 1]);
    }
  }

  /** A call whose guard lets FILLED and the filled quantity drift apart. */
  predicate Drifts(row: OrderRow, call: Call) {
    match call
    case TransitionTo(next) => next == Filled && row.status in {Submitted, PartiallyFilled, Unknown}
    case ApplyFill(quantity, _) =>
      && 0.0 <= quantity <= row.intent.quantity
      && (if quantity == row.intent.quantity then row.status in {Created, Canceled, Rejected, Expired}
          else row.status == Filled)
  }

  /**
    One call separates FILLED from the filled quantity exactly when it is a bare transition to FILLED, a full
    fill of an order that cannot become FILLED, or a partial fill of a FILLED order; the last two raise, but
    only after the fill has been written.
   */
  lemma DriftsExactly(row: OrderRow, call: Call)
    requires FilledMeansComplete(row) && row.intent.quantity > 0.0
    ensures !FilledMeansComplete(CallOutcome(row, call).row) <==> Drifts(row, call)
    ensures call.ApplyFill? && Drifts(row, call) ==> CallOutcome(row, call).raised == Some(InvalidOrderTransition)
  {
  }

  ghost predicate CompleteThroughout(row: OrderRow, calls: seq<Call>, n: nat)
    requires n <= |calls|
  {
    forall i :: 0 <= i <= n ==> FilledMeansComplete(After(row, calls, i))
  }

  ghost predicate NeverDrifts(row: OrderRow, calls: seq<Call>, n: nat)
    requires n <= |calls|
  {
    forall i :: 0 <= i < n ==> !Drifts(After(row, calls, i), calls[i])
  }

  /** Over every sequence of calls, raising ones included: FILLED means complete throughout exactly when no call drifts. */
  lemma {:induction false} NeverDriftsIff(row: OrderRow, calls: seq<Call>, n: nat)
    requires n <= |calls| && FilledMeansComplete(row) && row.intent.quantity > 0.0
    ensures CompleteThroughout(row, calls, n) <==> NeverDrifts(row, calls, n)
  {
    hide CallOutcome, FilledMeansComplete, Drifts;
    assert After(row, calls, 0) == row;
    if n > 0 {
      NeverDriftsIff(row, calls, n - 1);
      assert CompleteThroughout(row, calls, n)
        <==> CompleteThroughout(row, calls, n - 1) && FilledMeansComplete(After(row, calls, n));
      assert NeverDrifts(row, calls, n)
        <==> NeverDrifts(row, calls, n - 1) && !Drifts(After(row, calls, n - 1), calls[n - 1]);
      if CompleteThroughout(row, calls, n - 1) {
        KeepsIntent(row, calls, n - 1);
        DriftsExactly(After(row, calls, n - 1), calls[n - 1]);
      }
    }
  }

  lemma {:induction false} KeepsIntent(row: OrderRow, calls: seq<Call>, n: nat)
    requires n <= |calls|
    ensures After(row, calls, n).intent == row.intent
  {
    if n > 0 {
      KeepsIntent(row, calls, n - 1);
    }
  }

  /** A canceled order that reports itself completely filled after a call that raised. */
  lemma RaisingFillStillWrites(intent: OrderIntent, price: real)
    requires intent.quantity > 0.0
    ensures var calls := [TransitionTo(Submitted), TransitionTo(Canceled), ApplyFill(intent.quantity, price)];
            var last := After(NewRow(intent), calls, 3);
            last.status == Canceled && last.filledQuantity == intent.quantity
  {
    var calls := [TransitionTo(Submitted), TransitionTo(Canceled), ApplyFill(intent.quantity, price)];
    assert After(NewRow(intent), calls, 1).status == Submitted;
    assert After(NewRow(intent), calls, 2).status == Canceled;
  }
}
