/** What a run of the auto loop does and does not do, over every batch of candidates and every exchange reply. */
module AutoLoopTheorems {
  import opened Prelude
  import opened Market
  import opened Models
  import opened Filters
  import opened Allocator
  import opened EntryIntent
  import opened OrderStorage
  import opened Routing
  import opened AutoLoop

  function Fresh(book: OrderTable, store: OrderTable): LoopState {
    LoopState([], 0, book, store)
  }

  function AcceptedCount(decisions: seq<LoopDecision>): nat {
    if |decisions| == 0 then 0
    else AcceptedCount(decisions[..|decisions| - 1]) + if decisions[|decisions| - 1].accepted then 1 else 0
  }

  lemma AcceptedCountNext(decisions: seq<LoopDecision>, d: LoopDecision)
    ensures AcceptedCount(decisions + [d]) == AcceptedCount(decisions) + if d.accepted then 1 else 0
  {
  }

  // ---------------------------------------------------------------- which candidates are submitted

  function Allocation(w: World, c: Candidate): Result<Decision, PipelineError>
    requires c.symbol in w.filters
  {
    Allocate(w.sizing, c, w.account, w.positions, w.filters[c.symbol])
  }

  /** The snapshot allows the candidate, the allocator accepts it and its order passes the exchange filters. */
  predicate Sendable(w: World, c: Candidate) {
    && w.allowsEntries && c.symbol in w.filters
    && Allocation(w, c).Success? && Allocation(w, c).value.accepted
    && SubmittedIntent(c, Allocation(w, c).value, w.loopConfig.limitPriceOffsetBps, w.filters[c.symbol]).Success?
  }

  /** The normalised limit order of a sendable candidate. */
  function OrderOf(w: World, c: Candidate): OrderIntent
    requires Sendable(w, c)
  {
    SubmittedIntent(c, Allocation(w, c).value, w.loopConfig.limitPriceOffsetBps, w.filters[c.symbol]).value
  }

  /** Submitted if reached with room for another order: the candidate, the snapshot and the reply decide. */
  predicate Submittable(w: World, c: Candidate, env: Environment) {
    Sendable(w, c) && env.reply.Taken?
  }

  /** Ends the run if reached with room for another order. */
  predicate Raises(w: World, c: Candidate, env: Environment) {
    && w.allowsEntries
    && (|| c.symbol !in w.filters
        || Allocation(w, c).Failure?
        || (Allocation(w, c).value.accepted && !Submittable(w, c, env)))
  }

  /** How many of the first n candidates are submittable. */
  function SubmittableCount(w: World, candidates: seq<Candidate>, envs: seq<Environment>, n: nat): nat
    requires n <= |candidates| == |envs|
  {
    if n == 0 then 0
    else SubmittableCount(w, candidates, envs, n - 1) + if Submittable(w, candidates[n - 1], envs[n - 1]) then 1 else 0
  }

  /** Candidate i is reached with room for another order. */
  predicate HasRoom(w: World, candidates: seq<Candidate>, envs: seq<Environment>, i: nat)
    requires i < |candidates| == |envs|
  {
    SubmittableCount(w, candidates, envs, i) < w.loopConfig.maxNewOrders
  }

  /** Among the first submittable candidates, up to the maximum. */
  predicate Selected(w: World, candidates: seq<Candidate>, envs: seq<Environment>, i: nat)
    requires i < |candidates| == |envs|
  {
    Submittable(w, candidates[i], envs[i]) && HasRoom(w, candidates, envs, i)
  }

  predicate RaisesAt(w: World, candidates: seq<Candidate>, envs: seq<Environment>, i: nat)
    requires i < |candidates| == |envs|
  {
    Raises(w, candidates[i], envs[i]) && HasRoom(w, candidates, envs, i)
  }

  /** How many of the first n candidates a run decides: those before the first one that raises. */
  function DecidedCount(w: World, candidates: seq<Candidate>, envs: seq<Environment>, n: nat): (k: nat)
    requires n <= |candidates| == |envs|
    ensures k <= n
  {
    if n == 0 then 0
    else
      var k := DecidedCount(w, candidates, envs, n - 1);
      if k < n - 1 || RaisesAt(w, candidates, envs, n - 1) then k else n
  }

  /** How many orders a run over the first n candidates submits. */
  function SubmittedCount(w: World, candidates: seq<Candidate>, envs: seq<Environment>, n: nat): nat
    requires n <= |candidates| == |envs|
  {
    MinInt(SubmittableCount(w, candidates, envs, DecidedCount(w, candidates, envs, n)),
           MaxInt(w.loopConfig.maxNewOrders, 0))
  }

  lemma {:induction false} DecidedBeforeRaise(
    w: World, candidates: seq<Candidate>, envs: seq<Environment>, n: nat, i: nat)
    requires i < n <= |candidates| == |envs|
    ensures i < DecidedCount(w, candidates, envs, n) ==> !RaisesAt(w, candidates, envs, i)
    ensures i == DecidedCount(w, candidates, envs, n) ==> RaisesAt(w, candidates, envs, i)
  {
    hide RaisesAt;
    if i < n - 1 {
      DecidedBeforeRaise(w, candidates, envs, n - 1, i);
    }
  }

  /** An order that opens the candidate's position: a BUY for a LONG, a SELL for a SHORT, and never reduce-only. */
  ghost predicate OpensFor(intent: OrderIntent, c: Candidate) {
    && intent.symbol == c.symbol && intent.setupId == Some(c.setupId) && intent.sleeve == SleeveBId
    && (intent.side == Buy <==> c.side == Long)
    && intent.orderType == Limit && intent.price.Some?
    && intent.action == EntryAction && !intent.reduceOnly
  }

  lemma OrderOpensFor(w: World, c: Candidate)
    requires Sendable(w, c)
    ensures OpensFor(OrderOf(w, c), c)
  {
    hide Allocate, FloorToStep, EntryLimitPrice;
  }

  /** A submitted row carries the reply's fields where the reply has them. */
  ghost predicate RowOfReply(row: OrderRow, reply: SubmitReply) {
    && reply.Taken?
    && row.exchangeOrderId == reply.exchangeOrderId
    && row.status == (if reply.status.Some? then reply.status.value else Submitted)
    && row.filledQuantity == (if reply.executed.Some? then reply.executed.value else 0.0)
    && row.averageFillPrice == reply.average
  }

  /** A decision made by really routing the allocator's order for this candidate. */
  ghost predicate Submits(w: World, c: Candidate, env: Environment, d: LoopDecision) {
    && Submittable(w, c, env)
    && Allocation(w, c) == Success(d.allocation)
    && d.route == Some(RouteResult(true, Some((env.clientOrderId, Replied(SubmittedRow(OrderOf(w, c)), env.reply))),
                                   SubmittedToSimOrTestnet))
    && var row := Replied(SubmittedRow(OrderOf(w, c)), env.reply);
       OpensFor(row.intent, c) && RowOfReply(row, env.reply)
  }

  /** Why a candidate was not submitted: no room, SAFE_MODE, or the allocator's own reason, in that order. */
  ghost predicate SkippedFor(w: World, c: Candidate, hasRoom: bool, d: LoopDecision) {
    && (!hasRoom ==> d.reason == MaxNewOrdersPerRunReached)
    && (hasRoom && !w.allowsEntries ==> d.reason == SafeModeBlocksNewEntries)
    && (hasRoom && w.allowsEntries ==>
          c.symbol in w.filters && Allocation(w, c) == Success(d.allocation) && d.reason == d.allocation.reason)
  }

  ghost predicate Answers(w: World, c: Candidate, env: Environment, d: LoopDecision) {
    && d.symbol == c.symbol
    && (d.accepted ==> Submits(w, c, env, d))
    && (!d.accepted ==> d.route.None? && d.reason == d.allocation.reason && !d.allocation.accepted)
  }

  /** With room left, a candidate is submitted, raises or is skipped on its own merits; without, it is skipped. */
  lemma StepAnswers(w: World, c: Candidate, env: Environment, s: LoopState)
    ensures var (t, raised) := LoopStep(w, c, env, s);
            && (raised.Some? <==> s.submitted < w.loopConfig.maxNewOrders && Raises(w, c, env))
            && (raised.Some? ==> t.decisions == s.decisions && t.submitted == s.submitted && t.store == s.store)
            && (raised.None? ==>
                  && |t.decisions| == |s.decisions| + 1 && t.decisions[..|s.decisions|] == s.decisions
                  && var d := t.decisions[|s.decisions|];
                     && Answers(w, c, env, d)
                     && (d.accepted <==> s.submitted < w.loopConfig.maxNewOrders && Submittable(w, c, env))
                     && (!d.accepted ==> SkippedFor(w, c, s.submitted < w.loopConfig.maxNewOrders, d))
                     && t.submitted == s.submitted + (if d.accepted then 1 else 0)
                     && (if d.accepted then
                           && t.book == s.book[env.clientOrderId := d.route.value.order.value.1]
                           && t.store == Upserted(s.store, env.clientOrderId, d.route.value.order.value.1)
                         else t.book == s.book && t.store == s.store))
  {
    if Sendable(w, c) {
      OrderOpensFor(w, c);
    }
    hide Size, RemainingMargin, HasOpenPosition, OpenPositions, NormalizeOrderIntent, EntryLimitPrice, Upserted;
  }

  /** The decision on candidate i: submitted exactly when selected, and otherwise skipped for a reason. */
  ghost predicate DecidedAs(w: World, candidates: seq<Candidate>, envs: seq<Environment>, i: nat, d: LoopDecision)
    requires i < |candidates| == |envs|
  {
    && Answers(w, candidates[i], envs[i], d)
    && (d.accepted <==> Selected(w, candidates, envs, i))
    && (!d.accepted ==> SkippedFor(w, candidates[i], HasRoom(w, candidates, envs, i), d))
  }

  /** What a run over the first n candidates leaves and raises, read off its inputs. */
  ghost predicate RunAnswered(
    w: World, candidates: seq<Candidate>, envs: seq<Environment>, n: nat, s: LoopState, raised: Option<PipelineError>)
    requires n <= |candidates| == |envs|
  {
    var k := |s.decisions|;
    && k == DecidedCount(w, candidates, envs, n)
    && (raised.Some? <==> k < n)
    && (forall i :: 0 <= i < k ==> DecidedAs(w, candidates, envs, i, s.decisions[i]))
    && s.submitted == AcceptedCount(s.decisions) == SubmittedCount(w, candidates, envs, n)
  }

  lemma RunAnsweredNext(w: World, candidates: seq<Candidate>, envs: seq<Environment>, n: nat, s: LoopState)
    requires n < |candidates| == |envs| && RunAnswered(w, candidates, envs, n, s, None)
    ensures var (t, raised) := LoopStep(w, candidates[n], envs[n], s);
            RunAnswered(w, candidates, envs, n + 1, t, raised)
  {
    hide LoopStep, Answers, Submittable, Raises, AcceptedCount, MinInt, MaxInt, SkippedFor;
    RoomIsCount(SubmittableCount(w, candidates, envs, n), w.loopConfig.maxNewOrders);
    StepAnswers(w, candidates[n], envs[n], s);
    var (t, raised) := LoopStep(w, candidates[n], envs[n], s);
    if raised.None? {
      var d := t.decisions[n];
      assert t.decisions == s.decisions + [d];
      assert DecidedAs(w, candidates, envs, n, d);
      AcceptedCountNext(s.decisions, d);
    }
  }

  /**
    The run decided from its inputs: the candidates submitted are exactly the first submittable ones up to the
    maximum, each answered in order by its own order; the run decides the candidates before the first one that raises
    with room for it, and raises exactly when there is one.
   */
  lemma {:induction false} RunAnswers(
    w: World, candidates: seq<Candidate>, envs: seq<Environment>, book: OrderTable, store: OrderTable, n: nat)
    requires n <= |candidates| == |envs|
    ensures var (s, raised) := LoopRun(w, candidates, envs, Fresh(book, store), n);
            RunAnswered(w, candidates, envs, n, s, raised)
  {
    hide LoopStep, RunAnswered;
    if n > 0 {
      RunAnswers(w, candidates, envs, book, store, n - 1);
      var (before, raised) := LoopRun(w, candidates, envs, Fresh(book, store), n - 1);
      if raised.None? {
        RunAnsweredNext(w, candidates, envs, n - 1, before);
      } else {
        RunAnsweredStays(w, candidates, envs, n - 1, before, raised);
      }
    } else {
      NothingAnswered(w, candidates, envs, Fresh(book, store));
    }
  }

  lemma RunAnsweredStays(
    w: World, candidates: seq<Candidate>, envs: seq<Environment>, n: nat, s: LoopState, raised: Option<PipelineError>)
    requires n < |candidates| == |envs| && RunAnswered(w, candidates, envs, n, s, raised) && raised.Some?
    ensures RunAnswered(w, candidates, envs, n + 1, s, raised)
  {
    hide DecidedAs, AcceptedCount;
  }

  lemma NothingAnswered(w: World, candidates: seq<Candidate>, envs: seq<Environment>, s: LoopState)
    requires |candidates| == |envs| && s.decisions == [] && s.submitted == 0
    ensures RunAnswered(w, candidates, envs, 0, s, None)
  {
  }

  /** Counting submittable candidates or submitted orders leaves the same room under the maximum. */
  lemma RoomIsCount(count: nat, maximum: int)
    ensures MinInt(count, MaxInt(maximum, 0)) < maximum <==> count < maximum
    ensures MinInt(count + 1, MaxInt(maximum, 0)) == MinInt(count, MaxInt(maximum, 0)) + if count < maximum then 1 else 0
  {
  }

  lemma SafeModeStep(w: World, c: Candidate, env: Environment, s: LoopState)
    requires !w.allowsEntries
    ensures var (t, raised) := LoopStep(w, c, env, s);
            && raised.None? && t.submitted == s.submitted && t.book == s.book && t.store == s.store
            && AcceptedCount(t.decisions) == AcceptedCount(s.decisions)
  {
  }

  /** In SAFE_MODE a run submits nothing, raises nothing and leaves the book and the store as they were. */
  lemma {:induction false} SafeModeSubmitsNothing(
    w: World, candidates: seq<Candidate>, envs: seq<Environment>, book: OrderTable, store: OrderTable, n: nat)
    requires n <= |candidates| == |envs| && !w.allowsEntries
    ensures var (s, raised) := LoopRun(w, candidates, envs, Fresh(book, store), n);
            && raised.None? && s.submitted == 0 && s.book == book && s.store == store
            && AcceptedCount(s.decisions) == 0
  {
    hide LoopStep;
    if n > 0 {
      SafeModeSubmitsNothing(w, candidates, envs, book, store, n - 1);
      SafeModeStep(w, candidates[n - 1], envs[n - 1], LoopRun(w, candidates, envs, Fresh(book, store), n - 1).0);
    }
  }

  // ---------------------------------------------------------------- store and exchange

  /** The client order ids are new to both tables and to each other. */
  ghost predicate FreshIds(envs: seq<Environment>, book: OrderTable, store: OrderTable) {
    && (forall i :: 0 <= i < |envs| ==> envs[i].clientOrderId !in book && envs[i].clientOrderId !in store)
    && (forall i, j :: 0 <= i < j < |envs| ==> envs[i].clientOrderId != envs[j].clientOrderId)
  }

  /** Rows beyond the initial tables belong to the first n candidates. */
  ghost predicate OnlyNewIds(envs: seq<Environment>, initial: OrderTable, table: OrderTable, n: nat)
    requires n <= |envs|
  {
    forall id :: id in table && id !in initial ==> exists i :: 0 <= i < n && envs[i].clientOrderId == id
  }

  /** The book holds exactly one order more than the store, submitted under the given id. */
  ghost predicate AheadBy(book: OrderTable, store: OrderTable, id: string) {
    id in book && id !in store && book[id].status == Submitted && book == store[id := book[id]]
  }

  /**
    A run that starts with the store in agreement with the exchange book ends in agreement when it returns.
    When it raises, the store is behind by at most one order: the one whose submission failed after reaching
    the exchange.
   */
  lemma {:induction false} RunKeepsAgreement(
    w: World, candidates: seq<Candidate>, envs: seq<Environment>, table: OrderTable, n: nat)
    requires n <= |candidates| == |envs|
    requires FreshIds(envs, table, table)
    ensures var (s, raised) := LoopRun(w, candidates, envs, Fresh(table, table), n);
            && OnlyNewIds(envs, table, s.store, n)
            && (raised.None? ==> s.book == s.store)
            && (raised.Some? && s.book != s.store ==>
                  && |s.decisions| < n
                  && raised == Some(SubmissionFailed)
                  && AheadBy(s.book, s.store, envs[|s.decisions|].clientOrderId))
  {
    hide LoopStep, DecidedAs, AheadBy, AcceptedCount, SubmittedCount, DecidedCount;
    if n > 0 {
      RunKeepsAgreement(w, candidates, envs, table, n - 1);
      RunAnswers(w, candidates, envs, table, table, n - 1);
      var (before, raised) := LoopRun(w, candidates, envs, Fresh(table, table), n - 1);
      if raised.None? {
        assert envs[n - 1].clientOrderId !in before.store;
        StepAgreement(w, candidates[n - 1], envs[n - 1], before);
      }
    }
  }

  lemma StepAgreement(w: World, c: Candidate, env: Environment, s: LoopState)
    requires s.book == s.store && env.clientOrderId !in s.store
    ensures var (t, raised) := LoopStep(w, c, env, s);
            && t.store.Keys <= s.store.Keys + {env.clientOrderId}
            && (raised.None? ==> t.book == t.store)
            && (raised.Some? ==> t.decisions == s.decisions && t.store == s.store)
            && (raised.Some? && t.book != t.store ==>
                  && raised == Some(SubmissionFailed)
                  && AheadBy(t.book, t.store, env.clientOrderId))
  {
    hide Size, RemainingMargin, HasOpenPosition, OpenPositions, NormalizeOrderIntent, EntryLimitPrice;
    var (t, raised) := LoopStep(w, c, env, s);
    if raised.Some? && t.book != t.store {
      var d := Allocate(w.sizing, c, w.account, w.positions, w.filters[c.symbol]).value;
      var intent := NormalizeOrderIntent(AllocationToIntent(c, d, w.loopConfig.limitPriceOffsetBps), w.filters[c.symbol]);
      assert t.book == t.store[env.clientOrderId := SubmittedRow(intent.value)];
    }
  }
}
