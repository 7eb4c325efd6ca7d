/** The auto loop: allocate, size and route a batch of candidates against one account snapshot. */
module AutoLoop {
  import opened Prelude
  import opened Models
  import opened Allocator
  import opened EntryIntent
  import opened OrderStorage
  import opened SafeMode
  import opened Routing

  datatype LoopConfig = LoopConfig(maxNewOrders: int, requireAck: bool, limitPriceOffsetBps: real)

  const DEFAULT_LOOP_CONFIG := LoopConfig(1, false, 5.0)

  datatype LoopDecision = LoopDecision(
    symbol: string, accepted: bool, allocation: Decision, route: Option<RouteResult>, reason: Reason)

  datatype RunResult = RunResult(decisions: seq<LoopDecision>, submitted: nat, safeModeActive: bool)

  /** Everything a run reads once at its start. */
  datatype World = World(
    sizing: AllocatorConfig,
    loopConfig: LoopConfig,
    allowsEntries: bool,
    account: AccountSnapshot,
    positions: seq<PositionSnapshot>,
    filters: map<string, SymbolFilters>)

  /** What the candidate loop changes. */
  datatype LoopState = LoopState(decisions: seq<LoopDecision>, submitted: nat, book: OrderTable, store: OrderTable)

  function Skip(sizing: AllocatorConfig, c: Candidate, reason: Reason): LoopDecision {
    LoopDecision(c.symbol, false, Reject(sizing, c, reason), None, reason)
  }

  function Decided(s: LoopState, d: LoopDecision): LoopState {
    s.(decisions := s.decisions + [d])
  }

  /** One candidate: the new state, and the exception that ends the run if one is raised. */
  function LoopStep(w: World, c: Candidate, env: Environment, s: LoopState): (LoopState, Option<PipelineError>) {
    if s.submitted >= w.loopConfig.maxNewOrders then (Decided(s, Skip(w.sizing, c, MaxNewOrdersPerRunReached)), None)
    else if !w.allowsEntries then (Decided(s, Skip(w.sizing, c, SafeModeBlocksNewEntries)), None)
    else if c.symbol !in w.filters then (s, Some(UnknownSymbol))
    else
      var allocation := Allocate(w.sizing, c, w.account, w.positions, w.filters[c.symbol]);
      if allocation.Failure? then (s, Some(allocation.error))
      else if !allocation.value.accepted then
        (Decided(s, LoopDecision(c.symbol, false, allocation.value, None, allocation.value.reason)), None)
      else
        var intent := AllocationToIntent(c, allocation.value, w.loopConfig.limitPriceOffsetBps);
        var effect := Routed(ExchangeTestnet, w.allowsEntries, intent, w.filters, env, s.book, s.store);
        if effect.result.Failure? then (s.(book := effect.book, store := effect.store), Some(effect.result.error))
        else
          var route := effect.result.value;
          (LoopState(
             s.decisions + [LoopDecision(c.symbol, route.accepted, allocation.value, Some(route), route.reason)],
             s.submitted + if route.accepted then 1 else 0,
             effect.book,
             effect.store),
           None)
  }

  /** The state after the first n candidates; a raised exception ends the run where it is. */
  function LoopRun(w: World, candidates: seq<Candidate>, envs: seq<Environment>, s: LoopState, n: nat)
    : (LoopState, Option<PipelineError>)
    requires n <= |candidates| == |envs|
  {
    if n == 0 then (s, None)
    else
      var (before, raised) := LoopRun(w, candidates, envs, s, n - 1);
      if raised.Some? then (before, raised) else LoopStep(w, candidates[n - 1], envs[n - 1], before)
  }

  function AckDecisions(sizing: AllocatorConfig, candidates: seq<Candidate>): (r: seq<LoopDecision>)
    ensures |r| == |candidates|
    ensures forall i :: 0 <= i < |r| ==> !r[i].accepted && r[i].reason == AckRequired && r[i].symbol == candidates[i].symbol
  {
    seq(|candidates|, i requires 0 <= i < |candidates| =>
      LoopDecision(candidates[i].symbol, false, Reject(sizing, candidates[i], AckRequired), None, AckRequired))
  }

  class SleeveBAutoLoop {
    const exchange: LoopExchange
    const orderStore: OrderStore
    const safeMode: SafeModeController
    const sizing: AllocatorConfig
    const config: LoopConfig

    constructor (
      exchange: LoopExchange, orderStore: OrderStore, safeMode: SafeModeController, sizing: AllocatorConfig,
      config: LoopConfig)
      ensures this.exchange == exchange && this.orderStore == orderStore && this.safeMode == safeMode
      ensures this.sizing == sizing && this.config == config
    {
      this.exchange, this.orderStore, this.safeMode := exchange, orderStore, safeMode;
      this.sizing, this.config := sizing, config;
    }

    function CurrentWorld(): World
      reads exchange, safeMode
    {
      World(sizing, config, safeMode.AllowsNewEntries(), exchange.account, exchange.positions, exchange.filters)
    }

    function CurrentState(): LoopState
      reads exchange, orderStore
    {
      LoopState([], 0, exchange.book, orderStore.orders)
    }

    /** The loop body: one candidate against the snapshot taken at the start of the run. */
    method Consider(
      router: PersistentOrderRouter, account: AccountSnapshot, positions: seq<PositionSnapshot>,
      c: Candidate, env: Environment, decisions: seq<LoopDecision>, submitted: nat)
      returns (decisionsAfter: seq<LoopDecision>, submittedAfter: nat, raised: Option<PipelineError>)
      requires router.router.mode == ExchangeTestnet && router.router.exchange == exchange
      requires router.router.safeMode == safeMode && router.store == orderStore
      modifies exchange`book, orderStore
      ensures (LoopState(decisionsAfter, submittedAfter, exchange.book, orderStore.orders), raised)
           == LoopStep(World(sizing, config, safeMode.AllowsNewEntries(), account, positions, exchange.filters), c, env,
                       LoopState(decisions, submitted, old(exchange.book), old(orderStore.orders)))
    {
      hide Allocate, Routed, AllocationToIntent, Reject;
      decisionsAfter, submittedAfter, raised := decisions, submitted, None;
      if submitted >= config.maxNewOrders {
        decisionsAfter := decisions + [Skip(sizing, c, MaxNewOrdersPerRunReached)];
        return;
      }
      if !safeMode.AllowsNewEntries() {
        decisionsAfter := decisions + [Skip(sizing, c, SafeModeBlocksNewEntries)];
        return;
      }
      if c.symbol !in exchange.filters {
        raised := Some(UnknownSymbol);
        return;
      }
      var allocation := Allocate(sizing, c, account, positions, exchange.filters[c.symbol]);
      if allocation.Failure? {
        raised := Some(allocation.error);
        return;
      }
      if !allocation.value.accepted {
        decisionsAfter := decisions + [LoopDecision(c.symbol, false, allocation.value, None, allocation.value.reason)];
        return;
      }
      var route := router.Route(AllocationToIntent(c, allocation.value, config.limitPriceOffsetBps), env);
      if route.Failure? {
        raised := Some(route.error);
        return;
      }
      if route.value.accepted {
        submittedAfter := submitted + 1;
      }
      decisionsAfter := decisions
        + [LoopDecision(c.symbol, route.value.accepted, allocation.value, Some(route.value), route.value.reason)];
    }

    method RunOnce(candidates: seq<Candidate>, envs: seq<Environment>) returns (r: Result<RunResult, PipelineError>)
      requires |envs| == |candidates|
      modifies exchange`book, orderStore
      ensures !config.requireAck ==>
                && r == Success(RunResult(AckDecisions(sizing, candidates), 0, !safeMode.AllowsNewEntries()))
                && exchange.book == old(exchange.book) && orderStore.orders == old(orderStore.orders)
      ensures config.requireAck ==>
                var (s, raised) := LoopRun(old(CurrentWorld()), candidates, envs, old(CurrentState()), |candidates|);
                && exchange.book == s.book && orderStore.orders == s.store
                && r == if raised.Some? then Failure(raised.value)
                        else Success(RunResult(s.decisions, s.submitted, !safeMode.AllowsNewEntries()))
    {
      hide LoopStep;
      if !config.requireAck {
        return Success(RunResult(AckDecisions(sizing, candidates), 0, !safeMode.AllowsNewEntries()));
      }
      var account, positions := exchange.account, exchange.positions;
      var orderRouter := new OrderRouter(ExchangeTestnet, exchange, safeMode);
      var router := new PersistentOrderRouter(orderRouter, orderStore);
      var decisions: seq<LoopDecision> := [];
      var submitted := 0;
      ghost var w, start := CurrentWorld(), CurrentState();
      for n := 0 to |candidates|
        invariant CurrentWorld() == w
        invariant LoopRun(w, candidates, envs, start, n)
               == (LoopState(decisions, submitted, exchange.book, orderStore.orders), None)
      {
        var raised;
        decisions, submitted, raised := Consider(router, account, positions, candidates[n], envs[n], decisions, submitted);
        if raised.Some? {
          RaiseEndsRun(w, candidates, envs, start, n + 1);
          return Failure(raised.value);
        }
      }
      r := Success(RunResult(decisions, submitted, !safeMode.AllowsNewEntries()));
    }
  }

  lemma {:induction false} RaiseEndsRun(
    w: World, candidates: seq<Candidate>, envs: seq<Environment>, s: LoopState, n: nat)
    requires n <= |candidates| == |envs|
    requires LoopRun(w, candidates, envs, s, n).1.Some?
    ensures LoopRun(w, candidates, envs, s, |candidates|) == LoopRun(w, candidates, envs, s, n)
    decreases |candidates| - n
  {
    if n < |candidates| {
      hide LoopStep;
      RaiseEndsRun(w, candidates, envs, s, n + 1);
    }
  }
}
