/** From market data to the submitted order: what the stages guarantee together. */
module Pipeline {
  import opened Prelude
  import opened Market
  import opened Models
  import opened Allocator
  import opened EntryIntent
  import opened CandidateBuilder

  /**
    A candidate built from well-formed bars and accepted by the allocator is submitted with the allocated
    quantity, or raises only because a LONG's lowered limit price fell under the exchange minimum. Submitted, a
    LONG keeps both the allowed margin and the risk budget at its limit price. A SHORT keeps the allowed margin up to
    the offset and the risk budget up to one tick on its quantity, or outright when a tick lies between its entry and
    its offset limit. For either side the budget is kept exactly when no step multiple is over it, and the limit is on
    the right side of the stop exactly when a tick clears it.
   */
  lemma BuiltOrderKeepsCaps(
    m: MarketData, builder: BuilderConfig, setupId: string, r: BuildResult,
    cfg: AllocatorConfig, account: AccountSnapshot, positions: seq<PositionSnapshot>, filters: SymbolFilters,
    d: Decision, offsetBps: real)
    requires ValidConfig(builder) && builder.entryOffsetBps < 10000.0
    requires WellFormedBars(m.fourHour) && WellFormedBars(m.oneHour)
    requires BuildCandidate(m, builder, setupId) == Success(r) && r.candidate.Some?
    requires cfg.maxLeverage > 0.0 && offsetBps >= 0.0
    requires Allocate(cfg, r.candidate.value, account, positions, filters) == Success(d) && d.accepted
    ensures filters.tickSize > 0.0 && r.candidate.value.entryPrice > 0.0 && r.candidate.value.StopDistance() > 0.0
    ensures var c := r.candidate.value;
            var limit := LimitOnTick(c, offsetBps, filters);
            var allowed := AllowedMargin(cfg, account, OpenPositions(positions));
            var risk := Notional(d.quantity, RiskAtLimit(c, limit));
            var sent := SubmittedIntent(c, d, offsetBps, filters);
            && (sent.Failure? ==> c.side == Long && sent.error == BelowMinNotionalFilter)
            && (sent.Success? ==> sent.value.quantity == d.quantity && sent.value.price == Some(limit))
            && (risk > 0.0 <==> TickClearsStop(c, offsetBps, filters))
            && (risk <= RiskBudget(cfg, account) <==> !StepOverBudget(cfg, c, account, positions, filters, limit))
            && (c.side == Long ==>
                  && MarginAtLimit(cfg, d, limit) <= allowed
                  && risk <= RiskBudget(cfg, account))
            && (c.side == Short ==>
                  && MarginAtLimit(cfg, d, limit) <= Scaled(allowed, 1.0 + Offset(offsetBps))
                  && risk < RiskBudget(cfg, account) + Notional(d.quantity, filters.tickSize)
                  && (TickFits(c, offsetBps, filters) ==> risk <= RiskBudget(cfg, account)))
  {
    hide BuildCandidate, Allocate, SubmittedIntent, LimitOnTick, MarginAtLimit, AllowedMargin, RiskBudget, Scaled,
         Notional, TickFits, TickClearsStop, StepOverBudget;
    var c := r.candidate.value;
    CandidateIsUsable(m, builder, setupId, r);
    CandidateEntryPositive(m, builder, setupId, r);
    NormalisationKeepsQuantity(cfg, c, account, positions, filters, d, offsetBps);
    MarginSurvives(cfg, c, account, positions, filters, d, offsetBps);
    RiskSurvives(cfg, c, account, positions, filters, d, offsetBps);
    if c.side == Short {
      ShortAlwaysPasses(cfg, c, account, positions, filters, d, offsetBps);
    }
  }
}
