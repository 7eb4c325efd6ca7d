# Dual-sleeve trading system: a verified model

This project models the Sleeve B part of the trading system and proves properties of it:

- **the replay engine** (`Market`, `SleeveB`, `SleeveBReplay`): indicators, the simulated trade with its
  take-profit ladder and moving stop, the scan over 4H bars and the run summary;
- **the sizing pipeline** (`CandidateBuilder`, `Allocator`, `Filters`, `EntryIntent`, `Routing`, `AutoLoop`,
  `Pipeline`, `Portfolio`): from market data to a submitted order;
- **order and position state** (`Orders`, `OrderStorage`, `SafeMode`, `Repair`, `Reconciliation`, `Positions`,
  `Daemon`, `Operations`): the stores, the order state machine, repair, reconciliation, SAFE_MODE and the daemon.

Code that works by changing things is a class or a method with loops, proved equal to a specification function or
against its property directly; the lemmas are about those functions. `TradeLadder`, `TradeTheorems`, `TradeNumbers`,
`ReplayTheorems`, `ReplayMirror`, `ReplaySummary`, `AutoLoopTheorems` and `Portfolio` hold the theorems, `ReplayExamples`
and `PortfolioExamples` concrete inputs.

Verify everything with `dafny verify dfyconfig.toml` (Dafny 4.11).

## Conventions

- `Decimal` is exact `real` arithmetic. Products are wrapped in small named functions and `hide` keeps their
  definitions out of structural proofs; both are only there to keep the proofs fast.
- Timestamps are integers: the source only compares them.
- An exception is a `Failure` or a `raised` value; the state after a raising call is part of the contract.
- The exchange is an environment: its replies, raised errors and the client order ids of new orders are parameters.
  Its open list is exactly its non-terminal orders.

## Where the code does less than its documentation suggests

- The auto-loop documentation promises one position per symbol, a maximum of concurrent positions, a portfolio margin
  cap and a per-position margin cap. The account and positions are read once per run and a SHORT is sized below the limit
  it is submitted at. `RunKeepsCapsIff` says exactly when each of the four survives the fills. With one order per run
  the position cap and one position per symbol always do (`SingleOrderRunKeepsCaps`), and both margin caps do for a LONG.
  For a SHORT both can fail: the per-position cap already from an empty portfolio (`OneShortBreaksPositionCap`), the
  portfolio cap when little margin is left (`OneShortBreaksMarginCap`). With two orders the portfolio cap, the position
  cap and one position per symbol can fail for LONG as well (`TwoOrdersBreakCaps`,
  `RepeatedCandidateBreaksOnePerSymbol`).
- "After TP1, stop moves to breakeven" does not make a trade that hit TP1 safe: the new stop is not checked on the bar
  that booked TP1 (`Tp1ThenLossExample`, and `LossAfterTp1Iff` for exactly when).
- `apply_fill` writes the fill before the transition is checked (`DriftsExactly`, `NeverDriftsIff`).
- A LONG allocation is checked against the minimum notional before its limit price is lowered, so normalisation can
  still raise and end the run (`LongCanFailFilters`, `NormalisationKeepsQuantity`).
- A SHORT limit is rounded down to the tick after being raised, so it can end below the entry it was sized at and risk
  more than its budget (`ShortCanExceedRiskBudget`; `RiskBudgetIff` for exactly when, `RiskSurvives` for how much).
- Nothing compares the offset limit with the stop, so an order can be submitted past its own stop (`LongCanOpenPastStop`,
  `LimitClearsStopIff` for exactly when).

## Model

| member | source | states |
|---|---|---|
| TradeTheorems.SimulateIsFirstExit | src/dual_sleeve_trader/strategies/sleeve_b_replay.py:125-223 | every trade ends at the first bar, told from the bars alone, that hits the stop in force, completes the ladder or reaches the time stop, or else at the last bar; its whole record is the closed form for that bar |
| TradeTheorems.HeldIsExitOffset | src/dual_sleeve_trader/strategies/sleeve_b_replay.py:166-206 | bars_held is the offset of the first exiting bar, or of the last bar, computed from the plan and the bars before any simulation |
| TradeLadder.WalkIsFirstExit | src/dual_sleeve_trader/strategies/sleeve_b_replay.py:166-206 | the nested loops refine the hit-count form: from any still-open point they stop at the first exiting bar in the state that count determines |
| TradeLadder.StepFollowsLadder | src/dual_sleeve_trader/strategies/sleeve_b_replay.py:166-198 | after any bar the hits are a prefix of TP1, TP2, TP3, the remaining fraction is one minus the fractions of those hits, and the stop is the entry exactly when the prefix is not empty |
| TradeTheorems.PnlClosedForm | src/dual_sleeve_trader/strategies/sleeve_b_replay.py:157-206 | ladder conservation: realized PnL is the booked profit of the hit prefix plus the rest closed at the exit price, the fractions of the legs totalling one, for every exit kind |
| TradeTheorems.GrossRBounds | src/dual_sleeve_trader/strategies/sleeve_b_replay.py:139-220 | on well-formed bars -1 <= gross_r <= sum of fraction times multiple over the ladder, whichever exit is taken and whether or not the leverage cap bound the size |
| TradeTheorems.PnlBounds | src/dual_sleeve_trader/strategies/sleeve_b_replay.py:139-206 | the same bound on realized PnL in units of unit_r |
| TradeTheorems.SizingCaps | src/dual_sleeve_trader/strategies/sleeve_b_replay.py:154-156 | the entry size is positive, risks at most unit_r at the initial stop and stays within equity times leverage, and one of the two is met exactly: the size is as large as the caps allow |
| TradeNumbers.EntryAndStop | src/dual_sleeve_trader/strategies/sleeve_b_replay.py:130-151 | the trade enters at the close of its entry bar, with its stop exactly ATR times the multiple away on the losing side |
| TradeNumbers.SimulationRaises | src/dual_sleeve_trader/strategies/sleeve_b_replay.py:130-156 | exactly which entries are simulated, and which error each of the others raises |
| TradeNumbers.PnlInPrices | src/dual_sleeve_trader/strategies/sleeve_b_replay.py:139-206 | the realized PnL written out in the configuration's fractions and multiples, the stop gap and the exit gain, for each number of targets hit |
| TradeNumbers.GrossRIsPnl | src/dual_sleeve_trader/strategies/sleeve_b_replay.py:208-223 | gross_r times unit_r is the realized PnL |
| TradeNumbers.FullStopIsOneR | src/dual_sleeve_trader/strategies/sleeve_b_replay.py:154-175 | a STOP_LOSS of a trade below the leverage cap is exactly -1 R |
| TradeNumbers.StopLossIff | src/dual_sleeve_trader/strategies/sleeve_b_replay.py:166-198 | a trade ends by STOP_LOSS on a bar exactly when that bar is the first to touch the initial stop and none before it touched TP1 or reached the time stop; on a bar that touches both the stop comes first |
| TradeNumbers.StopHitIsTouch | src/dual_sleeve_trader/strategies/sleeve_b_replay.py:253-256 | a stop is hit exactly when some price between low and high is at the stop or worse |
| TradeNumbers.TargetHitIsTouch | src/dual_sleeve_trader/strategies/sleeve_b_replay.py:247-250 | a target is hit exactly when some price between low and high is at the target or better |
| TradeTheorems.StopLossIsFullLoss | src/dual_sleeve_trader/strategies/sleeve_b_replay.py:170-175 | STOP_LOSS implies no target hit and exactly minus stop distance times quantity; BREAKEVEN_STOP implies a target was hit, exit at the entry price and PnL exactly what was booked |
| TradeTheorems.BreakevenGuarantee | src/dual_sleeve_trader/strategies/sleeve_b_replay.py:170-198 | if TP1 was touched on a bar strictly before the exit bar, PnL is at least the TP1 leg for every exit kind |
| TradeTheorems.LossAfterTp1Iff | src/dual_sleeve_trader/strategies/sleeve_b_replay.py:166-206 | told from the plan and the bars alone: a trade hits TP1 and loses exactly when on the first exiting bar no earlier bar had reached TP1, the initial stop is not hit, some targets are reached, and those targets with the rest at that close come to less than nothing |
| ReplayExamples.Tp1ThenLossExample | src/dual_sleeve_trader/strategies/sleeve_b_replay.py:100-206 | a concrete replay, through the scan, whose only trade hits TP1 and loses |
| TradeTheorems.BarsHeldBound | src/dual_sleeve_trader/strategies/sleeve_b_replay.py:193-198 | bars_held never exceeds max(time_stop_bars, 1) |
| TradeTheorems.TradeRecordsItsBars | src/dual_sleeve_trader/strategies/sleeve_b_replay.py:208-223 | entry and exit times are those of the entry and exit bars, a TIME_STOP or END_OF_DATA exit is at that bar's close, and each of the two fixes how long the trade was held |
| SleeveBReplay.BookAll | src/dual_sleeve_trader/strategies/sleeve_b_replay.py:177-188 | the target loop of one bar equals the fold over the ladder in order |
| SleeveBReplay.WalkBars | src/dual_sleeve_trader/strategies/sleeve_b_replay.py:166-206 | the bar loop with its breaks and the END_OF_DATA close equals the walk specification |
| SleeveBReplay.SimulateTrade | src/dual_sleeve_trader/strategies/sleeve_b_replay.py:125-223 | the whole simulation, including the ATR, stop-distance and division errors it raises |
| SleeveBReplay.RunReplay | src/dual_sleeve_trader/strategies/sleeve_b_replay.py:92-122 | for every configuration the scan loop terminates and returns exactly the scan specification's trades with their summary, or the first error a signal or a trade raises; that includes lookbacks of zero and below and a start at a negative index |
| ReplayTheorems.ScanIsGreedy | src/dual_sleeve_trader/strategies/sleeve_b_replay.py:100-120 | the trades are a greedy schedule: each entry is the first signalling index at or after the previous trade's exit bar (one bar later when it held none) and nothing signals after the last |
| ReplayTheorems.EntersIff | src/dual_sleeve_trader/strategies/sleeve_b_replay.py:100-120 | a greedy schedule enters at exactly the signalling bars from its start on across which no trade is open; the exit bar of one trade can be the entry bar of the next |
| ReplayTheorems.SideInPrices | src/dual_sleeve_trader/strategies/sleeve_b_replay.py:102-113 | the signal at a bar, in prices: its close beyond every high or low of the lookback bars before it, in the regime of the daily closes stamped so far |
| ReplayTheorems.ReplayEntersIff | src/dual_sleeve_trader/strategies/sleeve_b_replay.py:92-120 | the whole replay in its inputs: it enters at exactly the bars past the lookback and the ATR period where it is flat and the close breaks the channel with the trend |
| ReplayTheorems.GreedyIsUnique | src/dual_sleeve_trader/strategies/sleeve_b_replay.py:100-120 | there is only one greedy schedule, so that description determines the replay |
| ReplayTheorems.HoldingsDisjoint | src/dual_sleeve_trader/strategies/sleeve_b_replay.py:118-120 | holding intervals of different trades never overlap |
| ReplayTheorems.ScanSucceeds | src/dual_sleeve_trader/strategies/sleeve_b_replay.py:100-122 | on well-formed bars and a valid configuration the replay never raises |
| ReplayTheorems.SignalledTradeSucceeds | src/dual_sleeve_trader/strategies/sleeve_b_replay.py:130-137 | every signalled entry has a positive stop distance, so its simulation returns |
| ReplayTheorems.ScanPrefix | src/dual_sleeve_trader/strategies/sleeve_b_replay.py:92-227 | no look-ahead, for every configuration: appending any 4H bars keeps every trade before the first END_OF_DATA trade identical, and that trade keeps everything fixed at its entry |
| ReplayTheorems.SimulatePrefix | src/dual_sleeve_trader/strategies/sleeve_b_replay.py:125-223 | a trade that did not end for lack of data is the same on every longer bar list |
| ReplayTheorems.LaterDailyBarsNeverMatter | src/dual_sleeve_trader/strategies/sleeve_b_replay.py:226-227 | daily bars stamped later than every 4H bar change nothing in the replay |
| ReplayTheorems.DailyClosesArePrefix | src/dual_sleeve_trader/strategies/sleeve_b_replay.py:226-227 | a 4H bar sees exactly the daily closes stamped at or before it |
| ReplayTheorems.AtMostOneTradeAfterEndOfData | src/dual_sleeve_trader/strategies/sleeve_b_replay.py:118-120 | after an END_OF_DATA trade at most one more follows, on the last bar, holding no bars and making no PnL |
| ReplayTheorems.ZeroLookbackNeverTrades | src/dual_sleeve_trader/strategies/sleeve_b.py:42-59 | with a lookback of zero the replay raises exactly when some scanned bar is in a BULL or BEAR regime and otherwise returns no trades |
| ReplayTheorems.NegativePeriodNeverTrades | src/dual_sleeve_trader/strategies/sleeve_b_replay.py:130-137 | with a negative ATR period a replay that returns has no trades, wherever it starts |
| SleeveBReplay.SeenFromEndCounts | src/dual_sleeve_trader/strategies/sleeve_b_replay.py:106-113 | the prefix seen at an index counted from the end: one bar more each time, none at the last |
| ReplayMirror.SimulateMirrorAtEntry | src/dual_sleeve_trader/strategies/sleeve_b_replay.py:125-262 | reflecting every price about the entry and flipping the side gives the same trade, quantity, PnL, gross R, bars held, hits and reason, with stop and exit reflected |
| ReplayMirror.SimulateMirror | src/dual_sleeve_trader/strategies/sleeve_b_replay.py:125-262 | the same about any level, except for the leverage-capped size |
| ReplayMirror.ScanMirror | src/dual_sleeve_trader/strategies/sleeve_b_replay.py:92-122 | reflecting both timeframes mirrors the whole replay: same entries, exits, reasons and targets on the other side |
| SleeveBReplay.MaxDrawdown | src/dual_sleeve_trader/strategies/sleeve_b_replay.py:272-276 | the one-pass peak loop returns the minimum of E[j] - E[i] over all i <= j of the curve starting at zero |
| SleeveBReplay.Summarize | src/dual_sleeve_trader/strategies/sleeve_b_replay.py:265-286 | totals, wins, losses with wins + losses = trades, and the maximum drawdown of the equity curve |
| ReplaySummary.TotalPnlIsTotalR | src/dual_sleeve_trader/strategies/sleeve_b_replay.py:283-284 | total_pnl is unit_r times total_r |
| ReplaySummary.DrawdownWithinLosses | src/dual_sleeve_trader/strategies/sleeve_b_replay.py:272-276 | max_drawdown is at least -unit_r per losing trade |
| ReplaySummary.ReplaySummaryBounds | src/dual_sleeve_trader/strategies/sleeve_b_replay.py:92-122 | both hold for every replay of well-formed bars |
| ReplaySummary.SummaryAddsUp | src/dual_sleeve_trader/strategies/sleeve_b_replay.py:265-286 | total_pnl and total_r are the sums over the trades, wins the number of trades with positive PnL, losses all others, the equity curve the partial sums |
| Market.ComputeAtr | src/dual_sleeve_trader/strategies/sleeve_b_replay.py:230-244 | the ATR loop, including both ways it fails |
| Market.TrueRangeIsExtent | src/dual_sleeve_trader/strategies/sleeve_b_replay.py:234-243 | a true range is the height of the bar stretched to the previous close |
| Market.AtrIsMean | src/dual_sleeve_trader/strategies/sleeve_b_replay.py:230-244 | the ATR is the plain mean of the last period true ranges, and fails exactly on too few bars or a period of zero |
| Market.AtrPositiveOnMove | src/dual_sleeve_trader/strategies/sleeve_b_replay.py:230-244 | a last close different from the previous close makes the ATR positive |
| Market.AtrReflect | src/dual_sleeve_trader/strategies/sleeve_b_replay.py:230-244 | ATR is unchanged by reflecting prices |
| SleeveB.Ema | src/dual_sleeve_trader/strategies/sleeve_b.py:17-26 | the loop returns the moving average at every index, and rejects a non-positive period |
| SleeveB.EmaIsWeightedSum | src/dual_sleeve_trader/strategies/sleeve_b.py:17-26 | each average is the sum of the values so far with explicit geometric weights |
| SleeveB.EmaWithinRange | src/dual_sleeve_trader/strategies/sleeve_b.py:17-26 | every average lies between any bounds of the values seen so far |
| SleeveB.RisingSeparatesAverages | src/dual_sleeve_trader/strategies/sleeve_b.py:17-26 | on a strictly rising series the faster average is strictly above the slower and below the last value |
| SleeveB.EmaReflect | src/dual_sleeve_trader/strategies/sleeve_b.py:17-26 | reflecting the series reflects every average |
| SleeveB.RegimeIff | src/dual_sleeve_trader/strategies/sleeve_b.py:29-39 | any series: under 200 closes INSUFFICIENT_DATA, BULL exactly when last > 50-day > 200-day average, BEAR exactly when last < 50-day < 200-day, the averages written as weighted sums with factors 2/51 and 2/201 |
| SleeveB.ComputeRegime | src/dual_sleeve_trader/strategies/sleeve_b.py:29-39 | the method over the two averages returns exactly that regime |
| SleeveB.ReboundIsNotTrend | src/dual_sleeve_trader/strategies/sleeve_b.py:29-39 | a last close that does not clear the slow average of the closes before it is never BULL, and the mirror image never BEAR |
| ReplayExamples.ReboundIsChop | src/dual_sleeve_trader/strategies/sleeve_b.py:29-39 | a concrete rebound above the fast average that is CHOP because the averages are in bear order |
| SleeveB.RisingIsBull | src/dual_sleeve_trader/strategies/sleeve_b.py:29-39 | every strictly rising series of at least 200 closes is BULL |
| SleeveB.FallingIsBear | src/dual_sleeve_trader/strategies/sleeve_b.py:29-39 | every strictly falling series of at least 200 closes is BEAR |
| SleeveB.RegimeReflect | src/dual_sleeve_trader/strategies/sleeve_b.py:29-39 | reflecting prices swaps BULL and BEAR and keeps the other regimes |
| SleeveB.DonchianIsChannelBreak | src/dual_sleeve_trader/strategies/sleeve_b.py:42-59 | a signal is a close beyond the highest high or lowest low of exactly the lookback bars before it, in the matching regime |
| SleeveB.DonchianReasons | src/dual_sleeve_trader/strategies/sleeve_b.py:42-59 | the reason of every answer: regime first, then too few bars, then the channel |
| SleeveB.WrappedIsChannelBreak | src/dual_sleeve_trader/strategies/sleeve_b.py:55-58 | with a negative lookback the channel is the slice the source then takes |
| SleeveB.DonchianReflect | src/dual_sleeve_trader/strategies/sleeve_b.py:42-59 | reflecting prices and regime flips the signal |
| SleeveB.SignalImpliesPositiveAtr | src/dual_sleeve_trader/strategies/sleeve_b.py:55-58 | any Donchian signal on well-formed bars forces a positive ATR |
| CandidateBuilder.BuilderNeverRaises | src/dual_sleeve_trader/strategies/sleeve_b_candidate_builder.py:38-86 | the length checks make every later computation defined |
| CandidateBuilder.BuildsExactlyWhen | src/dual_sleeve_trader/strategies/sleeve_b_candidate_builder.py:38-86 | exactly when a candidate is built, on which side, and which answer each other input gets |
| CandidateBuilder.CandidateInPrices | src/dual_sleeve_trader/strategies/sleeve_b_candidate_builder.py:70-86 | the candidate's entry, the better of the 4H close and the offset one-hour close, and its stop, exactly ATR times the multiple away |
| CandidateBuilder.OneHourTimingIff | src/dual_sleeve_trader/strategies/sleeve_b_candidate_builder.py:96-116 | each one-hour answer exactly: extension from the weighted average, a reversal body of at least seven tenths of the range, and the ATR limit, in that order |
| CandidateBuilder.CandidateIsUsable | src/dual_sleeve_trader/strategies/sleeve_b_candidate_builder.py:70-86 | a built candidate has its stop strictly on the losing side of an entry no worse than the 4H close |
| CandidateBuilder.CandidateEntryPositive | src/dual_sleeve_trader/strategies/sleeve_b_candidate_builder.py:119-131 | its entry price is positive for offsets under 100% |
| CandidateBuilder.BuiltCandidateHasValidStop | src/dual_sleeve_trader/execution/sleeve_b_allocator.py:66-67 | the allocator never answers INVALID_STOP_DISTANCE to a built candidate |
| Filters.FloorIsLargest | src/dual_sleeve_trader/exchange/filters.py:12-15 | for non-negative values the result is the largest grid point not above the value |
| Filters.FloorOfNegative | src/dual_sleeve_trader/exchange/filters.py:12-15 | negative values are truncated towards zero |
| Filters.FloorOfGridPoint | src/dual_sleeve_trader/exchange/filters.py:12-15 | a value on the grid is unchanged |
| Filters.FloorMonotone | src/dual_sleeve_trader/exchange/filters.py:12-15 | flooring keeps the order of non-negative values |
| Filters.QuantizeRoundsDown | src/dual_sleeve_trader/execution/sleeve_b_allocator.py:144-145 | USDT amounts are rounded down |
| Filters.QuantizeIsCents | src/dual_sleeve_trader/execution/sleeve_b_allocator.py:144-145 | the amount is the multiple of 0.01 less than a cent below |
| Filters.NormalisationOutcome | src/dual_sleeve_trader/exchange/filters.py:22-46 | normalising any order: exactly when it succeeds, what it changes and which error it raises |
| Allocator.SumInitialMargin | src/dual_sleeve_trader/execution/sleeve_b_allocator.py:134-141 | the loop sums notional over leverage with the mark-price fallback, or raises on a zero leverage with any position |
| Allocator.UsedMarginIsSum | src/dual_sleeve_trader/execution/sleeve_b_allocator.py:134-141 | the margin in use is the total notional over the leverage |
| Allocator.PositionNotionalCases | src/dual_sleeve_trader/execution/sleeve_b_allocator.py:136-139 | what a position is worth with and without a reported notional and a mark price |
| Allocator.OpenPositionsAreNonFlat | src/dual_sleeve_trader/execution/sleeve_b_allocator.py:71-73 | the open positions are the non-flat ones, each as often as listed |
| Allocator.AllocatorCaps | src/dual_sleeve_trader/execution/sleeve_b_allocator.py:62-113 | an accepted decision keeps the risk budget, the per-position cap, the portfolio cap, the position-count and one-per-symbol gates, on the unrounded margin, and meets the minimum notional |
| Allocator.DecisionInNumbers | src/dual_sleeve_trader/execution/sleeve_b_allocator.py:75-113 | an accepted decision in the account's numbers: symbol, side and leverage, the three caps written out as products, and reported amounts less than a cent below the exact ones |
| Allocator.QuantityInNumbers | src/dual_sleeve_trader/execution/sleeve_b_allocator.py:75-85 | the quantity is the largest step multiple within the three written-out caps |
| Allocator.RejectionNamesFirstGate | src/dual_sleeve_trader/execution/sleeve_b_allocator.py:62-96 | each rejection reason exactly: it names the first gate that fails, in order |
| Allocator.LargestQuantity | src/dual_sleeve_trader/execution/sleeve_b_allocator.py:83-89 | the quantity is the largest step multiple meeting both the risk and the notional cap |
| Allocator.SizeAcceptsIff | src/dual_sleeve_trader/execution/sleeve_b_allocator.py:83-100 | sizing accepts exactly when some positive step multiple meets both caps and the minimum notional |
| Allocator.AllocateAcceptsIff | src/dual_sleeve_trader/execution/sleeve_b_allocator.py:56-113 | the allocator accepts exactly when every gate passes, some portfolio margin is left and some positive step multiple meets both caps and the minimum notional |
| Allocator.MarginExceedsUnreachable | src/dual_sleeve_trader/execution/sleeve_b_allocator.py:98-100 | MARGIN_EXCEEDS_ALLOWED_CAP is unreachable for positive entry price and leverage |
| Allocator.BalanceMonotone | src/dual_sleeve_trader/execution/sleeve_b_allocator.py:62-113 | raising the available balance keeps an accepted candidate accepted with a quantity no smaller |
| EntryIntent.NormalisationKeepsQuantity | src/dual_sleeve_trader/exchange/filters.py:22-46 | normalisation keeps the allocated quantity and fails exactly when quantity times the rounded limit price is under the minimum |
| EntryIntent.LimitInPrices | src/dual_sleeve_trader/execution/sleeve_b_testnet_loop.py:162-166 | the submitted limit is a tick multiple less than one tick below entry times (1 - bps/10000) for a LONG, (1 + bps/10000) for a SHORT |
| EntryIntent.ShortAlwaysPasses | src/dual_sleeve_trader/execution/sleeve_b_testnet_loop.py:127-166 | a SHORT allocation never fails the filters |
| EntryIntent.LongCanFailFilters | src/dual_sleeve_trader/execution/sleeve_b_testnet_loop.py:162-166 | a concrete LONG the allocator accepts and the filter then rejects |
| EntryIntent.MarginSurvives | src/dual_sleeve_trader/execution/sleeve_b_testnet_loop.py:127-166 | at the submitted price a LONG stays within the allowed margin and a SHORT within (1 + offset) times it |
| EntryIntent.RiskSurvives | src/dual_sleeve_trader/execution/sleeve_b_testnet_loop.py:127-166 | at the submitted price the risk budget is kept exactly when no step multiple the raw size leaves room for exceeds budget over (stop - limit); a LONG always keeps it, a SHORT exceeds it by less than one tick on its quantity and keeps it when a tick lies between the entry and the offset limit; the risk is positive exactly when a tick keeps the limit on the right side of the stop |
| EntryIntent.RiskBudgetIff | src/dual_sleeve_trader/execution/sleeve_b_allocator.py:81-89 | at any limit price an accepted quantity keeps the risk budget exactly when no step multiple lies above budget over the distance to the stop and within the raw size |
| EntryIntent.LimitClearsStopIff | src/dual_sleeve_trader/execution/sleeve_b_testnet_loop.py:162-166 | for either side and any offset the limit ends on the right side of the stop exactly when a tick does |
| EntryIntent.LongCanOpenPastStop | src/dual_sleeve_trader/execution/sleeve_b_testnet_loop.py:127-166 | a concrete LONG at the default offset, accepted and submitted with its limit below its own stop |
| EntryIntent.ShortLimitAboveEntryIff | src/dual_sleeve_trader/execution/sleeve_b_testnet_loop.py:162-166 | a SHORT limit ends at or above the entry exactly when some multiple of the tick lies between the entry and the offset limit |
| EntryIntent.ShortCanExceedRiskBudget | src/dual_sleeve_trader/execution/sleeve_b_testnet_loop.py:127-166 | a concrete SHORT at the default offset, accepted and submitted, that risks 54 on a budget of 50 |
| Pipeline.BuiltOrderKeepsCaps | src/dual_sleeve_trader/execution/sleeve_b_testnet_loop.py:99-108 | builder, allocator and normalisation together: the only failure is a LONG under the minimum notional; the submitted order keeps the quantity; a LONG keeps margin and risk budget, a SHORT the margin up to the offset and the risk budget up to one tick on its quantity; for either side exactly when the budget is kept and exactly when the limit is on the right side of the stop |
| Orders.Transition | src/dual_sleeve_trader/execution/order_state_machine.py:39-45 | a transition outside the table raises and changes nothing |
| Orders.ApplyFillTo | src/dual_sleeve_trader/execution/order_state_machine.py:47-65 | the fill is written before the transition is checked, so a raising call still changes the record |
| Orders.AllowedByTarget | src/dual_sleeve_trader/execution/order_state_machine.py:14-36 | the transition table read by target status |
| Orders.TerminalLeadsNowhere | src/dual_sleeve_trader/execution/order_state_machine.py:14-36 | the terminal statuses are exactly those without a successor |
| Orders.FillByStatus | src/dual_sleeve_trader/execution/order_state_machine.py:47-65 | every fill: when it returns, which error it raises otherwise, and what it writes either way |
| Orders.Lifecycle | src/dual_sleeve_trader/execution/order_state_machine.py:14-65 | over every sequence of calls, raising ones included: terminal status is never left, CREATED never re-entered, 0 <= filled <= quantity |
| Orders.CleanRunsKeepFilledComplete | src/dual_sleeve_trader/execution/order_state_machine.py:39-65 | over runs whose calls all return and enter FILLED only by a fill, FILLED holds exactly when filled equals quantity |
| Orders.DriftsExactly | src/dual_sleeve_trader/execution/order_state_machine.py:39-65 | which single calls separate FILLED from the filled quantity, and only those |
| Orders.NeverDriftsIff | src/dual_sleeve_trader/execution/order_state_machine.py:39-65 | over every sequence of calls, raising ones included: FILLED equals a complete fill throughout exactly when no call is one of those at its point |
| Orders.RaisingFillStillWrites | src/dual_sleeve_trader/execution/order_state_machine.py:58-65 | a canceled order left completely filled by a call that raised |
| OrderStorage.OrderStore.UpsertOrder | src/dual_sleeve_trader/storage/sqlite_store.py:48-78 | the conflict clause updates the four exchange fields and keeps the intent |
| OrderStorage.OrderStore.GetOrder | src/dual_sleeve_trader/storage/sqlite_store.py:80-85 | a fresh record of the stored row, or none |
| OrderStorage.OrderStore.ListOpenOrders | src/dual_sleeve_trader/storage/sqlite_store.py:87-93 | exactly the rows in an open status |
| OrderStorage.OpenIsNotTerminal | src/dual_sleeve_trader/storage/sqlite_store.py:87-93 | the open statuses are exactly the non-terminal ones |
| OrderStorage.HistoryOfRow | src/dual_sleeve_trader/storage/sqlite_store.py:48-78 | after any history of writes a row holds the intent of the first and the exchange fields of the last write |
| SafeMode.SafeModeController.Enter | src/dual_sleeve_trader/execution/safe_mode.py:15-18 | entering activates SAFE_MODE and appends the reason |
| SafeMode.SafeModeController.Exit | src/dual_sleeve_trader/execution/safe_mode.py:20-23 | exiting returns to NORMAL and appends the reason |
| Routing.LoopExchange.SubmitOrder | src/dual_sleeve_trader/exchange/binance_rest.py:168-179 | the reply payload is written over the order in place |
| Routing.OrderRouter.Route | src/dual_sleeve_trader/execution/order_router.py:38-61 | gates, normalisation, CREATED to SUBMITTED and submission, with every exception |
| Routing.PersistentOrderRouter.Route | src/dual_sleeve_trader/execution/persistent_router.py:19-23 | only a submitted order is stored, as the exchange returned it |
| Routing.RoutedByGates | src/dual_sleeve_trader/execution/order_router.py:38-61 | every routed order by its gates: when it is refused, raises, is sent and is stored, in every mode |
| AutoLoop.SleeveBAutoLoop.Consider | src/dual_sleeve_trader/execution/sleeve_b_testnet_loop.py:91-119 | the loop body equals one step of the run specification |
| AutoLoop.SleeveBAutoLoop.RunOnce | src/dual_sleeve_trader/execution/sleeve_b_testnet_loop.py:65-125 | without acknowledgement every decision is ACK_REQUIRED and nothing changes; otherwise the run equals the specification, including where an exception ends it |
| AutoLoopTheorems.RunAnswers | src/dual_sleeve_trader/execution/sleeve_b_testnet_loop.py:91-125 | from the inputs: a candidate is accepted exactly when it is submittable (entries allowed, known symbol, accepted by the allocator, valid after normalisation, taken by the exchange) and fewer submittable ones than the maximum come before it, and every other is skipped for no room, SAFE_MODE or the allocator's reason; the stored row is a BUY for a LONG and a SELL for a SHORT with the reply's fields; the run decides the candidates before the first one that raises with room for it and raises exactly when there is one; submitted_orders is the smaller of the submittable ones among them and the maximum |
| AutoLoopTheorems.OrderOpensFor | src/dual_sleeve_trader/execution/sleeve_b_testnet_loop.py:127-150 | the submitted order: BUY exactly for a LONG, LIMIT, ENTRY, never reduce-only, with the candidate's symbol and setup id |
| Portfolio.FillFacts | src/dual_sleeve_trader/execution/sleeve_b_testnet_loop.py:127-150 | filled, it is a position of the allocated quantity, positive exactly for a LONG, with the margin of the order |
| AutoLoopTheorems.SafeModeSubmitsNothing | src/dual_sleeve_trader/execution/sleeve_b_testnet_loop.py:95-97 | in SAFE_MODE nothing is submitted or stored |
| AutoLoopTheorems.RunKeepsAgreement | src/dual_sleeve_trader/execution/sleeve_b_testnet_loop.py:107-119 | a run keeps the store equal to the exchange book; when it raises the store is behind by at most the order whose submission failed after reaching the exchange |
| Portfolio.RunKeepsCapsIff | src/dual_sleeve_trader/execution/sleeve_b_testnet_loop.py:82-119 | once the accepted orders are filled at their limits, from the inputs: the portfolio margin cap holds exactly when the selected orders' margin at their limits fits in what was left, the per-position margin cap exactly when no selected SHORT's quantity times its limit exceeds the cap times leverage, the position cap exactly when open positions plus submitted orders fit, one position per symbol exactly when no two selected candidates share a symbol |
| Portfolio.OrderWithinPositionCapIff | src/dual_sleeve_trader/execution/sleeve_b_allocator.py:78-83 | a submitted LONG is within the per-position margin cap at its limit, a SHORT exactly when quantity times limit is at most the cap times leverage |
| Portfolio.RunMarginBound | src/dual_sleeve_trader/execution/sleeve_b_testnet_loop.py:82-119 | k orders of one run are allocated at most k times the margin left in the snapshot; filled at their limits they add at most that when all are LONG and (1 + offset) times that in any case |
| Portfolio.DistinctSymbolsKeepRule | src/dual_sleeve_trader/execution/sleeve_b_testnet_loop.py:82-119 | candidates with distinct symbols keep one position per symbol for any maximum |
| Portfolio.AllAreSubmitted | src/dual_sleeve_trader/execution/sleeve_b_testnet_loop.py:91-119 | when the maximum leaves room, every candidate the snapshot lets through is submitted, whatever they add up to |
| Portfolio.SingleOrderRunKeepsCaps | src/dual_sleeve_trader/execution/sleeve_b_testnet_loop.py:91-119 | with a maximum of one, after the fill at the limit: position cap and one per symbol hold, both margin caps hold for a LONG; for a SHORT the portfolio cap holds exactly when the margin at the limit fits in the remaining margin, the per-position cap exactly when its notional at the limit fits, and the used margin rises by at most (1 + offset) times the margin left |
| PortfolioExamples.OneShortBreaksPositionCap | src/dual_sleeve_trader/execution/sleeve_b_testnet_loop.py:127-166 | a concrete default-sized run from an empty portfolio whose one SHORT, filled at its limit, exceeds the per-position margin cap |
| PortfolioExamples.OneShortBreaksMarginCap | src/dual_sleeve_trader/execution/sleeve_b_testnet_loop.py:127-166 | a concrete default-sized run whose one SHORT order, filled at its limit, exceeds the portfolio margin cap |
| PortfolioExamples.TwoOrdersBreakCaps | src/dual_sleeve_trader/execution/sleeve_b_testnet_loop.py:82-119 | a concrete run whose two LONG orders on different symbols exceed the margin cap and the position cap |
| Portfolio.DuplicateIsSubmittedTwice | src/dual_sleeve_trader/execution/sleeve_b_testnet_loop.py:83-113 | with a maximum of two or more any submittable candidate listed twice is submitted twice and leaves two positions on its symbol |
| PortfolioExamples.RepeatedCandidateBreaksOnePerSymbol | src/dual_sleeve_trader/execution/sleeve_b_testnet_loop.py:83-113 | a concrete such run |
| Repair.ApplyRemoteSnapshot | src/dual_sleeve_trader/execution/repair.py:115-129 | the four fields are copied in place and the flag says whether anything changed |
| Repair.OrderRepairEngine.RepairByClientOrderId | src/dual_sleeve_trader/execution/repair.py:57-112 | the five outcomes, their store writes and SAFE_MODE entries |
| Repair.RepairOutcomes | src/dual_sleeve_trader/execution/repair.py:57-129 | each outcome by what is stored and answered, in the order of the checks, with the repaired row's four fields and every other row untouched |
| Repair.SweepMirrors | src/dual_sleeve_trader/execution/repair.py:57-129 | repairing ids in any order mirrors exactly the repairable rows among them and keeps every intent |
| Repair.SweepAlarms | src/dual_sleeve_trader/execution/repair.py:57-95 | a sweep enters SAFE_MODE at an id exactly when it is not a stored, repairable order |
| Repair.SecondSweepChangesNothing | src/dual_sleeve_trader/execution/repair.py:97-112 | a second sweep in any order changes nothing and finds every repairable row consistent |
| Repair.RepairThenReconcile | src/dual_sleeve_trader/execution/reconciliation.py:51-89 | after a sweep there is no status mismatch, missing is what is locally open and unknown to the exchange, unknown is what is open there and was never stored |
| Reconciliation.OrderReconciler.ReconcileOpenOrders | src/dual_sleeve_trader/execution/reconciliation.py:36-80 | the report and the SAFE_MODE entry, including a failed fetch |
| Reconciliation.ReportContents | src/dual_sleeve_trader/execution/reconciliation.py:51-89 | for any reply: missing and unknown ids exactly, and as mismatched exactly the ids open locally under a known status that the reply lists as filled, canceled, rejected or expired |
| Reconciliation.OpenListNeverMismatches | src/dual_sleeve_trader/execution/reconciliation.py:51-89 | against a list of open orders there is no status mismatch and consistency is equality of the id sets; a partial fill is not a mismatch |
| Positions.PositionStore.UpsertPosition | src/dual_sleeve_trader/storage/position_store.py:36-64 | the row of the key is replaced |
| Positions.PositionStore.ListPositions | src/dual_sleeve_trader/storage/position_store.py:73-78 | all rows, or the non-flat ones |
| Positions.PositionReconciler.RefreshLocalPositions | src/dual_sleeve_trader/execution/position_reconciliation.py:83-87 | the loop upserts every snapshot in order |
| Positions.PositionReconciler.ReconcilePositions | src/dual_sleeve_trader/execution/position_reconciliation.py:42-81 | the report and the SAFE_MODE entry, including a failed fetch |
| Positions.PositionReportContents | src/dual_sleeve_trader/execution/position_reconciliation.py:42-81 | for any reply: missing, unknown and mismatched keys exactly, a mismatch being an amount further than the tolerance from the last open entry of the reply |
| Positions.RefreshThenReconcile | src/dual_sleeve_trader/execution/position_reconciliation.py:42-87 | refresh then reconcile on one reply: no amount mismatch, missing is the open local keys the reply does not mention, unknown is exactly the keys it reports open and later flat |
| Daemon.DaemonRunner.RunOnce | src/dual_sleeve_trader/ops/daemon.py:52-65 | one iteration: refresh, both reports, one alert exactly when inconsistent, SAFE_MODE |
| Daemon.DaemonRunner.Run | src/dual_sleeve_trader/ops/daemon.py:67-79 | over every run safe_mode_active at i holds exactly when some iteration up to i was inconsistent, alerts are the inconsistent results, with stop_on_mismatch only the last can be inconsistent, and a raising refresh keeps what earlier iterations did |
| Daemon.FrozenRunReportsOnlyOrphans | src/dual_sleeve_trader/ops/daemon.py:52-79 | with refresh on and a frozen exchange with distinct keys the position report lists only open local keys the reply does not mention |
| Operations.Desk.Perform | src/dual_sleeve_trader/ops/daemon.py:82-98 | trading, repair, a daemon iteration and the operator, performed by the components on one shared store and SAFE_MODE switch, are the steps of the specification |
| Operations.NothingSubmittedUntilExit | src/dual_sleeve_trader/execution/safe_mode.py:15-27 | over every run of trading, repair, daemon and operator steps: once SAFE_MODE is active nothing is submitted until the operator exits |
| Operations.MismatchHaltsTrading | src/dual_sleeve_trader/ops/daemon.py:52-65 | over every run: after an iteration that finds a mismatch SAFE_MODE stays active and nothing is submitted until the operator exits |
| Operations.IntentsArePermanent | src/dual_sleeve_trader/storage/sqlite_store.py:48-78 | no operation deletes a stored order or changes its intent |
| Operations.RunThenReconcile | src/dual_sleeve_trader/execution/reconciliation.py:51-80 | a returning run is followed by a clean reconciliation, a raising one by at most one unknown order |

## Left out

- Decimal context: 28-digit rounding, signals and text round trips of `Decimal`; all arithmetic is exact.
- Network, signing and JSON parsing of the exchange adapters; only the order payload fields and the status set are kept.
- SQL text, connections and database errors; the tables are maps with the upsert's conflict behaviour.
- `make_client_order_id` and clocks: ids are parameters. `RunKeepsAgreement` assumes they are new and distinct, which
  the source's second-resolution ids do not guarantee.
- `created_at`, `updated_at`, order metadata, message and alert texts, setup id formatting, sleeping.
- Sorted report tuples are sets; list order of stored rows is not modelled.
- CSV loading, scripts, smoke runs, runtime configuration, `load_ohlc_csv`.
- `risk/*`, `portfolio/ledger.py`, `sleeve_a_scanner.py`, `should_cancel_entry_remainder`: flat threshold checks.
- `periodic_reconciliation.py`, `reconciliation_runner.py`: the daemon loop with less state.
- ScanIsGreedy, ScanMirror: the theorems about schedules and mirroring are for lookbacks of at least one.
- RunKeepsCapsIff: fills are complete and at the submitted limit; a SHORT filled above its limit uses more margin. For a
  run that raises they are the fills of the accepted orders, without an order whose submission failed after reaching the
  exchange.
- WellFormedRun: the portfolio theorems assume positive leverage and entry prices, a non-negative offset and non-negative
  exchange minimums.
- Daemon.DaemonRunner.Run: an unbounded run is modelled for as long as the environment's replies last, and a bounded
  one needs replies for all its iterations.
- AllocatorCaps: states the caps for a positive entry price and leverage; other values are modelled but not bounded.
- SimulateMirror: about a level other than the entry price the PnL only agrees when the leverage cap leaves the two
  sizes equal.
- Operations.NothingSubmittedUntilExit: positions change only through the daemon's refresh, not through fills of the
  modelled orders.
