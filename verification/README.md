# Verified model of the breakout research ledgers and reviews

The repository studies trading rules and then reviews what they did: it simulates a breakout lifecycle on
daily bars, replays its orders through an independent cash ledger, splits the result into captured, missed
and paid parts, attributes it to trades, rebuilds the stops, and compares portfolios that adopt target
vectors at different times. Most of these are second computations of something computed before. This project
models both sides and proves that they agree on every run, or says exactly when they do not.

The modules follow the source:

- **The lifecycle engine and its reviews.** `BreakoutEngine` is the simulator: fills at the open, a ratcheting
  stop, confirmation and re-entry, an account marked at each close. `OrderBook`, `RunHistory` and
  `TradeHistory` hold what every run keeps; `Confirmations` says why each purchase is made and that none is
  missed, `TradeExits` when each trade ends. On top of them stand the event-ledger replay and the interval
  accounting (`TradeLedger`), the per-trade tiling (`EpisodeTiling`), the two rebuilt stops (`StopReview` for
  the failure report, `ChartTrace` for the chart), the closing-state counter (`ClosingStates`), whole-run
  results such as causality (`RunTheorems`, `SignalRecords`) and concrete runs (`EngineExamples`).
- **Adoption policies.** `TargetVectors`, `TargetAdoption` (policy and independent checker) and `WalkForward`.
- **Fast forms against simple ones.** `LossRuns` (dynamic program against all outcomes), `Bootstrap` (prefix
  sums and histograms against explicit resamples), `CohortCoverage` and `CoverageGate` (screened coverage, then
  prefix counts against the window itself), `WealthMetrics` (running peak against all pairs).
- **Ledgers and extractors.** `MembershipLedger`, `PriceBenchmark` (whole cents), `ExposureOverlay`,
  `FallbackEpisodes`, `HoldingMerge`, `IssuerTable` (an event-driven parser object), `DuplicateAudit`.
- `Common` and `RealArithmetic` are helpers.

Conventions. Binary floating point and `Decimal` are exact reals; a not-a-number entry is `None`. Logarithms
are kept as factors, so a sum of logs is a product and a difference a quotient. Loops of the source are
methods proved against a specification function, and the results are stated about that function. Dates are
ordinals. A raised exception is an `Err` or a `None`, and the contracts say exactly when it happens.

Where code and intent differ, the model follows the code:

- The failure report rebuilds the stop without asking whether the day's average range is known, while the
  engine asks. In general its check passes on exactly the trades without a blind session, an unknown range under
  an activated percentage trail above the stop (`StopReview.StopCheckPasses`). The feature builder's rolling
  range, once known, stays known (`SignalRecords.RollingRangesLast`), and a confirmation needs a known range, so on
  its output the check passes on every trade of every run (`StopReview.StopCheckAlwaysPasses`).
  `EngineExamples.StopCheckNeedsRanges` shows that the guarantee is needed, on a series the builder cannot yield.
- At a zero target a filled purchase holds nothing and the engine buys again, so orders alternate on exactly
  the runs with a positive target or at most one order (`RunTheorems.AlternationNeedsATarget`).
- The block audit cannot gather a block longer than the sample plus one, and the prefix-count gate cannot be
  computed on calendars of 36 to 69 days; both conditions are exact in the contracts.
- The whole-unit benchmark is described by its exact fee. With the fee as rounded it is the largest affordable
  order unless the opening price divides 999,500.25 (`PriceBenchmark.LargestUnlessRoundingHelps`).

## Model

| member | source | states |
|---|---|---|
| BreakoutEngine.PlayOpen | src/systematic_trading/research/breakout_revisit.py:41-60 | A pending order that is due trades the whole account at the open and opens or closes the trade; otherwise nothing changes. |
| BreakoutEngine.PlayHeld | src/systematic_trading/research/breakout_revisit.py:61-88 | A held position moves peak, heat and stop only while no exit is queued, and queues an exit for the first of the four tests that holds; `TradeExits` says on a run's outputs which close that is. |
| BreakoutEngine.TestExits | src/systematic_trading/research/breakout_revisit.py:73-84 | The four tests in turn give the first reason that holds, or none. |
| BreakoutEngine.PlayFlat | src/systematic_trading/research/breakout_revisit.py:89-114 | A flat session cancels, counts or starts a confirmation, and queues a purchase when it is confirmed; fails on an unusable range at confirmation. `Confirmations` says on bars and rules which close that is. |
| BreakoutEngine.StartCandidate | src/systematic_trading/research/breakout_revisit.py:98-104 | A continuation above the old peak comes before a crossing of the range. |
| BreakoutEngine.TestConfirmation | src/systematic_trading/research/breakout_revisit.py:107-108 | Enough closes, or the enabled volume test against a known median. |
| BreakoutEngine.PlaySession | src/systematic_trading/research/breakout_revisit.py:40-117 | Fill, decision and mark of one session in that order. |
| BreakoutEngine.PlaySessions | src/systematic_trading/research/breakout_revisit.py:40-121 | The session loop completes exactly when every confirmation has a usable range, and then records every session, trade and order. |
| BreakoutEngine.Simulate | src/systematic_trading/research/breakout_revisit.py:19-121 | Bad delay, then bad target or cost, are refused; otherwise the run of the loop. |
| OrderBook.NotionalIsFunded | src/systematic_trading/research/breakout_revisit.py:45-47 | A sized purchase with its fee never exceeds the cash, and spends all of it at a full target. |
| OrderBook.PurchaseHitsTarget | src/systematic_trading/research/breakout_revisit.py:45-47 | At every target a purchase is the target's share of what the account is worth once the fee is paid. |
| OrderBook.RunsAreCoherent | src/systematic_trading/research/breakout_revisit.py:40-117 | At every moment of every run: orders alternate and never overlap, the pending order is the last one listed, trade, position and cooldown agree with the list, and the account never borrows. |
| RunTheorems.OrdersAlternate | src/systematic_trading/research/breakout_revisit.py:41-117 | Each order fills one session plus the delay after its decision, none precedes the last fill or falls in a cooldown, and the listed position is the one the engine reports as held. |
| RunTheorems.AlternationNeedsATarget | src/systematic_trading/research/breakout_revisit.py:28-60 | Orders alternate on exactly the runs with a positive target or at most one order. |
| RunTheorems.ZeroTargetStaysInCash | src/systematic_trading/research/breakout_revisit.py:28-60 | At a zero target the account stays at one and nothing is ever held. |
| RunTheorems.DesiredIsIntended | src/systematic_trading/research/breakout_revisit.py:117 | The desired flag is the position once every order decided by that close has filled. |
| RunTheorems.AccountStaysPositive | src/systematic_trading/research/breakout_revisit.py:115 | At every target the account is worth something at every close of every run. |
| RunTheorems.RunCovers | src/systematic_trading/research/breakout_revisit.py:30-40 | A run has values on exactly the sessions asked for but the first of the data, and nothing elsewhere. |
| TradeExits.ExitsAreFirst | src/systematic_trading/research/breakout_revisit.py:73-87 | On every run each listed trade is left at its first close, from the entry on, below the listed stop, at the time limit without its gain, below its channel or at its greatest age, for the first of these in that order; a trade without a decision has seen no such close. |
| TradeExits.UnfundedTradesStayOpen | src/systematic_trading/research/breakout_revisit.py:61 | At a zero target no trade is ever decided or closed. |
| TradeExits.ListedStopIsBest | src/systematic_trading/research/breakout_revisit.py:48-72 | Every listed stop, through the deciding close, is the higher of the first protection and the best trailing level so far, both written out in closes, ranges and rules. |
| TradeExits.BestStopIsUnique | src/systematic_trading/research/breakout_revisit.py:64-72 | Only one value is that stop. |
| TradeExits.OpenTradeShowsTrigger | src/systematic_trading/research/breakout_revisit.py:88 | While a listed trade is open the listed level is its trigger. |
| Confirmations.TradesAreEarned | src/systematic_trading/research/breakout_revisit.py:89-114 | At every target each listed trade was earned, in terms of bars and rules: a fresh breakout crossed when no continuation applied, stayed above its trigger at every close, and was bought at the first close with enough sessions or enough volume; a continuation closed within the wait above the last trade's peak plus its part of the previous range. |
| Confirmations.PurchasesAreEarned | src/systematic_trading/research/breakout_revisit.py:105-114 | At every target each order to buy, filled or not, was earned at its own close, after the trade last closed by then. |
| Confirmations.StopsOnlyAtUnusableRange | src/systematic_trading/research/breakout_revisit.py:107-111 | The engine fails only where a close confirms a breakout in those terms and its range is unknown or not positive. |
| Confirmations.NoPurchaseIsMissed | src/systematic_trading/research/breakout_revisit.py:89-114 | Where the engine looks for an entry and does not buy, either nothing starts at that close, or the listed level is that of a crossing whose closes stayed above it and none of which confirms it. |
| Confirmations.WaitingGoesOn | src/systematic_trading/research/breakout_revisit.py:90-94 | A waiting breakout is kept by every close above its level, whatever else that close crosses. |
| Confirmations.TradesAreCharted | src/systematic_trading/research/breakout_revisit.py:106 | The listed level is the trade's trigger at every close from its crossing through its confirmation. |
| SignalRecords.SignalsAreGrounded | src/systematic_trading/research/breakout_revisit.py:95-114 | Every listed trade crosses on or before its confirmation, at a qualifying crossing unless it is a re-entry, and its frozen range is the known range of its confirmation close. |
| SignalRecords.RollingRangesLast | src/systematic_trading/research/range_lifecycle.py:259-262 | A rolling mean of true ranges is unknown on exactly the first days of its period, so once known it stays known. |
| SignalRecords.TrueRangeIsStretch | src/systematic_trading/research/range_lifecycle.py:259-262 | A day's true range is the stretch that its prices and the previous close take up together. |
| RunTheorems.NoLookAhead | tests/test_breakout_revisit.py:52-58 | Two runs with the same bars before a session report the same five arrays before it, wherever each run stops. |
| RunTheorems.PrefixOrders | tests/test_breakout_revisit.py:59 | At every target, a run cut at a session lists exactly the orders the full run decided before it. |
| EngineExamples.RunExists | src/systematic_trading/research/breakout_revisit.py:118-121 | Whenever the engine reaches its last session some output records the run. |
| EngineExamples.ZeroTargetRepeatsBuys | src/systematic_trading/research/breakout_revisit.py:45-47 | A concrete run at a zero target buys twice in a row. |
| EngineExamples.StopCheckNeedsRanges | scripts/build_etf_breakout_failure_report.py:82-91 | On a series outside the feature builder's output, whose range lapses after the confirmation, the rebuilt stop differs from the engine's. |
| TradeHistory.TradesAreBooked | src/systematic_trading/research/breakout_revisit.py:51-59 | At every moment the closed trades are complete, dated in order and disjoint, entry and exit come one session plus the delay after their decisions, and the open trade follows them. |
| TradeHistory.HeldInsideTrades | src/systematic_trading/research/breakout_revisit.py:116-119 | The account is long at a close exactly when that close lies inside a listed trade. |
| TradeLedger.SettleFill | scripts/analyze_fitted_breakout_signals.py:52-57 | One session of the replay moves all money into or out of units. |
| TradeLedger.Replay | scripts/analyze_fitted_breakout_signals.py:47-58 | The checked list is the cash-and-units ledger's value at every session. |
| TradeLedger.LedgerEqualsEngine | scripts/analyze_fitted_breakout_signals.py:47-60 | On every run at a full target the replayed value is the engine's own at every session, so the comparison cannot fail. |
| TradeLedger.GrowthOfSession | scripts/build_etf_breakout_failure_report.py:39-49 | With all money in one place, a session's growth is its captured move divided by its fee factor. |
| TradeLedger.IntervalAccounting | scripts/build_etf_breakout_failure_report.py:32-56 | Rejected exactly when some session's growth is not its captured move less its fee; otherwise net growth times fees is the captured growth, captured times missed is the market's, both telescoping to the end points, and fees only cost. |
| TradeLedger.EveryRunReconciles | scripts/build_etf_breakout_failure_report.py:48-49 | Every session of every run at a full target passes the accounting check. |
| EpisodeTiling.WindowsTile | scripts/build_etf_breakout_failure_report.py:63-66 | For separate trades and an account that rests outside them, the clipped windows' ratios multiply to the whole interval's. |
| EpisodeTiling.EveryWindowTiles | scripts/build_etf_breakout_failure_report.py:213-214 | On every run, at every target and for every interval, the trades' contributions multiply to the account's growth, so the report's check cannot fail. |
| EpisodeTiling.TradeReturnIsContribution | scripts/build_etf_breakout_failure_report.py:92-96 | For a trade entered inside the interval the contribution is exit or mark over entry, times the exit fee if closed, over the entry fee. |
| EpisodeTiling.CarriedReturnIsContribution | scripts/build_etf_breakout_failure_report.py:92-101 | For a trade carried into the interval the contribution is exit or mark over the last close before it, times the exit fee if closed. |
| StopReview.RatchetOnlyRises | tests/test_breakout_revisit.py:69-74 | Peak and stop never fall and armed and heated never lapse while a trade is managed. |
| StopReview.StopIsBestOffer | src/systematic_trading/research/breakout_revisit.py:64-72 | The stop is the best of the initial floor and every trailing offer made since the trail was armed. |
| StopReview.EngineRatchets | src/systematic_trading/research/breakout_revisit.py:61-88 | The engine's open trade is the ratchet up to the last managed close, frozen after the exit decision. |
| StopReview.StopOfTrade | src/systematic_trading/research/breakout_revisit.py:88 | The reported stop inside any listed trade is that trade's ratchet, recomputed from its ticket alone. |
| StopReview.RiskLevels | scripts/build_etf_breakout_failure_report.py:68-71 | The rebuilt floor and activation, computed from the ticket, are the engine's first stop and arming level. |
| StopReview.HeatTest | scripts/build_etf_breakout_failure_report.py:78-79 | The rebuilt heat test is the engine's. |
| StopReview.RebuildOnce | scripts/build_etf_breakout_failure_report.py:75-87 | One close on the report's own peak, stop and heat, against the trade record it stands for. |
| StopReview.RebuildDay | scripts/build_etf_breakout_failure_report.py:75-90 | One close with its marks: the first armed and first heated sessions and both armed-day counters stay exact. |
| StopReview.RebuildAgrees | scripts/build_etf_breakout_failure_report.py:67-91 | Report and engine keep the same stops exactly when no session is blind: an unknown range under an activated percentage trail above the stop. |
| StopReview.RebuildStops | scripts/build_etf_breakout_failure_report.py:67-91 | The reconstruction finishes exactly when every stop matches; it then returns peak, stop, heat, the first armed and heated sessions and both armed-day counts. |
| StopReview.StopCheckPasses | scripts/build_etf_breakout_failure_report.py:91 | On every run a trade's check passes exactly when the trade is never blind. |
| StopReview.StopCheckAlwaysPasses | scripts/build_etf_breakout_failure_report.py:203-213 | Where ranges once known stay known, the check passes on every trade of every run. |
| ChartTrace.ChartClose | scripts/build_gld_breakout_inspection.py:84-95 | One close on the chart's own peak, stop and heat gives the engine's ratchet, and its candidate is the offered trailing level. |
| ChartTrace.ChartDay | scripts/build_gld_breakout_inspection.py:83-95 | The chart's variables follow the ratchet; armed, the shown trail and the first armed and heated sessions are exact. |
| ChartTrace.ChartTrade | scripts/build_gld_breakout_inspection.py:69-102 | One trade's rows are written on its own sessions and nowhere else, frozen after the exit decision. |
| ChartTrace.StopTrace | scripts/build_gld_breakout_inspection.py:63-108 | Refused exactly when some trade is a re-entry or its crossing has no range; otherwise every listed trade is charted with all its levels and recorded. |
| ChartTrace.RunsAreChartable | scripts/build_gld_breakout_inspection.py:73-81 | The trades of every run have the dates the chart relies on. |
| ChartTrace.OnlyReentriesAreRefused | scripts/build_gld_breakout_inspection.py:46-72 | With a range behind every crossing, a run's chart is refused only for a re-entry. |
| ChartTrace.ChartEqualsEngine | scripts/build_gld_breakout_inspection.py:106-107 | On every run the charted stop exists exactly where the engine holds and equals the engine's, so neither closing check can fail. |
| ClosingStates.MarkRange | scripts/build_etf_breakout_failure_report.py:123-126 | Sets a clipped slice of a flag array and nothing else. |
| ClosingStates.MarkCooldowns | scripts/build_etf_breakout_failure_report.py:118-123 | The flags are the sessions within the cooldown of some closed trade's exit. |
| ClosingStates.MarkQueued | scripts/build_etf_breakout_failure_report.py:119-126 | The flags are the sessions between some purchase's decision and its fill. |
| ClosingStates.CountClosingStates | scripts/build_etf_breakout_failure_report.py:115-141 | The counter holds each session's one label. |
| ClosingStates.LabelsAreHiddenStates | scripts/build_etf_breakout_failure_report.py:128-140 | On every run each label rebuilt from the lists is the engine's own state after that close. |
| TargetVectors.DistanceTriangle | src/systematic_trading/research/target_change_rebalance.py:19-20 | The distance of target vectors obeys the triangle inequality. |
| TargetVectors.OneWeightMoves | src/systematic_trading/research/target_change_rebalance.py:19-20 | Changing one weight moves a vector by exactly that change. |
| TargetVectors.CashLeg | scripts/analyze_target_change_rebalance.py:65-68 | With cash listed the distance is the risky distance plus the change in total weight. |
| TargetAdoption.TargetWeights | src/systematic_trading/research/target_change_rebalance.py:8-16 | Refused exactly when a symbol repeats, cash is listed, a weight is negative or the total exceeds one; cash fills the rest. |
| TargetAdoption.ListedIsLast | src/systematic_trading/research/target_change_rebalance.py:10 | A symbol has the weight of its last entry, and only listed symbols have one. |
| TargetAdoption.SumMoves | src/systematic_trading/research/target_change_rebalance.py:19-20 | Summing over the union of symbols in any order gives the distance. |
| TargetAdoption.ReadDay | src/systematic_trading/research/target_change_rebalance.py:39-45 | The day's three refusals, in order. |
| TargetAdoption.LogDay | src/systematic_trading/research/target_change_rebalance.py:46-60 | The entry's flag and distance are the day's, its reasons are those that hold, once each and in the order asked, and each primary reason is given exactly when no earlier one holds. |
| TargetAdoption.AdoptionSchedule | src/systematic_trading/research/target_change_rebalance.py:23-64 | Refused exactly when the tape, the switches or some day is unacceptable; otherwise every day is explained and the decisions are the adopted rows. |
| TargetAdoption.AnchorIsLastAdoption | src/systematic_trading/research/target_change_rebalance.py:61-63 | After the first day the anchor is the vector of the last adopted day. |
| TargetAdoption.SkippedDaysStayClose | src/systematic_trading/research/target_change_rebalance.py:46-55 | A skipped day is unscheduled and within the limit then in force of the last adopted vector, whatever switches came between. |
| TargetAdoption.PolicyIsInForce | src/systematic_trading/research/target_change_rebalance.py:41-42 | The policy of a day is the switch made last by then, or the initial one. |
| TargetAdoption.AdoptedExactly | src/systematic_trading/research/target_change_rebalance.py:47-55 | A day is adopted exactly when none was before, it is monthly, the policy in force is daily, or its vector is further from the last adopted one than the threshold in force. |
| TargetAdoption.ChurnIsPaidFor | src/systematic_trading/research/target_change_rebalance.py:47-63 | The limits of all adoptions caused only by crossing add up to at most the path's total variation, under any switches. |
| TargetAdoption.ChurnBound | src/systematic_trading/research/target_change_rebalance.py:47-63 | Under one fixed threshold, threshold times extra adoptions never exceeds the total variation. |
| TargetAdoption.Recompute | scripts/analyze_target_change_rebalance.py:64-70 | One day recomputed by the checker from the raw row gives the policy's vector, gap and choice. |
| TargetAdoption.IndependentEvents | scripts/analyze_target_change_rebalance.py:55-79 | The checker accepts exactly the ledgers whose every flag and distance is right, and returns the adopted days. |
| TargetAdoption.ConfirmationIs | scripts/analyze_target_change_rebalance.py:73-79 | A logged day is confirmed exactly when its flag is right and its distance is there after the first day, within the tolerance, from the last adopted vector. |
| TargetAdoption.PolicyIsConfirmed | scripts/analyze_target_change_rebalance.py:78-79 | The checker can never reject what the policy wrote. |
| TargetAdoption.CountReversals | scripts/analyze_target_change_rebalance.py:86-91 | The one-pass counter counts exactly the fills whose latest earlier fill of the symbol is opposite and within five sessions. |
| WalkForward.Weigh | scripts/analyze_range_breakout.py:69-75 | The loop's test for an active session is the adoption rule that AdoptedExactly spells out. |
| WalkForward.Replay | scripts/analyze_range_breakout.py:60-78 | The adopted sessions, exactly those of AdoptedExactly, and a matrix with the chosen row on active sessions and zero elsewhere. |
| WalkForward.AdoptedExactly | scripts/analyze_range_breakout.py:66-78 | A session is adopted exactly when it is active and none was adopted before, the month ends, its choice is not that of the last active session, or its choice ends in `__event` and the last adopted row is further than the limit or holds a flagged name under an L choice outside selection. |
| WalkForward.OtherChoicesFollowTheSchedule | scripts/analyze_range_breakout.py:73-75 | Under a choice without that ending only the first three adopt. |
| WalkForward.SkippedSessionsAreSafe | scripts/analyze_range_breakout.py:69-78 | A skipped active session is inside a month and an unchanged choice; under an event rule it is near the anchor and no held name is flagged to exit. |
| WalkForward.GapIsMovesWithCash | scripts/analyze_range_breakout.py:70 | The loop's gap is the sum of all moves with cash listed. |
| WalkForward.WideAdoptionsArePaidFor | scripts/analyze_range_breakout.py:70-78 | The width times the adoptions that only a wide gap caused never exceeds the rows' total movement. |
| LossRuns.OutcomesAreAll | scripts/audit_strategy_health.py:66-74 | The reference enumeration holds every outcome of its length. |
| LossRuns.OutcomesAreDistinct | scripts/audit_strategy_health.py:66-74 | The reference enumeration has no repeats. |
| LossRuns.Advance | scripts/audit_strategy_health.py:70-72 | One trade: slot zero collects all survivors that win, each slot moves up when losing. |
| LossRuns.NullRunProbability | scripts/audit_strategy_health.py:66-74 | The dynamic program returns the total probability of all outcomes with a run of losses. |
| LossRuns.ProbabilityIsMonotone | scripts/audit_strategy_health.py:66-74 | It is a probability, never falls with more trades and never rises with a longer run. |
| LossRuns.ProbabilityAtTheEdge | scripts/audit_strategy_health.py:66-74 | Zero for fewer trades than the run, the power of the loss probability at equality. |
| Bootstrap.FamilyMean | scripts/analyze_range_breakout.py:107-108 | The mean over whole wrap-around blocks cut at the sample length. |
| Bootstrap.PrefixSums | scripts/analyze_flow_concentration_research.py:66-67 | Entry i is the sum of the first i values of the extended column. |
| Bootstrap.DifferenceIsBlockSum | scripts/analyze_flow_concentration_research.py:66-69 | A prefix difference is the sum of a circular block. |
| Bootstrap.SumBlocks | scripts/analyze_flow_concentration_research.py:68-71 | The gathered differences are the sum over all full blocks. |
| Bootstrap.BlockDraw | scripts/analyze_flow_concentration_research.py:61-71 | Fails exactly when the block exceeds the sample by more than one; otherwise the mean over full blocks and the tail. |
| Bootstrap.DrawIsCutBlockList | scripts/analyze_flow_concentration_research.py:65-71 | Full blocks and the tail are the wrap-around block list truncated to the sample length. |
| Bootstrap.FillWalk | scripts/analyze_target_change_rebalance.py:110-112 | The index array is the restarted walk, for every pattern of starts and restarts. |
| Bootstrap.WalkStepsRound | scripts/analyze_target_change_rebalance.py:110-112 | Since its last restart the walk has taken one step round the sample for each session. |
| Bootstrap.Visit | scripts/analyze_target_change_rebalance.py:113-114 | Adding one at an index counts one more visit. |
| Bootstrap.Histogram | scripts/analyze_target_change_rebalance.py:113-114 | The weights are the walk's histogram, and every index is in range. |
| Bootstrap.Moments | scripts/analyze_target_change_rebalance.py:115-116 | Weighted mean and clamped one-pass variance; no variance for a single observation. |
| Bootstrap.HistogramMomentsAreResampleMoments | scripts/analyze_target_change_rebalance.py:115-116 | Weights add to the sample size, the weighted mean is the resample's, the one-pass variance is the two-pass sample variance, and clamping at zero changes nothing. |
| Bootstrap.ResampleMoments | scripts/analyze_target_change_rebalance.py:108-116 | Walk, histogram and moments in turn give, for every start and restart pattern, the mean and sample variance of the column read along the walk. |
| MembershipLedger.OpeningValue | scripts/analyze_selection_width_timing.py:50 | Cash plus every position at its opening price. |
| MembershipLedger.ApplyQuantities | scripts/analyze_selection_width_timing.py:52 | The day's quantities added to the positions. |
| MembershipLedger.Classify | scripts/analyze_selection_width_timing.py:53-58 | The day's fills split by whether the symbol comes from or goes to nothing, with the day's cost. |
| MembershipLedger.PlayFills | scripts/analyze_selection_width_timing.py:50-58 | One day's turnover, cash and positions; fails exactly when there are fills and no opening value. |
| MembershipLedger.TallyChanges | scripts/analyze_selection_width_timing.py:63-74 | The whole effect on the counts in terms of the two decisions: another width raises width alone by all changed symbols, else a missing observation unclassified alone, else a fallback alone, else symbols eligible at both raise rank cutoff and the rest eligibility. |
| MembershipLedger.ChangedAre | scripts/analyze_selection_width_timing.py:62-67 | A symbol changes membership exactly when one of the two lists holds it with a positive weight. |
| MembershipLedger.PlayDecision | scripts/analyze_selection_width_timing.py:60-75 | A decision is compared with the last one and becomes the last one. |
| MembershipLedger.EntryShare | scripts/analyze_selection_width_timing.py:78 | The share times the whole is the part, and zero of nothing. |
| MembershipLedger.MembershipAttribution | scripts/analyze_selection_width_timing.py:42-81 | Fails exactly when some day's fills meet no opening value or the cash drifts more than two cents; otherwise turnovers, notionals, counts and the entry share are those of all days. |
| MembershipLedger.UsdIsConserved | scripts/analyze_selection_width_timing.py:53-57 | Entry or exit plus retained notional is the gross notional after the first day. |
| MembershipLedger.CashIsConserved | scripts/analyze_selection_width_timing.py:52-58 | The replayed cash is the initial cash less all purchases plus all sales less all fees, purchases and sales make up the gross traded value, and positions are net quantities. |
| MembershipLedger.CrossingIsNetNothing | scripts/analyze_selection_width_timing.py:55-57 | A fill is an entry or exit exactly when all fills before its day, or all through it, net to nothing in its symbol. |
| MembershipLedger.RecordedCashIsExplained | scripts/analyze_selection_width_timing.py:58-59 | Where the check passes, every recorded cash figure is that sum to two cents. |
| MembershipLedger.ReorderingChangesNothing | scripts/analyze_selection_width_timing.py:45-58 | Reordering fills inside days changes nothing in the report. |
| IssuerTable.TableParser.constructor | scripts/build_etf_inventory.py:39-48 | A new parser outside every table. |
| IssuerTable.TableParser.HandleStartTag | scripts/build_etf_inventory.py:50-61 | The handler's effect on the fields, in place. |
| IssuerTable.TableParser.HandleData | scripts/build_etf_inventory.py:63-65 | Text is kept inside a cell of the table only. |
| IssuerTable.TableParser.HandleEndTag | scripts/build_etf_inventory.py:67-80 | Cells are normalised and filed, nonempty rows listed by reference, the table closed. |
| IssuerTable.Parse | scripts/build_etf_inventory.py:84-85 | Feeding all events to the parser object is the fold of the handlers, including the row list shared between fields. |
| IssuerTable.NormalIsStable | scripts/build_etf_inventory.py:71 | Normalising text twice changes nothing. |
| IssuerTable.WordsSplitAtSpaces | scripts/build_etf_inventory.py:71 | White space separates words wherever it stands. |
| IssuerTable.NormalIsTidy | scripts/build_etf_inventory.py:71 | A normalised text keeps all other characters in order, with single blanks between words only. |
| IssuerTable.FirstTableIsFinal | scripts/build_etf_inventory.py:50-80 | After a table has opened, the next table tag fixes headers and rows: nothing after it, on any page, changes them. |
| IssuerTable.FrozenForGood | scripts/build_etf_inventory.py:51-80 | Once frozen, no later event changes headers or rows. |
| IssuerTable.PageReadsAsFirstTable | scripts/build_etf_inventory.py:36-80 | Any page with a well-formed first table yields exactly its headers, rows and links, whatever comes before it or after it. |
| IssuerTable.RenderedTableReadsBack | scripts/build_etf_inventory.py:36-80 | Headers, rows and links with normalised text, rendered as a table on any page, are read back exactly, but for rows without cells. |
| IssuerTable.AddProduct | scripts/build_etf_inventory.py:91-106 | One row's entry, unless it is not allowed or its symbol is taken. |
| IssuerTable.ProductsAreRead | scripts/build_etf_inventory.py:92-100 | A row is allowed exactly when it is complete, its date can be read and its link is `/us/products/`, a number, and nothing more or a slash and anything. |
| IssuerTable.ProductIsRead | scripts/build_etf_inventory.py:94-106 | The product has the row's name and date, that number and that link. |
| IssuerTable.BuildDictionary | scripts/build_etf_inventory.py:90-107 | Refused exactly when a row is not allowed or a symbol repeats; otherwise one entry for each row and nothing else. |
| IssuerTable.IssuerMetadata | scripts/build_etf_inventory.py:83-107 | Refused exactly when the first, second or seventh heading is not the expected one, a row is not allowed or a symbol repeats. |
| DuplicateAudit.RankIsTotalOrder | scripts/audit_sharpe_stability.py:233-240 | The preference is the strict part of a total order of ranks. |
| DuplicateAudit.FindKey | scripts/audit_sharpe_stability.py:86 | The first listed row of a key, if any. |
| DuplicateAudit.Visit | scripts/audit_sharpe_stability.py:85-95 | One visit keeps the list exact and the seen keys equal to the listed ones; the seen-but-absent branch is never entered. |
| DuplicateAudit.KeepBest | scripts/audit_sharpe_stability.py:74-95 | Exactly one row for each key, in terms of its visits: a champion whenever any is, with the latest end date among those alike in that, and the first with that date. |
| DuplicateAudit.FirstBestIsNewest | scripts/audit_sharpe_stability.py:233-240 | Being first among the best by the preference is that condition on flag, date and position. |
| DuplicateAudit.KeysMatch | scripts/audit_sharpe_stability.py:85-95 | The listed keys are the visited keys. |
| DuplicateAudit.RankIgnoresOrder | scripts/audit_sharpe_stability.py:76-95 | The kept row's flag and end date do not depend on the visiting order. |
| ExposureOverlay.StopLossExposures | scripts/analyze_dynamic_sleeve_risk_periods.py:399-422 | Out while cooling down or when the previous close is at or below the threshold from its peak. |
| ExposureOverlay.DrawdownThrottleExposures | scripts/analyze_dynamic_sleeve_risk_periods.py:382-396 | Scaled exactly when the previous close is at or below the threshold from its peak. |
| ExposureOverlay.SpellsAreWholeCooldowns | scripts/analyze_dynamic_sleeve_risk_periods.py:413-421 | A spell that ends lasts a whole number of cooldowns, and the close before re-entry is above the threshold from the highest close so far. |
| ExposureOverlay.OutOnlyAfterBreach | scripts/analyze_dynamic_sleeve_risk_periods.py:410-421 | Out only when a close at most a cooldown ago was down to the threshold from the highest close so far, and always right after such a close. |
| ExposureOverlay.ScaledRows | scripts/analyze_dynamic_sleeve_risk_periods.py:425-449 | The rescaled account, split into gross and cash that add up to it. |
| ExposureOverlay.GainIsShare | scripts/analyze_dynamic_sleeve_risk_periods.py:439-440 | Each session's gain is the earlier exposure's share of the original gain, to the scale of the account. |
| ExposureOverlay.FullExposureReproduces | scripts/analyze_dynamic_sleeve_risk_periods.py:425-440 | Always fully invested, the rescaled account is the account. |
| ExposureOverlay.OverlayIsCausal | scripts/analyze_dynamic_sleeve_risk_periods.py:399-447 | Exposure depends only on earlier closes, and the scaled value only on closes up to its own. |
| FallbackEpisodes.DifferingPositions | scripts/analyze_fallback_episodes.py:44-48 | Exactly the calendar positions of the differing decisions; fails exactly when one is not a valuation day. |
| FallbackEpisodes.DiffersSomewhere | scripts/analyze_fallback_episodes.py:46-47 | Two decisions differ exactly when some symbol's weight, listed or not, differs by more than the tolerance. |
| FallbackEpisodes.PieceIsGap | scripts/analyze_fallback_episodes.py:49-60 | The factors of a stretch multiply to the gap's growth over it. |
| FallbackEpisodes.AddEpisode | scripts/analyze_fallback_episodes.py:54-69 | A decision's window is skipped when empty, else it becomes an episode with its own piece and side of the evaluation date. |
| FallbackEpisodes.Analyse | scripts/analyze_fallback_episodes.py:53-82 | No report exactly when the arms end with the lead they started with; otherwise consecutive windows and their running totals. |
| FallbackEpisodes.InsideTimesOutside | scripts/analyze_fallback_episodes.py:72-81 | Evaluation episodes and earlier ones make up the tiled total. |
| FallbackEpisodes.TotalIsGapAfterFirst | scripts/analyze_fallback_episodes.py:70-78 | The tiled total is the gap after the first differing decision, and the whole gap exactly when the arms kept the same lead until then. |
| CoverageGate.CountIsWindow | scripts/analyze_underlying_sectors.py:133-134 | Equal prefix counts mean that every day between passes. |
| CoverageGate.PassWindow | scripts/analyze_underlying_sectors.py:132-134 | The prefix-count form is the window test, and cannot be computed exactly when the calendar is shorter than the lookback but longer than half of it. |
| CoverageGate.LatestActivated | scripts/analyze_underlying_sectors.py:96-98 | With sorted activations each day belongs to the latest activated snapshot and to no other. |
| CoverageGate.Apply | scripts/analyze_underlying_sectors.py:130-140 | One snapshot writes its name and its own windows' verdicts on its own days only. |
| CoverageGate.Build | scripts/analyze_underlying_sectors.py:96-140 | Every day's name and three verdicts come from one snapshot's coverage, its owner's; fails exactly when a snapshot is active on a calendar of 36 to 69 days. |
| CoverageGate.RowIsExplicit | scripts/analyze_underlying_sectors.py:96-140 | A row before the first activation is blank; any other holds the name of the latest activated snapshot and whether every sector is 95 percent covered by value and 70 by name on the day, over 2 days back and over 70. |
| CohortCoverage.Screen | scripts/analyze_underlying_sectors.py:114-128 | Exactly the known stocks under another name and the symbols with several accepted columns are blanked. |
| CohortCoverage.MeasureSector | src/systematic_trading/research/underlying_sectors.py:30-41 | A sector's two shares are what is seen over all its stocks, and a sector without stocks has none. |
| CohortCoverage.Measure | src/systematic_trading/research/underlying_sectors.py:14-41 | Refused exactly when a weight is not positive or a sector is unknown; otherwise the whole table over the screened columns. |
| CohortCoverage.CoverIsShare | tests/test_underlying_sectors.py:20-27 | Shares lie between zero and one, and are one exactly when every stock of the sector is seen: missing names stay in the denominators. |
| CohortCoverage.SharesAre | src/systematic_trading/research/underlying_sectors.py:30-41 | Coverage by name is the number of the sector's seen stocks over all of them, coverage by value their weights. |
| CohortCoverage.PassingNeedsStocks | scripts/analyze_underlying_sectors.py:129-130 | A passing sector has a stock that is seen and not blanked. |
| HoldingMerge.Merge | scripts/analyze_underlying_sectors.py:101-110 | One row for each identity in order of first appearance, with the first row's text and the summed amounts. |
| HoldingMerge.MergeConserves | scripts/analyze_underlying_sectors.py:101-110 | Merging loses no market value and no weight. |
| HoldingMerge.MergedRowsDiffer | scripts/analyze_underlying_sectors.py:103-110 | Merged rows with an identified stock differ in stock or sector. |
| HoldingMerge.MergedRowIsItsRows | scripts/analyze_underlying_sectors.py:101-110 | An identified merged row carries the value and weight of all rows of its stock and sector; any other is a row as it came. |
| HoldingMerge.NoRowIsLost | scripts/analyze_underlying_sectors.py:101-110 | Every row has a merged row of its stock and sector, or, when it is not identified, is in the result itself. |
| PriceBenchmark.RoundHalfEven | scripts/analyze_flow_concentration_research.py:96-98 | The nearest integer, even on ties. |
| PriceBenchmark.RoundingIsUnique | scripts/analyze_flow_concentration_research.py:96-98 | No other integer is nearest and even on ties. |
| PriceBenchmark.IndexBars | scripts/analyze_flow_concentration_research.py:91 | The table keeps each day's last bar. |
| PriceBenchmark.LastBarIsLast | scripts/analyze_flow_concentration_research.py:91 | The kept bar is the last of its day, and a day without a bar has no row. |
| PriceBenchmark.Cents | scripts/analyze_flow_concentration_research.py:96-101 | A converted price is the nearest whole cent, even on ties. |
| PriceBenchmark.LatestBefore | scripts/analyze_flow_concentration_research.py:95 | The latest rate date before the first day. |
| PriceBenchmark.MarkDays | scripts/analyze_flow_concentration_research.py:100-101 | Each day's value; fails exactly when a day has no rate. |
| PriceBenchmark.BuyAndHold | scripts/analyze_flow_concentration_research.py:89-102 | No benchmark when a day has no bar; each failure exactly when it is the first to apply; otherwise the order and every day's value. |
| PriceBenchmark.CashNeverShort | scripts/analyze_flow_concentration_research.py:97-99 | Purchase and rounded fee stay within the stake, and less than one more unit with its fee, and half a cent, is left. |
| PriceBenchmark.OneMoreExceeds | scripts/analyze_flow_concentration_research.py:97 | At the exact fee one more unit exceeds the stake. |
| PriceBenchmark.LargestUnlessRoundingHelps | scripts/analyze_flow_concentration_research.py:97-98 | With the rounded fee the order is the largest affordable exactly when the opening does not divide 999,500.25. |
| PriceBenchmark.FirstDayValue | scripts/analyze_flow_concentration_research.py:98-101 | The first value is the stake less the fee plus the units' move from open to close. |
| WealthMetrics.WealthTelescopes | scripts/analyze_flow_concentration_research.py:33-44 | Compounded wealth is the value then over the value just before the window. |
| WealthMetrics.DrawdownIsWorstPair | scripts/analyze_flow_concentration_research.py:44-46 | The running-peak drawdown is the least change over all ordered pairs, and is reached. |
| WealthMetrics.MetricsAreValueChanges | scripts/analyze_flow_concentration_research.py:38-46 | For every date window: no figures exactly when it is empty, the total return is last value over value before, and the drawdown is the worst pair of values. |

## Left out

- TradeLedger.LedgerEqualsEngine: stated at a full target, the only one the replayed reports use; the replay itself has no target, so it cannot agree below one.
- EpisodeTiling.TradeReturnIsContribution: stated at a full target, where the report's formula has all money in the trade; below it the account also holds cash.
- EpisodeTiling.CarriedReturnIsContribution: stated at a full target for the same reason.
- TradeExits.ExitsAreFirst: stated for a positive target; at zero nothing is held, no test is asked and no trade ends (UnfundedTradesStayOpen). ListedStopIsBest and OpenTradeShowsTrigger likewise.
- Confirmations.NoPurchaseIsMissed: stated for a positive target, as are WaitingGoesOn and TradesAreCharted; at zero the engine also looks for entries while a trade without units is open. What entitles a purchase is stated at every target.
- RunTheorems.OrdersAlternate: stated for a positive target; AlternationNeedsATarget says what happens at zero.
- PriceBenchmark.CashNeverShort: stated for a positive opening price, which market data have; the order itself is modelled for any.
- Floating-point and `Decimal` rounding, and the tolerances of the source's comparisons that exist only for it: agreement is proved exactly.
- CoverageGate.Build: takes each cohort's coverage table, which CohortCoverage.Measure computes, and writes names and verdicts only, not the other aggregates.
- Feature building but for the rolling range (qualified ranges, volume medians, channels, menu lookups): the engine takes its per-bar results as inputs.
- Square roots, quantiles, Sharpe ratios, p-values and random draws: bootstrap results hold for all start and restart patterns instead.
- Return columns are handled one at a time; the source's matrices have one column for each series.
- `execution_schedule`, order execution and the portfolio replays behind `economic` files: their fills and values are inputs.
- Sector turnover, returns and concentration of `aggregate_cohort` and the features made of them; whether two names are compatible is a flag of each stock.
- Turnover, fee totals, volatility and average cash of `metrics`, and `exposure_stats`: sums over the same rows with nothing further to prove.
- Display fields of trades and episodes (kinds of exit, net trade returns, held lists, benchmark returns) and two-decimal text of rescaled rows.
- `_daily_reweight_schedule`, `guards`, `select_year` and the contents of `range_box` beyond its refusal: lookups and selections that would add easy members.
- Row scoring after deduplication, path filters and payload parsing in the audit.
- The HTML tokenizer: the parser is modelled from its handler calls on. Digits are those of ASCII, and reading a date is a parameter.
- File reading and writing, hashing, manifests, databases, charts and reports.
- `rebalanced_combination`: its fee moves to one sleeve and leaves the total unchanged, so there is no charge to state.
