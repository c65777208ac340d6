# Verification of the paper-trading pipeline

This project models the deterministic core of a paper-trading simulator and proves properties of
it in Dafny: market candles feed incremental indicators, indicators feed a scoring strategy,
signals become risk-sized plans, and plans become simulated positions and trades in a ledger that
survives restarts. The same engines run forward, with a durable store, and inside a chronological
backtest, which a parameter search and a forward-validation gate build upon.

Check everything with `dafny verify dfyconfig.toml`.

## How the model is built

Every engine that the program updates in place is a class whose methods are proved against a
function on values (`View()` before, `View()` after); the theorems are lemmas about those functions.

| file | what it holds |
|---|---|
| `Common`, `Tables`, `Sorting` | sums, bounded deques, insertion-ordered tables, stable sorting, named real arithmetic |
| `Market`, `Settings` | candles, feed health, candle validation; settings restricted to the validated ranges |
| `Indicators`, `IndicatorBatch` | the incremental indicator engine; batch definitions it is proved to compute |
| `Strategy` | the five scoring rules, written out, and the signal engine |
| `Risk`, `RiskGuarantees` | stop placement, sizing, guards, plans; what approval means and promises |
| `Ledger`, `PaperEngine` | the paper lifecycle, the durable transactions and recovery, on values and in place |
| `LedgerInvariants`, `LedgerEquity` | accounting identities, identities used once, equity and daily results |
| `Fills`, `Marks` | which plans fill and on what terms, what a candle's exit is, and what an open position and a point of the curve are worth |
| `Durability`, `StoredMarks`, `Session`, `Recovery`, `RecoveredBook` | crash points, which marks are stored, restarting from the stored rows, entry gates, exactly-once recovery and what it leaves |
| `Forward`, `ForwardLives`, `ForwardRuns`, `ForwardWarmUp` | the whole platform running forward through candles, pauses, recoveries and restarts; when its book stays sound, and the fate of every plan |
| `ForwardPauses`, `ForwardVerdicts`, `ForwardSample` | pauses of new entries, verdicts on the stored trades, and a run worked out by hand whose restart breaks the book |
| `Exits` | where exits happen, live observation against replay, the cost of a stop-out |
| `Backtest`, `BacktestInvariants`, `PlannedTrades`, `NoLookahead` | the replay, the life of every position in it and the plan it came from |
| `BacktestReconciliation`, `BacktestFigures`, `BacktestSample` | how the summary of a backtest adds up, what each of its figures and counts is, and a backtest worked out by hand |
| `Scaling`, `ScalingSignals`, `ScalingBook`, `ScalingReplay` | a change of units carried through the whole replay |
| `Optimizer`, `OptimizerGuarantees`, `OptimizerFigures` | the grid search, its segments, scores, selection and walk-forward study, and what its figures are |
| `Drawdown`, `Validation`, `Criteria` | one-pass drawdown and streak loops against their definitions; the acceptance gate, its pause and its criteria as sums over the trades |
| `MarketStore`, `RateLimiter` | the bounded candle store and the sliding-window limiter against unbounded histories |

Amounts are mathematical reals: `Decimal` without its context rounding, except where the code
rounds on purpose (scores, segment times). Timestamps are integers in milliseconds. A section of
code under one lock is one step with one clock reading, and clocks, wall clocks and downloaded
candles are parameters. Beside every bounded deque the specification keeps the unbounded history.

## Where the code does less than the obvious claim

* With two open positions a close sets equity to the cash alone. The identity holds after a close
  exactly when the remaining positions are worth nothing together (`LedgerEquity.EquityAfterClose`,
  `LedgerEquity.TwoPositionsBreakEquity`).
* README.md line 80 of the repository says that missed candles are replayed. A position filled while
  a candle forms is stored with that candle's closing time, so the rest of that candle is never
  replayed and a stop in it can become a target (`Exits.RecoverySkipsTheFillCandle`,
  `Exits.SkippedStopBecomesTarget`).
* The entry pause is kept in memory only. The validation at the start (backend/app/main.py:150)
  judges the stored trades again, so after a restart entries are paused exactly when that verdict is
  a failure and failures pause (`ForwardPauses.PausedAfterRestartIff`). A pause is therefore lost
  when that verdict is not conclusive: a session paused for its health, with a small sample, is open
  again after a restart (`ForwardPauses.RestartMattersIff`, `ForwardPauses.RestartLosesPause`).
* The watermarks are not stored either. The book stays sound throughout a run exactly when no
  candle leads to a valid plan, with the gates open, whose identity was stored before the last
  restart (`ForwardRuns.RunIsSoundIff`). That can only happen if the feed delivers, after the
  restart, closed candles that were already analysed before it. It cannot if each key goes on with
  candles newer than what was stored (`ForwardWarmUp.NewerRunsDoNotRepeat`), and in particular if
  the warm-up reaches the stored identities (`ForwardWarmUp.WarmRunsDoNotRepeat`). After a failed
  warm-up, two candles delivered again are enough: a run from the empty store shows it
  (`ForwardSample.RepeatedCandlesBreakBook`). The close of such a position leaves the stored rows
  out of balance (`Session.CloseBalancesIffFresh`).
* A session that was paused, holds nothing and fails an acceptance criterion stays paused while the
  process runs: nothing can change its trades any more, so no later verdict can be a pass
  (`ForwardVerdicts.FailedFlatSessionNeverRecovers`).
* All five strategy rules are mandatory, so a passing evaluation always scores 100 and the minimum
  score can never reject it (`Strategy.PassingMeansFullScore`).
* Slices by symbol use the symbols as the request spells them, while validation ignores case. They
  account for every trade when the loaded candles are spelled as requested, and for none when no
  requested name is spelled as configured (`BacktestReconciliation.SpellingDecidesSlices`). A
  lower-case request over candles under their configured names is accepted, trades, and shows empty
  slices (`BacktestSample.LowerCaseHidesTrade`). The HTTP loader does not deliver such candles: it
  builds them under the name as given and refuses it (backend/app/backtest/data.py:42-43). The
  parameter search does, and a lower-case search loses the whole consistency part of its scores
  (`OptimizerGuarantees.LowerCaseLosesConsistency`).
* A journal holds only the newest trades, so it explains the balance of a long backtest exactly when
  the forgotten trades sum to zero (`BacktestReconciliation.BalanceReconciles`,
  `BacktestReconciliation.ForgottenTradesBreakBalance`).
* README.md line 116 of the repository says that the holdout is unavailable before the final
  evaluation. The walk-forward study of the selected candidate reads it whenever one of the windows
  of the request ends in it, as with thirty days and the default fractions and windows; selection
  does not (`OptimizerGuarantees.WalkForwardReadsHoldout`,
  `OptimizerGuarantees.DefaultSearchReadsHoldout`, `OptimizerGuarantees.HoldoutDoesNotRank`).
* Below zero equity the one-pass drawdown can understate the greatest fall. It is right exactly when
  it reaches, for every negative balance, the fall from the lowest positive one before it
  (`Drawdown.RunningIsWorstIff`, `Drawdown.NegativeValuesAreUnderstated`).
* Correcting the latest closed candle discards a newer forming candle
  (`MarketStore.FormingIsLostIff`, `MarketStore.CorrectionDropsForming`).

## Model

| member | source | states |
|---|---|---|
| Indicators.SymbolIndicatorState.StepRsi | backend/app/indicators/engine.py:124-140 | the seed lists and averages updated in place follow the value-level RSI update, and the reading returned is its reading |
| Indicators.SymbolIndicatorState.StepAtr | backend/app/indicators/engine.py:142-152 | the same for the true-range average |
| Indicators.SymbolIndicatorState.StepVwap | backend/app/indicators/engine.py:154-162 | the daily sums restart on a new UTC day; there is no VWAP without traded volume |
| Indicators.SymbolIndicatorState.AdvanceInPlace | backend/app/indicators/engine.py:93-115 | one accepted candle changes every field exactly as the value-level step does and yields its snapshot |
| Indicators.IndicatorEngine.ProcessCandle | backend/app/indicators/engine.py:73-91 | open candles are ignored, an invalid candle raises and changes nothing, a late one is dropped, and only the candle's own key changes |
| IndicatorBatch.SmoothedInClosedForm | backend/app/indicators/calculations/ema.py:8-9 | smoothing step by step equals the decayed seed average plus the decayed sum of later values |
| IndicatorBatch.RsiIsShareOfMovement | backend/app/indicators/calculations/rsi.py:4-12 | RSI is the share of the average gain in the average movement, always between 0 and 100 |
| IndicatorBatch.TrueRangeIsSpread | backend/app/indicators/calculations/atr.py:4-8 | the true range is the span from the previous close to the far end of the candle: the higher of high and previous close less the lower of low and previous close |
| IndicatorBatch.AverageIsMean | backend/app/indicators/calculations/ema.py:4-5 | an average times the number of its values is their total |
| IndicatorBatch.AdvanceMatchesBatch | backend/app/indicators/engine.py:93-162 | one candle keeps every running value equal to its batch definition over the longer log, and the snapshot is the batch snapshot |
| IndicatorBatch.AcceptedIsIncreasing | backend/app/indicators/engine.py:80-86 | the accepted candles of a key are strictly increasing in time and none of its eligible candles is newer than the last one |
| IndicatorBatch.EngineRefinesBatch | backend/app/indicators/engine.py:73-91 | for any stream the state of a key is the batch state over its record-setting closed candles; duplicates, late, open and other candles have no effect |
| IndicatorBatch.PublishesBatchSnapshot | backend/app/indicators/engine.py:73-115 | a snapshot is published exactly for a record-setting candle, and holds the seeded EMA, Wilder RSI, the Wilder average of the spans from the previous close, daily VWAP and windowed volume of the log, each in its own field, or none while one is missing |
| IndicatorBatch.ReadyIff | backend/app/indicators/engine.py:99-115 | a snapshot is ready exactly when the longest window is filled and the day has traded |
| IndicatorBatch.AveragesStayWithinInputs | backend/app/indicators/engine.py:117-152 | EMAs lie between the extreme closes and ATR between the extreme true ranges |
| IndicatorBatch.VwapStaysWithinDay | backend/app/indicators/engine.py:154-162 | VWAP lies between the lowest low and highest high of its day |
| IndicatorBatch.RsiStaysInRange | backend/app/indicators/engine.py:124-140 | RSI is between 0 and 100 on every reachable state |
| Market.ValidateCandle | backend/app/market/validator.py:9-30 | a candle passes exactly when its symbol and timeframe are configured and its prices and times are well formed |
| Strategy.Evaluate | backend/app/strategy/rules.py:22-84 | the accumulating evaluation yields the direction, the total of the weights of the passing rules, and whether all five pass |
| Strategy.PassingMeansFullScore | backend/app/strategy/rules.py:39-84 | scores lie in 0-100; all mandatory rules pass exactly at 100, whatever the minimum score |
| Strategy.ScoreWrittenOut | backend/app/strategy/rules.py:39-84 | the direction is that of the averages, the score adds 30, 20, 20, 20 and 10 for the five comparisons written out for that direction, with its own side of VWAP and its own RSI band, and a hundred points mean all five |
| Strategy.SignalWrittenOut | backend/app/strategy/engine.py:51-71 | a signal to trade is given exactly on a feed that is not stale for a ready snapshot that meets all five, and carries the snapshot's own times, price and range |
| Strategy.StrategyEngine.Process | backend/app/strategy/engine.py:33-71 | one signal for each newer snapshot of a key, a forced no-trade on a stale feed, and the watermark moved; the signal says what SignalWrittenOut says |
| Risk.RiskEngine.Process | backend/app/risk/engine.py:40-54 | one plan for each newer signal of a key, none for an older or repeated one |
| RiskGuarantees.SizingRefusesIff | backend/app/risk/sizing.py:6-19 | levels, sizes and caps are refused exactly without a direction or for an amount that is not positive |
| RiskGuarantees.SizeRespectsBudgets | backend/app/risk/sizing.py:6-19 | the size keeps the risk budget and the notional cap, and attains one of them |
| RiskGuarantees.EconomicsOfSize | backend/app/risk/engine.py:71-93 | the reward ratio is the target ratio, and costs leave a reward exactly when the stop distance in basis points outweighs the round trip, whatever the account |
| RiskGuarantees.LevelsAreOrdered | backend/app/risk/stops.py:8-16 | stop and target lie on opposite sides of the entry, at the stop distance and at the target multiple of it |
| RiskGuarantees.ApprovedIff | backend/app/risk/engine.py:56-100 | a plan is approved exactly when it has no rejection reason, and exactly when signal, feed, stop distance and economics allow it, a position is free, today's loss is below the limit, and the new risk, alone and with that loss, stays within it |
| RiskGuarantees.ApprovedPlanKeepsBudgets | backend/app/risk/engine.py:69-100 | an approved plan is complete and keeps the per-trade risk, the notional, the position limit and the daily limit on today's loss and the new risk, with ordered levels and a positive net reward |
| RiskGuarantees.ApprovedPlanFigures | backend/app/risk/engine.py:69-100 | stop distance, planned risk, size, reward, fees and slippage of an approved plan, each from the signal, the account and the settings |
| PaperEngine.PaperRepository.PersistOpening | backend/app/db/repositories/paper.py:84-88 | account and position row are written together |
| PaperEngine.PaperRepository.PersistClosing | backend/app/db/repositories/paper.py:90-95 | account written, position row deleted, trade row inserted unless it exists |
| PaperEngine.PaperExecutionEngine.ResetDayIfNeeded | backend/app/execution/paper_engine.py:198-205 | a new UTC day clears only today's result, writes the account, and is reported |
| PaperEngine.PaperExecutionEngine.Close | backend/app/execution/paper_engine.py:177-192 | the close with its fill, fees, counters and bounded history is the value-level close |
| PaperEngine.PaperExecutionEngine.Update | backend/app/execution/paper_engine.py:157-175 | stop before target, gap opens first, otherwise a new mark |
| PaperEngine.PaperExecutionEngine.FillOne | backend/app/execution/paper_engine.py:95-102 | a waiting plan of the symbol fills or is cancelled, and stops waiting either way |
| PaperEngine.PaperExecutionEngine.ProcessMarketCandle | backend/app/execution/paper_engine.py:80-107 | day reset, then positions, then waiting plans, each with its write; the report tells the risk engine exactly when something changed |
| PaperEngine.PaperExecutionEngine.Submit | backend/app/execution/paper_engine.py:54-74 | a plan is refused without identity, during recovery, while paused or when seen; otherwise remembered, and queued if valid |
| PaperEngine.PaperExecutionEngine.RestoreState | backend/app/execution/paper_engine.py:227-241 | rows become open positions awaiting recovery, history is the newest stored trades, and recovery is pending exactly if there are positions; the risk engine is told, and refuses the account exactly when equity is not positive |
| PaperEngine.PaperExecutionEngine.ReconcileRecoveredPositions | backend/app/execution/paper_engine.py:243-275 | missed candles are replayed per position, closes written at once, and a failed download or a refused account ends in the error state |
| Fills.FillOrCancel | backend/app/execution/paper_engine.py:109-155 | a waiting plan opens a position, with the plan's levels and size, an adverse fill and its fee paid at once, exactly if it is still fresh and complete, its feed works and there is room; otherwise it is cancelled and nothing else changes |
| Fills.CandleOpensFillable | backend/app/execution/paper_engine.py:95-102 | what is open after a candle was open before, or comes from such a plan that waited for the symbol |
| Fills.LatePlansAreCancelled | backend/app/execution/paper_engine.py:125-127 | a plan that is too old when its candle comes, or meets a stale, disconnected or failed feed, never opens and waits no more |
| Fills.AcceptedIff | backend/app/execution/paper_engine.py:54-74 | a plan is accepted exactly if recovery is complete, entries are not paused, its identity is not among the newest remembered, and it is fresh and complete |
| Fills.ExitWrittenOut | backend/app/execution/paper_engine.py:157-166 | a long exits at the lower of open and stop once the low reaches the stop, otherwise at the higher of open and target once the high reaches it; a short the other way round |
| Marks.CandleValues | backend/app/execution/paper_engine.py:157-175 | after a candle every open position of its symbol is valued at its close, less the fee that closing there would cost, and the others are untouched |
| Marks.EveryPositionIsMarked | backend/app/execution/paper_engine.py:172-175 | at every point of a replay each open position is valued so at the last close of its symbol |
| Marks.EquityIsWorth | backend/app/execution/paper_engine.py:194-196 | equity is right exactly when it is the starting balance, plus the trades made, plus what the open positions are worth at those closes |
| LedgerInvariants.CloseIsSound | backend/app/execution/paper_engine.py:177-192 | a close keeps cash, realized result, fees, counters and win rate explained by positions and trades, and moves one identity from open to traded |
| LedgerInvariants.CandleIsSound | backend/app/execution/paper_engine.py:80-107 | a candle keeps the ledger balanced and every identity used once, within the position limit; afterwards no plan waits for its symbol |
| LedgerInvariants.PlanIsSound | backend/app/execution/paper_engine.py:54-74 | a submitted plan with a fresh identity keeps the ledger balanced and identities disjoint |
| LedgerInvariants.AcceptedPlanIsSoundIff | backend/app/execution/paper_engine.py:54-74 | an accepted plan keeps the ledger sound exactly when its identity is neither open nor traded |
| LedgerInvariants.PlanOnlyWaits | backend/app/execution/paper_engine.py:54-74 | acceptance needs open gates, a new identity and a valid plan, and changes only what waits |
| LedgerEquity.EquityAfterClose | backend/app/execution/paper_engine.py:190-192 | after a close equity is cash plus unrealized exactly when the other positions' unrealized results sum to zero |
| LedgerEquity.CandleKeepsEquity | backend/app/execution/paper_engine.py:157-196 | with one position allowed, equity is cash plus unrealized result after every candle |
| LedgerEquity.EquityAfterCandle | backend/app/execution/paper_engine.py:80-107 | with any number of positions: after a candle equity is right exactly when a plan filled, the last position reached survived, or what is left sums to zero |
| ForwardRuns.FreshRunsKeepEquity | backend/app/execution/paper_engine.py:157-196 | with one position allowed, equity is cash plus unrealized result throughout every forward run without a restart |
| LedgerEquity.TwoPositionsBreakEquity | backend/app/execution/paper_engine.py:190 | a concrete sound book of two positions whose equity one stop-out makes wrong |
| LedgerEquity.CandleKeepsToday | backend/app/execution/paper_engine.py:198-205 | with a clock that never goes back, today's result is exactly that of the trades closed today |
| Durability.CandleIsDurable | backend/app/execution/paper_engine.py:80-107 | after every single transaction of a candle the stored rows balance and agree with memory at the end |
| Durability.ReconcileIsDurable | backend/app/execution/paper_engine.py:243-275 | the same for every transaction of a recovery, failed or finished |
| StoredMarks.CandleStoresMarks | backend/app/execution/paper_engine.py:86-102 | after a complete candle every position of its symbol is stored as it is in memory, mark and time included; a forming candle, like one of another symbol, leaves the row of a position that stays open as it was |
| ForwardLives.CandleMoves | backend/app/execution/paper_engine.py:80-107 | a candle only moves identities on: from waiting to open, from open to closed, or from waiting to cancelled |
| ForwardLives.RecoveryMoves | backend/app/execution/paper_engine.py:243-275 | a recovery moves identities from open to closed and writes only of identities in the book |
| ForwardRuns.RunIsSoundIff | backend/app/market/service.py:91-118 | on every run of candles, verdicts, pauses, recoveries and restarts, with any feed and clocks, the book is sound throughout exactly when no event has a valid plan accepted whose identity was stored before the last restart |
| ForwardRuns.EveryRunIsConsistent | backend/app/market/service.py:91-118 | as long as no event does so, every prefix of the writes balances as well, and every identity in the book is behind the watermarks or was stored |
| ForwardRuns.EveryPlanHasOneFate | backend/app/execution/paper_engine.py:54-107 | on such runs accepted plans are exactly those waiting, open, closed, cancelled or lost in a restart, and none is in the book twice |
| ForwardRuns.NothingIsAcceptedTwice | backend/app/execution/paper_engine.py:66-69 | until the first restart nothing is lost and no identity is accepted twice, although only a bounded number is remembered |
| ForwardRuns.EveryCrashPointBalances | backend/app/db/repositories/paper.py:84-100 | at any crash point of such runs stored cash is the starting balance plus stored results less open entry fees, and no identity is both open and traded |
| ForwardRuns.OnlyStoredRepeats | backend/app/risk/engine.py:44-51 | past the watermark an identity is in the book exactly when it was stored before the process started |
| ForwardWarmUp.NewerRunsDoNotRepeat | backend/app/risk/engine.py:44-51 | if after every restart each key goes on with candles newer than what was stored of it, no stored identity is repeated |
| ForwardWarmUp.WarmRunsDoNotRepeat | backend/app/indicators/engine.py:60-71 | if the warm-up after every restart reaches what was stored, none is repeated whatever candles follow |
| ForwardSample.RepeatedCandlesBreakBook | backend/app/main.py:102-148 | a run of seven events from the empty store, with one restart whose warm-up fails and two candles delivered again after it, ends in an unsound book |
| Session.CandleOpensOnlyWaiting | backend/app/execution/paper_engine.py:95-102 | a candle opens only positions whose plans were waiting |
| Session.RecoveryBlocksEntries | backend/app/execution/paper_engine.py:60-66 | until recovery completes no candle opens anything and no plan is accepted |
| ForwardPauses.PauseBlocksNewPlans | backend/app/execution/paper_engine.py:63-78 | on every run that has repeated no stored identity, from a pause until entries are released or the process restarts, only plans already waiting may open |
| ForwardPauses.PausedAfterRestartIff | backend/app/main.py:100-150 | after restore, warm-up, recovery and the first validation, entries are paused exactly when that verdict fails and failures pause |
| ForwardPauses.RestartMattersIff | backend/app/validation/engine.py:52-55 | the first verdict leaves a lost pause lost exactly when it is a manual pause, a small sample in good health, or a failure that does not pause |
| ForwardPauses.RestartLosesPause | backend/app/main.py:149-150 | a session paused for its health is open after a restart in good health with a small sample, and accepts a plan it refused |
| ForwardVerdicts.PauseEndsOnlyWithPass | backend/app/validation/engine.py:45-64 | on any run whose pauses are the verdicts on the trades stored by then, a pause ends before a restart only at an event with which those trades pass |
| ForwardVerdicts.FailedFlatSessionNeverRecovers | backend/app/validation/engine.py:45-64 | if a paused session holds nothing and its stored trades are not acceptable, it stays paused, empty and unchanged until a restart |
| Session.CloseBalancesIffFresh | backend/app/db/repositories/paper.py:90-95 | a close keeps the stored rows balanced exactly when the identity has no trade row yet |
| Recovery.AttemptConserves | backend/app/execution/paper_engine.py:243-275 | a recovery stopped after any of its writes leaves positions, trades and balance destined for the same end |
| Recovery.FinishedOwesNothing | backend/app/execution/paper_engine.py:248-268 | a finished recovery leaves no stored position that a missed candle closes |
| Recovery.RecoveryIsExactlyOnce | backend/app/execution/paper_engine.py:227-275 | two recoveries from the same rows over the same candles, each interrupted anywhere and any number of times, end with the same positions, trades and cash |
| RecoveredBook.MissedAre | backend/app/execution/paper_engine.py:252-261 | a position meets exactly the candles that closed after it was last written, or after its signal's candle if it never was, in order of opening |
| RecoveredBook.FinishedRecoveryReopens | backend/app/execution/paper_engine.py:243-275 | a recovery finishes exactly if every download answered and equity is positive, and then every position left is open again |
| Exits.ExitIsInsideCandle | backend/app/execution/paper_engine.py:157-170 | every exit trigger of a well-formed candle lies between its low and its high |
| Exits.ReplayIsConservative | backend/app/execution/paper_engine.py:157-170 | replaying the finished candle gives the live exit, or the stop where the live engine took the target, at a strictly worse trigger |
| Exits.ReplayOfManyIsConservative | backend/app/execution/paper_engine.py:157-170 | the same over any number of candles, watched as they form or replayed when finished |
| Exits.DisagreementCosts | backend/app/execution/paper_engine.py:177-192 | then the replayed result is strictly lower exactly when costs leave a positive share of a price change |
| Exits.RecoverySkipsTheFillCandle | backend/app/execution/paper_engine.py:252-261 | the fill candle is not replayed; the outcome is right exactly when that candle reaches no level or the later ones happen to agree |
| Exits.SkippedStopBecomesTarget | backend/app/execution/paper_engine.py:252-261 | a concrete stop-out that recovery turns into a winner |
| Exits.StopOutLoss | backend/app/execution/paper_engine.py:124-192 | a stop-out of an approved plan loses the planned risk plus drift plus slippage on both sides plus fees, and the planned risk keeps the budget |
| Backtest.ReplayAll | backend/app/backtest/engine.py:49-101 | the replay loop over the live engines equals the fold over candles and stops at the first error |
| Backtest.ReplaySession.ReplayOne | backend/app/backtest/engine.py:88-97 | one candle: execution at the open, then analysis, then the equity point |
| BacktestInvariants.EveryReplayIsSound | backend/app/backtest/engine.py:49-101 | with no assumption on identities the ledger stays sound in every replay, gates stay open, and every position and trade has the life its candles dictate |
| BacktestInvariants.SubmitKeepsBook | backend/app/risk/engine.py:44-51 | a plan whose candle passed the watermark has an identity never used before |
| BacktestInvariants.ApprovedPlansWait | backend/app/execution/store.py:17 | in a replay every approved plan is accepted, although only a bounded number of identities is remembered |
| PlannedTrades.EveryReplayIsPlanned | backend/app/backtest/engine.py:64-111 | at every point of a replay each position and each trade has the direction, levels, size and risk of the plan recorded under its identity, and every recorded plan was made at the close of a candle of that identity |
| NoLookahead.ReplayIsChronological | backend/app/backtest/engine.py:35 | a replay runs through exactly the loaded candles that open and close within the request, ordered by time and symbol |
| NoLookahead.PositionsFollowSignals | backend/app/backtest/engine.py:88-94 | an open position was entered at the open of a candle that opens strictly after its signal's candle, and no candle of its symbol since has reached a level |
| NoLookahead.TradesFollowSignals | backend/app/backtest/engine.py:88-94 | a trade has three candles of its symbol, strictly in order: its signal's, its entry's at the open, and the first later one to reach a level, which ends it stop first with both slippages and fees |
| NoLookahead.JournalNeverLooksAhead | README.md:113 | every journal entry was planned at the close of a loaded candle with a score of 100, between the stop and target it shows and within its planned risk, entered at the open of a strictly later one, and ended by a later one that reaches one of those levels, stop first, while every candle in between lies strictly inside them; prices, fees and results follow from those candles by the slippage and the fee of the settings |
| NoLookahead.PrefixDecides | backend/app/backtest/engine.py:88-97 | equity points and trades shown after n candles are the beginning of those shown at the end |
| NoLookahead.FutureDoesNotMatter | backend/app/backtest/engine.py:88-97 | two replays that agree on n candles agree on n equity points and on all trades not closed by later candles |
| NoLookahead.WallClockDoesNotMatter | backend/app/strategy/engine.py:51-71 | signals are dated by the wall clock, yet a replay of the past has the same result whenever it is run |
| BacktestReconciliation.RiskEngineKnowsTheAccount | backend/app/execution/paper_engine.py:207-213 | throughout a replay the risk engine sizes with the ledger's own account, and equity is positive |
| BacktestReconciliation.ReportedDrawdownIsWorst | backend/app/backtest/engine.py:86-97 | the reported drawdown is the greatest percentage fall between any two moments, the start included |
| BacktestReconciliation.BalanceReconciles | backend/app/backtest/engine.py:98-121 | ending less starting balance is the journal's net result plus what open positions carry, exactly when forgotten trades sum to zero |
| BacktestReconciliation.DailyLossIsTodays | backend/app/risk/models.py:11-22 | the daily result that limits new plans is that of the trades closed on that day |
| BacktestReconciliation.ApprovedPlansKeepDailyLimit | backend/app/risk/guards.py:40-50 | in a replay a plan is approved only if the loss of the trades closed that day is below the limit, and stays within it with the plan's own risk added |
| BacktestReconciliation.ForgottenTradesBreakBalance | backend/app/backtest/engine.py:98-121 | with one trade remembered, any two winning trades make a sound book whose gain exceeds what its journal explains by the first trade's result |
| BacktestReconciliation.SlicesCoverIffNamed | backend/app/backtest/engine.py:119-120 | symbol slices account for all trades exactly when every journalled symbol is a key of the slices, for any request, repeated names included |
| BacktestReconciliation.SpellingDecidesSlices | backend/app/backtest/engine.py:119-120 | if the loaded candles in range are spelled as requested the slices account for every trade and the net result; if no requested name is spelled as configured they are empty and do so exactly when there is no trade |
| BacktestSample.LowerCaseHidesTrade | backend/app/backtest/engine.py:103-121 | a concrete accepted request in lower case whose backtest makes a trade that no slice shows |
| BacktestReconciliation.DirectionsCover | backend/app/backtest/analytics.py:8-14 | long and short slices always add up to all trades and the net result; a symbol not spelled as configured never has any |
| BacktestFigures.SummaryFigures | backend/app/backtest/engine.py:113-121 | every figure of a summary over its own journal and curve: counts, win rate, sums, profit factors, multiples of risk, expectancy, the greatest drawdown, the return, and the slices |
| BacktestFigures.CountsOfBacktest | backend/app/backtest/engine.py:56-80 | the counts number the recorded plans, one for each signal: by direction, by approval, and for each reason of rejection |
| BacktestFigures.RequestIsAcceptedIff | backend/app/backtest/engine.py:41-47 | a request is accepted exactly for the configured timeframe and symbols, in any case, and less than one day more than the longest span |
| Marks.CurveIsWorth | backend/app/backtest/engine.py:88-97 | with one position allowed every point of the curve is the starting balance, plus the trades made by then, plus what the open position is worth at the last close, and falls so far below the highest point so far |
| ScalingSignals.ProcessScales | backend/app/indicators/engine.py:93-162 | indicators of rescaled candles are the rescaled indicators, with RSI unchanged |
| ScalingSignals.EvaluationIgnoresUnits | backend/app/strategy/rules.py:39-78 | scores and directions do not depend on the units of price and volume |
| ScalingSignals.BuildPlanScales | backend/app/risk/engine.py:56-100 | plans in other units are the plans in those units, with the same approval and reasons |
| ScalingBook.ProcessCandleScales | backend/app/execution/paper_engine.py:80-196 | the ledger in other units makes the same entries and exits |
| ScalingReplay.BacktestCommutesWithUnits | backend/app/backtest/engine.py:31-121 | a whole backtest in other units of price, volume and money is the backtest in those units, errors included |
| ScalingReplay.PriceUnitsDoNotMatter | backend/app/backtest/engine.py:31-121 | multiplying all prices and volumes leaves every money amount, ratio and equity point unchanged and divides quantities |
| ScalingReplay.BalanceScalesEverything | backend/app/backtest/engine.py:31-121 | a larger starting balance gives the same trades, all money scaled, all ratios and percentages unchanged |
| Optimizer.WalkForward | backend/app/optimization/engine.py:254-267 | the cursor loop yields the fold of every window, or the first error |
| Optimizer.AddStability | backend/app/optimization/engine.py:212-226 | every candidate gets the stability computed from the scores of its neighbours |
| Optimizer.EvaluateGrid | backend/app/optimization/engine.py:63-74 | combinations are evaluated in order, invalid ones noted, and the first replay error ends the run |
| Optimizer.Optimize | backend/app/optimization/engine.py:54-91 | the whole run: baseline, grid, stability, selection, research on the selected candidate only |
| OptimizerGuarantees.SegmentsShareNoCandle | backend/app/optimization/engine.py:144-149 | training, validation and holdout are ordered within the request despite rounding and share no candle |
| OptimizerGuarantees.BacktestFromPast | backend/app/backtest/engine.py:35 | a backtest depends on no candle that closes after its end |
| OptimizerGuarantees.HoldoutDoesNotRank | backend/app/optimization/engine.py:54-81 | candles after validation change no metric, score, eligibility, stability or selection |
| OptimizerGuarantees.HoldoutChangesOnlyWalkForward | backend/app/optimization/engine.py:235-252 | in two finished runs that differ in the holdout only the walk-forward folds and their flag can differ |
| OptimizerGuarantees.WalkForwardReadsHoldout | README.md:116 | the walk-forward study reads the holdout exactly when one of the windows of the request, k steps after its start, ends in the holdout, which a holdout of one step or more guarantees |
| OptimizerGuarantees.DefaultSearchReadsHoldout | backend/app/optimization/models.py:10-22 | thirty days with the default fractions and windows are such a request |
| OptimizerGuarantees.LowerCaseLosesConsistency | backend/app/optimization/engine.py:136-175 | a search in lower case loads its candles in upper case and replays them under the names as given: no symbol counts as positive, and no score exceeds eighty |
| OptimizerGuarantees.SelectionIsBest | backend/app/optimization/engine.py:75-77 | scores and stabilities lie in 0-100, eligibility is exactly the three gates, and the selection is the first eligible candidate with the highest score |
| OptimizerGuarantees.NeighboursAreMutual | backend/app/optimization/engine.py:228-233 | being one parameter apart is mutual |
| OptimizerGuarantees.GridIsComplete | backend/app/optimization/engine.py:151-156 | the search tries exactly the choices of one value per axis, and nothing when there is no axis |
| OptimizerGuarantees.FoldsAreTheWindows | backend/app/optimization/engine.py:254-267 | the folds are exactly the windows that fit into the request, one step apart |
| OptimizerFigures.SegmentsTakeTheirFractions | backend/app/optimization/engine.py:144-149 | training lasts the training fraction of the request and validation the validation fraction, each to within half a millisecond |
| OptimizerFigures.ThirtyDaysAreSplit | backend/app/optimization/models.py:10-22 | thirty days with the default fractions train on the first eighteen and validate on the next six |
| OptimizerFigures.CandidateIsSetAs | backend/app/optimization/engine.py:158-163 | a combination is valid exactly if its values fit their fields and some accepted settings have them and agree with the engine's elsewhere, and those are then the candidate's |
| OptimizerFigures.EveryCandidateTells | backend/app/optimization/engine.py:165-226 | in a finished search every candidate's metrics are those of backtests of its own settings over the training and validation spans of the request, and its score, flags and stability follow from them |
| OptimizerFigures.ResearchTells | backend/app/optimization/engine.py:235-252 | the selected candidate is validated again at its own trading costs, at one and a half times and at twice these, every fold has the metrics of a backtest over its own validation days, and the flags of the study follow from those results |
| OptimizerFigures.GridSizeIsCounted | backend/app/optimization/engine.py:151-156 | the number of combinations is the product of the numbers of values |
| Drawdown.RunningIsWorstIff | backend/app/validation/rules.py:15-25 | the running-peak drawdown is the maximum over all pairs of moments exactly when it reaches, for every negative balance, the fall from the lowest positive balance before it |
| Drawdown.RunningNeverExceeds | backend/app/validation/rules.py:15-25 | whatever the values it never exceeds that maximum |
| Drawdown.FallIsPercent | backend/app/validation/rules.py:15-25 | a fall times the value it falls from is a hundred times the difference |
| Drawdown.NegativeValuesAreUnderstated | backend/app/validation/rules.py:15-25 | a concrete balance history below zero for which it is too small |
| Validation.WalkTrades | backend/app/validation/rules.py:15-25 | the loop over trades computes balance, peak, drawdown and the time of the last high |
| Validation.ForwardDrawdownIsWorst | backend/app/validation/rules.py:9-37 | that balance is the starting balance plus all results, and the drawdown is the greatest fall between any two moments exactly when that condition holds of the balances |
| Validation.MaximumLosingStreak | backend/app/validation/rules.py:40-45 | the result is the length of the longest contiguous run of losses in order of closing |
| Validation.DailyLockEvents | backend/app/validation/engine.py:134-139 | the number of days whose net result reaches the daily loss limit |
| Validation.HardFailures | backend/app/validation/engine.py:88-107 | no hard rule fails exactly when expectancy, profit factor, drawdown, every losing run, locked days and symbol coverage are all acceptable |
| Criteria.PassesIff | backend/app/validation/engine.py:83-128 | a session passes exactly if it is not paused, healthy, old enough and with enough trades, and mean multiple of risk, net result, won against lost, drawdown, losing runs, days that lost the daily limit and healthy symbols all satisfy the settings, each as a sum or a count over the trades |
| Validation.ValidationEngine.Evaluate | backend/app/validation/engine.py:45-64 | the verdict follows health, sample and rules, and moves only the pause flag of the paper engine |
| Validation.PauseFollowsLastConclusion | backend/app/validation/engine.py:52-55 | with pausing on failure, over any sequence of verdicts entries are paused exactly if the last pass or fail was a fail |
| Validation.PauseLastsUntilPass | backend/app/validation/engine.py:52-55 | without it, a pause lasts exactly until the first pass |
| MarketStore.StoreRefinesLog | backend/app/market/store.py:20-50 | after any stream the closed candles are the newest of an unbounded, strictly ordered log and the forming candle is newer than all |
| MarketStore.RecentIsNewest | backend/app/market/store.py:52-68 | the getters return the newest candles ever known, in order, as if nothing had been dropped |
| MarketStore.NewestUpdateIsKept | backend/app/market/store.py:20-50 | an update that comes too late changes nothing, and any other is the newest closed candle or the forming one afterwards |
| MarketStore.FormingIsLostIff | backend/app/market/store.py:26-50 | a forming candle is lost exactly to a closed candle that is not late and is at least as new, or that corrects the latest closed one |
| MarketStore.CorrectionDropsForming | backend/app/market/store.py:33-38 | a concrete stream in which a correction discards a newer forming candle |
| MarketStore.CandleStore.GetRecentCandles | backend/app/market/store.py:60-68 | the list returned is the tail of the closed candles and the forming one of that key's own stream |
| MarketStore.CandleStore.GetLatestCandle | backend/app/market/store.py:52-55 | the forming candle, or else the last closed one |
| MarketStore.CandleStore.UpsertCandle | backend/app/market/store.py:20-50 | the update reports exactly whether anything changed and touches only its own key |
| RateLimiter.RequestRateLimiter.Allow | backend/app/core/operations.py:14-22 | a request is accepted exactly when fewer than the limit of accepted ones of its key lie in the window |
| RateLimiter.NeverTooMany | backend/app/core/operations.py:14-22 | however requests arrive, accepted ones the limit apart are at least a window apart |

## Left out

- LedgerEquity.CandleKeepsEquity: for one position at a time; with more the identity can fail, and EquityAfterCandle says exactly when.
- ForwardRuns.FreshRunsKeepEquity: for one position and runs without a restart; stored marks may be older than the stored equity.
- BacktestReconciliation.BalanceReconciles: for one position at a time, for the same reason.
- LedgerEquity.CandleKeepsToday: not for closes made during recovery, which do not reset the day first.
- Forward runs include streams with repeated candles, which the candle store would drop before any engine sees them while it runs; the store is empty after a restart. Their verdicts are arbitrary, except in ForwardVerdicts.
- NoLookahead.WallClockDoesNotMatter: for wall clocks not earlier than the candles by more than the allowed signal age.
- OptimizerGuarantees.HoldoutChangesOnlyWalkForward: for runs that finish; a bad candle in the holdout can still make the walk-forward study, and with it the run, fail.
- Recovery.RecoveryIsExactlyOnce: for the same downloaded candles on every attempt; trades are compared without their closing time, which is the time of the recovery.
- Decimal context rounding, JSON serialisation, UUIDs, message strings (rejection reasons are an enumeration) and signal confidence.
- One clock reading per locked step, where the code may read the clock several times within a step.
- Upper-casing of symbols covers ASCII letters only; timestamps are whole milliseconds, and segment times are rounded to them.
- Several sessions in one store, daily-metric and equity rows, audit, alert and signal rows, SQL and database errors.
- Which of two concurrent segment replays reports its error first; the model takes training before validation.
- Parameter names repeated in different case within one grid, and the upper bounds that settings place on some counts.
- Final holdout evaluation, the bounded stores of backtest and optimization runs, and latest and history getters of the engines.
- Largest, smallest and average wins and losses, validation warnings, rolling windows, health aggregation and alert cooldown.
- Event publication, logging, asyncio scheduling, the exchange adapter, HTTP and WebSocket routes and the frontend.
- The futures demonstration engine, which the configuration cannot reach.
