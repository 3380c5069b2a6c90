# evolvingTrader decision pipeline in Dafny

The project models the deterministic core of the evolvingTrader crypto trading bot. That core is:

- **Signal generators.** Each turns the latest bar's indicator values into an opinion: Buy, Sell or Hold, with a confidence and a rationale.
- **Fusion step.** It turns the opinions into one decision, with a position size and stop-loss and take-profit levels. There are three strategy variants:
  - the original strategy, with score fusion and a volume booster;
  - the optimized strategy, with five generators and vote fusion gated at `min_signal_confidence`;
  - the alternative strategy, with four generators and vote fusion gated at 0.6.
- **Live position book.** It opens one position per symbol, closes positions on stop-loss, take-profit or an opposing signal, and records each closed trade.
- **Single-position backtest replay.** It produces performance metrics, the longest winning and losing runs, and a grid search over parameters.
- **Risk manager.** It keeps bounded rolling histories. It scores a trade on five sub-assessments, derives a combined score and a risk level, and computes size ceilings and adjustments.
- **Ledger statistics.** The dashboard computes these from the trades file; so do the strategy analyzer and the trade logger's cumulative series.
- **Market analyzer.** It holds the regime, sentiment, support/resistance and chart-pattern rules.
- **Response parsing.** It extracts structured analysis from the LLM's text reply, falls back to heuristics when that fails, and filters insight lines.
- **Safe-trading limits.** These are clamps on the configured values.
- **Trading engine tick.** One tick runs the periodic tasks and gates execution on confidence.
- **Memory client.** It encodes a digest as a vector, builds record keys, and computes a pattern-effectiveness ratio.

**How the model represents the program**

- Indicator values arrive precomputed. A pandas NaN becomes `None`, and a comparison with it is False.
- Python floats become Dafny `real`, so arithmetic is exact.
- A NumPy division by zero becomes an explicit `Quotient`: `+inf`, `-inf` or NaN.
- The exceptions the code raises and swallows become `Result` values.
- A dictionary that a method mutates becomes a class field:
  - the open positions: `EvolvingStrategy.PositionBook`;
  - the risk buffers: `Risk.RiskManager`;
  - the pattern database: `MarketAnalysis.MarketAnalyzer`;
  - the trades and performance files: `TradeLog.TradeLogger`;
  - the engine clocks: `Engine.TradingEngine`.
- Each loop of the source is a method with invariants. The method is proved equal to a specification function, and lemmas prove what that function means.

## Model

| member | source | states |
|---|---|---|
| EvolvingStrategy.Momentum | src/strategy/evolving_strategy.py:247-300 | Undefined RSI gives Hold/0.0/""; confidence in [0,1]; non-Hold iff confidence > 0.6; Buy iff confidence > 0.6 and (RSI oversold or MACD above its signal line); rationale starts with "Momentum: " |
| EvolvingStrategy.MeanReversion | src/strategy/evolving_strategy.py:302-342 | Any undefined band gives Hold; confidence in [0,1]; non-Hold iff confidence > 0.5; Buy iff it fires with band position < 0.1; a firing signal has band position < 0.1 or > 0.9 |
| EvolvingStrategy.Trend | src/strategy/evolving_strategy.py:344-382 | Undefined EMA gives Hold; confidence in [0,1]; Buy iff price > fast > slow; Sell iff price < fast < slow |
| EvolvingStrategy.Volume | src/strategy/evolving_strategy.py:384-409 | Never a direction; confidence in [0,0.7]; positive iff the volume ratio exceeds the threshold or 2.0 |
| EvolvingStrategy.Vote | src/strategy/evolving_strategy.py:420-439 | A Buy adds confidence·weight to the buy score only, a Sell to the sell score only, a Hold to neither |
| EvolvingStrategy.FusedScores | src/strategy/evolving_strategy.py:441-446 | The volume boost is added to exactly one score: the buy score when it strictly leads, otherwise the sell score |
| EvolvingStrategy.VolumeBoostKeepsLeader | src/strategy/evolving_strategy.py:441-446 | A non-negative boost never changes a strict leader, and a positive boost on a tie makes Sell lead |
| EvolvingStrategy.Fuse | src/strategy/evolving_strategy.py:449-462 | Buy iff buy > sell and buy > 0.6, symmetric for Sell; confidence is the winning score or 0 for Hold; size ≤ max and 0 for Hold; rationale is the " \| "-join of the non-empty rationales |
| EvolvingStrategy.Combine | src/strategy/evolving_strategy.py:411-483 | Decision equals the fused verdict, with stop and target levels taken at the supplied entry price |
| EvolvingStrategy.CombineAsWritten | src/strategy/evolving_strategy.py:468-474 | Fails with NameError("current_price") exactly when the fused signal is not Hold; otherwise a Hold without levels |
| EvolvingStrategy.TradeNeedsTwoAgreeing | src/strategy/evolving_strategy.py:420-458 | With the default weights, a fused Buy (Sell) needs two of the three directional generators to say Buy (Sell) |
| EvolvingStrategy.GenerateSignals | src/strategy/evolving_strategy.py:201-245 | At most one signal; none iff the fused signal is Hold; an emitted signal has both protective levels |
| EvolvingStrategy.AsWrittenNeverSignals | src/strategy/evolving_strategy.py:222-245 | As written (the NameError is caught), `generate_signals` never returns a signal |
| EvolvingStrategy.AsWrittenLosesBuy | src/strategy/evolving_strategy.py:222-245 | A concrete snapshot on which the corrected pipeline emits a Buy while the as-written fusion raises NameError |
| EvolvingStrategy.OrderQuantity | src/strategy/evolving_strategy.py:496-507 | Zero entry price or step size gives ZeroDivisionError; otherwise the quantity is within half a step (of either sign) of balance·size/price |
| Common.RoundHalfEven | src/strategy/evolving_strategy.py:507 | Python's `round`: the nearest integer, within 0.5, ties going to the even one |
| EvolvingStrategy.Closing | src/strategy/evolving_strategy.py:637-655 | The closed-trade record carries the position's symbol, side and quantity, and P&L (exit−entry)·qty for a long, (entry−exit)·qty for a short |
| EvolvingStrategy.ExitPlan | src/strategy/evolving_strategy.py:577-613 | The positions chosen for closing, in dict order, each one held |
| EvolvingStrategy.ExitPlanExact | src/strategy/evolving_strategy.py:579-613 | A held symbol is in the plan, once, exactly when stop-loss, take-profit or an opposing signal fires for it |
| EvolvingStrategy.Closings | src/strategy/evolving_strategy.py:615-617 | One ledger record per planned closing, in plan order, each priced at that symbol's fill |
| EvolvingStrategy.PositionBook.constructor | src/strategy/evolving_strategy.py:85-86 | Starts with no positions and an empty history |
| EvolvingStrategy.PositionBook.ExecuteSignal | src/strategy/evolving_strategy.py:485-570 | A position is stored (at the end of the dict) iff the symbol is not held, the rounded quantity is positive and the order is placed; the result is True iff, in addition, the database writes succeed, so a failed write reports False with the position kept; otherwise nothing changes; history unchanged |
| EvolvingStrategy.PositionBook.ClosePosition | src/strategy/evolving_strategy.py:622-668 | For a held symbol, appends exactly one record with the side's P&L and removes the key; for an unknown symbol (KeyError caught) changes nothing |
| EvolvingStrategy.PositionBook.PlanExits | src/strategy/evolving_strategy.py:579-613 | Returns the exit plan over the positions in insertion order |
| EvolvingStrategy.PositionBook.CloseAll | src/strategy/evolving_strategy.py:615-617 | Appends the plan's closing records in order and removes exactly the planned symbols |
| EvolvingStrategy.PositionBook.MonitorPositions | src/strategy/evolving_strategy.py:574-620 | Closes exactly the positions whose exit rule fires, in dict order, recording one trade each, and keeps every other position |
| EvolvingStrategy.PerformanceSummary | src/strategy/evolving_strategy.py:706-731 | An empty history gives the three-figure summary (0, 0.0, 0.0); otherwise total P&L = Σ P&L, win rate = share of winners in percent, avg win/loss = the means of the winners and losers, profit factor = \|avg win / avg loss\| when some trade lost and infinite iff none did |
| EvolvingStrategy.SummaryFactorAboveOne | src/strategy/evolving_strategy.py:718-729 | The finite profit factor times the size of the average loss gives the average win, so it exceeds 1 iff the average winner outweighs the average loser |
| Signals.StopLevel | src/strategy/evolving_strategy.py:465-474 | None iff Hold; Buy stop p(1−sl); Sell stop p(1+sl) |
| Signals.TargetLevel | src/strategy/evolving_strategy.py:465-474 | None iff Hold; Buy target p(1+tp); Sell target p(1−tp) |
| Signals.ProtectiveLevelsBracketEntry | src/strategy/evolving_strategy.py:468-474 | For positive price and percentages, a Buy's stop is below the entry and its target above; mirrored for a Sell |
| Signals.Pnl | src/backtesting/backtester.py:378-386 | (exit−entry)·qty for a long, (entry−exit)·qty for a short |
| Signals.PnlMirror | src/strategy/evolving_strategy.py:639-642 | A long and a short between the same prices have opposite P&L; exiting at the entry price gives zero |
| Signals.ExitReason | src/backtesting/backtester.py:349-376 | Stop-loss iff the stop is hit; take-profit iff not stopped and the target is hit; exit signal iff neither and the fused opinion opposes the side, carrying its rationale |
| Signals.BandPositionBelow | src/strategy/evolving_strategy.py:317-322 | On a band of positive width, the band position is below (above) t iff the price is below (above) lower + t·width |
| OptimizedStrategy.Momentum | src/strategy/optimized_strategy.py:190-249 | Undefined RSI gives Hold; confidence in [0,0.9]; non-Hold iff confidence > min_individual_confidence; Buy iff it fires and (RSI oversold or MACD above signal) |
| OptimizedStrategy.MeanReversion | src/strategy/optimized_strategy.py:251-301 | Undefined bands give Hold; confidence in [0,0.7]; fires iff above the individual threshold; Buy iff it fires with band position < 0.4 |
| OptimizedStrategy.Trend | src/strategy/optimized_strategy.py:303-348 | With both EMAs defined, confidence in [0.4,0.7], so it always fires under the default 0.2 threshold; Buy iff fast > slow |
| OptimizedStrategy.Volume | src/strategy/optimized_strategy.py:350-379 | Never a direction; confidence in [0,0.5]; zero iff undefined or ratio within [0.8,1.2] |
| OptimizedStrategy.Stochastic | src/strategy/optimized_strategy.py:381-421 | Undefined %K or %D gives Hold; confidence in [0,0.5]; Buy iff it fires with %K < 30 |
| OptimizedStrategy.Combine | src/strategy/optimized_strategy.py:423-488 | Hold iff total < min_signal_confidence, else Buy iff buy votes > sell votes (tie to Sell); confidence = total = buy + sell; size ≤ max; levels at the supplied price |
| OptimizedStrategy.CombineAsWritten | src/strategy/optimized_strategy.py:473-479 | NameError exactly when the decision is not Hold |
| OptimizedStrategy.VolumeNeverVotes | src/strategy/optimized_strategy.py:442-455 | The volume opinion never changes the tally |
| OptimizedStrategy.TradeNeedsTwoVoters | src/strategy/optimized_strategy.py:442-463 | With the default 0.3 gate and the generators' confidence bounds, a trade needs at least two non-Hold opinions |
| AlternativeStrategy.Momentum | src/strategy/evolving_strategy_alternative.py:183-236 | Undefined RSI gives Hold; confidence in [0,1]; non-Hold iff confidence > 0.6; Buy iff it fires and (RSI oversold or MACD above signal) |
| AlternativeStrategy.MeanReversion | src/strategy/evolving_strategy_alternative.py:238-282 | Confidence in [0,0.8]; non-Hold iff > 0.6; Buy iff it fires with band position < 0.2, and then RSI < 40; Sell needs RSI > 60 and band position > 0.8 |
| AlternativeStrategy.Trend | src/strategy/evolving_strategy_alternative.py:284-323 | Confidence in [0,0.7]; non-Hold iff > 0.6; Buy iff price > fast > slow; Sell iff price < fast < slow |
| AlternativeStrategy.Volume | src/strategy/evolving_strategy_alternative.py:325-354 | Never a direction; confidence in [0,0.7]; zero iff undefined or ratio within [0.5,1.5] |
| AlternativeStrategy.Combine | src/strategy/evolving_strategy_alternative.py:356-420 | Hold iff total < min_signal_confidence, else Buy iff buy votes > sell votes (tie to Sell); confidence = buy + sell; size ≤ max; levels at the supplied price |
| AlternativeStrategy.CombineAsWritten | src/strategy/evolving_strategy_alternative.py:405-411 | NameError exactly when the decision is not Hold |
| AlternativeStrategy.TradeNeedsThreeVoters | src/strategy/evolving_strategy_alternative.py:374-395 | With the default 0.6 gate, a trade needs momentum, mean reversion and trend all to fire |
| VoteFusion.CountVotes | src/strategy/optimized_strategy.py:437-455 | The vote loop computes exactly the tally function of the ballots |
| VoteFusion.TallyAccounts | src/strategy/optimized_strategy.py:442-452 | total = buy votes + sell votes = the sum of confidence·weight over the non-Hold ballots |
| VoteFusion.TotalAtMostVotersTimesCap | src/strategy/optimized_strategy.py:442-447 | The total is at most the number of non-Hold voters times any bound on one weighted vote |
| VoteFusion.VotesNonNegative | src/strategy/optimized_strategy.py:442-452 | Non-negative confidences and weights give non-negative buy and sell votes |
| VoteFusion.HoldBallotIgnored | src/strategy/optimized_strategy.py:444 | A Hold ballot leaves the tally unchanged |
| VoteFusion.Decide | src/strategy/optimized_strategy.py:458-463 | Hold iff total < gate; Buy iff total ≥ gate and buy > sell; Sell iff total ≥ gate and buy ≤ sell |
| VoteFusion.Fuse | src/strategy/evolving_strategy_alternative.py:389-420 | Signal decided from the tally; confidence = total; size = min(total·max, max) ≤ max; levels at the price; rationale "; "-joined or "No clear signals" |
| VoteFusion.FuseAsWritten | src/strategy/evolving_strategy_alternative.py:405-411 | NameError("current_price") exactly when the decision is not Hold |
| Backtest.BarOf | src/backtesting/backtester.py:307-347 | A bar carries a signal iff the strategy emits one at that close; the signal is non-Hold with confidence > 0.6 |
| Backtest.BarAsWritten | src/backtesting/backtester.py:322-347 | As written (NameError swallowed), every bar carries no signal |
| Backtest.Step | src/backtesting/backtester.py:182-232 | One bar: the model stops with ZeroDivision iff an entry meets a zero close (see Left out); the equity curve grows by the marked balance; an exit appends the closed trade with its cause; a position exists afterwards iff one was entered or none was exited; an entry records side, close, stop and target |
| Backtest.Replay | src/backtesting/backtester.py:165-232 | The equity curve starts at the initial capital and has 1 + max(0, n−50) samples |
| Backtest.Finish | src/backtesting/backtester.py:234-251 | An open position is closed at the last close with reason "End of backtest" and its P&L credited; a flat run is unchanged |
| Backtest.Simulation | src/backtesting/backtester.py:161-251 | A completed simulation holds no position |
| Backtest.ErrSticks | src/backtesting/backtester.py:303-305 | Once the replay fails, every longer replay fails |
| Backtest.SimulateTrading | src/backtesting/backtester.py:161-251 | The per-bar loop computes exactly the simulation function |
| Backtest.SimulationAccounting | src/backtesting/backtester.py:187-239 | Final balance = initial capital − Σ entry notionals + Σ trade P&Ls |
| Backtest.RoundTripAtEntryPriceKeepsNotional | src/backtesting/backtester.py:209-239 | A trade entered and closed at the same price has zero P&L, yet the balance ends lower by the notional |
| Backtest.NoSignalNoTrades | src/backtesting/backtester.py:204-232 | Without signals, no trade happens, the balance stays at the initial capital and the equity curve is flat |
| Backtest.BacktestAsWrittenNeverTrades | src/backtesting/backtester.py:345-347 | With as-written bars the backtest makes no trade and keeps the initial balance |
| Backtest.EquityCurveMisaligned | src/backtesting/backtester.py:392-396 | The equity curve has as many samples as there are bars only for a single bar, so monthly returns are empty on any real run |
| Backtest.Peak | src/backtesting/backtester.py:269-270 | The running maximum bounds every sample of the curve and is one of them |
| Backtest.RelativeDrawdown | src/backtesting/backtester.py:269-272 | Non-negative, and at least the final fall from the peak in percent |
| Backtest.Fall | src/backtesting/backtester.py:269-271 | The fall at one sample below the running maximum up to it, in percent of that maximum, is non-negative |
| Backtest.FallsBounded | src/backtesting/backtester.py:269-272 | No sample falls further below its running maximum than the reported drawdown |
| Backtest.FallAttained | src/backtesting/backtester.py:269-272 | Some sample falls exactly the reported drawdown below its running maximum |
| Backtest.CurveDrawdown | src/backtesting/backtester.py:269-272 | Defined iff the curve is non-empty and starts positive; then it is RelativeDrawdown of the curve, non-negative |
| Backtest.RisingCurveNoDrawdown | src/backtesting/backtester.py:269-272 | A non-decreasing curve has zero drawdown and peaks at its last sample |
| Backtest.BacktestProfitFactor | src/backtesting/backtester.py:257-266 | 0 with no trades; infinite iff no trade lost; otherwise gross profit over gross loss, non-negative |
| Backtest.ProfitFactorBalances | src/backtesting/backtester.py:261-263 | A finite factor times the gross loss gives the gross profit, and it exceeds 1 iff the winners outweigh the losers |
| Backtest.Summarize | src/backtesting/backtester.py:253-285 | ZeroDivisionError iff the initial capital is 0 and no trade closed (the balance is then still a Python float); otherwise the total return is (balance−initial)/initial·100 for a non-zero capital and NumPy's +inf/−inf/NaN by the balance's sign for a zero one; no trades gives win rate 0 and profit factor 0; Calmar is defined with the drawdown, 0 when the drawdown is 0, and otherwise the total return over the drawdown |
| Backtest.CalmarOf | src/backtesting/backtester.py:285 | For a positive drawdown: the total return over the drawdown, with infinities and NaN passed through |
| Backtest.ReplayDrawdownDefined | src/backtesting/backtester.py:165-272 | With positive initial capital, a completed run has a defined drawdown |
| Backtest.RunEnd | src/backtesting/backtester.py:470-475 | The current streak counter: the length of the maximal qualifying suffix |
| Backtest.LongestRun | src/backtesting/backtester.py:464-481 | The longest run of strictly positive (negative) P&Ls is at most the number of trades |
| Backtest.LongestRunIsLongest | src/backtesting/backtester.py:464-481 | The result bounds every run of strictly positive (negative) P&Ls and is attained by one |
| Backtest.StreaksBounded | src/backtesting/backtester.py:464-481 | No run of strictly positive (negative) P&Ls is longer than the reported longest run |
| Backtest.StreakAttained | src/backtesting/backtester.py:464-481 | Some run of strictly positive (negative) P&Ls has exactly the reported length |
| Backtest.LongestRunAtMostCount | src/backtesting/backtester.py:464-481 | The longest winning (losing) run is at most the number of winning (losing) trades |
| Backtest.ConsecutiveWinsLosses | src/backtesting/backtester.py:464-481 | The counter loop computes the longest run, at most the number of trades |
| Backtest.LargestWin | src/backtesting/backtester.py:434 | 0 without winners, otherwise the largest positive P&L |
| Backtest.LargestLoss | src/backtesting/backtester.py:435 | 0 without losers, otherwise the most negative P&L |
| Backtest.PerformanceMetrics | src/backtesting/backtester.py:415-462 | Empty (None) iff no trades; otherwise avg win/loss are the means of winners/losers, largest win/loss the extreme P&Ls, the runs the longest winning/losing streaks (bounded by the counts), totals the gross profit and \|gross loss\|; recovery = total return / drawdown, 0 when the drawdown is ≤ 0; the expectancy lies between avg loss and avg win, and equals avg win at a 100% win rate |
| Backtest.ExpectancyBetween | src/backtesting/backtester.py:444-445 | The expectancy weighs the average win by the win rate and the average loss by the rest, so it lies between them |
| Backtest.WeightedBetween | src/backtesting/backtester.py:444-445 | A weighted average with a weight in [0,1] lies between its two values |
| Backtest.MeanWinAtMostLargest | src/backtesting/backtester.py:430-434 | The average win never exceeds the largest win |
| Backtest.GrossWinAtMost | src/backtesting/backtester.py:426-434 | The sum of the wins is at most the number of wins times the largest win |
| Backtest.ProductSize | src/backtesting/backtester.py:499 | The cartesian product has as many combinations as the product of the list lengths |
| Backtest.ProductMembers | src/backtesting/backtester.py:499 | A combination is in the product iff it picks one value from each list |
| Backtest.RunParameterOptimization | src/backtesting/backtester.py:483-533 | One score per combination in product order; the best is the first index attaining the maximal score (strict `>`), None when there are no combinations |
| Risk.LevelOf | src/risk/risk_manager.py:306-315 | Critical iff ≥ 80, High iff in [60,80), Medium iff in [40,60), Low iff < 40 |
| Risk.LevelMonotone | src/risk/risk_manager.py:306-315 | A higher score never gives a lower level |
| Common.Last | src/risk/risk_manager.py:491-519 | `xs[-n:]`: the last min(n, \|xs\|) entries, in order |
| Risk.MetricsOf | src/risk/risk_manager.py:403-478 | Exposure = Σ size·price; drawdown = the largest fall of the cumulative daily P&L below its running maximum (0 without history); concentration = largest value over total value; correlation and liquidity are the capped heuristics; a zero portfolio value with positions gives the zeroed metrics of the except branch |
| Risk.CorrelationOf | src/risk/risk_manager.py:441-445 | min(0.1·n, 0.5) for more than one position, 0 otherwise |
| Risk.LiquidityOf | src/risk/risk_manager.py:447-452 | The liquidity figure never exceeds its 0.3 cap |
| Risk.ConcentrationIsFraction | src/risk/risk_manager.py:432-439 | With non-negative position values, concentration lies in [0,1] |
| Risk.TradeRisk | src/risk/risk_manager.py:130-157 | Zero portfolio value fails; risk = size·price/pv·0.02; within limits iff the position fraction and the risk are within their limits |
| Risk.PortfolioRisk | src/risk/risk_manager.py:159-186 | Zero portfolio value fails; risk = exposure/pv; within limits iff ≤ 1, drawdown/pv ≤ max daily loss and concentration ≤ 0.3 |
| Risk.CorrelationRisk | src/risk/risk_manager.py:188-207 | Always within limits; min(0.1·#{\|ρ\|>0.7}, 0.5), 0 for an unknown symbol |
| Risk.ConcentrationRisk | src/risk/risk_manager.py:209-232 | Zero portfolio value fails; otherwise capped at 1.0 and within limits iff ≤ 0.2 |
| Risk.TrailingLosses | src/risk/risk_manager.py:242-250 | The number of trailing negative daily values, bounded by the length |
| Risk.DrawdownRisk | src/risk/risk_manager.py:234-264 | Fewer than 5 days: within limits with risk 0; else within limits iff the recent loss is within the limit and fewer than 5 trailing losses |
| Risk.FiveLossesOutOfLimits | src/risk/risk_manager.py:242-258 | Five losing days in a row put the drawdown check out of limits |
| Risk.AllLossesTrail | src/risk/risk_manager.py:242-250 | An all-negative window counts every day as a trailing loss |
| Risk.Penalties | src/risk/risk_manager.py:266-290 | In [0,100], and 0 iff every sub-assessment is within limits |
| Risk.CombinedScore | src/risk/risk_manager.py:266-304 | min(penalties + weighted magnitudes, 100), at least the penalties for non-negative magnitudes |
| Risk.Guidance | src/risk/risk_manager.py:317-353 | A Critical or High level puts its own warning and recommendation first; the rest are exactly the pairs of the failing checks |
| Risk.Specific | src/risk/risk_manager.py:332-351 | One pair per failing check: each failing check's warning and recommendation appear, and each entry is a failing check's pair |
| Risk.PositionAdjustment | src/risk/risk_manager.py:355-377 | 0 for Critical; within [0, proposed]; at most half the proposal for High |
| Risk.MaxNewPositionSize | src/risk/risk_manager.py:379-401 | 0 for Critical; within [0, 0.8·max]; at most 0.4·max when drawdown > 0.03 |
| Risk.SizesShrinkWithLevel | src/risk/risk_manager.py:355-401 | A higher level never allows a larger adjustment or ceiling |
| Risk.AssessmentOf | src/risk/risk_manager.py:67-128 | Score ≤ 100; level = LevelOf(score); as many warnings as recommendations; Critical gives zero sizes; zero portfolio value fails the trade, portfolio and concentration checks, so scores ≥ 70 and is High or Critical |
| Risk.FailSafeAsWritten | src/risk/risk_manager.py:480-489 | The except-branch assessment: zero sizes and the reason as its only warning |
| Risk.FailSafeLevelDisagrees | src/risk/risk_manager.py:480-489 | Its level is High while its own score 80 maps to Critical |
| Risk.FailSafe | src/risk/risk_manager.py:480-489 | Corrected fail-safe whose level agrees with its score (Critical), zero sizes |
| Risk.PositionTotals | src/risk/risk_manager.py:435-451 | The loop computes the largest position value, the total value and the total size |
| Risk.RiskManager.constructor | src/risk/risk_manager.py:51-65 | Empty buffers and correlation matrix, limits from the configuration |
| Risk.RiskManager.UpdatePositionHistory | src/risk/risk_manager.py:491-507 | Appends the entry and keeps the last min(n,100) in order; other state unchanged |
| Risk.RiskManager.UpdateDailyPnl | src/risk/risk_manager.py:509-519 | Appends the value and keeps the last min(n,30) in order; other state unchanged |
| Risk.RiskManager.UpdateCorrelationMatrix | src/risk/risk_manager.py:521-526 | Replaces the symbol's row and nothing else, keeping the buffers' window bounds |
| Risk.RiskManager.AssessConcentration | src/risk/risk_manager.py:209-232 | The loop over the history computes the concentration check |
| Risk.RiskManager.PortfolioMetrics | src/risk/risk_manager.py:403-478 | The loops compute the portfolio metrics function |
| Risk.RiskManager.AssessTradeRisk | src/risk/risk_manager.py:67-128 | The whole assessment equals the assessment function of the current state |
| Ledger.Pnls | src/api/trading_stats.py:184-198 | A trade without a P&L counts as 0 |
| Ledger.GrossWin | src/api/trading_stats.py:189 | Non-negative, and 0 iff there is no winner |
| Ledger.GrossLoss | src/api/trading_stats.py:190 | Non-positive, and 0 iff there is no loser |
| Ledger.MeanWin | src/llm/strategy_analyzer.py:74 | Non-negative, positive iff there is a winner |
| Ledger.MeanLoss | src/llm/strategy_analyzer.py:76 | Non-positive, negative iff there is a loser |
| Ledger.WinRate | src/llm/strategy_analyzer.py:70-71 | In [0,100]; 0 for an empty ledger; 100 iff every trade won |
| Ledger.WinsPlusLossesBound | src/api/trading_stats.py:184-185 | Winners + losers ≤ total, with equality iff no P&L is zero |
| Ledger.PeakFromZero | src/api/trading_stats.py:201-205 | The peak starting at 0 is ≥ 0 and ≥ the running total; with the two lemmas below it is the largest prefix total |
| Ledger.PeakFromZeroBounds | src/api/trading_stats.py:201-205 | The peak is at least every prefix's running total and every prefix's own peak |
| Ledger.PeakFromZeroAttained | src/api/trading_stats.py:201-205 | The peak is the running total of some prefix, the empty one giving the starting 0 |
| Ledger.DrawdownFromZero | src/api/trading_stats.py:201-208 | max(peak − cumulative) ≥ 0; with the two lemmas below it is the largest fall below the zero-anchored peak |
| Ledger.DrawdownFromZeroBounds | src/api/trading_stats.py:201-208 | No prefix ends further below its zero-anchored peak than the reported drawdown |
| Ledger.DrawdownFromZeroAttained | src/api/trading_stats.py:201-208 | Some prefix, possibly the empty one, ends exactly the reported drawdown below its peak |
| Ledger.PeakFromFirstAtMostFromZero | src/llm/strategy_analyzer.py:82-85 | NumPy's running maximum (from the first cumulative value) and its drawdown never exceed the zero-start versions |
| Ledger.NoDrawdownWhenNeverFalling | src/api/trading_stats.py:195-208 | No losing trade means zero drawdown |
| Ledger.LossesZeroIffNoNegative | src/api/trading_stats.py:185 | No losers iff no negative P&L |
| Ledger.WinsZeroIffNoPositive | src/api/trading_stats.py:184 | No winners iff no positive P&L |
| Ledger.DrawdownFromFirstBounds | src/llm/strategy_analyzer.py:82-85 | No prefix of the cumulative P&L ends further below its running maximum than the reported drawdown |
| Ledger.DrawdownFromFirstAttained | src/llm/strategy_analyzer.py:82-85 | Some prefix ends exactly the reported drawdown below its running maximum |
| TradingStats.StatsOf | src/api/trading_stats.py:182-222 | Empty ledger gives all zeros; the counts are Wins and Losses (winners + losers ≤ total); the win rate is WinRate (winners/total·100, in [0,100]); total P&L; averages over max(count,1); profit factor abs(avg win / avg loss), 0 when avg loss is 0; drawdown is DrawdownFromZero; percentage drawdown/capital·100, 0 when capital ≤ 0 |
| TradingStats.Accumulate | src/api/trading_stats.py:184-208 | The counting and running-total loops compute the ledger functions |
| TradingStats.LedgerStatistics | update_real_dashboard_data.py:191-235 | The statistics block equals the statistics function of the ledger |
| StrategyAnalysis.MetricsOf | src/llm/strategy_analyzer.py:60-106 | Empty history gives all zeros; otherwise the win rate is WinRate, the averages MeanWin and MeanLoss, the profit factor abs(avg win / avg loss) when a loss exists and infinite iff no loss, the drawdown DrawdownFromFirst (≥ 0); recent = last min(20,n) P&Ls |
| StrategyAnalysis.PoorAdjustments | src/llm/strategy_analyzer.py:263-269 | RSI thresholds 25/75 iff win rate < 40; take-profit 0.06 and stop-loss 0.015 iff profit factor < 1.2; no other key |
| StrategyAnalysis.FallbackAsWritten | src/llm/strategy_analyzer.py:248-285 | AttributeError exactly on the good-performance branch, which reads a missing field; the poor branch's reasoning quotes the win rate, profit factor ("inf" when infinite) and drawdown, the neutral one is the fixed text |
| StrategyAnalysis.WinningHistoryHitsMissingField | src/llm/strategy_analyzer.py:270-276 | A non-empty all-winning history reaches that branch and raises AttributeError |
| StrategyAnalysis.Fallback | src/llm/strategy_analyzer.py:248-285 | Evolve iff poor or good; confidence 0.8/0.7/0.5; the poor branch sets the adjustments; the good branch sets only max_position_size = min(0.15, 1.1·size); the reasoning is the branch's prefix followed by the formatted win rate and profit factor, and for poor performance the drawdown |
| StrategyAnalysis.LosingHistoryMetrics | src/llm/strategy_analyzer.py:69-79 | An all-losing history has win rate 0 and profit factor 0 |
| StrategyAnalysis.LosingHistoryEvolves | src/llm/strategy_analyzer.py:258-269 | An all-losing history triggers evolution at 0.8 with both adjustments |
| StrategyAnalysis.PoorOnBothCounts | src/llm/strategy_analyzer.py:258-269 | Low win rate and low profit factor set both adjustments |
| StrategyAnalysis.Find | src/llm/strategy_analyzer.py:225 | The first index of the character, or −1 iff absent |
| StrategyAnalysis.RFind | src/llm/strategy_analyzer.py:226 | The last index of the character, or −1 iff absent |
| StrategyAnalysis.JsonSpan | src/llm/strategy_analyzer.py:225-229 | Present iff both braces occur and the first '{' precedes the last '}'; then the span between them inclusive |
| StrategyAnalysis.FromDecoded | src/llm/strategy_analyzer.py:232-239 | Each missing key takes its default |
| StrategyAnalysis.ParseResponse | src/llm/strategy_analyzer.py:221-246 | No span or a decode error gives the fallback; otherwise the decoded analysis |
| StrategyAnalysis.NoObjectFallsBack | src/llm/strategy_analyzer.py:228-242 | Text without a well-ordered brace pair always falls back |
| StrategyAnalysis.Strip | src/llm/strategy_analyzer.py:398 | The stripped line neither starts nor ends with whitespace |
| StrategyAnalysis.StripIsTrimmedSlice | src/llm/strategy_analyzer.py:398 | The stripped line is a slice of the line, and everything cut off on either side is whitespace |
| StrategyAnalysis.InsightsSound | src/llm/strategy_analyzer.py:395-400 | Every line the filter keeps starts with "-", "•", "1.", "2." or "3." |
| StrategyAnalysis.InsightKept | src/llm/strategy_analyzer.py:395-400 | Every stripped line that starts with one of those markers is kept |
| StrategyAnalysis.CollectInsights | src/llm/strategy_analyzer.py:395-400 | The line loop computes exactly the insight filter over the stripped lines |
| StrategyAnalysis.FilterInsights | src/llm/strategy_analyzer.py:394-402 | The loop returns the insight lines, or the fixed two-line default when there are none |
| MarketAnalysis.RegimeOf | src/analysis/market_analyzer.py:207-225 | The five-way decision in its order, with confidences 0.8/0.7/0.8/0.8 and 0.7 or 0.5 for ranging |
| MarketAnalysis.TrendNeedsStrengthAndMove | src/analysis/market_analyzer.py:198-222 | A trending regime needs ADX > 25 and a 5% move over the window |
| Common.NpDiv | src/analysis/market_analyzer.py:201 | NumPy division: exact iff the divisor is non-zero; over zero, +inf iff the numerator is positive, -inf iff negative, NaN otherwise |
| MarketAnalysis.VolumeProfile | src/analysis/market_analyzer.py:235 | "high" iff ratio > 1.5, "normal" iff in (0.8,1.5], "low" otherwise |
| MarketAnalysis.Recommendations | src/analysis/market_analyzer.py:643-679 | Three recommendations for each handled regime, none for breakout or reversal |
| MarketAnalysis.DetectRegime | src/analysis/market_analyzer.py:190-238 | Regime and confidence are the regime rule applied to volatility, trend strength and the 20-bar NumPy price change; recommendations, levels and volume profile are those of the regime and the bars |
| MarketAnalysis.DetectedTrendMoved | src/analysis/market_analyzer.py:194-222 | A trending regime needs trend strength above 25 and a close more than 5% above (up) or below (down) the close 20 bars back |
| MarketAnalysis.DetectRegimeAsWritten | src/analysis/market_analyzer.py:240-250 | As written every call returns the except branch's analysis: ranging at 0.5, volatility 0.02, trend 0, "normal", no levels, "Monitor market conditions" |
| MarketAnalysis.AsWrittenMissesTrend | src/analysis/market_analyzer.py:145 | A 10% rise with trend strength 30 is a rising trend for the regime rule, but ranging as written |
| MarketAnalysis.RsiMood | src/analysis/market_analyzer.py:580-581 | A missing RSI reads as 50 and is neutral; bullish iff RSI > 60, bearish iff RSI < 40 |
| MarketAnalysis.MacdMood | src/analysis/market_analyzer.py:584-586 | Never neutral; bullish iff MACD > signal, a missing value reading as 0 |
| MarketAnalysis.MomentumMood | src/analysis/market_analyzer.py:589-590 | A missing change is neutral; bullish iff change > 2%, bearish iff change < −2% |
| MarketAnalysis.SentimentOf | src/analysis/market_analyzer.py:573-620 | Score in [−3,3] is the sum of the three moods; overall is its sign; ±3 iff all agree |
| MarketAnalysis.SortedDistinct | src/analysis/market_analyzer.py:565 | `sorted(set(levels))`: strictly increasing, with exactly the values of the input |
| MarketAnalysis.SupportResistance | src/analysis/market_analyzer.py:540-571 | [] under 50 bars; otherwise strictly increasing, at most 6, and exactly the values of the top-3 highs and bottom-3 lows of the last 50 bars |
| MarketAnalysis.Largest | src/analysis/market_analyzer.py:557 | `nlargest(k)`: min(k, n) values drawn from the input, in descending order, none smaller than any value left out |
| MarketAnalysis.Smallest | src/analysis/market_analyzer.py:561 | `nsmallest(k)`: min(k, n) values drawn from the input, in ascending order, none larger than any value left out |
| MarketAnalysis.LevelsComeFromWindow | src/analysis/market_analyzer.py:547-562 | Every level is a high or a low of one of the last 50 bars |
| MarketAnalysis.DetectHeadShoulders | src/analysis/market_analyzer.py:299-327 | Detected iff ≥ 50 bars and the middle of the last three peaks is the highest |
| MarketAnalysis.HeadIsAPeak | src/analysis/market_analyzer.py:306-311 | A detected head is a local peak above the last shoulder |
| MarketAnalysis.PeaksArePeaks | src/analysis/market_analyzer.py:306-307 | Every value the peak filter keeps is the high of a bar equal to the centred 5-bar maximum |
| MarketAnalysis.DetectDoubleTopBottom | src/analysis/market_analyzer.py:329-372 | None under 30 bars; double top iff ≥ 2 highs within 2% of the 20-bar max; otherwise double bottom iff ≥ 2 lows within 2% of the min |
| MarketAnalysis.TwoAtLeast | src/analysis/market_analyzer.py:338-342 | The count is ≥ 2 iff two distinct bars reach the threshold |
| MarketAnalysis.DetectTriangle | src/analysis/market_analyzer.py:374-406 | Detected iff ≥ 20 bars and both slopes are below 0.1 in magnitude |
| MarketAnalysis.DetectFlag | src/analysis/market_analyzer.py:408-435 | Detected iff ≥ 15 bars and range/average close < 0.03 |
| MarketAnalysis.FlagIsTightRange | src/analysis/market_analyzer.py:416-422 | With positive prices, a flag iff the 15-bar range is below 3% of the average close |
| MarketAnalysis.DetectBreakout | src/analysis/market_analyzer.py:437-478 | Bullish iff close > 20-bar high with volume > 1.5; bearish iff not bullish, close < 20-bar low and the same volume test |
| MarketAnalysis.BreakoutNeedsCloseOutsideOwnRange | src/analysis/market_analyzer.py:444-465 | A bar closing within its own high/low range never breaks out, since it is in its own window |
| MarketAnalysis.DetectBreakoutAsWritten | src/analysis/market_analyzer.py:447 | As written the missing volume-ratio column sends every call to None |
| MarketAnalysis.BreakoutAsWrittenAgreesOnWellFormedBars | src/analysis/market_analyzer.py:437-478 | On a latest bar that closes within its own range the as-written and the modelled breakout agree |
| MarketAnalysis.Detected | src/analysis/market_analyzer.py:256-280 | At most five patterns, confidences in [0.5,0.7], none under 15 bars |
| MarketAnalysis.Present | src/analysis/market_analyzer.py:258-280 | Exactly the detectors' non-None results |
| MarketAnalysis.MarketAnalyzer.constructor | src/analysis/market_analyzer.py:88 | Empty pattern database |
| MarketAnalysis.MarketAnalyzer.IdentifyPatterns | src/analysis/market_analyzer.py:252-297 | Returns the detected patterns and appends one record per pattern to the symbol's list, creating it if absent |
| MarketAnalysis.MarketAnalyzer.Store | src/analysis/market_analyzer.py:282-291 | Appends one record per pattern under the symbol, other symbols unchanged |
| TradeLog.PointAt | src/utils/trade_logger.py:79-90 | Entry i has trade number i+1, its P&L (0 if missing) and the prefix sum up to i |
| TradeLog.PerformanceOf | src/utils/trade_logger.py:76-90 | One entry per trade, in order, numbered from 1 and carrying the running P&L up to that trade |
| TradeLog.CumulativeSteps | src/utils/trade_logger.py:76-90 | Consecutive cumulative values differ by the later P&L; the last equals the ledger total |
| TradeLog.SamplePnlIsTradePnl | src/utils/trade_logger.py:117-122 | The sample P&L is the long P&L for "BUY" and the short P&L otherwise |
| TradeLog.TradeLogger.constructor | src/utils/trade_logger.py:15-17 | The logger works over the files' existing contents, which later loads read back |
| TradeLog.TradeLogger.UpdatePerformanceHistory | src/utils/trade_logger.py:69-102 | An empty list leaves the file alone; otherwise the series is rebuilt from the list; the trades file unchanged |
| TradeLog.TradeLogger.LogTrade | src/utils/trade_logger.py:19-41 | Stamps the trade only if it has no timestamp, appends it at the end, and rebuilds the series from the whole list |
| SafeTrading.Limits | src/trading/safe_trading_config.py:13-30 | Each limit is the min of the configured value and its cap 10.0/0.01/0.005/0.01 |
| SafeTrading.SafePositionSize | src/trading/safe_trading_config.py:42-48 | ≤ 5.0, ≤ 10% of the balance, ≤ balance·max_position_size, and equal to one of the three |
| SafeTrading.SafeSizeAtMostOnePercent | src/trading/safe_trading_config.py:17-48 | For a non-negative balance, the safe size is at most 1% of it |
| SafeTrading.SafeSizeBelowMinimumTrade | src/trading/safe_trading_config.py:32-48 | Below a balance of 200 the safe size is under the 2.0 minimum trade amount |
| SafeTrading.InitialCapitalTradesBelowMinimum | src/trading/safe_trading_config.py:13-48 | At the capped initial capital the safe size is always under the minimum trade amount |
| Engine.DueTasks | src/trading_engine.py:140-158 | A periodic task runs iff its period (300/60/3600/21600 s) has elapsed, in the order signals, monitor, evolve, analyze |
| Engine.Advance | src/trading_engine.py:141-158 | A task that ran is stamped with the tick's time; other clocks are unchanged |
| Engine.NothingDueAfterTick | src/trading_engine.py:141-158 | Right after a tick nothing is due, and a second tick at the same time changes nothing |
| Engine.NoRerunWithinPeriod | src/trading_engine.py:141-158 | A task that ran does not run again before a full period has passed |
| Engine.OverdueTaskRuns | src/trading_engine.py:141-158 | An overdue task runs and its clock moves forward to the tick |
| Engine.Executable | src/trading_engine.py:188-190 | Exactly the signals with confidence > 0.7, in order |
| Engine.TotalReturn | src/trading_engine.py:277 | ZeroDivisionError iff the initial balance is 0 |
| Engine.TotalReturnRecoversBalance | src/trading_engine.py:277 | The return's sign is the gain's sign, and initial·(1 + r/100) is the current balance |
| Engine.TradingEngine.constructor | src/trading_engine.py:49-57 | Every clock at the start time; current and initial balance at the configured capital |
| Engine.TradingEngine.Tick | src/trading_engine.py:134-175 | Runs the due tasks and advances the clocks; a successful balance fetch updates the balance, adds the status report on a minute multiple of 30 and sleeps 10 s; a failed fetch sleeps 30 s |
| Engine.TradingEngine.ExecuteSignals | src/trading_engine.py:177-199 | Passes exactly the gated signals to execution, in order; the new positions and insertion order are `execute_signal`'s effect folded over them; the held symbols gain exactly those of the gated signals that fill, and no held position is replaced or dropped, whatever the exchange and database answer |
| Engine.AfterSignalsOpens | src/strategy/evolving_strategy.py:485-570 | Executing a list of signals in turn adds exactly the symbols of the ones that fill (positive quantity, accepted order) and keeps every position already held |
| Memory.EmbeddingOf | src/memory/pinecone_client.py:119-139 | Exactly 512 values, each in [0,1]; positions past half the digest length are 0 |
| Memory.Embedding | src/memory/pinecone_client.py:119-139 | The pair loop, padding loop and truncation compute the vector function |
| Memory.EmbeddingDependsOnLeadingPairs | src/memory/pinecone_client.py:127-137 | Digests of equal length that agree on their first 1024 bytes give the same vector |
| Memory.RecordKey | src/memory/pinecone_client.py:141-153 | The key string for each record type: symbol_ts, params_ts, perf_ts, or type_ts |
| Memory.KeyDistinguishesTimestamps | src/memory/pinecone_client.py:143-151 | Within one type (and symbol), keys are equal iff timestamps are equal |
| Memory.GenericKeyShadowsParams | src/memory/pinecone_client.py:146-151 | A record of type "params" gets the same key as a strategy snapshot with the same timestamp |
| Memory.ParamsAndPerformanceKeysDiffer | src/memory/pinecone_client.py:146-149 | Strategy snapshots and performance summaries never share a key |
| Memory.Successes | src/memory/pinecone_client.py:389-390 | The count is the total iff all matches succeeded, 0 iff none did |
| Memory.EffectivenessOf | src/memory/pinecone_client.py:385-400 | No matches gives (0.0, 0, none); otherwise successes/total, in [0,1], 1 iff all succeeded, 0 iff none did |

## Behaviour kept as written

These are recorded and proved, not corrected.

- **Backtest balance.** Entry deducts the notional, but an exit credits back only the P&L (`Backtest.SimulationAccounting`, `Backtest.RoundTripAtEntryPriceKeepsNotional`).
- **Monthly returns.** The equity curve's length never matches the number of bars on a real run, so the monthly returns are always empty (`Backtest.EquityCurveMisaligned`).
- **Profit factor when nothing was lost.** It is infinite in the backtester, the live summary and the strategy analyzer, but 0 in the dashboard statistics. An explicit `Infinite` value keeps the two apart.
- **Fusion gate in the original strategy.** It is the literal 0.6, not a parameter (`EvolvingStrategy.FusionGate`).
- **Generic record key.** A record of type "params" gets the same key as a strategy snapshot (`Memory.GenericKeyShadowsParams`).

## Left out

- Indicator computation (RSI, MACD, Bollinger bands, EMA, stochastic, ADX, rolling volatility, `pct_change`) and the line fits of `_detect_triangle`. These are foreign floating-point numerics. Their values are inputs, and the triangle's slopes are parameters. As written the indicator step stops at `bb.bollinger_lower()` (src/analysis/market_analyzer.py:145), so the columns after it never exist; see the Findings row and the two entries below.
- MarketAnalysis.DetectRegime: gives the regime rule the code applies once the indicator columns exist. As written every call returns the except branch's fallback (MarketAnalysis.DetectRegimeAsWritten).
- MarketAnalysis.DetectBreakout: gives the breakout rule once the volume-ratio column exists. As written every call returns None (MarketAnalysis.DetectBreakoutAsWritten); on well-formed bars the two agree.
- Backtest.CurveDrawdown: a curve that does not start positive (a non-positive initial capital) gives None. pandas would divide by a zero or negative running peak instead, producing NaN, infinite or sign-flipped falls, and the report's Calmar ratio would then be 0. Backtest.Summarize inherits the None.
- Number formatting in f-strings (`{x:.1f}`, `{x:.2f}`). Members that quote numbers in a text take the formatter as a parameter (`fmt`, or `fmt1`/`fmt2` in StrategyAnalysis.Fallback and StrategyAnalysis.FallbackAsWritten); only the infinite profit factor's "inf" is spelled out.
- Sharpe ratios, VaR and standard deviations, and the pandas month grouping in `_calculate_monthly_returns`. These are library numerics. A Sharpe value is an input where a result carries one.
- `_analyze_volatility`, `_analyze_volume_profile` and `get_risk_summary`: numerics and reporting outside the decision rules.
- Floating-point rounding. The model's arithmetic is exact over the reals. `round` is modelled only in the order quantity.
- Clocks. `datetime.now()` and `time` become `now` parameters. Engine.TradingEngine.Tick takes the status minute from the epoch seconds, where the source reads the local-time minute; the two agree only in time zones whose offset is a whole number of hours. Times are whole seconds, where `total_seconds()` is fractional, so a task's due test can differ from the source's by less than a second.
- I/O, which becomes parameters or fields:
  - the exchange calls for balance, ticker, lot size and order placement;
  - the JSON files of the trade logger and the dashboard;
  - the Pinecone, Redis and database calls;
  - the OpenAI calls. The JSON decoder is a `decode` parameter.
- SHA-256 and MD5. The embedding takes the digest as input, and the record id is the key string before hashing.
- Async orchestration, the signal handlers and the race between monitoring and entry.
- The random exit price of `create_sample_trade`. The exit price is a parameter.
- `str.split('\n')` line splitting: a `\r` before the newline stays in the line until `strip` removes it.
- Backtest.Step: an entry at a zero close stops the model's replay with ZeroDivision. NumPy instead gives an infinite or NaN quantity and the replay carries on, because reals have no infinities. This covers Backtest.EntryLeg, Backtest.OpenOnSignal, Backtest.Replay, Backtest.Simulation and Backtest.SimulateTrading.
- Backtest.PerformanceMetrics: the total return it receives is a finite number. The report's infinite or NaN total return at a zero capital is not passed on.
- EvolvingStrategy.PositionBook.ClosePosition: a failing order placement is not modelled. Closing always succeeds for a held symbol.
- Engine.TradingEngine.ExecuteSignals: it takes one flat list of signals rather than looping per symbol. The exchange's answers are functions of the signal.
- Engine.TradingEngine.Tick: the work of each periodic job is modelled in the module that owns it. The tick records only which tasks ran.
- MarketAnalysis.Recommendations: states the count per regime, not the texts.
- TradeLog.TradeLogger.LogTrade: a trade with a missing P&L key is valued 0. The `trade['pnl']` reads elsewhere would raise KeyError, and those are not modelled.
- Risk.FailSafe: the exception branch of `assess_trade_risk` is unreachable in the model, because every sub-step catches its own errors. It is modelled as a separate member.

## Findings

| source | as written | input that shows it | evidently intended | confidence | as-written member | corrected member |
|---|---|---|---|---|---|---|
| src/strategy/evolving_strategy.py:470 | `_combine_signals` reads an undefined `current_price` for any non-Hold decision, raising NameError; `generate_signals` swallows it, so no signal is ever produced | the snapshot of `EvolvingStrategy.AsWrittenLosesBuy` (RSI 25, MACD above signal, price 99 under both bands), where the corrected fusion buys | stop and target levels at the price passed to the generators | high; not executed | EvolvingStrategy.AsWrittenLosesBuy | EvolvingStrategy.Combine |
| src/strategy/optimized_strategy.py:475 | the same undefined `current_price` in the vote fusion | any tally at or above the gate | levels at the current price | high; not executed | OptimizedStrategy.CombineAsWritten | OptimizedStrategy.Combine |
| src/strategy/evolving_strategy_alternative.py:407 | the same undefined `current_price` in the vote fusion | any tally at or above the 0.6 gate | levels at the current price | high; not executed | VoteFusion.FuseAsWritten | VoteFusion.Fuse |
| src/backtesting/backtester.py:345-347 | the backtest's signal generator swallows the fusion's NameError, so the backtest never trades | any bar sequence (`Backtest.BacktestAsWrittenNeverTrades`) | bars carry the strategy's signal | high; not executed | Backtest.BacktestAsWrittenNeverTrades | Backtest.BarOf |
| src/risk/risk_manager.py:480-489 | the fail-safe assessment has level HIGH with score 80, which the level mapping sends to CRITICAL | any reason string | level and score agree | medium; not executed | Risk.FailSafeLevelDisagrees | Risk.FailSafe |
| src/analysis/market_analyzer.py:145 | the indicator step calls `bb.bollinger_lower()`, which the band object lacks; the caught AttributeError leaves the frame without volatility, volume ratio and ADX, so `_detect_market_regime` always returns its ranging fallback and `_detect_breakout` always returns None | two bars closing at 100 and 110 with trend strength 30 and volatility 0.02 (`MarketAnalysis.AsWrittenMissesTrend`) | `bb.bollinger_lband()`, so the regime rule sees its indicators | high; not executed | MarketAnalysis.AsWrittenMissesTrend | MarketAnalysis.DetectRegime |
| src/llm/strategy_analyzer.py:276 | the good-performance branch reads `metrics.max_position_size`, which the metrics record lacks, raising AttributeError | any non-empty history of winning trades | the strategy's configured maximum position size | high; not executed | StrategyAnalysis.WinningHistoryHitsMissingField | StrategyAnalysis.Fallback |
