# Weekly dollar-cost averaging backtests and a Fear & Greed index, in Dafny

This project models the core of a small stock backtesting repository:

- a generic framework that credits a weekly sum, asks a strategy for allocations, buys and revalues (`algo_trading.py`);
- two stand-alone weekly DCA backtests (`dca_strategy.py`):
  - one invests a fixed sum split equally over a list of symbols;
  - one scales the sum by a Fear & Greed reading;
- a simpler variant that resolves a non-trading Friday to the last earlier trading date (`simple_algo.py`);
- the Fear & Greed calculator and its sentiment labels (`market_indices.py`).

How the model represents the source:
- Money is `real`. Dates are integer day numbers. The Fridays of a run are an input schedule.
- A price frame is a `PriceTable`: columns, rows in order, and a map of closes. A NaN close is a symbol missing from its row.
- Python dicts whose order matters are ordered association lists. Errors that Python raises become `Result` errors.
- Objects updated in place are classes:
  - the framework;
  - the three strategies, each with its portfolio a field reassigned by its methods.
- Loops are methods with invariants, proved equal to specification functions. Lemmas about those functions state what the source promises.

Modules:
- `Wrappers`: `Option` and `Result`.
- `Prices`: the price frame and sums.
- `Allocations` and `AllocationProperties`: the two allocation policies.
- `AlgoTrading` and `AlgoTradingProperties`: the framework.
- `WeeklyDca` and `DcaProperties`: the stand-alone backtests.
- `SimpleDca` and `SimpleProperties`: the simple variant.
- `MarketIndices` and `MarketIndexProperties`: the index calculator.

Behaviour of the code that the model keeps, though it may look unintended:
- `_execute_trades` spends `allocation * cash` against the cash left by the previous buy, so weights summing to 1 do not spend the whole balance. Three symbols under equal weights and a credit of 500 leave 4000/27 in cash (`EqualSplitLeavesCash`).
- Trades and snapshots of a week whose Friday was walked back are recorded under the scheduled Friday's date string. That string is not an index entry, so every lookup on it fails. The credit stays in cash, nothing is bought, and the snapshot has an assets value of 0 (`WalkedBackWeek`).
- In the simple backtest, `total_invested` counts every scheduled Friday, including those that resolved to no trading date (`SkippedFridayIsCounted`).

## Model

| member | source | states |
|---|---|---|
| AlgoTrading.AlgoTradingFramework.constructor | algo_trading.py:13-33 | starts with the initial capital as cash and total, no holdings, no history, no strategy and an empty transaction log |
| AlgoTrading.AlgoTradingFramework.SetStrategy | algo_trading.py:39-42 | installs the strategy and leaves portfolio and log unchanged |
| AlgoTrading.AlgoTradingFramework.ExecuteTrade | algo_trading.py:140-174 | one allocation: the new portfolio and log are the trading function of the old ones, skipping an unknown symbol, a missing price or an amount below 1; the portfolio stays well formed and the strategy unchanged |
| AlgoTrading.AlgoTradingFramework.ExecuteTrades | algo_trading.py:137-174 | the new portfolio and log are the dict-order trading function of the old ones, and the portfolio stays well formed |
| AlgoTrading.AlgoTradingFramework.UpdatePortfolioValue | algo_trading.py:176-205 | the new portfolio is the old one revalued, with one snapshot appended; log and strategy unchanged |
| AlgoTrading.AlgoTradingFramework.RunWeek | algo_trading.py:80-101 | one Friday: the new state is the week function of the old one; it reports the strategy's error exactly when that week stops, and the portfolio stays well formed |
| AlgoTrading.AlgoTradingFramework.RunWeeks | algo_trading.py:79-101 | the loop over the Fridays: the new state is the weekly loop run from the old one; it reports an error exactly when the loop stops, and that error is the strategy's |
| AlgoTrading.AlgoTradingFramework.RunBacktest | algo_trading.py:44-109 | without a strategy: the no-strategy error and nothing changes; otherwise the state is the weekly loop run from the reset portfolio, and the result is its metrics or the strategy's error |
| AlgoTrading.Trade | algo_trading.py:140-174 | definition: one allocation skips a symbol without a close on the date or an amount below 1, and otherwise buys `allocation * cash` worth at the close and logs the buy; properties in TradeSkips and TradeConserves |
| AlgoTrading.Trades | algo_trading.py:137-174 | definition: the allocations traded in dict order, each against the cash the previous one left; properties in TradesConserveCash, TradesKeepCashNonNegative and EqualSplitLeavesCash |
| AlgoTrading.AssetsValue | algo_trading.py:178-193 | definition: shares times close over the held symbols that have a close on the date; properties in AssetsValueWithoutRow and RevalueAppends |
| AlgoTrading.Revalue | algo_trading.py:176-205 | definition: the total becomes cash plus assets value and a snapshot is appended; properties in RevalueAppends |
| AlgoTrading.Week | algo_trading.py:80-101 | definition: one Friday walked back, skipped without a trading date, otherwise credited, traded under the Friday's date and revalued, or stopped by the strategy's error; properties in WeekSkipsExactly, WeekAccounts and WalkedBackWeek |
| AlgoTrading.Simulate | algo_trading.py:79-101 | definition: the weeks in schedule order, ending at the first strategy error; properties in SimulateOnlyAppends, SimulateLength, SimulateAccounts, SimulateAbortAccounts and SimulateKeepsCashNonNegative |
| AlgoTrading.MaxDrawdown | algo_trading.py:233-237 | definition: the least drawdown against the running peak from the first defined return on; properties in DrawdownBounds, MaxDrawdownBounds, FirstFallUnseen and RisingHasNoDrawdown |
| AlgoTrading.PerformanceMetrics | algo_trading.py:207-248 | definition: no metrics for an empty history; otherwise `total_invested`, the last total, the total return and the drawdown; properties in BacktestAccounts and MaxDrawdownBounds |
| AlgoTrading.WalkBack | algo_trading.py:83-89 | the walk back stops at or before the Friday, never before `start`, on a trading date or at its limit, and skips only non-trading days |
| AlgoTrading.SimulateExtend | algo_trading.py:79-101 | a loop that has not stopped, run over one more Friday, is one more week |
| AlgoTrading.SimulateAbortPersists | algo_trading.py:94-95 | once the strategy has raised, the remaining Fridays change nothing |
| AlgoTrading.SimulateAdvance | algo_trading.py:79-101 | after one more week the loop is still running on the new ledger, or, when the strategy raised, the whole loop ends on that ledger with that error |
| AlgoTradingProperties.TradeSkips | algo_trading.py:139-156 | an allocation is skipped exactly when its symbol has no price on the date or the amount is below 1 |
| AlgoTradingProperties.TradeConserves | algo_trading.py:140-174 | one allocation: cash plus amount spent is unchanged; the log only grows; history and total untouched; well-formedness, non-negative holdings and genuine buys are kept |
| AlgoTradingProperties.TradesConserveCash | algo_trading.py:137-174 | cash plus amount spent is unchanged; the log only grows; history and total untouched; holdings non-negative; every new entry a genuine buy |
| AlgoTradingProperties.TradesKeepCashNonNegative | algo_trading.py:152-162 | with weights of at most 1, trading never overdraws a non-negative cash balance |
| AlgoTradingProperties.RevalueAppends | algo_trading.py:176-205 | the revaluation appends one snapshot whose total is cash plus assets value, and that total becomes the reported one |
| AlgoTradingProperties.WeekSkipsExactly | algo_trading.py:83-89 | a week leaves the ledger unchanged exactly when its walk back finds no trading date |
| AlgoTradingProperties.WeekAccounts | algo_trading.py:79-101 | a resolved week credits the weekly sum and appends one snapshot, so the money grows by that sum; a strategy error stops after the credit |
| AlgoTradingProperties.WalkedBackWeek | algo_trading.py:83-101 | a week whose Friday is walked back to a trading date, if the strategy does not raise, keeps the log, holdings and order, leaves the credit in cash and appends a snapshot dated the Friday with assets value 0 |
| AlgoTradingProperties.TradesWithoutRow | algo_trading.py:143-144 | trading under a date that is no row of the frame changes nothing |
| AlgoTradingProperties.AssetsValueWithoutRow | algo_trading.py:184-185 | valuing under a date that is no row of the frame gives 0 |
| AlgoTradingProperties.SimulateOnlyAppends | algo_trading.py:79-101 | whether it completes or stops, the loop only appends to the transaction log and to the history |
| AlgoTradingProperties.SimulateLength | algo_trading.py:79-101 | the history never shrinks; a completed loop adds exactly one snapshot per resolved Friday |
| AlgoTradingProperties.SimulateAccounts | algo_trading.py:79-101 | a completed loop adds one credit of the weekly sum per resolved Friday to the money |
| AlgoTradingProperties.SimulateAbortAccounts | algo_trading.py:79-101 | a loop stopped by the strategy has credited the weekly sum once more than it added snapshots |
| AlgoTradingProperties.SimulateKeepsCashNonNegative | algo_trading.py:79-101 | with non-negative credits and weights of at most 1, the loop never overdraws the cash |
| AlgoTradingProperties.BacktestAccounts | algo_trading.py:60-109 | from the reset portfolio: snapshots add up, one per resolved Friday; the money credited equals cash left plus new buys; `total_invested` is one credit short of it |
| AlgoTradingProperties.BacktestNeverOverdraws | algo_trading.py:44-109 | with non-negative capital and credits and a well-formed strategy, the cash never goes below zero |
| AlgoTradingProperties.EqualSplitLeavesCash | algo_trading.py:137-163 | three symbols priced 100 and a credit of 500 under equal weights leave 4000/27 in cash after three sequential buys |
| AlgoTradingProperties.GrowthTelescopes | algo_trading.py:218-234 | the compounded step growth equals the ratio of the current value to the first |
| AlgoTradingProperties.DrawdownBounds | algo_trading.py:234-236 | each drawdown lies in (-100, 0] |
| AlgoTradingProperties.MaxDrawdownBounds | algo_trading.py:233-236 | the modelled `max_drawdown` is defined from two positive snapshots on, lies in (-100, 0], is no larger than the drawdown of any step with a defined return, and equals one of them |
| AlgoTradingProperties.FirstFallUnseen | algo_trading.py:233-236 | the running peak starts at the first defined return: snapshots 100 then 50 give a drawdown of 0 |
| AlgoTradingProperties.RisingHasNoDrawdown | algo_trading.py:233-237 | a value series that never falls has a drawdown of 0 everywhere |
| Allocations.EqualWeights | algo_trading.py:345-348 | definition: 1/N for each symbol, failing on no symbols; properties in EqualWeightsSumToOne |
| Allocations.Normalize | algo_trading.py:350-352 | definition: each configured weight divided by their sum, failing on a zero sum; properties in NormalizeSumsToOne |
| Allocations.DcaAllocations | algo_trading.py:333-352 | definition: equal weights over the tradable symbols, or the normalised configuration; properties in DcaAllocationsNormalised |
| Allocations.FearGreedBaseline | algo_trading.py:419-426 | definition: the Fear & Greed baseline, an empty dict when no symbol is tradable; properties in FearGreedWithoutReadingsIsDca and AllocationsIntoUnit |
| Allocations.SentimentAt | algo_trading.py:440-450 | definition: the reading of the exact date, else of the nearest date, failing on an empty index or one neither increasing nor decreasing; properties in NearestIsClosest, NearestDecreasingIsClosest and DecreasingIndexLookup |
| Allocations.AdjustOne | algo_trading.py:432-463 | definition: the baseline weight, scaled by the tilt of the symbol's reading when it has readings, or the error of the reading lookup or of the missing baseline key; properties in AdjustedWeightBounds |
| Allocations.AdjustedWeights | algo_trading.py:429-463 | definition: the symbols adjusted in order, stopping at the first error; properties in AdjustedWeightBounds and AdjustedErrorPersists |
| Allocations.FearGreedAllocations | algo_trading.py:408-469 | definition: baseline, adjustment and normalisation of the Fear & Greed policy; properties in FearGreedAllocationsNormalised, FearGreedWithoutReadingsIsDca and ExtremeFearRaisesWeight |
| Allocations.Allocations | algo_trading.py:333-469 | definition: the allocation function of the installed policy; properties in AllocationsIntoUnit |
| Allocations.TradableSymbols | algo_trading.py:342 | a symbol is tradable exactly when it is a column and a held asset; the result keeps the column order, which is the dict order the spends follow; no duplicates from distinct columns |
| Allocations.SentimentMultiplier | algo_trading.py:455-461 | the tilt lies in [0.8, 1.2] for readings in [0, 100]; it exceeds 1 exactly below 50 and is 1 exactly at 50 |
| Allocations.NearestPosition | algo_trading.py:445 | the nearest lookup returns a valid row |
| Allocations.NearestPositionDecreasing | algo_trading.py:445 | the nearest lookup on a decreasing index returns a valid row |
| Allocations.AdjustAll | algo_trading.py:431-463 | the symbol loop equals the adjusted-weights function, including its first failing baseline lookup |
| Allocations.GenerateFearGreedAllocations | algo_trading.py:408-469 | the loop's dict is the Fear & Greed allocation function |
| Allocations.GenerateAllocations | algo_trading.py:333-469 | dispatches to the installed policy's allocation function |
| Allocations.AdjustedErrorPersists | algo_trading.py:431-463 | once the symbol loop has raised, later symbols are never reached |
| AllocationProperties.NormalizeSumsToOne | algo_trading.py:350-352 | normalising fails exactly on a non-empty dict summing to 0; otherwise the keys are kept and the weights sum to 1 |
| AllocationProperties.EqualWeightsSumToOne | algo_trading.py:345-348 | equal weighting fails only on no symbols; each symbol gets 1/N and the weights sum to 1 |
| AllocationProperties.DcaAllocationsNormalised | algo_trading.py:333-352 | raises exactly on no tradable symbol (equal weights) or a zero-sum configuration; otherwise right keys, summing to 1 |
| AllocationProperties.FearGreedAllocationsNormalised | algo_trading.py:408-469 | a result is keyed by the tradable symbols in column order and sums to 1 when there is one |
| AllocationProperties.AdjustedWeightBounds | algo_trading.py:431-463 | a symbol with a reading in [0, 100] gets its baseline scaled by [0.8, 1.2]; one without readings keeps its baseline |
| AllocationProperties.FearGreedWithoutReadingsIsDca | algo_trading.py:408-469 | with equal baseline and no readings the policy equals equal weighting; with no tradable symbol it returns an empty dict while equal weighting raises |
| AllocationProperties.NearestIsClosest | algo_trading.py:443-447 | on an increasing index the chosen row is at least as close as any other, ties going to the later date |
| AllocationProperties.NearestDecreasingIsClosest | algo_trading.py:443-447 | on a decreasing index the chosen row is at least as close as any other, ties going to the later date |
| AllocationProperties.DecreasingIndexLookup | algo_trading.py:443-450 | readings dated 20 and 10 looked up on day 14 give the reading dated 10, not an error |
| AllocationProperties.RepeatedExactDateReadsFirst | algo_trading.py:443-450 | readings with the looked-up date on two rows give the first of them; the source's behaviour there is under "Allocations.SentimentAt:" in Left out |
| AllocationProperties.ZeroAdjustedTotalFails | algo_trading.py:419-467 | a zero configured weight for the only tradable symbol, which has a reading, makes the final normalisation fail with the zero-total error; the source's behaviour there is under "Allocations.FearGreedAllocations:" in Left out |
| AllocationProperties.ExtremeFearRaisesWeight | algo_trading.py:452-467 | a reading of 0 against a symbol without readings gives the fearful symbol 6/11 of the cash |
| AllocationProperties.AllocationsIntoUnit | algo_trading.py:333-469 | with non-negative configured weights and readings in [0, 100], every weight returned lies in [0, 1] |
| Prices.RepeatedIsProduct | dca_strategy.py:147 | a weekly sum credited n times totals `weekly * n` |
| Prices.Dedup | simple_algo.py:38-43 | the symbols without repeats, same members, in first-seen order: whatever precedes a symbol in the result occurs in the input before any occurrence of that symbol |
| WeeklyDca.ChosenSymbols | dca_strategy.py:12-21 | the given symbols, or exactly SPY, QQQ and VTI when none or an empty list is given |
| WeeklyDca.ValidDates | dca_strategy.py:42-43 | exactly the scheduled dates that are trading dates, as a subsequence of the schedule, so in schedule order |
| WeeklyDca.InvestWeek | dca_strategy.py:57-79 | definition: credit the sum, then buy an equal share for each priced symbol; properties in InvestWeekSpending and InvestWeekKeepsShares |
| WeeklyDca.DcaWeek | dca_strategy.py:55-95 | definition: one valid date invested and recorded as a snapshot; properties in DcaRunHistory |
| WeeklyDca.DcaRun | dca_strategy.py:55-95 | definition: the valid dates in order; properties in DcaRunHistory, DcaRunCash and DcaRunKeepsShares |
| WeeklyDca.AdjustedInvestment | dca_strategy.py:260-261 | definition: the base sum times `1 + (50 - reading) / 100`; properties in AdjustedInvestmentBounds and AdjustedInvestmentMonotone |
| WeeklyDca.FgWeek | dca_strategy.py:251-304 | definition: one valid date with the SPY reading or 50, the adjusted sum invested and recorded; properties in FgRunHistory |
| WeeklyDca.FgRun | dca_strategy.py:251-304 | definition: the valid dates in order; properties in FgRunHistory, FgRunCash, FgInvestedBounds and FgWithoutReadingsIsDca |
| WeeklyDca.Allocation | dca_strategy.py:164-171 | definition: the allocation lines over the dict keys; properties in AllocationPercentages |
| WeeklyDca.DcaReport | dca_strategy.py:135-171 | definition: the summary of the plain backtest; properties in DcaReportFacts |
| WeeklyDca.FgReport | dca_strategy.py:351-387 | definition: the summary of the Fear & Greed backtest; properties in FgReportFacts |
| WeeklyDca.BuyEach | dca_strategy.py:63-79 | buying keeps the set of held symbols |
| WeeklyDca.BuyEqualSplit | dca_strategy.py:63-79 | the buy loop equals the buying function |
| WeeklyDca.AssetsValueOn | dca_strategy.py:82-87 | the valuation loop equals the assets value over the symbol list |
| WeeklyDca.InvestOn | dca_strategy.py:57-86 | crediting, buying and valuing one date equals the week's investing function and the assets value over the symbol list |
| WeeklyDca.DcaStep | dca_strategy.py:55-95 | one plain week equals the week function |
| WeeklyDca.DcaRunExtend | dca_strategy.py:55-95 | the run over one more valid date is one more week, and every symbol is still held |
| WeeklyDca.RunDcaDates | dca_strategy.py:55-95 | the date loop equals the plain run |
| WeeklyDca.FgStep | dca_strategy.py:251-304 | one Fear & Greed week equals the week function |
| WeeklyDca.RunFgDates | dca_strategy.py:251-304 | the date loop equals the Fear & Greed run |
| WeeklyDca.DcaStrategy.constructor | dca_strategy.py:12-21 | keeps the sum, chooses the symbols with the default list, and starts from an empty book and history |
| WeeklyDca.FearGreedBasedStrategy.constructor | dca_strategy.py:213-214 | the same start as the plain strategy |
| WeeklyDca.DcaStrategy.RunBacktest | dca_strategy.py:23-98 | an empty frame: nothing changes and no report; otherwise the portfolio is the run over the valid dates from the reset book, and the report is its summary |
| WeeklyDca.FearGreedBasedStrategy.RunBacktest | dca_strategy.py:216-307 | the same for the Fear & Greed backtest, with its summary |
| WeeklyDca.AllocationLines | dca_strategy.py:168-171 | one line per symbol, in order, with its shares |
| DcaProperties.BuyEachSpends | dca_strategy.py:63-79 | cash falls by one share of the sum per priced entry of the symbol list |
| DcaProperties.BuyEachHoldings | dca_strategy.py:63-79 | unpriced symbols are untouched; a priced symbol gains `per / price` shares per occurrence |
| DcaProperties.InvestWeekSpending | dca_strategy.py:57-79 | all symbols priced: cash unchanged; none priced: cash grows by the sum; in general, for a non-negative sum, between the two |
| DcaProperties.InvestWeekKeepsShares | dca_strategy.py:63-79 | holdings never decrease |
| DcaProperties.DcaRunHistory | dca_strategy.py:55-95 | one snapshot per valid date, in order, appended to the old history; each adds up; the last one's cash is the book's |
| DcaProperties.DcaRunCash | dca_strategy.py:55-79 | cash is the credits minus the buys; for a non-negative sum it stays between the old cash and the old cash plus the credits; fully priced weeks leave it unchanged |
| DcaProperties.DcaRunKeepsShares | dca_strategy.py:55-79 | holdings never decrease over the run |
| DcaProperties.AllocationPercentages | dca_strategy.py:163-171 | lines in first-seen order; with positive total shares they sum to 100, each in [0, 100]; otherwise all 0 |
| DcaProperties.DcaReportFacts | dca_strategy.py:135-171 | no report exactly when no date is valid; weeks, first and last date, invested = weekly per week, cash as the book, and for a non-negative sum 0 <= cash <= invested |
| DcaProperties.FgReportFacts | dca_strategy.py:351-387 | no report exactly when no date is valid; weeks, first and last date, invested = the sum of the recorded investments, cash as the book; readings in [0, 100] keep invested within 0.5 and 1.5 times the base per week and 0 <= cash <= invested |
| DcaProperties.AdjustedInvestmentBounds | dca_strategy.py:260-261 | a reading of 50 invests the base sum; readings in [0, 100] invest between half and one and a half times it; up to 150 never negative |
| DcaProperties.AdjustedInvestmentMonotone | dca_strategy.py:260-261 | a higher reading never invests more |
| DcaProperties.FgWithoutReadingsIsDca | dca_strategy.py:253-304 | with every reading neutral, the Fear & Greed run has the same book and history as the plain run, and invests the base sum each week |
| DcaProperties.FgRunHistory | dca_strategy.py:251-304 | one entry per valid date recording its date, reading and adjusted sum; each adds up |
| DcaProperties.FgRunCash | dca_strategy.py:251-286 | with non-negative base and readings up to 150, cash grows by at most the sums invested and never falls |
| DcaProperties.FgInvestedBounds | dca_strategy.py:260-261 | for readings in [0, 100] the total invested lies between 0.5 and 1.5 times the base per week |
| SimpleDca.Resolve | simple_algo.py:48-53 | definition: the Friday when it is a trading date, else the last index entry not after it; properties in ResolveFacts |
| SimpleDca.SimpleWeek | simple_algo.py:46-97 | definition: one Friday resolved, credited, split equally and recorded, or skipped; properties in SimpleRunHistory |
| SimpleDca.SimpleRun | simple_algo.py:46-97 | definition: the Fridays in order; properties in SimpleRunHistory, SimpleRunCash and SimpleRunFullyPriced |
| SimpleDca.SimpleMetricsOf | simple_algo.py:99-113 | definition: the metrics, or the error of an empty history; properties in SimpleMetricsFacts and SkippedFridayIsCounted |
| SimpleDca.LastAtOrBefore | simple_algo.py:48-53 | none exactly when every index entry is after the Friday; otherwise an index entry not after it |
| SimpleDca.SimpleStep | simple_algo.py:46-97 | one iteration equals the week function |
| SimpleDca.RunSimpleDates | simple_algo.py:46-97 | the date loop equals the run function |
| SimpleDca.SimpleDcaStrategy.constructor | simple_algo.py:12-19 | keeps the symbols and the sum and starts from an empty book and history |
| SimpleDca.SimpleDcaStrategy.RunBacktest | simple_algo.py:21-113 | an empty frame: no metrics and nothing changes; otherwise the portfolio is the run from the reset book, and the result is its metrics or the empty-history error |
| SimpleProperties.LastAtOrBeforeIsLast | simple_algo.py:50-51 | the entry found is the last one in row order not after the Friday |
| SimpleProperties.LastAtOrBeforeIsLatest | simple_algo.py:50-51 | on an ascending index it is the latest trading date not after the Friday |
| SimpleProperties.ResolveFacts | simple_algo.py:48-53 | a trading Friday is kept; otherwise an earlier trading date, or none exactly when no trading date precedes it |
| SimpleProperties.SimpleRunHistory | simple_algo.py:46-97 | one entry per resolved Friday, appended, each on a trading date and recording the sum |
| SimpleProperties.SimpleRunCash | simple_algo.py:56-81 | for a non-negative sum, cash never falls and grows by at most the sum per resolved week |
| SimpleProperties.SimpleRunFullyPriced | simple_algo.py:56-81 | when every symbol is priced on every resolved date, the cash never changes |
| SimpleProperties.SimpleMetricsFacts | simple_algo.py:99-113 | an error exactly when no Friday resolved; otherwise weeks and invested count every scheduled Friday; the final value is the last entry's; cash between 0 and what was credited |
| SimpleProperties.SkippedFridayIsCounted | simple_algo.py:48-53 | a Friday before every trading date is skipped without a credit yet counted in `total_invested` |
| MarketIndices.RollingMax | market_indices.py:71 | definition: the maximum over the last 252 rows, fewer at the start; properties in RollingMaxFacts |
| MarketIndices.RollingMin | market_indices.py:72 | definition: the minimum over the same window; properties in RollingMinFacts |
| MarketIndices.MomentumNorm | market_indices.py:64-68 | definition: the clipped momentum factor; properties in MomentumMidpoint |
| MarketIndices.StrengthNorm | market_indices.py:71-79 | definition: the clipped strength factor; properties in StrengthValues |
| MarketIndices.BreadthNorm | market_indices.py:82-90 | definition: the clipped breadth factor from the two volume averages; properties in BreadthMidpoint |
| MarketIndices.OptionsNorm | market_indices.py:93-95 | definition: the clipped 5-row price change factor; properties in OptionsFacts |
| MarketIndices.JunkBondNorm | market_indices.py:98-104 | definition: the clipped volatility factor; properties in JunkBondFacts |
| MarketIndices.EwmFeed | market_indices.py:123 | definition: one step of pandas' `adjust=False` exponential average with NaN; properties in EwmFacts and EwmWithoutGaps |
| MarketIndices.Ewm | market_indices.py:123 | definition: the exponential average of a series; properties in EwmFacts and EwmWithoutGaps |
| MarketIndices.Respread | market_indices.py:126-129 | definition: the re-spread and clip of one average, 50 for NaN; properties in SmoothedFacts |
| MarketIndices.Smoothed | market_indices.py:123-129 | definition: the index before the variation; properties in SmoothedFacts |
| MarketIndices.CalculateFearGreedIndex | market_indices.py:57-135 | definition: `calculate_fear_greed_index`; properties in FearGreedIndexFacts and NoiselessIndex |
| MarketIndices.GetSentiment | market_indices.py:140-151 | definition: the five threshold bands; properties in SentimentBands and SentimentMonotone |
| MarketIndices.Round2 | market_indices.py:192 | definition: round half to even at two places; properties in Round2Facts |
| MarketIndices.LabelColumn | market_indices.py:190-198 | definition: the stored label of each rounded value; properties in LabelColumnFacts |
| MarketIndexProperties.RollingMaxFacts | market_indices.py:71 | the rolling maximum is the largest value of its window, at least the current one |
| MarketIndexProperties.RollingMinFacts | market_indices.py:72 | the rolling minimum is the smallest value of its window, at most the current one |
| MarketIndexProperties.YearRangeContainsDay | market_indices.py:71-72 | the 52-week high is at least the day's high and the low at most the day's low |
| MarketIndexProperties.MomentumMidpoint | market_indices.py:64-68 | a close at or above its 125-row mean scores at least 50, at or below at most 50 |
| MarketIndexProperties.StrengthValues | market_indices.py:74-79 | strength is -100, 0 or 100, mapped to 0, 50 and 100 |
| MarketIndexProperties.BreadthMidpoint | market_indices.py:82-90 | averaged advancing volume at least the declining one scores at least 45, and conversely |
| MarketIndexProperties.OptionsFacts | market_indices.py:93-95 | NaN exactly on the first five rows, else in [0, 100] |
| MarketIndexProperties.JunkBondFacts | market_indices.py:98-104 | NaN exactly where the volatility is; in [0, 100]; 100 at no volatility, 0 from 50 on; a lower volatility never scores lower |
| MarketIndices.Composite | market_indices.py:112-120 | definition: the 1/7 mean of the seven factors, NaN when any of them is; properties in CompositeFacts |
| MarketIndexProperties.CompositeFacts | market_indices.py:112-120 | NaN exactly on the first five rows or where volatility or RSI is; else the mean of the factors with the junk-bond factor twice, in [0, 100] when the RSI is |
| MarketIndexProperties.EwmFacts | market_indices.py:123 | the average is NaN exactly until the first observation, carries forward over a NaN, and stays within the bounds of the observations |
| MarketIndexProperties.EwmWithoutGaps | market_indices.py:85-86 | without NaN the average is `y0 = x0`, `yt = alpha xt + (1 - alpha) y(t-1)` |
| MarketIndexProperties.SmoothedFacts | market_indices.py:123-129 | before the variation the index is in [0, 100], 50 before the first complete composite, and the re-spread average after it |
| MarketIndexProperties.FearGreedIndexFacts | market_indices.py:57-135 | no index exactly without a frame or with fewer than 252 rows; otherwise one value per row in [0, 100], equal to smoothed plus variation when that is in range |
| MarketIndices.Perturb | market_indices.py:132-133 | one value per row, each in [0, 100], equal to index plus variation whenever that sum is in range |
| MarketIndexProperties.NoiselessIndex | market_indices.py:132-133 | without variation the index is the smoothed index |
| MarketIndexProperties.SentimentBands | market_indices.py:140-151 | each value falls in exactly the band its thresholds give |
| MarketIndexProperties.SentimentMonotone | market_indices.py:140-151 | a higher value never gets a more fearful label |
| MarketIndexProperties.Round2Facts | market_indices.py:192 | rounding moves at most 0.005 and keeps [0, 100] |
| MarketIndexProperties.LabelColumnFacts | market_indices.py:190-198 | the stored labels of an index in [0, 100] are the bands of its rounded values |

## Left out

- File and network I/O, in every file, are not modelled: CSV loading and saving, JSON output, `yfinance` downloads (`fetch_historical_data`), directory listing and plotting. Price frames, Fear & Greed readings and schedules are inputs that already have the loaders' shape.
- The Friday calendar (`pd.date_range(..., freq='W-FRI')` and the `years` look-back from today) is not generated: it is an input schedule, because it depends on the clock and on calendar arithmetic.
- Floating point is modelled as exact reals, so rounding error, overflow and NaN arithmetic are absent. A NaN close is a missing cell, and prices are positive: a zero price would make numpy divide by zero.
- Annualised return, the Sharpe ratio and the rolling standard deviation are left out: they need fractional powers and square roots. The annualised volatility enters the index calculator as an input series.
- The RSI of the `ta` package is a foreign library call. It is an input series.
- The Gaussian noise `np.random.normal(0, 5, n)` is random. It is an input series, so only the final `clip` is modelled.
- `MarketIndices.CalculateFearGreedIndex`: the `try/except` that returns `None` on an exception is not modelled. Every column the model reads exists, closes are positive and volumes non-negative, so no step raises.
- `MarketIndices.CalculateFearGreedIndex`: pandas' infinities from a zero moving average are not followed. The model requires positive closes, as any price history has.
- The `main` driver of `market_indices.py` (summary table, latest value) is not modelled beyond the rounding and the label column.
- `AlgoTrading.TotalReturn`: a zero `total_invested` gives numpy's infinity or NaN. The model returns `None` there, which is weaker than a number.
- MaxDrawdown: in the source, `np.maximum.accumulate` carries the NaN of the first cumulative return forward, so `max_drawdown` is NaN on every run. The model leaves that NaN out. It computes the drawdown over the steps with a defined return (row 1 on), with the running peak starting at the first defined growth, so a fall from the first snapshot to the second is not seen (`FirstFallUnseen`). It returns `None` with fewer than two snapshots or a non-positive snapshot value, where pandas gives NaN or infinities.
- Allocations.FearGreedAllocations: the model fails with the zero-total error where the source raises nothing. This happens when the adjusted weights sum to 0 and at least one of them comes from a reading, for example a configured weight of 0 on the only tradable symbol (`ZeroAdjustedTotalFails`). A reading is a numpy float, so the source's division by the zero total gives NaN or infinite weights with only a warning. On a trading Friday a NaN weight passes the `amount_to_invest < 1` test and the cash becomes NaN for the rest of the run. On a walked-back Friday every trade is skipped and the run goes on with finite values. The model has no NaN, so `Week` and the backtest stop with that error in both cases. When no adjusted weight comes from a reading, the total is a Python float and the source raises `ZeroDivisionError`, as the model does.
- Allocations.SentimentAt: the model returns a reading where the source raises. When the looked-up date is on two rows of a symbol's readings, `df.loc[closest_date, 'Fear_Greed_Index']` is a Series, so the adjusted weight is one too. On a trading Friday the source's `amount_to_invest < 1` test then raises `ValueError`, and on a walked-back Friday the trades are skipped. The model reads the first of those rows instead (`RepeatedExactDateReadsFirst`). A repeated date that is not the looked-up one fails in both, as a non-unique index.
- Loading the Fear & Greed files (`_load_fear_greed_data`) is not modelled, including its aliasing of `X` and `^X` and its skipping of files that fail to parse. Readings are an input map from symbol to parsed rows.
- `SimpleDca.SimpleDcaStrategy.RunBacktest`: requires the frame's columns to be among the strategy's symbols, which is how its loader builds the frame.
- `debug_algo.py`, `simple_debug.py`, `simple_dca.py` and `dca_file_output.py` are debugging and output variants of the modelled files, and are not part of this model.
