# Backtest engine and return statistics, in Dafny

This project models the single-position backtest engine of a rule-based
trading strategy and the return-series statistics it reports.

The engine is `BacktestingSystem` in `backend/backtesting.py`. It turns a
close-price history and its indicator series into a signal per bar, then
steps through the bars once. On each bar it force-exits an open position
when the close crosses the stop-loss or the take-profit. It then acts on the
bar's own signal and marks the portfolio to market. At the end it reports
summary metrics. The statistics are `RiskCalculation` in
`backend/risk_calculation.py`: simple returns, drawdown, Sharpe ratio,
parametric VaR and expected shortfall.

Modules:

- `Wrappers` (`wrappers.dfy`): `Option`, where `None` stands for a NaN.
- `SeqStats` (`seq_stats.dfy`): sums, means, extremes and an insertion sort over `seq<real>`. Includes the fact that the mean of a sorted prefix is at most the mean of the whole.
- `Signals` (`signals.dfy`): the per-bar buy/sell rule, with comparisons that treat NaN as false.
- `RiskCalculation` (`risk_calculation.dfy`): the statistics, as pure functions over the closes.
- `Backtesting` (`backtesting.dfy`) has two parts:
  - A pure specification over a `Ledger` value: cash, the position slot and the trade log. `Execute` is one `execute_trade`, `BarStep` is one loop iteration, `Replay` is a run up to a bar, and `EquityCurve` is the marked-to-market values.
  - The class `BacktestingSystem`, whose methods update `capital`, `positions` and `tradeHistory` in place. Each method is proved equal to that specification.
- `BacktestingProperties` (`backtesting_properties.dfy`): lemmas across calls.
  - What a buy, a sell and a round trip do.
  - The order of the forced exits.
  - Cash conservation over a whole run. `Book` is cash plus cost basis minus realised profit.
  - The sizing case where that conservation fails.

Behaviour of the code that the model keeps, and that a reader might not expect:

- **Profit factor when nothing lost money.** The profit factor is infinite whenever no trade lost money, including when every profit is 0.
- **Profit factor when there are no trades.** A run with no trades reports no per-trade statistics at all, rather than a NaN profit factor.
- **Final equity of a flat run.** "Final equity of a flat run = initial capital + sum of profits" can fail once the risk fraction exceeds the stop fraction, because a clipped buy then sets aside less cash than the shares cost (`BacktestingProperties.ClippedSizingCreatesCash`).
- **State carried between runs.** A second `run_backtest` on the same object starts from the cash, position and log the first one left.

## Model

| member | source | states |
|---|---|---|
| Signals.MacdDelta | backend/backtesting.py:69 | The MACD day-over-day change is present iff the bar is not the first and both MACD values are present; it is today's value minus yesterday's |
| Signals.GenerateSignals | backend/backtesting.py:60-87 | One signal per bar. -1 iff the sell condition holds; 1 iff the buy condition holds and the sell condition does not; 0 iff neither; a bar with a missing RSI is always 0 |
| Signals.BuyMask | backend/backtesting.py:65-72 | The buy condition holds iff the RSI is present and below the oversold level, and the close is below a present lower band, or the MACD is present on this bar and the previous one and rose, or the ROC is present and positive |
| Signals.SellMask | backend/backtesting.py:75-82 | The sell condition holds iff the RSI is present and above the overbought level, and the close is above a present upper band, or the MACD is present on this bar and the previous one and fell, or the ROC is present and negative |
| Signals.TieNeedsOverlappingThresholds | backend/backtesting.py:65-85 | Buy and sell can both hold on one bar only when the overbought level is below the oversold level |
| Backtesting.PositionSize | backend/backtesting.py:89-95 | Shares times the stop distance equals the risk budget when that distance is positive, else 0 shares; the cash set aside is the share cost or the whole capital, whichever is smaller |
| Backtesting.OpenPosition | backend/backtesting.py:106-112 | The new trade has the given entry date, entry price and share count, and is open with no exit fields when it has shares. For a positive price, a positive stop fraction puts the stop below the entry, a stop fraction below 1 keeps the stop positive, and a positive take-profit fraction puts the target above the entry |
| Backtesting.CloseTrade | backend/backtesting.py:116-120 | The closed trade is Closed with exit date `date`, exit price `price` and profit (exit − entry) × shares. Entry date, entry price, shares, stop and target are those of the open trade |
| Backtesting.Execute | backend/backtesting.py:97-123 | The log only grows, by at most one trade, and grows exactly on a sell while long at a positive price; HOLD, a non-positive price, buy-while-long, sell-while-flat, and a buy while flat that sizes to no shares change nothing |
| Backtesting.ExecuteConsistent | backend/backtesting.py:97-123 | From a consistent ledger (at most one open position, every logged trade closed with its profit) `execute_trade` gives a consistent ledger, and non-negative cash stays non-negative |
| Backtesting.ForcedExit | backend/backtesting.py:136-141 | The log grows by at most one trade, leaving earlier entries as they were; a flat ledger is untouched |
| Backtesting.ForcedExitConsistent | backend/backtesting.py:136-141 | The forced exit keeps the ledger consistent and non-negative cash non-negative |
| Backtesting.BarStep | backend/backtesting.py:131-144 | One bar adds at most two trades to the log, leaving earlier entries as they were |
| Backtesting.BarStepConsistent | backend/backtesting.py:131-144 | One bar keeps the ledger consistent and non-negative cash non-negative |
| Backtesting.Replay | backend/backtesting.py:131-144 | At every bar of a run the starting log is a prefix of the current log |
| Backtesting.ReplayConsistent | backend/backtesting.py:131-144 | At every bar of a run from a consistent ledger the slot holds at most one open position, every logged trade is closed, and cash that started non-negative stays non-negative |
| Backtesting.EquityCurve | backend/backtesting.py:128-149 | One value per bar, and the first is the initial capital |
| Backtesting.EquityMarksToMarket | backend/backtesting.py:147-149 | Portfolio value at a price: a flat ledger is worth its cash; with one position it is cash + shares × price; long positions at a non-negative price never bring it below the cash |
| Backtesting.ReplayAdvances | backend/backtesting.py:136-149 | Running bar i on the state after bar i − 1 gives the state after bar i, and the value recorded for bar i (`EquityAt`) is that state marked to bar i's close |
| Backtesting.Profits | backend/backtesting.py:171 | One profit per logged trade; entry i is the profit recorded on trade i |
| Backtesting.CountWinning | backend/backtesting.py:153 | The number of winning trades is at most the number of trades, and is 0 iff no profit is positive |
| Backtesting.CountWinningCounts | backend/backtesting.py:153 | The number of winning trades is the size of the set of indices whose profit is strictly positive |
| Backtesting.GrossProfit | backend/backtesting.py:177 | The sum of positive profits is non-negative, and is 0 iff no profit is positive. It is at least the sum of all profits, and it plus the gross loss is exactly the sum of all profits |
| Backtesting.GrossLoss | backend/backtesting.py:177 | The sum of negative profits is non-positive, and is 0 iff no profit is negative. It is at most the sum of all profits, with equality iff no profit is positive |
| Backtesting.GrossProfitIsSumOfGains | backend/backtesting.py:177 | The gross profit is the sum of the profits with every non-positive profit replaced by 0, that is, the sum of `profits[profits > 0]` |
| Backtesting.GrossLossIsSumOfLosses | backend/backtesting.py:177 | The gross loss is the sum of the profits with every non-negative profit replaced by 0, that is, the sum of `profits[profits < 0]` |
| Backtesting.ProfitFactorOf | backend/backtesting.py:177 | Infinite iff no profit is negative. Otherwise the gross loss is negative and the factor is the gross profit divided by the absolute gross loss, which is non-negative |
| Backtesting.Stats | backend/backtesting.py:170-178 | Worst profit ≤ average ≤ best profit; worst and best are profits of actual trades, and every profit lies between them, so they are the minimum and maximum; the average is the mean profit; the profit factor is infinite iff no trade lost |
| Backtesting.TotalReturn | backend/backtesting.py:158 | Present iff the initial capital is non-zero; initial × (1 + return) equals the final equity |
| Backtesting.WinRate | backend/backtesting.py:165 | Between 0 and 1; 0 when there are no trades; otherwise rate × trades = winners |
| Backtesting.Summarize | backend/backtesting.py:151-180 | Reports the equity curve and the trade count. Winners ≤ trades, and there are 0 winners iff no profit is positive. The win rate is in [0, 1]. The winner count is `CountWinning` of the logged profits. Per-trade statistics are present iff some trade closed, and are then `Stats` of the logged profits. The total return is `TotalReturn` of the last equity value. The Sharpe ratio, maximum drawdown, VaR and expected shortfall are `RiskCalculation`'s functions of the closes, at the default risk-free rate and confidence level |
| Backtesting.BacktestingSystem.Signal | backend/backtesting.py:127 | The run's signal array has one entry per bar |
| Backtesting.BacktestingSystem.constructor | backend/backtesting.py:20-33 | A new system holds the initial capital as cash, no position and an empty log |
| Backtesting.BacktestingSystem.ExecuteTrade | backend/backtesting.py:97-123 | The new cash, position slot and log are exactly `Execute` applied to the old ones, and the object stays consistent |
| Backtesting.BacktestingSystem.CheckExits | backend/backtesting.py:136-141 | The new state is `ForcedExit` of the old one: a sell at the stop price on a stop hit, else at the target price on a target hit, else no change |
| Backtesting.BacktestingSystem.Step | backend/backtesting.py:136-144 | The new state is `BarStep` of the old one: the forced exit, then the bar's own signal |
| Backtesting.BacktestingSystem.AdvanceBar | backend/backtesting.py:132-149 | One loop iteration: from the replayed state of bar i − 1 it leaves the replayed state of bar i and returns the equity value recorded for bar i |
| Backtesting.BacktestingSystem.Simulate | backend/backtesting.py:128-149 | The final state is the replay of every bar from index 1 in order, and the array filled is the equity curve of that replay, starting with the initial capital |
| Backtesting.BacktestingSystem.RunBacktest | backend/backtesting.py:125-180 | The final state is the replay of every bar from index 1 in order over the run's own signals. The metrics are those of the final trade log and of the equity curve of that replay |
| BacktestingProperties.NoClipping | backend/backtesting.py:89-95 | When the risk fraction is at most the stop fraction, the cash set aside is exactly the cost of the shares bought |
| BacktestingProperties.ClippedSizingCreatesCash | backend/backtesting.py:91-95 | Counterexample: capital 100, risk 5%, stop 2%, price 10 buys 25 shares for 100, and selling at 10 leaves 250 in cash with 0 realised profit |
| BacktestingProperties.BuyWhileFlat | backend/backtesting.py:102-113 | A buy while flat opens exactly one open trade at the price, with the sized share count, stop = price × (1 − sl), target = price × (1 + tp). Cash drops by the amount set aside and the log is unchanged |
| BacktestingProperties.SellWhileLong | backend/backtesting.py:115-123 | A sell while long empties the slot, credits shares × price, and appends the closed trade at the end of the log with profit (price − entry) × shares |
| BacktestingProperties.ExecuteKeepsBook | backend/backtesting.py:97-123 | Under unclipped sizing, every call keeps cash + cost basis − realised profit unchanged |
| BacktestingProperties.RoundTrip | backend/backtesting.py:102-123 | Under unclipped sizing, a buy then a sell changes cash by exactly the profit logged for the trade |
| BacktestingProperties.StopLossFirst | backend/backtesting.py:136-139 | A close at or below the stop is a sell at the stop price, whatever the target. With a positive stop it empties the slot, credits shares × stop and logs the trade closed at the stop |
| BacktestingProperties.TakeProfitSecond | backend/backtesting.py:136-141 | A close above the stop and at or above the target is a sell at the target price. With a positive target it empties the slot, credits shares × target and logs the trade closed at the target |
| BacktestingProperties.InsideBand | backend/backtesting.py:136-144 | Strictly between stop and target only the bar's signal acts |
| BacktestingProperties.NonPositiveStopNeverFires | backend/backtesting.py:138-139 | A stop price of 0 or below never closes the position (the sell at that price is ignored), and the target is then not checked |
| BacktestingProperties.ReentryOnExitBar | backend/backtesting.py:136-144 | A stop-loss exit followed by a buy signal on the same bar logs the exit and reopens a position at that bar's close |
| BacktestingProperties.BarStepKeepsBook | backend/backtesting.py:131-144 | Under unclipped sizing a whole bar keeps cash + cost basis − realised profit unchanged |
| BacktestingProperties.HistoryOnlyGrows | backend/backtesting.py:122 | The log at an earlier bar is a prefix of the log at any later bar |
| BacktestingProperties.ReplayKeepsBook | backend/backtesting.py:131-144 | Under unclipped sizing, cash + cost basis − realised profit at every bar equals its value at the start |
| BacktestingProperties.OpenValueSplits | backend/backtesting.py:147-149 | Market value of the open positions = cost basis + unrealised profit |
| BacktestingProperties.EquityDecomposes | backend/backtesting.py:146-149 | On a fresh run, every equity point after the first is initial capital + realised profit so far + unrealised profit at that close |
| BacktestingProperties.FlatRunEndsWithRealisedProfit | backend/backtesting.py:128-149 | A fresh run that ends flat has final equity = final cash = initial capital + sum of trade profits |
| RiskCalculation.Returns | backend/risk_calculation.py:13 | One return per consecutive pair of closes (n − 1, none for n ≤ 1), with close[i] × (1 + r[i]) = close[i + 1] |
| RiskCalculation.SampleVarianceProperties | backend/risk_calculation.py:13 | The sample variance (ddof 1), which the stdev passed in as `sd` squares to, is defined iff there are at least two values. It is never negative, and it is 0 for a constant series |
| RiskCalculation.CumProdRecurrence | backend/risk_calculation.py:22 | The cumulative product has one entry per return. It starts at 1 + r[0], and each later entry is the previous one times (1 + r[i]) |
| RiskCalculation.GrowthIsPriceRatio | backend/risk_calculation.py:22 | The product of (1 + r) over the first i + 1 returns is close[i + 1] / close[0] |
| RiskCalculation.CumulativeIsPriceRatio | backend/risk_calculation.py:22 | The cumulative product of (1 + r) after i + 1 returns is close[i + 1] / close[0], which is positive |
| RiskCalculation.RunningMaxIsPeak | backend/risk_calculation.py:23 | Each running-maximum entry is one of the values seen so far and is at least every one of them |
| RiskCalculation.RunningMaxProperties | backend/risk_calculation.py:23 | The running maximum is at least the series at every step and never decreases |
| RiskCalculation.CumulativeBelowRunningMax | backend/risk_calculation.py:22-23 | The cumulative series is positive and at most its running maximum |
| RiskCalculation.DrawdownSeries | backend/risk_calculation.py:22-24 | One drawdown per return, each in (−1, 0] |
| RiskCalculation.MaxDrawdown | backend/risk_calculation.py:21-36 | Models both compute_drawdown and compute_max_drawdown, whose bodies are identical. NaN iff there are at most one close. Otherwise it lies in (−1, 0], is one of the drawdowns, and is at most every drawdown |
| RiskCalculation.SharpeRatio | backend/risk_calculation.py:27-30 | NaN iff there are fewer than two closes or the stdev is 0 or NaN; otherwise ratio × stdev = mean return − risk-free rate |
| RiskCalculation.ValueAtRisk | backend/risk_calculation.py:15-19 | NaN iff there are fewer than two closes or the stdev is NaN; otherwise VaR − z × stdev = mean return |
| RiskCalculation.Truncate | backend/risk_calculation.py:40 | Truncation toward zero: the floor for non-negative inputs, and positive iff the input is at least 1 |
| RiskCalculation.Cutoff | backend/risk_calculation.py:40 | The tail size is positive iff (1 − confidence) × N ≥ 1, and then N > 0 |
| RiskCalculation.ExpectedShortfall | backend/risk_calculation.py:38-41 | NaN iff the cutoff is not positive (0, or negative for a confidence above 1); otherwise at most the mean of all returns |
| RiskCalculation.TailMeanAtMostMean | backend/risk_calculation.py:39-41 | The mean of the k smallest returns (a non-empty prefix of the ascending sort) is at most the mean of all returns |
| RiskCalculation.ConstantPrices | backend/risk_calculation.py:27-30 | For a constant price history, the Sharpe ratio is NaN (zero stdev) and, with three or more closes, VaR is 0 |
| SeqStats.Sort | backend/risk_calculation.py:39 | The sorted series is ascending, a permutation of the input, and has the same length and sum |
| SeqStats.Minimum | backend/backtesting.py:176 | The worst profit is one of the profits and at most every profit |
| SeqStats.Maximum | backend/backtesting.py:175 | The best profit is one of the profits and at least every profit |
| SeqStats.MeanBetweenExtremes | backend/backtesting.py:173-176 | The mean of a non-empty series lies between its minimum and maximum |
| SeqStats.PrefixMeanAtMostMean | backend/risk_calculation.py:41 | The mean of a non-empty prefix of an ascending series is at most the mean of the whole series |

## Left out

- The indicator series (RSI, MACD, ROC, Bollinger bands) are inputs of the model, aligned with the closes. `_calculate_indicators` and `backend/technical_indicators.py` call an external indicator library that is not part of this model. The high and low price arrays are never read by the core.
- The sample standard deviation needs a square root. It enters as a parameter `sd`, and `IsStdevOf` ties it to the sample variance: `sd² = variance`, `sd ≥ 0`, and NaN when there are fewer than two returns. The normal quantile `norm.ppf(1 − confidence)` of `compute_var` enters as the parameter `z`.
- `profit_std` in the per-trade statistics is left out, because it is a square root.
- Prices and amounts are exact reals. Rounding, overflow and IEEE infinities are not modelled. NaN is `None`, and the profit factor's `np.inf` is `Infinity`.
- RiskCalculation.Returns, RiskCalculation.MaxDrawdown, RiskCalculation.SharpeRatio, RiskCalculation.ValueAtRisk, RiskCalculation.ExpectedShortfall and Backtesting.BacktestingSystem.RunBacktest require every close to be positive. pandas would produce infinities or NaN for a zero close, and that is not modelled.
- Backtesting.BacktestingSystem.RunBacktest requires at least one close, and Backtesting.Summarize an equity curve of at least one value. On an empty price frame the source raises an IndexError at `equity_curve[0] = …`; that error path is not modelled.
- Backtesting.TotalReturn: an initial capital of 0 gives None, where numpy gives an infinity or a NaN.
- RiskCalculation.ExpectedShortfall: the contract states when the result is NaN and that it is at most the mean return. That it is the mean of a prefix of the ascending sort is carried by its definition and by `SeqStats.Sort`, not by its own ensures.
- BacktestingProperties.ExecuteKeepsBook, BacktestingProperties.ReplayKeepsBook, BacktestingProperties.RoundTrip, BacktestingProperties.EquityDecomposes and BacktestingProperties.FlatRunEndsWithRealisedProfit assume the risk fraction is at most the stop fraction (`UnclippedSizing`). Otherwise the engine buys more shares than it pays for; `ClippedSizingCreatesCash` exhibits this.
- `Trade` is a value. The source closes the trade object in place, but its only other reference, the position slot, is cleared in the same call, so no alias can observe the difference.
- Dates are bar indices, not timestamps. The result dictionary is the `Metrics` datatype.
- Not part of this model:
  - the `__main__` blocks and timing;
  - the HTTP layer in `backend/app.py` (routing, request models, fetching prices over the network, error mapping);
  - the data-fetch modules and logging configuration.
