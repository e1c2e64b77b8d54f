# Regime allocation strategy — a Dafny model

This project models the statistical core of a volatility-regime allocation strategy:

- **Backtester.** `StrategyBacktester` in `src/backtester.py` does four things.
  - It groups the daily returns of three ETFs (TLT, GLD, SPY) by the regime state of each day. It averages each group and converts the averages to basis points.
  - It picks the best ETF of every regime.
  - It trades the ETF of the regime observed one day earlier, lagging the signal by one day.
  - It scores the strategy and two benchmarks (equal weight and buy-and-hold SPY) with total and annual return, volatility, Sharpe and Sortino ratios, and maximum drawdown.
- **Regime detector.** `RegimeDetector` and `compare_models` in `src/regime_detector.py` cover four things:
  - the fitted/unfitted life cycle of the detector;
  - the per-regime VIX statistics, sorted by mean and named "Low Vol" / "Medium Vol" / "High Vol";
  - the AIC/BIC arithmetic of `score_model`;
  - the first-minimum model selection of `compare_models`.

Modules, one file each:

| file | module | contents |
|---|---|---|
| `basics.dfy` | `Basics` | `Option` and `Result`; `None` plays pandas' NaN in return tables |
| `statistics.dfy` | `Statistics` | sum, mean and sample variance (ddof = 1); dropping NaN; `groupby` on state labels (group sizes, sorted keys) |
| `market.dfy` | `Market` | the ETFs and their `<ticker>_ret` column labels; the `str.replace('_ret', '')` round trip; the day-indexed return table; failures |
| `metrics.dfy` | `Metrics` | `calculate_metrics`: cumulative wealth, running peak, drawdown, and the guarded Sharpe and Sortino ratios |
| `backtester.dfy` | `Backtester` | regime performance, allocation rules, the lagged backtest, benchmarks, and the full run |
| `regime_detector.dfy` | `RegimeDetection` | the detector class, `score_model`, `compare_models`, and `get_regime_stats` |

How the model maps onto the program:

- **NaN.** A missing return is `None`. Every pandas reduction the code calls skips NaN: the group mean, `idxmax`, `prod`, `std`, the cumulative product and expanding maximum, and `min`. The model does the same.
- **Observation counts.** NaN days still count in `len(returns)`, so they count towards the number of observations and the length in years.
- **Lag.** `shift(lag)` accepts any integer lag.
- **Unmapped days.** A day with no signal, or whose state has no rule, gets NaN and is dropped.
- **Ticker without a column.** A rule naming a ticker that has no return column raises `KeyError` in the code, and `Err(KeyError(..))` in the model.
- **Square root, power and logarithm.** `np.sqrt` and the fractional power `**` are given to the model as a `Floating` value. `np.log` is given as a function.
- **The HMM.** The Gaussian HMM (EM fitting, Viterbi decoding, log-likelihood) and the standard scaler are foreign numeric code. A fitted model is an `HmmFit` value: a decoder and a scorer, with the scaler's transform folded in.

Behaviour of the code worth noting:

- **Empty return series.** An empty series makes `calculate_metrics` divide by zero at `1/n_years`; the model returns `Err(ZeroDivision)` there.
- **Scaler.** It refuses only an empty series. One observation is accepted.
- **Refused refit.** `fit` resets the scaler before it refuses an empty series, while the earlier HMM stays in `self.model`. The scaler's learnt mean and scale are deleted, but not the fact that it once saw one feature, so it no longer reports itself unfitted. After such a refit, `predict` and `score_model` refuse an empty series as usual, and fail on any other series when the scaler reaches for its deleted mean (`Err(ScalerReset)`). "Not fitted" (`Err(NotFitted)`) is reported only while no fit has ever succeeded.
- **Missing ticker column.** A rule whose ticker has no `_ret` column makes the backtest raise `KeyError`. It does not skip the day.
- **Tie-break.** `idxmax` already breaks ties by column order (TLT, GLD, SPY), so the best ETF is the first column holding the maximum.

## Model

| member | source | states |
|---|---|---|
| Market.ColumnNamed | src/backtester.py:96 | a label that selects a return column is exactly that column's `<ticker>_ret` label |
| Market.ColumnNamedRecognises | src/backtester.py:35-40 | each of the three `_ret` labels selects its own ETF's column |
| Market.StripSuffix | src/backtester.py:63 | replacing `_ret` in `<stem>_ret`, where the stem has no underscore, gives back the stem |
| Market.RuleTickerRoundTrip | src/backtester.py:63 | the ticker stripped from a winning column's label is one of TLT/GLD/SPY; with `_ret` appended again it selects the very column it came from |
| Statistics.Mean | src/backtester.py:43 | the mean of a group is NaN exactly when the group has no value |
| Statistics.SampleVariance | src/backtester.py:122 | the ddof = 1 variance is NaN below two values and never negative |
| Statistics.ConstantHasZeroVariance | src/backtester.py:122 | a flat series of two or more values has zero variance |
| Statistics.Distinct | src/backtester.py:43 | the group keys are every state that occurs, each once, in ascending order |
| Statistics.Select | src/regime_detector.py:98 | a group has exactly as many days as there are days labelled with its state |
| Statistics.GroupHasPresent | src/backtester.py:43 | a group has a non-NaN value exactly when some day in that state has one |
| Statistics.GroupSizesPartition | src/regime_detector.py:98 | the sizes of the groups of all occurring states add up to the number of days |
| Metrics.Peak | src/backtester.py:134 | the running peak is at least the current cumulative wealth |
| Metrics.PeakIsRunningMax | src/backtester.py:133-134 | the peak is the largest cumulative wealth of any day so far, and some day reaches it |
| Metrics.MaxDrawdownIsLowest | src/backtester.py:135-136 | the maximum drawdown is reached on some day and no day's drawdown is lower; it is NaN only when every day's is |
| Metrics.GrowthPositive | src/backtester.py:133 | while every 1 + r > 0, cumulative wealth stays positive |
| Metrics.DrawdownWithinBounds | src/backtester.py:133-136 | for a non-empty series with every 1 + r > 0, the maximum drawdown exists and lies in (-1, 0] |
| Metrics.FirstDayDrawdown | src/backtester.py:133-135 | the first day's drawdown is 0 |
| Metrics.Negatives | src/backtester.py:128 | the downside returns are strictly negative and no more numerous than the returns (how often each is kept is stated by `NegativesAreNegativeReturns`) |
| Metrics.NegativesAreNegativeReturns | src/backtester.py:128 | a value is a downside return exactly when it is a strictly negative return, and each negative return is kept exactly as often as it occurs |
| Metrics.AnnualVolatility | src/backtester.py:122 | annual volatility is NaN exactly below two observations |
| Metrics.CalculateMetrics | src/backtester.py:117-145 | the metrics fail (division by zero) exactly on an empty series; otherwise the number of observations is the series length, the total return is the compounded wealth of the present returns less one, the annual return raises that wealth to 252 / n, the volatility is the annualised sample deviation, the maximum drawdown is the least daily drawdown, and Sharpe and Sortino are the annual return over their volatility when that is a positive number and 0 otherwise |
| Metrics.SharpeGuard | src/backtester.py:122-125 | Sharpe is 0 unless at least two returns are present and their variance is positive (a single observation gives 0) |
| Metrics.SortinoGuard | src/backtester.py:128-130 | Sortino is 0 when fewer than two returns are negative; for a sign-correct square root, a non-zero Sortino needs two or more negative returns whose sample variance is positive |
| Metrics.EqualDownsideExample | src/backtester.py:127-130 | on returns -1%, -1%, +2% the two downside returns are equal, their deviation is 0, and Sortino is 0 |
| Metrics.FlatSeriesRatiosAreZero | src/backtester.py:122-130 | a constant series gives Sharpe 0 and Sortino 0, never a division by zero |
| Metrics.WealthCompounds | src/backtester.py:117 | the total-return factor of two consecutive stretches of days, NaN skipped, is the product of their factors |
| Metrics.FourDayExample | src/backtester.py:117-136 | on returns 1%, -1%, 2%, -2% the total return is 1.01·0.99·1.02·0.98 - 1 and the maximum drawdown is not positive |
| Backtester.PerfRow.Scale | src/backtester.py:44 | a scaled cell is present exactly when the cell is, and is then its value times the factor; the state is kept |
| Backtester.GroupMeans | src/backtester.py:43 | one row per group key, in key order |
| Backtester.RegimePerformanceStates | src/backtester.py:43 | one row per distinct state that occurs, in ascending state order |
| Backtester.RegimePerformanceCell | src/backtester.py:35-46 | a cell is present exactly when some day of that row's state has that ETF's return, and is then 10000 times the mean of those returns |
| Backtester.BestEtfIsFirstMax | src/backtester.py:63 | the winner is the first column in the order TLT, GLD, SPY with the largest present mean; there is none exactly when the whole row is NaN |
| Backtester.PickStep | src/backtester.py:63 | each scanning step of `idxmax` keeps the first maximum among the columns seen so far |
| Backtester.ScalingKeepsWinner | src/backtester.py:44 | multiplying a row by a positive factor does not change its winner |
| Backtester.BasisPointsKeepWinner | src/backtester.py:43-44 | every regime's winner in basis points is its winner in raw mean returns |
| Backtester.CreateAllocationRules | src/backtester.py:61-66 | the loop builds the rules row by row, or fails at the first all-NaN row |
| Backtester.AllocationRulesOutcome | src/backtester.py:62-63 | the rules are built exactly when every row has a winner; otherwise the failure names the first all-NaN row |
| Backtester.AllocationRulesKeys | src/backtester.py:61-64 | exactly the states of the rows get a rule |
| Backtester.AllocationRulesValues | src/backtester.py:63-64 | every rule names TLT, GLD or SPY |
| Backtester.AllocationRulesPickWinner | src/backtester.py:62-64 | for rows with distinct states, the rule of each row's state is the ticker of that row's winner |
| Backtester.TickerSelectsColumn | src/backtester.py:96 | a rule's ticker with `_ret` appended always names a return column |
| Backtester.Slots | src/backtester.py:91-96 | after the loop has passed `n` days, each entry is the return of the ETF that the rule for the state `lag` days earlier names (NaN when unmapped); the fill fails exactly when some day's ticker names no column |
| Backtester.DropNa | src/backtester.py:98 | `dropna` keeps only present days, each with its value, in strictly increasing day order |
| Backtester.DropNaKeepsPresent | src/backtester.py:98 | `dropna` keeps every present day |
| Backtester.BacktestStrategy | src/backtester.py:84-98 | the in-place fill of the pre-allocated NaN series, followed by `dropna`, yields the strategy returns |
| Backtester.StrategyFailure | src/backtester.py:93-96 | the backtest fails exactly when a state shifted into the window has a rule whose ticker names no column |
| Backtester.UnknownColumnAt | src/backtester.py:93-96 | the lookup on a day raises exactly when the state `lag` days earlier has a rule whose ticker names no column |
| Backtester.StrategyDays | src/backtester.py:84-98 | the series keeps day order and holds exactly the days on which the rule for the state `lag` days earlier names an ETF with a return that day, each with that return |
| Backtester.IncreasingDaysFit | src/backtester.py:98 | strictly increasing days within [lo, hi) number at most hi - lo |
| Backtester.StrategySkipsLagDays | src/backtester.py:84-85 | with a lag of 0 or more, the first `lag` days never appear, so the series has at most n - lag days |
| Backtester.DropNaAfter | src/backtester.py:98 | a series NaN exactly before `lag` keeps exactly the days lag, lag + 1, … |
| Backtester.StrategyFullCoverage | src/backtester.py:84-98 | with no missing return and every shifted state mapped to a ticker, the series holds exactly days lag … n - 1 |
| Backtester.EqualWeightDay | src/backtester.py:159 | a day's equal-weight return is present exactly when all three returns are, and is then their mean, lying between their minimum and maximum |
| Backtester.CreateBenchmarks | src/backtester.py:156-165 | both benchmarks are on the table's day index; equal weight is present exactly when all three returns are, and is then their mean, between their extremes; buy-and-hold is the SPY column unchanged |
| Backtester.EqualWeightExample | src/backtester.py:159 | returns 3%, 0%, -3% average to 0 |
| Backtester.MetricsRows | src/backtester.py:194-196 | the benchmark rows succeed exactly when no benchmark series is empty; each row keeps its name and counts its series' days |
| Backtester.Collect | src/backtester.py:194-196 | the rows are built exactly when every series' metrics succeed, and then pair each name with its series' metrics, in order |
| Backtester.BenchmarkMetrics | src/backtester.py:195-196 | the loop over the benchmarks produces those rows |
| Backtester.RunFullBacktest | src/backtester.py:167-201 | the full run: regime performance, then rules, the lag-1 backtest, strategy metrics and benchmark metrics, in that order |
| Backtester.CompleteTableRules | src/backtester.py:176-181 | on a table with no missing return every regime has a winner, and every state gets a ticker |
| Backtester.FullBacktestSucceeds | src/backtester.py:167-201 | on a table with no missing return and at least two days, the run succeeds with n - 1 strategy days and the rows Regime Strategy (n - 1 observations), Equal Weight (n) and Buy & Hold SPY (n), in that order |
| RegimeDetection.NumParams | src/regime_detector.py:132 | K² + 2K equals (K + 1)² - 1, and is non-negative for K ≥ 0 |
| RegimeDetection.NumParamsIncrease | src/regime_detector.py:132 | more states mean more parameters, from K = -1 up |
| RegimeDetection.AicIncreasesWithStates | src/regime_detector.py:131-135 | at a fixed log-likelihood, AIC strictly increases with K |
| RegimeDetection.BicIncreasesWithStates | src/regime_detector.py:131-136 | at a fixed log-likelihood and ln n > 0, BIC strictly increases with K |
| RegimeDetection.LikelierModelScoresLower | src/regime_detector.py:135-136 | a higher log-likelihood lowers both AIC and BIC |
| RegimeDetection.BicAboveAic | src/regime_detector.py:135-136 | with at least one parameter, BIC exceeds AIC exactly when ln n > 2 |
| RegimeDetection.RegimeDetector.constructor | src/regime_detector.py:14-25 | a new detector keeps its regime count and has neither model nor fitted scaler |
| RegimeDetection.RegimeDetector.Fit | src/regime_detector.py:27-58 | fitting installs the model and fits the scaler, keeping the detector consistent; an empty series is refused, leaves the scaler unfitted and keeps any earlier model |
| RegimeDetection.RegimeDetector.Predict | src/regime_detector.py:60-76 | predicting fails with "not fitted" exactly while no fit has succeeded; after one, it refuses exactly the empty series, and after a refused refit it fails on every other series with the scaler's mean gone; otherwise it gives one state per day, each in [0, K) |
| RegimeDetection.RegimeDetector.ScoreModel | src/regime_detector.py:115-143 | scoring fails exactly as predicting does: "not fitted" while no fit has succeeded, then an empty series, then the scaler's mean gone after a refused refit; otherwise the row carries K, the model's log-likelihood, and the AIC and BIC of those |
| RegimeDetection.RefusedRefitUnfits | src/regime_detector.py:43-75 | after a successful fit, a refit on an empty series leaves `predict` failing on a non-empty series because the scaler lost its mean, although the earlier HMM is still installed |
| RegimeDetection.FirstArgMin | src/regime_detector.py:173-174 | `idxmin`: the position of the first least value |
| RegimeDetection.CompareModels | src/regime_detector.py:145-178 | one score row per entry of the state-count list, in list order; the best AIC and BIC are the state counts of the first row with the least AIC and BIC; an empty series or an empty list fails |
| RegimeDetection.GroupStats | src/regime_detector.py:93-98 | one row per key, carrying that state's day count (positive), the mean of its VIX changes, and a standard deviation that is the square root of their ddof = 1 variance, present exactly when it has two or more days |
| RegimeDetection.InsertByMeanSorted | src/regime_detector.py:99 | inserting a row into rows ascending by mean keeps them ascending |
| RegimeDetection.InsertByMeanAdds | src/regime_detector.py:99 | inserting adds exactly that row and keeps all the others |
| RegimeDetection.SortByMean | src/regime_detector.py:99 | `sort_values('mean')` gives as many rows, in ascending order of mean |
| RegimeDetection.SortByMeanPermutes | src/regime_detector.py:99 | the sorted rows are a permutation of the rows |
| RegimeDetection.SortKeepsDistinctStates | src/regime_detector.py:99 | sorting keeps rows with distinct states distinct |
| RegimeDetection.RegimeStatsOutcome | src/regime_detector.py:98-111 | the stats succeed exactly when at least three (K = 3) or two (otherwise) distinct states occur, and the failure names the first missing index position; on success they give one row per distinct state, in ascending order of mean |
| RegimeDetection.RegimeStatsGroups | src/regime_detector.py:93-98 | the rows are the groups of exactly the occurring states, each once, with the mean VIX change of their days |
| RegimeDetection.RegimeStatsCounts | src/regime_detector.py:98 | the counts add up to the number of days |
| RegimeDetection.OnlyFirstIsLowVol | src/regime_detector.py:102-111 | "Low Vol" names exactly the first row, whatever K is |
| RegimeDetection.LowVolHasLeastMean | src/regime_detector.py:99-111 | "Low Vol" is the first row and the only one, and its mean is the least of any occurring state |
| RegimeDetection.ThreeRegimeNames | src/regime_detector.py:102-105 | with K = 3 the rows ascending by mean are named Low, Medium, High Vol, and any further row has no name |
| RegimeDetection.OtherRegimeNames | src/regime_detector.py:106-111 | with K ≠ 3 only the two calmest rows are named, Low Vol then High Vol, so for K = 4 the second-calmest row is "High Vol" |

## Left out

- The Gaussian HMM's EM fitting, Viterbi decoding and log-likelihood (src/regime_detector.py:47-54, 75, 131) are left out because they are foreign floating-point library code. A fitted model is a given decoder and scorer, and `Fit` takes the trained model as an argument.
- The standard scaler's transform is left out for the same reason. It is folded into the given decoder and scorer; only its refusal of an empty series is modelled.
- `np.sqrt`, the fractional power and `np.log` are transcendental. They are passed in as functions. The lemmas that need the square root's sign assume only that it is non-negative and zero exactly at zero.
- Floating-point rounding is not modelled, because all arithmetic here is exact. For the same reason a NaN or infinity produced by the power or the logarithm themselves, such as a negative base, is not modelled.
- Metrics.CalculateMetrics: the annual return and the volatilities are stated through the given power and square-root functions, so no numeric value of them is promised; only the sign facts that `SharpeGuard` and `SortinoGuard` draw from a sign-correct square root are.
- The percent-string formatting of the metrics, every `print`, the `pd.DataFrame(results).T` layout, and the `__main__` blocks are presentation only and are left out.
- `self.results` and `fit`'s `random_state` are left out because the core never reads them.
- src/utils.py is not part of this model: it only plots and writes CSV files.
- src/data_loader.py is not part of this model: it only downloads and stores data.
- The order among equal means after `sort_values('mean')` is not stated, because that sort is not stable. The model sorts stably, but no lemma depends on tie order.
- The state sequence and the return table are assumed to have the same length, stated as a precondition. pandas would raise on a mismatch, and the callers always align them.
- The default arguments `n_regimes=3` (src/regime_detector.py:14) and `n_states_list=[2, 3, 4]` (src/regime_detector.py:145) are not modelled as defaults: the constructor and `CompareModels` always take them explicitly.
- RegimeDetection.CompareModels: `compare_models` returns only the comparison table and only prints the best AIC and BIC state counts (src/regime_detector.py:173-178). The model returns both counts with the table, so that their choice can be stated.
- RegimeDetection.GroupStats: `|states| == |vix|` is a precondition, as for `RegimeStats`. The code aligns the state labels with the VIX changes of the same days.
- RegimeDetection.RegimeStats: the VIX changes are NaN-free `real` values, so the NaN skipping of pandas' `mean`, `std` and `count` (src/regime_detector.py:98) is not modelled.
- The case where fewer days than states prevents fitting is left out, because it belongs to the foreign HMM library.
- The model's `Decodes` property stands in for the library's guarantee that a K-state model labels every day with a state in [0, K).
