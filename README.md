# messari-frontier — a Dafny model of the frontier pipeline

The frontier report ranks DeFi pools as portfolio assets.
- The Messari subgraph client fetches every pool and its daily snapshots of
  total value locked (TVL) and cumulative reward, laid onto a block range.
- Preprocessing rebuilds one daily return series per pool. Each day's
  return is the day's price change ("HODL" return) plus the reward earned
  per unit of TVL ("APY" return).
- Pools whose annualised return or volatility is an outlier are dropped.
- An efficient frontier is traced by sweeping target volatilities.
- The report compares the uniform, tangency, minimum-volatility and
  risk-parity portfolios, in a chart, in weight tables and in a backtest.

The model covers three source files:

- `messari/subgraphs.py` is module `Subgraphs` (subgraphs.dfy). It covers:
  - the schema-type dispatch of `pools`, `snapshots` and `token_weights`;
  - the normalisation of a lone token into a list;
  - the paging loops, over a given sequence of responses;
  - the snapshot gap-fill. A method writes the fetched records into an
    array frame, the columns are interpolated, and one snapshot is emitted
    per requested block;
  - the `subgraphs` registry.
- `reports/frontier/preprocess.py` is split into three modules:
  - `PreprocessSeries` (preprocess_series.dfy) covers `load_pool_data`
    after its database reads: the composite price with its weight fallback
    and the keep-first de-duplication. It also covers the UTC-day
    resampling onto the trailing 90 days and the `daily_returns` loop with
    its HODL and APY returns.
  - `PreprocessStats` (preprocess_stats.dfy) covers `pool_stats`:
    annualised moments, numpy's linear quantiles, the median-centred
    outlier mask, and the covariance recomputed on the kept columns.
  - `PreprocessPortfolio` (preprocess_portfolio.dfy) covers the
    `efficient_frontier` sweep as a loop method over a given solver, the
    risk-parity weights, and the reported return and variance.
- `reports/frontier/assets.py` is module `Assets` (assets.dfy). It covers:
  - the backtest windows, the `cumprod` series, the total return and the
    maximum drawdown;
  - the uniform baseline and the uniform point;
  - the weight tables;
  - the `OnFrontier` marking, as a loop over an array.

Two shared modules support them:
- `Common` (common.dfy) holds Option/Result, the error kinds and the
  numeric folds.
- `Interpolation` (interpolate.dfy) is pandas'
  `interpolate(limit_direction="both")`, which both `snapshots` and
  `daily_returns` call.

Floats are `real`. A missing cell is `None`. A HODL return that divides by
a zero price is `NonFinite`. A statistic pandas would return as NaN is the
error `Undefined`, and a Python exception is the matching `Error`.

The following are parameters of the model, about which nothing is assumed
beyond what is stated:
- the fractional power `** (T / len(returns))`, as `power`;
- the square root, as `root`. Where volatilities must be non-negative,
  `root` is required to return non-negative values;
- scipy's `minimize`, as `solve` and `Optimiser`.

## Model

| member | source | states |
|---|---|---|
| Subgraphs.FamilyOf | messari/subgraphs.py:62-77 | "DEX AMM", "Lending Protocol" or "CDP", and "Yield Aggregator" are the only recognised schema types; each belongs to exactly one query family |
| Subgraphs.PoolsParams | messari/subgraphs.py:62-79 | each family queries its own entity and token field (liquidityPools/inputTokens, markets/inputToken, vaults/inputToken); exactly the unrecognised schema types raise NotImplemented |
| Subgraphs.SnapshotsParams | messari/subgraphs.py:113-139 | each family has its own snapshot entity and pool field, and the block bounds are the first and last requested blocks; an unknown schema type raises NotImplemented even with no blocks; a known one with no blocks raises IndexError |
| Subgraphs.TokenWeightsParams | messari/subgraphs.py:189-195 | token weights can be queried only for "DEX AMM"; every other schema type raises NotImplemented |
| Subgraphs.DispatchConsistent | messari/subgraphs.py:113-139 | `pools` and `snapshots` accept the same schema types, and a schema type with token weights is one whose pools carry a token list |
| Subgraphs.NormaliseTokens | messari/subgraphs.py:97-100 | a lone token object becomes a one-element list, a list is kept as is, and the result is empty only for an empty list |
| Subgraphs.NormaliseTokensKeepsTokens | messari/subgraphs.py:97-100 | normalising neither loses nor invents a token, and an already-normalised list is left as it is |
| Subgraphs.ToPool | messari/subgraphs.py:100-107 | a fetched pool keeps its id and name and gets its normalised token list |
| Subgraphs.StopAt | messari/subgraphs.py:145-155 | paging stops at the first error or empty page, and every page before it was non-empty |
| Subgraphs.FetchAll | messari/subgraphs.py:145-157 | the collected records are those of the pages before the first empty page, in order; an error before that yields `[]` |
| Subgraphs.Pools | messari/subgraphs.py:60-109 | an unknown schema type raises NotImplemented; otherwise every fetched pool is returned in fetch order with its token field normalised |
| Subgraphs.LastIndexAt | messari/subgraphs.py:168-173 | the record that lands in a block's row is the last fetched record for that block, and a block with no record stays empty |
| Subgraphs.LayOut | messari/subgraphs.py:163-173 | the frame spans the blocks first..last of the request, one row each, and each row holds the last fetched record for its block |
| Subgraphs.PlacedComplete | messari/subgraphs.py:175 | once one record was fetched, no cell of any of the three columns is missing after interpolation |
| Subgraphs.EmitKeepsFetched | messari/subgraphs.py:168-175 | a block that has a fetched record keeps that record's timestamp, TVL and reward through interpolation (the later record wins) |
| Subgraphs.Emit | messari/subgraphs.py:176-185 | one snapshot per requested block, in request order, each with that block number, the id `pool_id + "_" + str(block)` and the interpolated values at that block |
| Subgraphs.GapFill | messari/subgraphs.py:162-185 | one snapshot per requested block, in order, with the interpolated values; fetched blocks keep their last record's values; a requested block outside the range raises KeyError, and only then |
| Subgraphs.Snapshots | messari/subgraphs.py:111-185 | dispatch errors propagate; an error response or an empty fetch yields `[]`; otherwise it is KeyError exactly when a requested block lies outside the first..last range, and else one snapshot per requested block, in order, with that block number, the id `pool_id + "_" + str(block)`, the interpolated values of the fetched records, and a fetched block's last record kept as is |
| Subgraphs.RegistryHandled | messari/subgraphs.py:208-242 | every registered subgraph has a handled schema type, so `pools` and `snapshots` never raise NotImplemented for it; exactly the seven DEX AMM entries have token weights |
| Subgraphs.NatToString | messari/subgraphs.py:178 | `str` of a block number: decimal digits that denote the number, with no leading zero except for 0 itself |
| Subgraphs.IntToString | messari/subgraphs.py:178 | `str` of an integer: a minus sign exactly for a negative number, followed by the digits of its magnitude |
| Subgraphs.IntToStringInjective | messari/subgraphs.py:178 | two different integers never print alike |
| Subgraphs.SnapshotIdInjective | messari/subgraphs.py:178 | two blocks of one pool never get the same snapshot id |
| Interpolation.InterpolateKeepsKnown | messari/subgraphs.py:175 | interpolation leaves every known cell unchanged |
| Interpolation.InterpolateComplete | reports/frontier/preprocess.py:99 | a column with a known cell comes out with no missing cell; a column without one comes out unchanged |
| Interpolation.InterpolateInterior | messari/subgraphs.py:174-175 | a gap between two known cells is filled on the straight line through them, by position |
| Interpolation.InterpolateLeadingEdge | messari/subgraphs.py:175 | cells before the first known cell copy it |
| Interpolation.InterpolateTrailingEdge | messari/subgraphs.py:175 | cells after the last known cell copy it |
| Interpolation.InterpolateWithinRange | reports/frontier/preprocess.py:99 | every filled value lies between the smallest and the largest known value of its column |
| Interpolation.LinearBetween | messari/subgraphs.py:175 | a point of a segment lies between the segment's end values |
| PreprocessSeries.RawWeights | reports/frontier/preprocess.py:47-54 | the fetched weights are used only when the fetch succeeded with one weight per token; otherwise every weight is 1 |
| PreprocessSeries.NormalisedWeights | reports/frontier/preprocess.py:55 | with a non-zero sum, each weight is divided by the sum and the weights add to 1; a zero sum leaves no usable weights |
| PreprocessSeries.EqualWeightFallback | reports/frontier/preprocess.py:51-55 | when the fetch fails or returns the wrong number of weights, every token gets `1/n` |
| PreprocessSeries.FetchTokenWeights | messari/subgraphs.py:187-205 | `token_weights` raises NotImplemented exactly for non-DEX schema types, returns `[]` on a transport error and otherwise the fetched list |
| PreprocessSeries.NonDexPoolsUseEqualWeights | reports/frontier/preprocess.py:46-56 | a multi-token pool of a non-DEX protocol, or one whose weight fetch failed, is priced with equal weights |
| PreprocessSeries.CompositePrice | reports/frontier/preprocess.py:41-58 | one observation per price-table row, in strictly increasing timestamp order; a single-token pool keeps its token's column; a multi-token row is known exactly when every token price is known and the weights are usable |
| PreprocessSeries.CompositeOfEqualPrices | reports/frontier/preprocess.py:55-56 | because the weights sum to one, a row in which every token has price x gives the pool price x |
| PreprocessSeries.CompositeFallbackIsMean | reports/frontier/preprocess.py:51-56 | with the equal-weight fallback the composite price is the plain mean of the token prices |
| PreprocessSeries.Dedup | reports/frontier/preprocess.py:72-76 | the de-duplicated series has strictly increasing timestamps and is empty only for no readings |
| PreprocessSeries.DedupStamps | reports/frontier/preprocess.py:72-76 | the timestamps kept are exactly the distinct input timestamps |
| PreprocessSeries.DedupFromReadings | reports/frontier/preprocess.py:72-76 | every kept observation is one of the input readings at its timestamp, and none is missing |
| PreprocessSeries.LastOnDay | reports/frontier/preprocess.py:91-92 | a day's resampled value is its latest non-missing observation (UTC day = timestamp div 86400); a day without one is missing |
| PreprocessSeries.Resample | reports/frontier/preprocess.py:90-92 | one row per consecutive UTC day, at most 90 rows, every column resampled onto the same days, and no rows only when there are no observations |
| PreprocessSeries.ResampleSpan | reports/frontier/preprocess.py:92 | the window ends on the last observed day and holds 90 days, or every day from the first observed one when there are fewer |
| PreprocessSeries.Survivors | reports/frontier/preprocess.py:95-98 | exactly the pools whose last window row has a known price, TVL and reward survive, in input order |
| PreprocessSeries.Filled | reports/frontier/preprocess.py:99 | a survivor's column has no missing cell after interpolation, and its known cells keep their values |
| PreprocessSeries.Hodl | reports/frontier/preprocess.py:105-115 | one HODL return per day after the first; it is finite exactly when the previous price is non-zero |
| PreprocessSeries.HodlReconstructsPrice | reports/frontier/preprocess.py:105-106 | compounding the HODL returns from the first price gives back every later price (no zero price) |
| PreprocessSeries.Apy | reports/frontier/preprocess.py:110-118 | one APY return per day after the first; a zero previous TVL gives 0.0 |
| PreprocessSeries.ApyRecoversReward | reports/frontier/preprocess.py:110-112 | the APY return times the previous TVL is the reward accrued that day |
| PreprocessSeries.AppendedAligned | reports/frontier/preprocess.py:94-113 | the j-th pool, HODL column and APY column all belong to the j-th survivor |
| PreprocessSeries.DailyReturns | reports/frontier/preprocess.py:94-118 | the loop outputs exactly the survivors in order, each with its HODL and APY columns, all one day shorter than the window |
| PreprocessSeries.Loaded | reports/frontier/preprocess.py:41-43 | pools without any price row are skipped, and the others keep their input order |
| PreprocessSeries.LoadedComplete | reports/frontier/preprocess.py:41-43 | no pool with a price row is skipped |
| PreprocessSeries.LoadPoolData | reports/frontier/preprocess.py:24-82 | the loop's result is the metadata and the three series of every pool with a price row, in input order |
| PreprocessSeries.LoadedLayout | reports/frontier/preprocess.py:79-80 | loaded pool j is the j-th input with a price row and owns series 3j, 3j+1 and 3j+2 |
| PreprocessSeries.LoadedShape | reports/frontier/preprocess.py:79-80 | three series per loaded pool, and at least one observation as soon as one pool is loaded |
| PreprocessSeries.SurvivorsAreInputs | reports/frontier/preprocess.py:94-102 | every pool `daily_returns` keeps is one of the input pools |
| PreprocessSeries.DailyReturnsPipeline | reports/frontier/preprocess.py:85-120 | output j is the j-th surviving pool of the loaded series resampled onto the trailing 90 days: its input pool's metadata, with the HODL and APY columns of its window; pools, HODL and APY have the same number of entries; each return column has fewer than 90 days |
| PreprocessSeries.SurvivorsOfInputs | reports/frontier/preprocess.py:94-102 | the j-th kept pool is the input pool behind the j-th surviving loaded window |
| PreprocessStats.SampleCovSymmetric | reports/frontier/preprocess.py:126 | the sample covariance does not depend on the order of its arguments |
| PreprocessStats.SampleVarianceNonNegative | reports/frontier/preprocess.py:126-127 | a sample variance is never negative, so the volatility's square root exists |
| PreprocessStats.CovSymmetric | reports/frontier/preprocess.py:126 | the annualised covariance matrix is symmetric with a non-negative diagonal |
| PreprocessStats.CovOfSelected | reports/frontier/preprocess.py:142 | the covariance recomputed on the kept columns has, at each pair of kept pools, the entry of the full covariance |
| PreprocessStats.QuantileMonotone | reports/frontier/preprocess.py:130 | a larger probability never gives a smaller numpy quantile |
| PreprocessStats.QuantileBounds | reports/frontier/preprocess.py:130 | every quantile lies between the smallest and the largest value |
| PreprocessStats.MedianIsHalfQuantile | reports/frontier/preprocess.py:131 | `np.median` equals the 0.5 quantile, for both odd and even counts |
| PreprocessStats.QuartilesOrdered | reports/frontier/preprocess.py:130-131 | lower quartile ≤ median ≤ upper quartile, so the IQR is never negative |
| PreprocessStats.MedianFenceWithinTukey | reports/frontier/preprocess.py:130-138 | the median-centred fences lie inside Tukey's: every Tukey outlier is masked, and the median never is |
| PreprocessStats.MedianFenceStricter | reports/frontier/preprocess.py:132 | the rule is not Tukey's: Tukey's upper fence is masked whenever the upper quartile exceeds the median |
| PreprocessStats.Inliers | reports/frontier/preprocess.py:132-141 | the kept positions are ascending and each has its return and volatility inside both fences |
| PreprocessStats.InliersComplete | reports/frontier/preprocess.py:140-141 | every pool with its return and volatility inside the fences is kept |
| PreprocessStats.PoolStats | reports/frontier/preprocess.py:123-143 | an empty frame raises ZeroDivision before anything else; then no pools raises EmptyInput; then one row is Undefined; otherwise the result succeeds; the kept pools, returns and covariance have matching sizes no larger than the input |
| PreprocessStats.PoolStatsFilter | reports/frontier/preprocess.py:140-141 | pools and returns are filtered by the same mask, in input order, and no pool inside the fences is dropped |
| PreprocessStats.PoolStatsCov | reports/frontier/preprocess.py:142 | each returned covariance entry is the unfiltered covariance entry of the same two pools |
| PreprocessPortfolio.PortfolioReturn | reports/frontier/preprocess.py:203 | long-only weights that sum to one, as the optimisers' bounds and constraint require, give a return between the smallest and the largest expected return; all weight on one asset gives that asset's return |
| PreprocessPortfolio.PortfolioVariance | reports/frontier/preprocess.py:204-206 | all weight on one asset leaves that asset's own variance, the diagonal covariance entry |
| PreprocessPortfolio.Reported | reports/frontier/preprocess.py:203-206 | the point reported for a weight vector (same code at 220-223 and 231-234): a long-only portfolio's return lies between the extreme expected returns, and a one-asset portfolio is that asset's return and the root of its variance; UniformPortfolio and ReturnOfEqualMus state what it gives for equal weights and equal returns |
| PreprocessPortfolio.UniformPortfolio | reports/frontier/assets.py:84-85 | with equal weights the reported return is the mean of `mu`, and the variance is the mean of all covariance entries |
| PreprocessPortfolio.ReturnOfEqualMus | reports/frontier/preprocess.py:203 | weights summing to one over assets with equal expected return x give the portfolio return x |
| PreprocessPortfolio.RiskParityWeights | reports/frontier/preprocess.py:228-230 | weights exist exactly when every volatility is positive, one per asset; a zero volatility is Undefined |
| PreprocessPortfolio.RiskParitySumsToOne | reports/frontier/preprocess.py:229-230 | the risk-parity weights sum to one |
| PreprocessPortfolio.RiskParityEqualRisk | reports/frontier/preprocess.py:229-230 | each weight is (1/σ_i)/Σ_j(1/σ_j) and lies in (0, 1], and w_i·σ_i is the same for every asset |
| PreprocessPortfolio.LinspaceEnds | reports/frontier/preprocess.py:170 | the sample targets start at the smallest volatility, end at the largest and stay between them |
| PreprocessPortfolio.LinspaceAscending | reports/frontier/preprocess.py:170 | the sample targets ascend |
| PreprocessPortfolio.Above | reports/frontier/preprocess.py:175 | the collected indices are exactly those whose weight exceeds the threshold |
| PreprocessPortfolio.AcceptedIsMonotonePrefix | reports/frontier/preprocess.py:172-180 | the recorded returns are a prefix of the achieved ones, all ≥ 0, non-decreasing, and an early stop happens at the first return below the last recorded one |
| PreprocessPortfolio.AcceptedStep | reports/frontier/preprocess.py:176-180 | a sample is recorded when it does not regress, and the sweep ends there otherwise |
| PreprocessPortfolio.NonzeroUpToMeaning | reports/frontier/preprocess.py:175 | an index is collected exactly when some performed solve gave it a weight above the threshold |
| PreprocessPortfolio.Sweep | reports/frontier/preprocess.py:171-182 | the loop records the accepted returns, returns the matching prefix of targets, and collects the indices of every solve it performed, including the rejected one |
| PreprocessPortfolio.EfficientFrontier | reports/frontier/preprocess.py:169-182 | no assets raise; otherwise the sweep runs over `num_samples` targets evenly spaced from the smallest to the largest volatility |
| Assets.Bound | reports/frontier/assets.py:267 | a Python slice bound: negative values count from the end, and the result is clamped to the length |
| Assets.ILoc | reports/frontier/assets.py:267-274 | a positional `iloc` slice: negative bounds count from the end, bounds past either end are clamped, and an empty range gives no rows; the result is the run of consecutive rows from the normalised start |
| Assets.Estimation | reports/frontier/assets.py:267-269 | the estimation window is the 90 rows before the last 30 when there are at least 120 rows, whatever precedes the last 30 when there are fewer, and nothing with at most 30 |
| Assets.Evaluation | reports/frontier/assets.py:274 | the evaluation window is the last 30 rows, or every row when there are fewer |
| Assets.Kept | reports/frontier/preprocess.py:132-141 | the positions behind `mu.index`: ascending, and a pool is among them exactly when neither its return nor its volatility is an outlier |
| Assets.WindowSplit | reports/frontier/assets.py:267-274 | the estimation and evaluation windows are adjacent and disjoint and together form the last 120 rows (every row when there are at most 120); evaluation is the last 30 rows; estimation has n − 30 rows when 30 ≤ n ≤ 120 |
| Assets.EstimationShort | reports/frontier/assets.py:269 | with fewer than 90 return rows, as `daily_returns` yields, the "90 days window" holds fewer than 60 rows |
| Assets.FrontierWindow | reports/frontier/assets.py:24 | `iloc[-90:]` keeps the last min(n, 90) rows |
| Assets.ReturnRows | reports/frontier/assets.py:24 | `hodl + apy` is a day-by-pool frame whose cell is the pool's HODL plus APY return that day, defined when every HODL return is finite |
| Assets.WindowsRect | reports/frontier/assets.py:267-274 | both windows keep each row's width |
| Assets.EvaluationAligned | reports/frontier/assets.py:269-274 | evaluation column j holds the returns of the pool behind `mu[j]` and `pools[j]` of the estimation |
| Assets.PortfolioDaily | reports/frontier/assets.py:279 | the portfolio's return each day is the weighted sum of that day's returns |
| Assets.UniformDaily | reports/frontier/assets.py:275 | the uniform baseline's return each day is the row mean |
| Assets.UniformIsEqualWeight | reports/frontier/assets.py:275-276 | the uniform baseline is the weighted portfolio with every weight 1/n |
| Assets.Cumulative | reports/frontier/assets.py:279 | the `cumprod` recurrence: the cumulative series starts at 1 + r_0 and each later value is the previous one times 1 + r_t |
| Assets.CompoundedSnoc | reports/frontier/assets.py:279 | compounding one more day multiplies the growth by 1 + r |
| Assets.CompoundedPositive | reports/frontier/assets.py:279 | while no day loses 100% or more, the compounded growth is positive |
| Assets.CumulativePositive | reports/frontier/assets.py:279 | while no day loses 100% or more, every cumulative value is positive |
| Assets.TotalReturn | reports/frontier/assets.py:280 | the last cumulative value less one; an empty series raises IndexError |
| Assets.TotalReturnCompounds | reports/frontier/assets.py:279-280 | the total return is the compounded growth of the daily returns less one |
| Assets.RunningMax | reports/frontier/assets.py:281 | `cummax` at day t bounds every value up to t and is one of them |
| Assets.Drawdowns | reports/frontier/assets.py:281 | each day's drawdown lies in (−1, 0] and is zero exactly on the days the series is at a new high |
| Assets.MaxDrawdown | reports/frontier/assets.py:281 | defined exactly for a non-empty, all-positive series; otherwise Undefined |
| Assets.DrawdownBelowEveryLoss | reports/frontier/assets.py:281 | no later value has fallen below an earlier one by more than the maximum drawdown |
| Assets.DrawdownAttained | reports/frontier/assets.py:281 | some pair of days falls by exactly the maximum drawdown: it is the worst peak-to-trough loss |
| Assets.DrawdownBounds | reports/frontier/assets.py:279-281 | the maximum drawdown lies in (−1, 0] |
| Assets.NoDrawdownWhenRising | reports/frontier/assets.py:281 | a series that never falls has a maximum drawdown of exactly 0 |
| Assets.Assess | reports/frontier/assets.py:279-281 | the printed total return is the compounded growth less one; while every daily return is above −1 the drawdown is defined and in (−1, 0]; an empty window gives IndexError and Undefined |
| Assets.Backtest | reports/frontier/assets.py:279-281 | a weighted strategy's total return is the compounded growth of its daily weighted returns less one; while no day's portfolio return is −100% or worse the drawdown is defined and in (−1, 0]; an empty window gives IndexError and Undefined |
| Assets.UniformBacktest | reports/frontier/assets.py:275-277 | the uniform backtest is the weighted backtest with equal weights; with no columns every figure is undefined |
| Assets.SigmasNonNegative | reports/frontier/preprocess.py:228 | volatilities from a non-negative square root are non-negative |
| Assets.RiskParityBacktest | reports/frontier/assets.py:289-291 | with every volatility positive it is the weighted backtest with the risk-parity weights; a zero volatility leaves NaN and zero weights, the NaN-skipping row sum makes every day 0.0, and the report shows 0.0 for both figures (an empty window still has neither) |
| Assets.CompoundedFlat | reports/frontier/assets.py:289 | days without any return compound to a growth of exactly one |
| Assets.AssessFlat | reports/frontier/assets.py:289-291 | a non-empty window without any return has a total return of 0.0 and a maximum drawdown of 0.0 |
| Assets.BacktestReport | reports/frontier/assets.py:267-291 | the backtest fails exactly when `pool_stats` fails on the estimation window (ZeroDivision when the window is empty, then EmptyInput with no pools, then Undefined for one row) or keeps no pool (ZeroDivision from the solver's starting point `N * [1 / N]`, preprocess.py:200). Otherwise the evaluation columns are those of the kept pools: column j holds pool k_j's returns, and the kept pools are `pools` at k. The four lines are the uniform backtest over those columns, the weighted backtests with the tangency and minimum-volatility weights computed from `mu` and `cov`, and the risk-parity backtest from `cov` |
| Assets.UniformPoint | reports/frontier/assets.py:84-85 | the uniform point is the reported point of the equal-weight portfolio; no assets make it Undefined |
| Assets.Heavy | reports/frontier/assets.py:122 | the filter keeps exactly the entries whose weight exceeds 1e-3 |
| Assets.HeavyCount | reports/frontier/assets.py:122 | every copy of a heavy entry is kept and no copy of a light one |
| Assets.HeavyPermutes | reports/frontier/assets.py:121-122 | filtering a permutation gives a permutation of the filtered input |
| Assets.HeavyKeepsOrder | reports/frontier/assets.py:121-122 | filtering a descending table keeps it descending |
| Assets.WeightTable | reports/frontier/assets.py:121-123 | the table lists exactly the assets with weight > 1e-3, each as often as in the input, in descending weight, indexed 0..k−1 (same code at 166-168 and 211-213) |
| Assets.Entries | reports/frontier/assets.py:112-120 | the concatenated table's row i carries weight i together with pool i's name, protocol and address |
| Assets.Renumber | reports/frontier/assets.py:123 | every row keeps its entry and its index becomes its position |
| Assets.RenumberedTable | reports/frontier/assets.py:123 | renumbering keeps the entries and their order and indexes them by position |
| Assets.MarkOnFrontier | reports/frontier/assets.py:37-39 | a row is flagged exactly when its pool name labels some position in `nonzero`, so every row sharing that name is flagged; a position past the last asset raises IndexError, and only then |
| Assets.LabelsAt | reports/frontier/assets.py:39 | `data.index[idx]` for each in-range position: every such label, and only those |
| Assets.FlagLabel | reports/frontier/assets.py:39 | `data.loc[label, "OnFrontier"] = True` sets the flag of every row carrying the label and changes no other flag |
| Assets.LabelsAtDistinct | reports/frontier/assets.py:37-39 | with distinct pool names a row carries a flagged label exactly when its own position is in `nonzero` |
| Assets.Flagged | reports/frontier/assets.py:41 | the flagged positions, ascending, each flagged, none missed |
| Assets.Selected | reports/frontier/assets.py:41 | selecting by the flag gives the rows at the flagged positions, in order, and no others |
| Assets.FrontierData | reports/frontier/assets.py:37-42 | `frontier_data` is the asset rows sharing a pool name with some position in `nonzero`, in table order; with distinct names, exactly the rows at those positions; an out-of-range position is an error, and only that |

## Left out

- The GraphQL transport, the `gql` client and the query templates are left out. Responses are a given sequence. Running out of responses stands for the server having no more pages, and the `skip_id` cursor is not modelled.
- The database reads of `load_pool_data` are replaced by their results: each pool's metadata, price table, weight-fetch outcome and snapshot rows. The order of `pool_ids`, read from a set, is taken as the given input order.
- PreprocessSeries.CompositePrice: takes a price table whose timestamps strictly increase (`WellFormedTable`). The source only sorts the index (reports/frontier/preprocess.py:41), and a token's snapshots are keyed by id, so two snapshots may share a timestamp. pandas then raises while aligning the token series, or keeps the duplicate rows for a single token. The model does not represent either outcome.
- `len(index) == 0` in `load_pool_data` is not modelled as a branch. Every pool is required to have a snapshot row: pool ids are read from the snapshot table, and an empty row list would fail the unpacking before the check.
- Subgraphs.GapFill: fetched block numbers are required to lie in the requested range, which the query's block filter guarantees. The cast of the timestamp to float is the identity on `real`.
- PreprocessSeries.NormalisedWeights: a zero weight sum is modelled as no usable weights, so every composite price is missing. numpy yields NaN or infinite weights instead, and the model does not track which.
- PreprocessSeries.Dedup: `sort_index` is not stable, so which duplicate survives is not determined. The model keeps the first in input order, and its contract promises only that the kept value is one of the readings at that timestamp.
- Assets.WeightTable: for the same reason, the order of equal weights is not promised.
- Assets.ReturnRows: an infinite or NaN HODL return is not carried into the returns frame, which is then undefined as a whole. Statistics over such cells are not modelled.
- PreprocessStats.PoolStats: with no pools numpy's quantile of an empty array fails; the model names that failure EmptyInput rather than numpy's own exception type.
- PreprocessStats.PoolStats: a single-row window, whose pandas covariance is NaN, is modelled as Undefined rather than as a frame of NaN.
- Assets.MaxDrawdown: a cumulative value that is zero or negative, which needs a day losing 100% or more, is reported as Undefined rather than as the IEEE value pandas computes.
- Assets.UniformBacktest: with no columns the row means are NaN, and the model reports Undefined. The report never asks for this case: with no kept pool, `tangency_portfolio` raises first (Assets.BacktestReport).
- PreprocessPortfolio.RiskParityWeights: a zero volatility gives Undefined instead of the NaN and zero weights numpy computes; Assets.RiskParityBacktest models what the report then prints.
- The fractional power and the square root are parameters. Their values are not modelled, so no contract relates `mu` or `sigma` to closed forms.
- scipy's `minimize` is a parameter. Nothing is assumed about its output, so nothing is claimed about optimality or about its weights summing to one. `BacktestReport` requires only that the tangency and minimum-volatility optimisers return one weight per asset, because a length mismatch in `returns * weights` would raise.
- The tangency and minimum-volatility objective functions are left out. They exist only to be passed to the solver.
- Floating-point rounding, overflow and NaN propagation inside sums are not modelled. Reals are exact.
- The outlier rule centres the fences on the median, not on the quartiles as Tukey's rule does. `PreprocessStats.MedianFenceWithinTukey` and `PreprocessStats.MedianFenceStricter` state how the two rules relate.
- `nonzero` includes the indices of the solve that stops the sweep, because the update at reports/frontier/preprocess.py:175 runs before the check on the next line.
- The backtest's "90 days window" follows the code: it is `iloc[-120:-30]`, which has n − 30 rows when fewer than 120 rows exist (`Assets.WindowSplit`, `Assets.EstimationShort`).
- Chart rendering (altair) and the report layout are left out. So are the exporter services and `services/exporters/utils.py`, which read live chain state.
- The frames from `daily_returns` on are labelled by pool name, and two pools may share a name. Marking the frontier (`data.loc[data.index[idx]]`) is modelled by label; the other steps use positions, which agree with labels only while names are distinct.
- Assets.EvaluationAligned: selects the evaluation columns by position. The source's `returns[mu.index]` selects by pool name, so a kept name that labels two columns selects both of them, once for each time the name occurs in `mu.index`. The column count then differs from the weights, and the weighted backtests raise. The model assumes distinct pool names here.
- Assets.BacktestReport: inherits the distinct-name assumption of Assets.EvaluationAligned.
