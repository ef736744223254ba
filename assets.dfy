/** The frontier report's tables and backtest: the positional windows cut
    from the daily returns, the cumulative growth, total return and maximum
    drawdown of a weighted portfolio over the evaluation window, the uniform
    portfolio point, the sorted and filtered weight tables, and the
    `OnFrontier` marking of the assets the frontier sweep used. Chart
    rendering is not part of the model. */
module Assets {
  import opened Common
  import PreprocessSeries
  import PreprocessStats
  import PreprocessPortfolio

  // ---------------------------------------------------------------------------
  // Positional windows

  /** A Python slice bound normalised against a length `n`: negative values
      count from the end, and both sides are clamped to `[0, n]`. */
  function Bound(i: int, n: nat): (b: nat)
    ensures b <= n
    ensures 0 <= i <= n ==> b == i
    ensures -(n as int) <= i < 0 ==> b == n + i
  {
    if i < 0 then (if n + i < 0 then 0 else n + i)
    else if i > n then n
    else i
  }

  /** `frame.iloc[start:stop]`: a negative bound counts from the end, a
      bound past either end is clamped, and an empty range gives no rows.
      The result is the run of consecutive rows from the normalised start. */
  function ILoc<T>(s: seq<T>, start: int, stop: int): (r: seq<T>)
    ensures var a, b := Bound(start, |s|), Bound(stop, |s|);
            |r| == (if a < b then b - a else 0)
    ensures forall k :: 0 <= k < |r| ==> r[k] == s[Bound(start, |s|) + k]
  {
    var a, b := Bound(start, |s|), Bound(stop, |s|);
    if a < b then s[a..b] else []
  }

  /** `start, end = -120, -30`. */
  const Start: int := -120
  const End: int := -30

  /** The estimation window `iloc[start:end]`: the 90 rows before the last
      30 when there are 120 rows, whatever precedes the last 30 when there
      are fewer, and nothing when there are at most 30. */
  function Estimation<T>(rows: seq<T>): (e: seq<T>)
    ensures |rows| >= 120 ==> e == rows[|rows| - 120..|rows| - 30]
    ensures 30 <= |rows| < 120 ==> e == rows[..|rows| - 30]
    ensures |rows| <= 30 ==> e == []
  {
    ILoc(rows, Start, End)
  }

  /** The evaluation window `iloc[end:]`: the last 30 rows, or all of them. */
  function Evaluation<T>(rows: seq<T>): (e: seq<T>)
    ensures |rows| >= 30 ==> e == rows[|rows| - 30..]
    ensures |rows| < 30 ==> e == rows
  {
    ILoc(rows, End, |rows|)
  }

  /** The two backtest windows are adjacent and do not overlap: together
      they are the last 120 rows, and so every row when there are at most
      120. The evaluation window is the last 30 rows (all rows if fewer), and
      the estimation window holds what precedes it, which is `n - 30` rows
      rather than 90 whenever fewer than 120 rows exist. */
  lemma WindowSplit<T>(rows: seq<T>)
    ensures var n := |rows|;
            Estimation(rows) + Evaluation(rows) == rows[Bound(Start, n)..]
    ensures |rows| <= 120 ==> Estimation(rows) + Evaluation(rows) == rows
    ensures |rows| >= 30 ==> |Evaluation(rows)| == 30 && Evaluation(rows) == rows[|rows| - 30..]
    ensures |rows| < 30 ==> Evaluation(rows) == rows && Estimation(rows) == []
    ensures 30 <= |rows| <= 120 ==> |Estimation(rows)| == |rows| - 30
  {
    var n := |rows|;
    if n >= 30 {
      assert rows[Bound(Start, n)..Bound(End, n)] + rows[Bound(End, n)..] == rows[Bound(Start, n)..];
    }
    if n <= 120 {
      assert rows[0..] == rows;
    }
  }

  /** `daily_returns` yields fewer than 90 rows, so the estimation window
      of the backtest never reaches the 90 rows its comment names. */
  lemma EstimationShort<T>(rows: seq<T>)
    requires |rows| < 90
    ensures |Estimation(rows)| < 60
  {
    WindowSplit(rows);
  }

  /** `(hodl + apy).iloc[-90:]`: the last 90 rows, or all of them. */
  lemma FrontierWindow<T>(rows: seq<T>)
    ensures var r := ILoc(rows, -90, |rows|);
            |r| == (if |rows| < 90 then |rows| else 90) && r == rows[|rows| - |r|..]
  {
  }

  /** `hodl + apy` laid out one row per day and one column per pool, when
      every HODL return is finite (an infinite or NaN cell is not carried
      into the frame). */
  function ReturnRows(hodl: seq<seq<PreprocessSeries.Num>>, apy: seq<seq<real>>, len: nat)
    : (rows: Option<seq<seq<real>>>)
    requires |hodl| == |apy|
    requires forall i :: 0 <= i < |hodl| ==> |hodl[i]| == len && |apy[i]| == len
    ensures rows.Some? <==> forall i, t :: 0 <= i < |hodl| && 0 <= t < len ==> hodl[i][t].Finite?
    ensures rows.Some? ==> |rows.value| == len && PreprocessStats.Rect(rows.value, |hodl|)
    ensures rows.Some? ==>
      forall t, i :: 0 <= t < len && 0 <= i < |hodl| ==> rows.value[t][i] == hodl[i][t].r + apy[i][t]
  {
    if forall i, t :: 0 <= i < |hodl| && 0 <= t < len ==> hodl[i][t].Finite? then
      Some(seq(len, t requires 0 <= t < len =>
        seq(|hodl|, i requires 0 <= i < |hodl| => hodl[i][t].r + apy[i][t])))
    else None
  }

  /** The positions `pool_stats` keeps on the estimation window: the pools
      whose annualised return and volatility are both inside the fences. */
  function Kept<P>(pools: seq<P>, rows: seq<seq<real>>, power: (real, real) -> real, root: real -> real)
    : (k: seq<nat>)
    requires PreprocessStats.Rect(rows, |pools|) && |rows| >= 2 && |pools| > 0
    ensures forall j :: 0 <= j < |k| ==> k[j] < |pools|
    ensures forall j, j' :: 0 <= j < j' < |k| ==> k[j] < k[j']
    ensures var n := |pools|;
            var mu, sigma := PreprocessStats.Mus(rows, n, power), PreprocessStats.Sigmas(PreprocessStats.Cov(rows, n), root);
            forall i :: 0 <= i < n ==>
              (i in k <==> !PreprocessStats.Outlier(mu[i], mu) && !PreprocessStats.Outlier(sigma[i], sigma))
  {
    var n := |pools|;
    var mu := PreprocessStats.Mus(rows, n, power);
    var sigma := PreprocessStats.Sigmas(PreprocessStats.Cov(rows, n), root);
    var fm, fs := PreprocessStats.FencesOf(mu), PreprocessStats.FencesOf(sigma);
    forall i | 0 <= i < n && !PreprocessStats.Outside(mu[i], fm) && !PreprocessStats.Outside(sigma[i], fs)
      ensures i in PreprocessStats.Inliers(mu, sigma, fm, fs, n)
    {
      PreprocessStats.InliersComplete(mu, sigma, fm, fs, n, i);
    }
    PreprocessStats.Inliers(mu, sigma, fm, fs, n)
  }

  /** Both windows keep every row's width. */
  lemma WindowsRect<T>(rows: seq<seq<T>>, n: nat)
    requires forall t :: 0 <= t < |rows| ==> |rows[t]| == n
    ensures forall t :: 0 <= t < |Estimation(rows)| ==> |Estimation(rows)[t]| == n
    ensures forall t :: 0 <= t < |Evaluation(rows)| ==> |Evaluation(rows)[t]| == n
  {
    var e, v := ILoc(rows, Start, End), ILoc(rows, End, |rows|);
    assert e == Estimation(rows) && v == Evaluation(rows);
  }

  /** `(hodl + apy).iloc[end:][mu.index]`: the evaluation rows restricted to
      the pools kept on the estimation window. Column `j` holds the returns
      of the same pool as `mu[j]` and `pools[j]` of the estimation. */
  lemma EvaluationAligned<P>(pools: seq<P>, rows: seq<seq<real>>, power: (real, real) -> real, root: real -> real)
    requires PreprocessStats.Rect(rows, |pools|) && |Estimation(rows)| >= 2 && |pools| > 0
    ensures PreprocessStats.Rect(Estimation(rows), |pools|) && PreprocessStats.Rect(Evaluation(rows), |pools|)
    ensures var est, n := Estimation(rows), |pools|;
            var k := Kept(pools, est, power, root);
            var s := PreprocessStats.PoolStats(pools, est, power, root).value;
            var ev := PreprocessStats.SelectColumns(Evaluation(rows), n, k);
            s.pools == PreprocessStats.Pick(pools, k) && |s.mu| == |k| &&
            PreprocessStats.Rect(ev, |s.mu|) &&
            forall t, j :: 0 <= t < |ev| && 0 <= j < |k| ==> ev[t][j] == Evaluation(rows)[t][k[j]]
  {
    WindowsRect(rows, |pools|);
    PreprocessStats.PoolStatsFilter(pools, Estimation(rows), power, root);
  }

  // ---------------------------------------------------------------------------
  // Backtest

  /** `(returns * weights).sum(axis=1)`: the portfolio's return each day. */
  function PortfolioDaily(rows: seq<seq<real>>, w: seq<real>): (r: seq<real>)
    requires PreprocessStats.Rect(rows, |w|)
    ensures |r| == |rows| && forall t :: 0 <= t < |rows| ==> r[t] == Dot(rows[t], w)
  {
    seq(|rows|, t requires 0 <= t < |rows| => Dot(rows[t], w))
  }

  /** `returns.mean(axis=1)`: the uniform portfolio's return each day. */
  function UniformDaily(rows: seq<seq<real>>, n: nat): (r: seq<real>)
    requires PreprocessStats.Rect(rows, n) && n > 0
    ensures |r| == |rows| && forall t :: 0 <= t < |rows| ==> r[t] == Mean(rows[t])
  {
    seq(|rows|, t requires 0 <= t < |rows| => Mean(rows[t]))
  }

  /** The uniform baseline is the weighted portfolio with every weight
      `1/n`: a row's mean is its equal-weight sum. */
  lemma UniformIsEqualWeight(rows: seq<seq<real>>, n: nat)
    requires PreprocessStats.Rect(rows, n) && n > 0
    ensures UniformDaily(rows, n) == PortfolioDaily(rows, Uniform(n))
  {
    forall t | 0 <= t < |rows| ensures Mean(rows[t]) == Dot(rows[t], Uniform(n)) {
      UniformDotIsMean(rows[t]);
    }
  }

  /** `(1 + r).cumprod()`: day `t` holds the product of `1 + r[s]` over
      days `s <= t`. */
  function Cumulative(r: seq<real>): (c: seq<real>)
    ensures |c| == |r|
    ensures |r| > 0 ==> c[0] == 1.0 + r[0]
    ensures forall t :: 0 < t < |r| ==> c[t] == c[t - 1] * (1.0 + r[t])
  {
    var c := seq(|r|, t requires 0 <= t < |r| => PreprocessStats.Compounded(r[..t + 1]));
    forall t | 0 <= t < |r| ensures c[t] == if t == 0 then 1.0 + r[0] else c[t - 1] * (1.0 + r[t]) {
      CompoundedPrefix(r, t);
    }
    c
  }

  lemma MulAssociates(a: real, b: real, c: real)
    ensures a * (b * c) == (a * b) * c
  {
  }

  lemma MulPositive(a: real, b: real)
    requires a > 0.0 && b > 0.0
    ensures a * b > 0.0
  {
  }

  /** Compounding one more day multiplies the growth by `1 + x`. */
  lemma {:induction false} CompoundedSnoc(s: seq<real>, x: real)
    ensures PreprocessStats.Compounded(s + [x]) == PreprocessStats.Compounded(s) * (1.0 + x)
  {
    if |s| > 0 {
      assert (s + [x])[1..] == s[1..] + [x];
      CompoundedSnoc(s[1..], x);
      MulAssociates(1.0 + s[0], PreprocessStats.Compounded(s[1..]), 1.0 + x);
    }
  }

  /** Compounding the first `t + 1` days: `1 + r[0]` for the first, and one
      more factor `1 + r[t]` for each later day. */
  lemma CompoundedPrefix(r: seq<real>, t: nat)
    requires t < |r|
    ensures t == 0 ==> PreprocessStats.Compounded(r[..1]) == 1.0 + r[0]
    ensures t > 0 ==> PreprocessStats.Compounded(r[..t + 1]) == PreprocessStats.Compounded(r[..t]) * (1.0 + r[t])
  {
    if t == 0 {
      assert r[..1][1..] == [];
      assert PreprocessStats.Compounded(r[..1]) == (1.0 + r[0]) * PreprocessStats.Compounded([]);
    } else {
      assert r[..t + 1] == r[..t] + [r[t]];
      CompoundedSnoc(r[..t], r[t]);
    }
  }

  /** While no day loses 100% or more, the compounded growth is positive. */
  lemma {:induction false} CompoundedPositive(r: seq<real>)
    requires forall t :: 0 <= t < |r| ==> r[t] > -1.0
    ensures PreprocessStats.Compounded(r) > 0.0
  {
    if |r| > 0 {
      var a, b := 1.0 + r[0], PreprocessStats.Compounded(r[1..]);
      CompoundedPositive(r[1..]);
      assert PreprocessStats.Compounded(r) == a * b;
      MulPositive(a, b);
    }
  }

  /** While no day loses 100% or more, the cumulative value stays positive. */
  lemma CumulativePositive(r: seq<real>)
    requires forall t :: 0 <= t < |r| ==> r[t] > -1.0
    ensures forall t :: 0 <= t < |r| ==> Cumulative(r)[t] > 0.0
  {
    forall t | 0 <= t < |r| ensures Cumulative(r)[t] > 0.0 {
      CompoundedPositive(r[..t + 1]);
    }
  }

  /** `series[-1] - 1`: the total return over the window; an empty series
      has no last element. */
  function TotalReturn(c: seq<real>): (r: Result<real>)
    ensures r.Ok? <==> |c| > 0
    ensures r.Err? ==> r.error == IndexError
  {
    if |c| == 0 then Err(IndexError) else Ok(c[|c| - 1] - 1.0)
  }

  /** The total return of the cumulative series is the compounded growth of
      the daily returns less one. */
  lemma TotalReturnCompounds(r: seq<real>)
    requires |r| > 0
    ensures TotalReturn(Cumulative(r)).Ok?
    ensures TotalReturn(Cumulative(r)).value == PreprocessStats.Compounded(r) - 1.0
  {
    assert r[..|r|] == r;
  }

  /** `series.cummax()` at day `t`. */
  function RunningMax(c: seq<real>, t: nat): (m: real)
    requires t < |c|
    ensures c[t] <= m && forall s :: 0 <= s <= t ==> c[s] <= m
    ensures exists s :: 0 <= s <= t && c[s] == m
  {
    var m := Max(c[..t + 1]);
    assert forall s :: 0 <= s <= t ==> c[..t + 1][s] == c[s];
    m
  }

  /** `series / series.cummax() - 1`. Each day's drawdown lies in `(-1, 0]`,
      and it is zero exactly on the days the series is at a new high. */
  function Drawdowns(c: seq<real>): (d: seq<real>)
    requires AllPositive(c)
    ensures |d| == |c|
    ensures forall t :: 0 <= t < |c| ==> -1.0 < d[t] <= 0.0
    ensures forall t :: 0 <= t < |c| ==> (d[t] == 0.0 <==> forall s :: 0 <= s <= t ==> c[s] <= c[t])
  {
    var d := seq(|c|, t requires 0 <= t < |c| => c[t] / RunningMax(c, t) - 1.0);
    forall t | 0 <= t < |c|
      ensures -1.0 < d[t] <= 0.0
      ensures d[t] == 0.0 <==> forall s :: 0 <= s <= t ==> c[s] <= c[t]
    {
      RatioBounds(c[t], RunningMax(c, t));
      RatioOne(c[t], RunningMax(c, t));
    }
    d
  }

  lemma RatioOne(a: real, m: real)
    requires 0.0 < a <= m
    ensures a / m == 1.0 <==> a == m
  {
  }

  /** `(series / series.cummax() - 1).min()`. pandas returns NaN for an
      empty series; a non-positive value makes the quotients infinite or NaN;
      the model reports both as `Undefined`. */
  function MaxDrawdown(c: seq<real>): (r: Result<real>)
    ensures r.Ok? <==> |c| > 0 && AllPositive(c)
    ensures r.Err? ==> r.error == Undefined
  {
    if |c| == 0 || !AllPositive(c) then Err(Undefined)
    else Ok(Min(Drawdowns(c)))
  }

  lemma RatioBounds(a: real, m: real)
    requires 0.0 < a <= m
    ensures 0.0 < a / m <= 1.0
  {
  }

  lemma RatioAntitone(a: real, m: real, p: real)
    requires 0.0 < a && 0.0 < p <= m
    ensures a / m <= a / p
  {
    assert a / m * m == a == a / p * p;
    MulNonNegative(a / p, m - p);
  }

  /** No later value of the series has fallen below an earlier one by more
      than the maximum drawdown. */
  lemma DrawdownBelowEveryLoss(c: seq<real>, s: nat, t: nat)
    requires |c| > 0 && AllPositive(c) && s <= t < |c|
    ensures MaxDrawdown(c).value <= c[t] / c[s] - 1.0
  {
    var dd := Drawdowns(c);
    assert Min(dd) <= dd[t];
    RatioAntitone(c[t], RunningMax(c, t), c[s]);
  }

  /** Some pair of days falls by exactly the maximum drawdown: it is the
      worst peak-to-trough loss. */
  lemma DrawdownAttained(c: seq<real>)
    requires |c| > 0 && AllPositive(c)
    ensures exists s, t :: 0 <= s <= t < |c| && MaxDrawdown(c).value == c[t] / c[s] - 1.0
  {
    var dd := Drawdowns(c);
    var t :| 0 <= t < |c| && dd[t] == Min(dd);
    var s :| 0 <= s <= t && c[s] == RunningMax(c, t);
    assert MaxDrawdown(c).value == c[t] / c[s] - 1.0;
  }

  /** The maximum drawdown lies in `(-1, 0]`. */
  lemma DrawdownBounds(c: seq<real>)
    requires |c| > 0 && AllPositive(c)
    ensures -1.0 < MaxDrawdown(c).value <= 0.0
  {
    var dd := Drawdowns(c);
    var t :| 0 <= t < |c| && dd[t] == Min(dd);
    RatioBounds(c[t], RunningMax(c, t));
  }

  /** A series that never falls has no drawdown. */
  lemma NoDrawdownWhenRising(c: seq<real>)
    requires |c| > 0 && AllPositive(c)
    requires forall s, t :: 0 <= s <= t < |c| ==> c[s] <= c[t]
    ensures MaxDrawdown(c).Ok? && MaxDrawdown(c).value == 0.0
  {
    var dd := Drawdowns(c);
    forall t | 0 <= t < |c| ensures dd[t] == 0.0 {
      assert RunningMax(c, t) == c[t];
    }
    var t :| 0 <= t < |c| && dd[t] == Min(dd);
  }

  /** The total return and maximum drawdown the report prints for one
      strategy. */
  datatype Outcome = Outcome(total: Result<real>, drawdown: Result<real>)

  /** `(1 + daily).cumprod()`, then its last value less one and its maximum
      drawdown. The reported total return is the compounded growth of the
      daily returns less one; while no day loses 100% or more the drawdown
      is defined and lies in `(-1, 0]`; an empty window has neither. */
  function Assess(daily: seq<real>): (o: Outcome)
    ensures |daily| > 0 ==> o.total.Ok? && o.total.value == PreprocessStats.Compounded(daily) - 1.0
    ensures |daily| == 0 ==> o == Outcome(Err(IndexError), Err(Undefined))
    ensures |daily| > 0 && (forall t :: 0 <= t < |daily| ==> daily[t] > -1.0) ==>
              o.drawdown.Ok? && -1.0 < o.drawdown.value <= 0.0
  {
    var c := Cumulative(daily);
    if |daily| > 0 then
      TotalReturnCompounds(daily);
      if forall t :: 0 <= t < |daily| ==> daily[t] > -1.0 then
        CumulativePositive(daily);
        DrawdownBounds(c);
        Outcome(TotalReturn(c), MaxDrawdown(c))
      else Outcome(TotalReturn(c), MaxDrawdown(c))
    else Outcome(TotalReturn(c), MaxDrawdown(c))
  }

  /** The backtest of a weighted strategy over the evaluation rows. */
  function Backtest(rows: seq<seq<real>>, w: seq<real>): (o: Outcome)
    requires PreprocessStats.Rect(rows, |w|)
    ensures |rows| == 0 ==> o == Outcome(Err(IndexError), Err(Undefined))
    ensures |rows| > 0 ==> o.total.Ok? && o.total.value == PreprocessStats.Compounded(PortfolioDaily(rows, w)) - 1.0
    ensures |rows| > 0 && (forall t :: 0 <= t < |rows| ==> Dot(rows[t], w) > -1.0) ==>
              o.drawdown.Ok? && -1.0 < o.drawdown.value <= 0.0
  {
    Assess(PortfolioDaily(rows, w))
  }

  /** The backtest of the uniform baseline, `(1 + returns.mean(axis=1))`.
      With no kept pool every row's mean is NaN. */
  function UniformBacktest(rows: seq<seq<real>>, n: nat): (o: Outcome)
    requires PreprocessStats.Rect(rows, n)
    ensures n > 0 ==> o == Backtest(rows, Uniform(n))
  {
    if n == 0 then
      Outcome(if |rows| == 0 then Err(IndexError) else Err(Undefined), Err(Undefined))
    else
      UniformIsEqualWeight(rows, n);
      Assess(UniformDaily(rows, n))
  }

  /** The foreign optimiser behind `tangency_portfolio` and
      `min_volatility_portfolio`: from `mu` and `cov` to the weights scipy's
      `minimize` stops at. */
  type Optimiser = (seq<real>, seq<seq<real>>) -> seq<real>

  /** The four backtest lines the report prints. */
  datatype Report = Report(uniform: Outcome, tangency: Outcome, minVolatility: Outcome, riskParity: Outcome)

  /** Square roots are never negative, so neither are the volatilities. */
  lemma SigmasNonNegative(cov: seq<seq<real>>, root: real -> real)
    requires forall i :: 0 <= i < |cov| ==> |cov[i]| == |cov|
    requires forall x :: root(x) >= 0.0
    ensures forall i :: 0 <= i < |cov| ==> PreprocessStats.Sigmas(cov, root)[i] >= 0.0
  {
    var sigma := PreprocessStats.Sigmas(cov, root);
    forall i | 0 <= i < |cov| ensures sigma[i] >= 0.0 {
      var d := cov[i][i];
      assert sigma[i] == root(d);
      assert root(d) >= 0.0;
    }
  }

  /** Every day's return is zero. */
  function Flat(m: nat): (r: seq<real>)
    ensures |r| == m && forall t :: 0 <= t < m ==> r[t] == 0.0
  {
    seq(m, _ => 0.0)
  }

  /** Compounding days without a return leaves the growth at one. */
  lemma {:induction false} CompoundedFlat(r: seq<real>)
    requires forall t :: 0 <= t < |r| ==> r[t] == 0.0
    ensures PreprocessStats.Compounded(r) == 1.0
  {
    if |r| > 0 {
      CompoundedFlat(r[1..]);
    }
  }

  /** A window without any return neither gains nor draws down. */
  lemma AssessFlat(m: nat)
    requires m > 0
    ensures Assess(Flat(m)) == Outcome(Ok(0.0), Ok(0.0))
  {
    var c := Cumulative(Flat(m));
    forall t | 0 <= t < m ensures c[t] == 1.0 {
      CompoundedFlat(Flat(m)[..t + 1]);
    }
    NoDrawdownWhenRising(c);
  }

  /** The risk-parity backtest. A zero volatility makes its inverse infinite
      and so the sum of inverses: that asset's weight is NaN and every other
      weight is 0.0. The row sum skips NaN, so every day's return is 0.0 and
      the report shows a total return and a maximum drawdown of 0.0. */
  function RiskParityBacktest(rows: seq<seq<real>>, cov: seq<seq<real>>, root: real -> real): (o: Outcome)
    requires forall i :: 0 <= i < |cov| ==> |cov[i]| == |cov|
    requires PreprocessStats.Rect(rows, |cov|)
    requires forall x :: root(x) >= 0.0
    ensures var sigma := PreprocessStats.Sigmas(cov, root);
            !AllPositive(sigma) ==> o == Assess(Flat(|rows|))
    ensures var sigma := PreprocessStats.Sigmas(cov, root);
            !AllPositive(sigma) && |rows| > 0 ==> o == Outcome(Ok(0.0), Ok(0.0))
    ensures var sigma := PreprocessStats.Sigmas(cov, root);
            AllPositive(sigma) ==>
              o == Backtest(rows, PreprocessPortfolio.RiskParityWeights(sigma).value)
  {
    var sigma := PreprocessStats.Sigmas(cov, root);
    SigmasNonNegative(cov, root);
    match PreprocessPortfolio.RiskParityWeights(sigma)
    case Err(_) =>
      if |rows| > 0 then AssessFlat(|rows|); Assess(Flat(|rows|)) else Assess(Flat(|rows|))
    case Ok(w) => Backtest(rows, w)
  }

  /** `pool_stats` succeeds on the estimation window and keeps some pool. */
  predicate KeepsSome<P>(pools: seq<P>, rows: seq<seq<real>>, power: (real, real) -> real, root: real -> real)
    requires PreprocessStats.Rect(rows, |pools|)
  {
    WindowsRect(rows, |pools|);
    |Estimation(rows)| >= 2 && |pools| > 0 && |Kept(pools, Estimation(rows), power, root)| > 0
  }

  /** The backtest block: `pool_stats` on the estimation window, the three
      strategies' weights from its `mu` and `cov`, and each strategy (and the
      uniform baseline) evaluated on the evaluation window restricted to the
      kept pools. It fails when `pool_stats` fails on the estimation window,
      and when `pool_stats` keeps no pool: `tangency_portfolio` then starts
      the solver from `N * [1 / N]` with `N == 0`, which divides by zero. */
  function BacktestReport<P>(pools: seq<P>, rows: seq<seq<real>>, power: (real, real) -> real, root: real -> real,
                             tangency: Optimiser, minVolatility: Optimiser): (r: Result<Report>)
    requires PreprocessStats.Rect(rows, |pools|)
    requires forall x :: root(x) >= 0.0
    requires forall m, c :: |tangency(m, c)| == |m| && |minVolatility(m, c)| == |m|
    ensures |Estimation(rows)| == 0 ==> r == Err(ZeroDivision)
    ensures |Estimation(rows)| > 0 && |pools| == 0 ==> r == Err(EmptyInput)
    ensures |Estimation(rows)| == 1 && |pools| > 0 ==> r == Err(Undefined)
    ensures |Estimation(rows)| >= 2 && |pools| > 0 && !KeepsSome(pools, rows, power, root) ==> r == Err(ZeroDivision)
    ensures r.Ok? <==> KeepsSome(pools, rows, power, root)
    ensures r.Ok? ==> (
              EvaluationAligned(pools, rows, power, root);
              var est := Estimation(rows);
              var s := PreprocessStats.PoolStats(pools, est, power, root).value;
              var k := Kept(pools, est, power, root);
              var ev := PreprocessStats.SelectColumns(Evaluation(rows), |pools|, k);
              && s.pools == PreprocessStats.Pick(pools, k)
              && (forall t, j :: 0 <= t < |ev| && 0 <= j < |k| ==> ev[t][j] == Evaluation(rows)[t][k[j]])
              && r.value.uniform == UniformBacktest(ev, |s.mu|)
              && r.value.tangency == Backtest(ev, tangency(s.mu, s.cov))
              && r.value.minVolatility == Backtest(ev, minVolatility(s.mu, s.cov))
              && r.value.riskParity == RiskParityBacktest(ev, s.cov, root))
  {
    var est, n := Estimation(rows), |pools|;
    WindowsRect(rows, n);
    match PreprocessStats.PoolStats(pools, est, power, root)
    case Err(e) => Err(e)
    case Ok(s) =>
      EvaluationAligned(pools, rows, power, root);
      if |s.mu| == 0 then Err(ZeroDivision)
      else
        var ev := PreprocessStats.SelectColumns(Evaluation(rows), n, Kept(pools, est, power, root));
        Ok(Report(
          UniformBacktest(ev, |s.mu|),
          Backtest(ev, tangency(s.mu, s.cov)),
          Backtest(ev, minVolatility(s.mu, s.cov)),
          RiskParityBacktest(ev, s.cov, root)))
  }

  // ---------------------------------------------------------------------------
  // Uniform portfolio point

  /** `mu.mean()` and `np.sqrt(cov.mean().mean())`, with the square root
      given as `root`. The mean of no assets is NaN, reported as
      `Undefined`. The point is the equal-weight portfolio: its return and
      squared volatility are what the weighted formulas give for weights
      `1/n`. */
  function UniformPoint(mu: seq<real>, cov: seq<seq<real>>, root: real -> real)
    : (p: Result<PreprocessPortfolio.Point>)
    requires PreprocessPortfolio.Square(cov) && |mu| == |cov|
    ensures p.Ok? <==> |mu| > 0
    ensures p.Err? ==> p.error == Undefined
    ensures p.Ok? ==> p.value == PreprocessPortfolio.Reported(mu, cov, Uniform(|mu|), root)
  {
    if |mu| == 0 then Err(Undefined)
    else
      PreprocessPortfolio.UniformPortfolio(mu, cov);
      Ok(PreprocessPortfolio.Point(Mean(mu), root(PreprocessPortfolio.MeanOfColumnMeans(cov))))
  }

  // ---------------------------------------------------------------------------
  // Weight tables

  /** Weights at or below this are left out of a weight table (`1e-3`). */
  const MinWeight: real := 0.001

  /** One asset's line of a weight table before renumbering. */
  datatype Entry = Entry(weight: real, asset: string, protocol: string, address: string)

  /** The table's index after `index = range(len(table))`. */
  datatype TableRow = TableRow(index: nat, entry: Entry)

  /** `pd.concat([weights, data.Asset, data.Protocol], axis=1)` with the
      `Address` column added: one entry per asset, in `mu` order. */
  function Entries(w: seq<real>, pools: seq<PreprocessSeries.PoolInfo>): (es: seq<Entry>)
    requires |w| == |pools|
    ensures |es| == |w|
    ensures forall i :: 0 <= i < |w| ==>
              es[i].weight == w[i] && es[i].asset == pools[i].name &&
              es[i].protocol == pools[i].protocol && es[i].address == pools[i].id
  {
    seq(|w|, i requires 0 <= i < |w| => Entry(w[i], pools[i].name, pools[i].protocol, pools[i].id))
  }

  /** `table[table.Weight > 1e-3]`, in table order. */
  function Heavy(es: seq<Entry>): (h: seq<Entry>)
    ensures forall e :: e in h <==> e in es && e.weight > MinWeight
    ensures |h| <= |es|
  {
    if |es| == 0 then []
    else (if es[0].weight > MinWeight then [es[0]] else []) + Heavy(es[1..])
  }

  /** The filter keeps every copy of a heavy entry and no copy of a light
      one. */
  lemma {:induction false} HeavyCount(es: seq<Entry>, e: Entry)
    ensures multiset(Heavy(es))[e] == if e.weight > MinWeight then multiset(es)[e] else 0
  {
    if |es| > 0 {
      HeavyCount(es[1..], e);
      assert es == [es[0]] + es[1..];
    }
  }

  /** Filtering commutes with reordering: a permutation of the input gives
      a permutation of the output. */
  lemma HeavyPermutes(a: seq<Entry>, b: seq<Entry>)
    requires multiset(a) == multiset(b)
    ensures multiset(Heavy(a)) == multiset(Heavy(b))
  {
    forall e ensures multiset(Heavy(a))[e] == multiset(Heavy(b))[e] {
      HeavyCount(a, e);
      HeavyCount(b, e);
    }
  }

  /** The descending-weight order. */
  function NegWeight(e: Entry): real
  {
    -e.weight
  }

  /** Filtering keeps the order of what remains. */
  lemma {:induction false} HeavyKeepsOrder(es: seq<Entry>)
    requires SortedBy(es, NegWeight)
    ensures SortedBy(Heavy(es), NegWeight)
  {
    if |es| > 0 {
      HeavyKeepsOrder(es[1..]);
      var rest := Heavy(es[1..]);
      forall j | 0 <= j < |rest| ensures NegWeight(es[0]) <= NegWeight(rest[j]) {
        assert rest[j] in es[1..];
      }
    }
  }

  function EntriesOf(table: seq<TableRow>): (es: seq<Entry>)
    ensures |es| == |table| && forall i :: 0 <= i < |table| ==> es[i] == table[i].entry
  {
    seq(|table|, i requires 0 <= i < |table| => table[i].entry)
  }

  /** A weight table: sorted by weight (largest first), then filtered to the
      weights above `1e-3`, then renumbered. The result lists exactly the
      heavy assets, each as often as in the input, in descending weight and
      indexed by position. The order of equal weights is not fixed (the sort
      is not stable). */
  method WeightTable(w: seq<real>, pools: seq<PreprocessSeries.PoolInfo>) returns (table: seq<TableRow>)
    requires |w| == |pools|
    ensures forall i :: 0 <= i < |table| ==> table[i].index == i && table[i].entry.weight > MinWeight
    ensures forall i, j :: 0 <= i < j < |table| ==> table[i].entry.weight >= table[j].entry.weight
    ensures multiset(EntriesOf(table)) == multiset(Heavy(Entries(w, pools)))
  {
    var es := Entries(w, pools);
    var sorted := SortBy(es, NegWeight);
    var kept := Heavy(sorted);
    HeavyPermutes(sorted, es);
    HeavyKeepsOrder(sorted);
    table := Renumber(kept);
    RenumberedTable(kept);
  }

  /** `table.index = range(len(table))`: every row keeps its entry and is
      indexed by its position. */
  function Renumber(es: seq<Entry>): (table: seq<TableRow>)
    ensures |table| == |es|
    ensures forall i :: 0 <= i < |es| ==> table[i].index == i && table[i].entry == es[i]
  {
    seq(|es|, i requires 0 <= i < |es| => TableRow(i, es[i]))
  }

  /** Renumbering keeps the entries and their order and indexes them by
      position. */
  lemma RenumberedTable(es: seq<Entry>)
    requires SortedBy(es, NegWeight) && forall e :: e in es ==> e.weight > MinWeight
    ensures var table := Renumber(es);
            EntriesOf(table) == es &&
            (forall i :: 0 <= i < |table| ==> table[i].index == i && table[i].entry.weight > MinWeight) &&
            (forall i, j :: 0 <= i < j < |table| ==> table[i].entry.weight >= table[j].entry.weight)
  {
    var table := Renumber(es);
    assert EntriesOf(table) == es;
    forall i, j | 0 <= i < j < |table| ensures table[i].entry.weight >= table[j].entry.weight {
      assert NegWeight(es[i]) <= NegWeight(es[j]);
    }
    forall i | 0 <= i < |table| ensures table[i].entry.weight > MinWeight {
      assert es[i] in es;
    }
  }

  // ---------------------------------------------------------------------------
  // Assets on the frontier

  /** The index labels at the given positions, `data.index[idx]`. The
      report's frame is labelled by pool name, and two pools may share one. */
  function LabelsAt(names: seq<string>, ks: set<nat>): (ls: set<string>)
    ensures forall d :: d in ks && d < |names| ==> names[d] in ls
    ensures forall l :: l in ls ==> exists d :: d in ks && d < |names| && names[d] == l
  {
    set d | d in ks && d < |names| :: names[d]
  }

  lemma LabelsAtAdd(names: seq<string>, ks: set<nat>, idx: nat)
    requires idx < |names|
    ensures LabelsAt(names, ks + {idx}) == LabelsAt(names, ks) + {names[idx]}
  {
  }

  predicate Distinct(names: seq<string>)
  {
    forall i, j :: 0 <= i < j < |names| ==> names[i] != names[j]
  }

  /** With distinct pool names a label picks out exactly one row, so a row
      carries a flagged label exactly when its own position was flagged. */
  lemma LabelsAtDistinct(names: seq<string>, ks: set<nat>, i: nat)
    requires Distinct(names) && i < |names|
    ensures names[i] in LabelsAt(names, ks) <==> i in ks
  {
    if names[i] in LabelsAt(names, ks) {
      var d :| d in ks && d < |names| && names[d] == names[i];
      assert d == i;
    }
  }

  /** `data.loc[label, "OnFrontier"] = True`: every row carrying the label
      is flagged, and no other flag changes. */
  method FlagLabel(flags: array<bool>, names: seq<string>, tag: string)
    requires flags.Length == |names|
    modifies flags
    ensures forall i :: 0 <= i < |names| ==> (flags[i] <==> old(flags[i]) || names[i] == tag)
  {
    var j := 0;
    while j < flags.Length
      invariant 0 <= j <= flags.Length
      invariant forall i :: 0 <= i < |names| ==> (flags[i] <==> old(flags[i]) || (i < j && names[i] == tag))
    {
      if names[j] == tag {
        flags[j] := true;
      }
      j := j + 1;
    }
  }

  /** `data["OnFrontier"] = False`, then, for every `idx` in `nonzero`,
      `True` on every row labelled `data.index[idx]`. A row is flagged
      exactly when it shares its pool name with a position in `nonzero`. A
      position past the last asset makes `data.index[idx]` raise. */
  method MarkOnFrontier(names: seq<string>, nonzero: set<nat>) returns (r: Result<seq<bool>>)
    ensures r.Err? <==> exists i :: i in nonzero && i >= |names|
    ensures r.Err? ==> r.error == IndexError
    ensures r.Ok? ==> |r.value| == |names|
    ensures r.Ok? ==> forall i :: 0 <= i < |names| ==> (r.value[i] <==> names[i] in LabelsAt(names, nonzero))
  {
    var n := |names|;
    var flags := new bool[n](_ => false);
    var todo := nonzero;
    while todo != {}
      invariant todo <= nonzero
      invariant forall i :: i in nonzero && i !in todo ==> i < n
      invariant forall i :: 0 <= i < n ==> (flags[i] <==> names[i] in LabelsAt(names, nonzero - todo))
      decreases |todo|
    {
      var idx :| idx in todo;
      if idx >= n {
        return Err(IndexError);
      }
      FlagLabel(flags, names, names[idx]);
      LabelsAtAdd(names, nonzero - todo, idx);
      assert nonzero - (todo - {idx}) == (nonzero - todo) + {idx};
      todo := todo - {idx};
    }
    assert nonzero - todo == nonzero;
    return Ok(flags[..]);
  }

  /** The positions among the first `n` whose flag is set, ascending. */
  function Flagged(flags: seq<bool>, n: nat): (k: seq<nat>)
    requires n <= |flags|
    ensures forall j :: 0 <= j < |k| ==> k[j] < n && flags[k[j]]
    ensures forall j, j' :: 0 <= j < j' < |k| ==> k[j] < k[j']
    ensures forall i :: 0 <= i < n && flags[i] ==> i in k
  {
    if n == 0 then []
    else Flagged(flags, n - 1) + (if flags[n - 1] then [n - 1] else [])
  }

  /** `data[data["OnFrontier"]]` over the first `n` rows: the rows at the
      flagged positions, in order, and no others. */
  function Selected<T>(xs: seq<T>, flags: seq<bool>, n: nat): (r: seq<T>)
    requires |xs| == |flags| && n <= |xs|
    ensures r == PreprocessStats.Pick(xs, Flagged(flags, n))
  {
    if n == 0 then []
    else
      var last := if flags[n - 1] then [n - 1] else [];
      PickAppend(xs, Flagged(flags, n - 1), last);
      Selected(xs, flags, n - 1) + (if flags[n - 1] then [xs[n - 1]] else [])
  }

  /** Picking positions `a` then `b` is picking `a + b`. */
  lemma PickAppend<T>(xs: seq<T>, a: seq<nat>, b: seq<nat>)
    requires forall j :: 0 <= j < |a| ==> a[j] < |xs|
    requires forall j :: 0 <= j < |b| ==> b[j] < |xs|
    ensures PreprocessStats.Pick(xs, a + b) == PreprocessStats.Pick(xs, a) + PreprocessStats.Pick(xs, b)
  {
  }

  /** One line of the asset table the report shows. */
  datatype AssetRow = AssetRow(ret: real, vol: real, asset: string, protocol: string, address: string)

  /** The pool names that label the asset table's rows. */
  function AssetNames(rows: seq<AssetRow>): (names: seq<string>)
    ensures |names| == |rows| && forall i :: 0 <= i < |rows| ==> names[i] == rows[i].asset
  {
    seq(|rows|, i requires 0 <= i < |rows| => rows[i].asset)
  }

  /** `frontier_data`: the asset rows whose `OnFrontier` flag is set, in
      table order. They are the rows sharing a pool name with a position in
      `nonzero`; with distinct names, exactly the rows at those positions. A
      position past the last row is an error. */
  method FrontierData(rows: seq<AssetRow>, nonzero: set<nat>) returns (r: Result<seq<AssetRow>>)
    ensures r.Err? <==> exists i :: i in nonzero && i >= |rows|
    ensures r.Ok? ==>
      var k := Flagged(seq(|rows|, i requires 0 <= i < |rows| => rows[i].asset in LabelsAt(AssetNames(rows), nonzero)), |rows|);
      r.value == PreprocessStats.Pick(rows, k) &&
      (forall i :: 0 <= i < |rows| ==>
         (i in k <==> exists d :: d in nonzero && d < |rows| && rows[d].asset == rows[i].asset))
    ensures r.Ok? && Distinct(AssetNames(rows)) ==>
      r.value == PreprocessStats.Pick(rows, Flagged(seq(|rows|, i => i in nonzero), |rows|))
  {
    var names := AssetNames(rows);
    var marked := MarkOnFrontier(names, nonzero);
    if marked.Err? {
      return Err(marked.error);
    }
    var flags := marked.value;
    assert flags == seq(|rows|, i requires 0 <= i < |rows| => rows[i].asset in LabelsAt(names, nonzero));
    if Distinct(names) {
      forall i | 0 <= i < |rows| ensures flags[i] == (i in nonzero) {
        LabelsAtDistinct(names, nonzero, i);
      }
      assert flags == seq(|rows|, i => i in nonzero);
    }
    return Ok(Selected(rows, flags, |rows|));
  }
}
