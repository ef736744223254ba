/** `pool_stats`: annualised moments of the daily returns and the IQR outlier
    filter. `returns` is the frame of daily returns, one row per day and one
    column per pool (`rows[t][i]`). The fractional power in the annualised
    return and the square root in the volatility are not real-number
    operations Dafny has, so they are parameters of the model. */
module PreprocessStats {
  import opened Common

  /** `T = 365`: the number of days in the annualisation. */
  const Year: real := 365.0

  /** The fence multiplier of the IQR rule. */
  const Fence: real := 1.5

  /** Every row has one cell per pool. */
  predicate Rect(rows: seq<seq<real>>, n: nat)
  {
    forall t :: 0 <= t < |rows| ==> |rows[t]| == n
  }

  /** Column `i` of the frame: the daily returns of one pool. */
  function Column(rows: seq<seq<real>>, n: nat, i: nat): (c: seq<real>)
    requires Rect(rows, n) && i < n
    ensures |c| == |rows| && forall t :: 0 <= t < |rows| ==> c[t] == rows[t][i]
  {
    seq(|rows|, t requires 0 <= t < |rows| => rows[t][i])
  }

  // ---------------------------------------------------------------------------
  // Covariance

  /** Each value minus the mean of the sequence. */
  function Deviations(x: seq<real>): (d: seq<real>)
    requires |x| > 0
    ensures |d| == |x|
  {
    var m := Mean(x);
    seq(|x|, t requires 0 <= t < |x| => x[t] - m)
  }

  /** pandas' sample covariance of two aligned columns (`ddof=1`). */
  function SampleCov(x: seq<real>, y: seq<real>): real
    requires |x| == |y| >= 2
  {
    Dot(Deviations(x), Deviations(y)) / ((|x| - 1) as real)
  }

  /** The sample covariance does not depend on the order of its arguments. */
  lemma SampleCovSymmetric(x: seq<real>, y: seq<real>)
    requires |x| == |y| >= 2
    ensures SampleCov(x, y) == SampleCov(y, x)
  {
    var dx, dy := Deviations(x), Deviations(y);
    assert Times(dx, dy) == Times(dy, dx);
  }

  /** A sample variance is never negative, so its square root exists. */
  lemma SampleVarianceNonNegative(x: seq<real>)
    requires |x| >= 2
    ensures SampleCov(x, x) >= 0.0
  {
    var d := Deviations(x);
    var p := Times(d, d);
    forall t | 0 <= t < |p| ensures p[t] >= 0.0 {
      assert p[t] == d[t] * d[t];
    }
    SumNonNegative(p);
  }

  /** `returns.cov() * T` for a frame with no missing cell and at least two
      rows. */
  function Cov(rows: seq<seq<real>>, n: nat): (c: seq<seq<real>>)
    requires Rect(rows, n) && |rows| >= 2
    ensures |c| == n && forall i :: 0 <= i < n ==> |c[i]| == n
  {
    seq(n, i requires 0 <= i < n =>
      seq(n, j requires 0 <= j < n => Year * SampleCov(Column(rows, n, i), Column(rows, n, j))))
  }

  /** The covariance matrix is symmetric with a non-negative diagonal. */
  lemma CovSymmetric(rows: seq<seq<real>>, n: nat, i: nat, j: nat)
    requires Rect(rows, n) && |rows| >= 2 && i < n && j < n
    ensures Cov(rows, n)[i][j] == Cov(rows, n)[j][i]
    ensures Cov(rows, n)[i][i] >= 0.0
  {
    SampleCovSymmetric(Column(rows, n, i), Column(rows, n, j));
    SampleVarianceNonNegative(Column(rows, n, i));
  }

  /** `returns.loc[:, cols]`: the frame restricted to the listed columns, in
      the listed order. */
  function SelectColumns(rows: seq<seq<real>>, n: nat, k: seq<nat>): (r: seq<seq<real>>)
    requires Rect(rows, n) && forall j :: 0 <= j < |k| ==> k[j] < n
    ensures |r| == |rows| && Rect(r, |k|)
    ensures forall t, j :: 0 <= t < |rows| && 0 <= j < |k| ==> r[t][j] == rows[t][k[j]]
  {
    seq(|rows|, t requires 0 <= t < |rows| => seq(|k|, j requires 0 <= j < |k| => rows[t][k[j]]))
  }

  /** Recomputing the covariance on the kept columns gives exactly the
      entries of the full covariance matrix at the kept positions. */
  lemma CovOfSelected(rows: seq<seq<real>>, n: nat, k: seq<nat>, a: nat, b: nat)
    requires Rect(rows, n) && |rows| >= 2
    requires forall j :: 0 <= j < |k| ==> k[j] < n
    requires a < |k| && b < |k|
    ensures Cov(SelectColumns(rows, n, k), |k|)[a][b] == Cov(rows, n)[k[a]][k[b]]
  {
    var sel := SelectColumns(rows, n, k);
    assert Column(sel, |k|, a) == Column(rows, n, k[a]);
    assert Column(sel, |k|, b) == Column(rows, n, k[b]);
  }

  // ---------------------------------------------------------------------------
  // Quantiles

  /** numpy's virtual index `(n - 1) q` of the `q` quantile among `n` values. */
  function Position(n: nat, q: real): (h: real)
    requires n > 0 && 0.0 <= q <= 1.0
    ensures 0.0 <= h <= (n - 1) as real
  {
    MulNonNegative(q, (n - 1) as real);
    MulNonNegative(1.0 - q, (n - 1) as real);
    (n - 1) as real * q
  }

  lemma PositionMonotone(n: nat, q1: real, q2: real)
    requires n > 0 && 0.0 <= q1 <= q2 <= 1.0
    ensures Position(n, q1) <= Position(n, q2)
  {
    MulNonNegative(q2 - q1, (n - 1) as real);
  }

  predicate Ascending(s: seq<real>)
  {
    forall i, j :: 0 <= i < j < |s| ==> s[i] <= s[j]
  }

  /** The identity key: sorting reals by their own value. */
  function Self(v: real): real { v }

  /** `np.sort(x)`: the values in ascending order. */
  function Sorted(x: seq<real>): (s: seq<real>)
    ensures |s| == |x| && Ascending(s)
  {
    var s := SortBy(x, Self);
    assert forall i, j :: 0 <= i < j < |s| ==> Self(s[i]) <= Self(s[j]);
    s
  }

  /** The sorted values are the input values. */
  lemma SortedIsPermutation(x: seq<real>)
    ensures multiset(Sorted(x)) == multiset(x)
  {
  }

  /** numpy's linear interpolation between the sorted values at the virtual
      index `h`: the value at `floor(h)` plus the fraction `h - floor(h)` of
      the step to the next value. */
  function Lerp(s: seq<real>, h: real): (v: real)
    requires |s| > 0 && 0.0 <= h <= (|s| - 1) as real
  {
    var i := h.Floor;
    if i + 1 < |s| then Between(s[i], s[i + 1], h - i as real) else s[|s| - 1]
  }

  /** On an ascending sequence the interpolated value lies between the two
      neighbours of the virtual index. */
  lemma LerpBetween(s: seq<real>, h: real)
    requires |s| > 0 && 0.0 <= h <= (|s| - 1) as real && Ascending(s)
    ensures var i := h.Floor;
            0 <= i < |s| && s[i] <= Lerp(s, h) && (i + 1 < |s| ==> Lerp(s, h) <= s[i + 1])
  {
    var i := h.Floor;
    if i + 1 < |s| {
      BetweenBounds(s[i], s[i + 1], h - i as real);
    }
  }

  /** On an ascending sequence the interpolated value is monotone in the
      virtual index. */
  lemma LerpMonotone(s: seq<real>, h1: real, h2: real)
    requires |s| > 0 && 0.0 <= h1 <= h2 <= (|s| - 1) as real && Ascending(s)
    ensures Lerp(s, h1) <= Lerp(s, h2)
  {
    var i1, i2 := h1.Floor, h2.Floor;
    LerpBetween(s, h1);
    LerpBetween(s, h2);
    if i1 == i2 && i1 + 1 < |s| {
      BetweenMonotone(s[i1], s[i1 + 1], h1 - i1 as real, h2 - i1 as real);
    } else if i1 < i2 {
      assert s[i1 + 1] <= s[i2];
    }
  }

  /** `np.quantile(x, q)` with the default linear method. */
  function Quantile(x: seq<real>, q: real): real
    requires |x| > 0 && 0.0 <= q <= 1.0
  {
    Lerp(Sorted(x), Position(|x|, q))
  }

  /** A larger probability never gives a smaller quantile. */
  lemma QuantileMonotone(x: seq<real>, q1: real, q2: real)
    requires |x| > 0 && 0.0 <= q1 <= q2 <= 1.0
    ensures Quantile(x, q1) <= Quantile(x, q2)
  {
    PositionMonotone(|x|, q1, q2);
    LerpMonotone(Sorted(x), Position(|x|, q1), Position(|x|, q2));
  }

  /** Every quantile lies between the smallest and the largest value. */
  lemma QuantileBounds(x: seq<real>, q: real)
    requires |x| > 0 && 0.0 <= q <= 1.0
    ensures Min(x) <= Quantile(x, q) <= Max(x)
  {
    var s, n := Sorted(x), |x|;
    LerpMonotone(s, 0.0, Position(n, q));
    LerpMonotone(s, Position(n, q), (n - 1) as real);
    LerpAtInteger(s, 0);
    LerpAtInteger(s, n - 1);
    SortedEnds(x);
  }

  /** The first and last sorted values are values of the input. */
  lemma SortedEnds(x: seq<real>)
    requires |x| > 0
    ensures Min(x) <= Sorted(x)[0] && Sorted(x)[|x| - 1] <= Max(x)
  {
    var s, n := Sorted(x), |x|;
    SortedIsPermutation(x);
    assert s[0] in multiset(x) && s[n - 1] in multiset(x);
    var a :| 0 <= a < n && x[a] == s[0];
    var b :| 0 <= b < n && x[b] == s[n - 1];
  }

  /** `np.median`: the middle element of the sorted values, or the mean of
      the two middle elements when there is an even number of them. */
  function Median(x: seq<real>): real
    requires |x| > 0
  {
    var s, n := Sorted(x), |x|;
    if n % 2 == 1 then s[n / 2] else (s[n / 2 - 1] + s[n / 2]) / 2.0
  }

  /** The median is the 0.5 quantile. */
  lemma MedianIsHalfQuantile(x: seq<real>)
    requires |x| > 0
    ensures Median(x) == Quantile(x, 0.5)
  {
    var n, s := |x|, Sorted(x);
    HalfPosition(n);
    if n % 2 == 1 {
      LerpAtInteger(s, n / 2);
    } else {
      LerpAtHalf(s, n / 2 - 1);
    }
  }

  /** The virtual index of the 0.5 quantile: the middle index, or halfway
      between the two middle indices. */
  lemma HalfPosition(n: nat)
    requires n > 0
    ensures n % 2 == 1 ==> Position(n, 0.5) == (n / 2) as real
    ensures n % 2 == 0 ==> Position(n, 0.5) == (n / 2 - 1) as real + 0.5
  {
    var k := n / 2;
    assert n == 2 * k + n % 2;
  }

  lemma LerpAtInteger(s: seq<real>, k: nat)
    requires k < |s|
    ensures Lerp(s, k as real) == s[k]
  {
    assert (k as real).Floor == k;
  }

  lemma LerpAtHalf(s: seq<real>, k: nat)
    requires k + 1 < |s|
    ensures Lerp(s, k as real + 0.5) == (s[k] + s[k + 1]) / 2.0
  {
    assert (k as real + 0.5).Floor == k;
  }

  /** The lower quartile, the median and the upper quartile are ordered, so
      the interquartile range is never negative. */
  lemma QuartilesOrdered(x: seq<real>)
    requires |x| > 0
    ensures Quantile(x, 0.25) <= Median(x) <= Quantile(x, 0.75)
  {
    MedianIsHalfQuantile(x);
    QuantileMonotone(x, 0.25, 0.5);
    QuantileMonotone(x, 0.5, 0.75);
  }

  /** `np.quantile(x, 0.75) - np.quantile(x, 0.25)`. */
  function Iqr(x: seq<real>): real
    requires |x| > 0
  {
    Quantile(x, 0.75) - Quantile(x, 0.25)
  }

  // ---------------------------------------------------------------------------
  // Outliers


  /** The centre and the spread of one metric's fences: `np.median(x)` and
      its interquartile range, computed once per metric. */
  datatype Fences = Fences(median: real, iqr: real)

  function FencesOf(x: seq<real>): Fences
    requires |x| > 0
  {
    Fences(Median(x), Iqr(x))
  }

  /** The mask of `pool_stats` for one metric: strictly above the median plus,
      or strictly below the median minus, 1.5 interquartile ranges. */
  predicate Outside(v: real, f: Fences)
  {
    v > f.median + Fence * f.iqr || v < f.median - Fence * f.iqr
  }

  predicate Outlier(v: real, x: seq<real>)
    requires |x| > 0
  {
    Outside(v, FencesOf(x))
  }

  /** Tukey's rule: strictly outside the lower quartile minus, or the upper
      quartile plus, 1.5 interquartile ranges. */
  predicate TukeyOutlier(v: real, x: seq<real>)
    requires |x| > 0
  {
    v > Quantile(x, 0.75) + Fence * Iqr(x) || v < Quantile(x, 0.25) - Fence * Iqr(x)
  }

  /** The median-centred fences lie inside Tukey's fences: every value Tukey's
      rule rejects is rejected here too, and the median itself never is. */
  lemma MedianFenceWithinTukey(v: real, x: seq<real>)
    requires |x| > 0
    ensures TukeyOutlier(v, x) ==> Outlier(v, x)
    ensures !Outlier(Median(x), x)
  {
    QuartilesOrdered(x);
  }

  /** Tukey's upper fence itself is not a Tukey outlier, but it is an
      outlier under the median-centred rule whenever the upper quartile lies
      above the median: the two rules differ. */
  lemma MedianFenceStricter(x: seq<real>)
    requires |x| > 0 && Quantile(x, 0.75) > Median(x)
    ensures var v := Quantile(x, 0.75) + Fence * Iqr(x);
            Outlier(v, x) && !TukeyOutlier(v, x)
  {
    QuartilesOrdered(x);
    var q1, q3 := Quantile(x, 0.25), Quantile(x, 0.75);
    assert FencesOf(x) == Fences(Median(x), q3 - q1);
  }

  /** `~mask`: the positions among the first `n` pools whose return and
      volatility are both inside their fences, in input order. */
  function Inliers(mu: seq<real>, sigma: seq<real>, fm: Fences, fs: Fences, n: nat): (k: seq<nat>)
    requires |mu| == |sigma| && n <= |mu|
    ensures |k| <= n && forall j :: 0 <= j < |k| ==> k[j] < n
    ensures forall j :: 0 <= j < |k| ==> !Outside(mu[k[j]], fm) && !Outside(sigma[k[j]], fs)
    ensures forall j, j' :: 0 <= j < j' < |k| ==> k[j] < k[j']
  {
    if n == 0 then []
    else
      var keep := !Outside(mu[n - 1], fm) && !Outside(sigma[n - 1], fs);
      Inliers(mu, sigma, fm, fs, n - 1) + (if keep then [n - 1] else [])
  }

  /** Every pool whose return and volatility are both inside the fences is
      kept. */
  lemma {:induction false} InliersComplete(mu: seq<real>, sigma: seq<real>, fm: Fences, fs: Fences, n: nat, i: nat)
    requires |mu| == |sigma| && i < n <= |mu|
    requires !Outside(mu[i], fm) && !Outside(sigma[i], fs)
    ensures i in Inliers(mu, sigma, fm, fs, n)
  {
    if i < n - 1 {
      InliersComplete(mu, sigma, fm, fs, n - 1, i);
    }
  }

  /** The elements at the listed positions, in the listed order. */
  function Pick<T>(xs: seq<T>, k: seq<nat>): (r: seq<T>)
    requires forall j :: 0 <= j < |k| ==> k[j] < |xs|
    ensures |r| == |k| && forall j :: 0 <= j < |k| ==> r[j] == xs[k[j]]
  {
    seq(|k|, j requires 0 <= j < |k| => xs[k[j]])
  }

  // ---------------------------------------------------------------------------
  // pool_stats

  /** `(1 + returns).prod()` of one column. */
  function Compounded(c: seq<real>): real
  {
    if |c| == 0 then 1.0 else (1.0 + c[0]) * Compounded(c[1..])
  }

  /** `(1 + returns).prod() ** (T / len(returns)) - 1` for each pool, with the
      fractional power given as `power(base, exponent)`. */
  function Mus(rows: seq<seq<real>>, n: nat, power: (real, real) -> real): (mu: seq<real>)
    requires Rect(rows, n) && |rows| > 0
    ensures |mu| == n
  {
    seq(n, i requires 0 <= i < n => power(Compounded(Column(rows, n, i)), Year / (|rows| as real)) - 1.0)
  }

  /** `np.sqrt(np.diag(cov))`, with the square root given as `root`. */
  function Sigmas(cov: seq<seq<real>>, root: real -> real): (sigma: seq<real>)
    requires forall i :: 0 <= i < |cov| ==> |cov[i]| == |cov|
    ensures |sigma| == |cov|
  {
    seq(|cov|, i requires 0 <= i < |cov| => root(cov[i][i]))
  }

  /** What `pool_stats` returns: the kept pools, their annualised returns and
      the covariance recomputed on their columns. */
  datatype Stats<P> = Stats(pools: seq<P>, mu: seq<real>, cov: seq<seq<real>>)

  /** `pool_stats(pools, returns)`. `365 / len(returns)` raises
      ZeroDivisionError on an empty frame, before anything else; with no
      pools `np.quantile` of the empty `mu` raises; otherwise, on a single
      row every sample covariance is NaN, which the model reports as
      `Undefined`. */
  function PoolStats<P>(pools: seq<P>, rows: seq<seq<real>>, power: (real, real) -> real, root: real -> real)
    : (r: Result<Stats<P>>)
    requires Rect(rows, |pools|)
    ensures |rows| == 0 ==> r == Err(ZeroDivision)
    ensures |rows| > 0 && |pools| == 0 ==> r == Err(EmptyInput)
    ensures |rows| == 1 && |pools| > 0 ==> r == Err(Undefined)
    ensures r.Ok? <==> |rows| >= 2 && |pools| > 0
    ensures r.Ok? ==> |r.value.pools| == |r.value.mu| == |r.value.cov| <= |pools|
    ensures r.Ok? ==> forall a :: 0 <= a < |r.value.cov| ==> |r.value.cov[a]| == |r.value.mu|
  {
    var n := |pools|;
    if |rows| == 0 then Err(ZeroDivision)
    else if n == 0 then Err(EmptyInput)
    else if |rows| == 1 then Err(Undefined)
    else
      var mu := Mus(rows, n, power);
      var sigma := Sigmas(Cov(rows, n), root);
      var k := Inliers(mu, sigma, FencesOf(mu), FencesOf(sigma), n);
      Ok(Stats(Pick(pools, k), Pick(mu, k), Cov(SelectColumns(rows, n, k), |k|)))
  }

  /** The filter of `pool_stats` keeps, in input order, exactly the pools
      whose return and volatility are both inside the median-centred fences,
      and `pools` and `mu` stay aligned. */
  lemma PoolStatsFilter<P>(pools: seq<P>, rows: seq<seq<real>>, power: (real, real) -> real, root: real -> real)
    requires Rect(rows, |pools|) && |rows| >= 2 && |pools| > 0
    ensures var n := |pools|;
            var mu, sigma := Mus(rows, n, power), Sigmas(Cov(rows, n), root);
            var k, s := Inliers(mu, sigma, FencesOf(mu), FencesOf(sigma), n), PoolStats(pools, rows, power, root).value;
            s.pools == Pick(pools, k) && s.mu == Pick(mu, k) &&
            (forall i :: 0 <= i < n && !Outlier(mu[i], mu) && !Outlier(sigma[i], sigma) ==> i in k)
  {
    var n := |pools|;
    var mu, sigma := Mus(rows, n, power), Sigmas(Cov(rows, n), root);
    forall i | 0 <= i < n && !Outlier(mu[i], mu) && !Outlier(sigma[i], sigma)
      ensures i in Inliers(mu, sigma, FencesOf(mu), FencesOf(sigma), n)
    {
      InliersComplete(mu, sigma, FencesOf(mu), FencesOf(sigma), n, i);
    }
  }

  /** The covariance `pool_stats` returns is recomputed on the kept columns,
      and each of its entries is the full covariance entry of the same two
      pools. */
  lemma PoolStatsCov<P>(pools: seq<P>, rows: seq<seq<real>>, power: (real, real) -> real, root: real -> real)
    requires Rect(rows, |pools|) && |rows| >= 2 && |pools| > 0
    ensures var n := |pools|;
            var mu, sigma := Mus(rows, n, power), Sigmas(Cov(rows, n), root);
            var k, s := Inliers(mu, sigma, FencesOf(mu), FencesOf(sigma), n), PoolStats(pools, rows, power, root).value;
            forall a, b :: 0 <= a < |k| && 0 <= b < |k| ==> s.cov[a][b] == Cov(rows, n)[k[a]][k[b]]
  {
    var n := |pools|;
    var mu, sigma := Mus(rows, n, power), Sigmas(Cov(rows, n), root);
    var k := Inliers(mu, sigma, FencesOf(mu), FencesOf(sigma), n);
    var c, full := Cov(SelectColumns(rows, n, k), |k|), Cov(rows, n);
    assert PoolStats(pools, rows, power, root).value.cov == c;
    forall a, b | 0 <= a < |k| && 0 <= b < |k|
      ensures c[a][b] == full[k[a]][k[b]]
    {
      CovOfSelected(rows, n, k, a, b);
    }
  }
}
