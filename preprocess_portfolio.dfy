/** The portfolio rules of the frontier report: the sweep of target
    volatilities that traces the efficient frontier, the closed-form
    risk-parity weights, and the return and variance reported for a weight
    vector. The constrained optimiser (scipy's `minimize`) is foreign code:
    the sweep takes it as a function `solve` from a target volatility to the
    optimiser's result, about which nothing is assumed. */
module PreprocessPortfolio {
  import opened Common

  // ---------------------------------------------------------------------------
  // Reported return and variance

  /** `(mu * weights).sum()`. Long-only weights that sum to one (the
      optimisers' bounds and constraint) give a return between the smallest
      and the largest expected return; all weight on one asset gives that
      asset's return. */
  function PortfolioReturn(mu: seq<real>, w: seq<real>): (r: real)
    requires |mu| == |w|
    ensures LongOnly(w) && |mu| > 0 ==> Min(mu) <= r <= Max(mu)
    ensures forall i :: 0 <= i < |w| && w == Unit(|w|, i) ==> r == mu[i]
  {
    ReturnBounds(mu, w);
    ReturnOfOneAsset(mu, w);
    Dot(mu, w)
  }

  /** Non-negative weights that sum to one. */
  predicate LongOnly(w: seq<real>)
  {
    Sum(w) == 1.0 && forall i :: 0 <= i < |w| ==> w[i] >= 0.0
  }

  /** A long-only portfolio's return is a weighted average of `mu`. */
  lemma ReturnBounds(mu: seq<real>, w: seq<real>)
    requires |mu| == |w|
    ensures LongOnly(w) && |mu| > 0 ==> Min(mu) <= Dot(mu, w) <= Max(mu)
  {
    if LongOnly(w) && |mu| > 0 {
      var lo, hi := Min(mu), Max(mu);
      DotBetween(mu, w, lo, hi);
      assert lo * Sum(w) == lo && hi * Sum(w) == hi;
    }
  }

  /** All weight on asset `i` earns asset `i`'s return. */
  lemma ReturnOfOneAsset(mu: seq<real>, w: seq<real>)
    requires |mu| == |w|
    ensures forall i :: 0 <= i < |w| && w == Unit(|w|, i) ==> Dot(mu, w) == mu[i]
  {
    forall i | 0 <= i < |w| && w == Unit(|w|, i) ensures Dot(mu, w) == mu[i] {
      DotUnit(mu, i);
    }
  }

  predicate Square(cov: seq<seq<real>>)
  {
    forall i :: 0 <= i < |cov| ==> |cov[i]| == |cov|
  }

  /** Column `j` of a square matrix. */
  function ColumnOf(cov: seq<seq<real>>, j: nat): (c: seq<real>)
    requires Square(cov) && j < |cov|
    ensures |c| == |cov| && forall i :: 0 <= i < |cov| ==> c[i] == cov[i][j]
  {
    seq(|cov|, i requires 0 <= i < |cov| => cov[i][j])
  }

  /** `weights[np.newaxis, :] @ cov`: entry `j` is `sum_i w_i cov[i][j]`. */
  function RowTimes(w: seq<real>, cov: seq<seq<real>>): (r: seq<real>)
    requires Square(cov) && |w| == |cov|
    ensures |r| == |w|
  {
    seq(|cov|, j requires 0 <= j < |cov| => Dot(w, ColumnOf(cov, j)))
  }

  /** `(weights[np.newaxis, :] @ cov @ weights[:, np.newaxis]).sum()`: the
      variance `wᵀ·cov·w` whose square root is the reported volatility. */
  function PortfolioVariance(cov: seq<seq<real>>, w: seq<real>): (r: real)
    requires Square(cov) && |w| == |cov|
    ensures forall i :: 0 <= i < |w| && w == Unit(|w|, i) ==> r == cov[i][i]
  {
    forall i | 0 <= i < |w| && w == Unit(|w|, i) ensures Dot(RowTimes(w, cov), w) == cov[i][i] {
      VarianceOfOneAsset(cov, i);
    }
    Dot(RowTimes(w, cov), w)
  }

  /** All weight on asset `i` leaves its own variance, the diagonal entry. */
  lemma VarianceOfOneAsset(cov: seq<seq<real>>, i: nat)
    requires Square(cov) && i < |cov|
    ensures Dot(RowTimes(Unit(|cov|, i), cov), Unit(|cov|, i)) == cov[i][i]
  {
    var u := Unit(|cov|, i);
    var v := RowTimes(u, cov);
    DotUnit(ColumnOf(cov, i), i);
    DotUnit(v, i);
  }

  /** A point of the frontier chart: return and volatility. */
  datatype Point = Point(ret: real, vol: real)

  /** `portfolio_return, portfolio_std` as `tangency_portfolio`,
      `min_volatility_portfolio` and `risk_parity_portfolio` report them for
      their weights, with the square root given as `root`. */
  function Reported(mu: seq<real>, cov: seq<seq<real>>, w: seq<real>, root: real -> real): (p: Point)
    requires Square(cov) && |mu| == |w| == |cov|
    ensures LongOnly(w) && |mu| > 0 ==> Min(mu) <= p.ret <= Max(mu)
    ensures forall i :: 0 <= i < |w| && w == Unit(|w|, i) ==> p == Point(mu[i], root(cov[i][i]))
  {
    Point(PortfolioReturn(mu, w), root(PortfolioVariance(cov, w)))
  }

  /** The mean of every column's mean, `cov.mean().mean()`. */
  function MeanOfColumnMeans(cov: seq<seq<real>>): real
    requires Square(cov) && |cov| > 0
  {
    Mean(seq(|cov|, j requires 0 <= j < |cov| => Mean(ColumnOf(cov, j))))
  }

  /** With equal weights the reported return is the mean of `mu` and the
      variance is the mean of all covariance entries: the uniform portfolio
      point of the report is the equal-weight portfolio. */
  lemma UniformPortfolio(mu: seq<real>, cov: seq<seq<real>>)
    requires Square(cov) && |mu| == |cov| > 0
    ensures PortfolioReturn(mu, Uniform(|mu|)) == Mean(mu)
    ensures PortfolioVariance(cov, Uniform(|cov|)) == MeanOfColumnMeans(cov)
  {
    var n := |cov|;
    var u := Uniform(n);
    UniformDotIsMean(mu);
    var v := RowTimes(u, cov);
    var means := seq(n, j requires 0 <= j < n => Mean(ColumnOf(cov, j)));
    forall j | 0 <= j < n ensures v[j] == means[j] {
      DotCommutes(u, ColumnOf(cov, j));
      UniformDotIsMean(ColumnOf(cov, j));
    }
    assert v == means;
    UniformDotIsMean(v);
  }

  /** Weights that sum to one spread over assets of equal expected return
      give the portfolio that return. */
  lemma ReturnOfEqualMus(mu: seq<real>, w: seq<real>, x: real)
    requires |mu| == |w| && Sum(w) == 1.0
    requires forall i :: 0 <= i < |mu| ==> mu[i] == x
    ensures PortfolioReturn(mu, w) == x
  {
    DotConstant(mu, w, x);
  }

  // ---------------------------------------------------------------------------
  // Risk parity

  /** `1 / sigma`. */
  function Inverses(sigma: seq<real>): (v: seq<real>)
    requires forall i :: 0 <= i < |sigma| ==> sigma[i] > 0.0
    ensures |v| == |sigma| && forall i :: 0 <= i < |v| ==> v[i] > 0.0
  {
    seq(|sigma|, i requires 0 <= i < |sigma| => 1.0 / sigma[i])
  }

  /** `weights = 1 / sigma; weights /= weights.sum()`. A zero volatility
      makes its inverse and the sum infinite, so its weight is NaN and every
      other weight 0.0; the model reports that as `Undefined`. No assets give
      no weights. */
  function RiskParityWeights(sigma: seq<real>): (r: Result<seq<real>>)
    requires forall i :: 0 <= i < |sigma| ==> sigma[i] >= 0.0
    ensures r.Ok? <==> AllPositive(sigma)
    ensures r.Ok? ==> |r.value| == |sigma|
    ensures r.Err? ==> r.error == Undefined
  {
    if !AllPositive(sigma) then Err(Undefined)
    else if |sigma| == 0 then Ok([])
    else
      var inv := Inverses(sigma);
      SumPositiveBound(inv, 0);
      Ok(Scale(inv, 1.0 / Sum(inv)))
  }

  /** The risk-parity weights sum to one. */
  lemma RiskParitySumsToOne(sigma: seq<real>)
    requires AllPositive(sigma) && |sigma| > 0
    ensures Sum(RiskParityWeights(sigma).value) == 1.0
  {
    var inv := Inverses(sigma);
    SumPositiveBound(inv, 0);
    SumScale(inv, 1.0 / Sum(inv));
  }

  /** Each risk-parity weight is `(1/σ_i) / Σ_j (1/σ_j)`, lies in (0, 1], and
      every asset has the same weighted volatility `w_i·σ_i`, namely
      `1 / Σ_j (1/σ_j)`. */
  lemma RiskParityEqualRisk(sigma: seq<real>, i: nat)
    requires AllPositive(sigma) && i < |sigma|
    ensures var w, total := RiskParityWeights(sigma).value, Sum(Inverses(sigma));
            total > 0.0 && w[i] == (1.0 / sigma[i]) / total && 0.0 < w[i] <= 1.0 && w[i] * sigma[i] == 1.0 / total
  {
    var inv := Inverses(sigma);
    SumPositiveBound(inv, i);
    InverseShare(sigma[i], Sum(inv));
  }

  /** One asset's share: `(1/s)/t` is in (0, 1] when `1/s <= t`, and times
      `s` it is `1/t`. */
  lemma InverseShare(s: real, t: real)
    requires s > 0.0 && t >= 1.0 / s
    ensures (1.0 / s) * (1.0 / t) == (1.0 / s) / t
    ensures 0.0 < (1.0 / s) / t <= 1.0
    ensures (1.0 / s) / t * s == 1.0 / t
  {
  }

  // ---------------------------------------------------------------------------
  // Efficient frontier sweep

  /** `np.linspace(lo, hi, num)`: `num` evenly spaced points from `lo` to
      `hi`, both ends included (a single point is `lo`). */
  function Linspace(lo: real, hi: real, num: nat): (xs: seq<real>)
    ensures |xs| == num
  {
    if num == 1 then [lo]
    else seq(num, i requires 0 <= i < num => Between(lo, hi, (i as real) / ((num - 1) as real)))
  }

  /** The sample points start at `lo`, end at `hi` and stay between them. */
  lemma LinspaceEnds(lo: real, hi: real, num: nat, i: nat)
    requires lo <= hi && i < num
    ensures var xs := Linspace(lo, hi, num);
            xs[0] == lo && (num > 1 ==> xs[num - 1] == hi) && lo <= xs[i] <= hi
  {
    if num > 1 {
      var d := (num - 1) as real;
      FractionBounds(i as real, d);
      BetweenBounds(lo, hi, (i as real) / d);
      SelfRatio(d);
    }
  }

  /** The sample points ascend when `lo <= hi`. */
  lemma LinspaceAscending(lo: real, hi: real, num: nat, i: nat, j: nat)
    requires lo <= hi && i < j < num
    ensures Linspace(lo, hi, num)[i] <= Linspace(lo, hi, num)[j]
  {
    var d := (num - 1) as real;
    FractionMonotone(i as real, j as real, d);
    BetweenMonotone(lo, hi, (i as real) / d, (j as real) / d);
  }

  lemma SelfRatio(d: real)
    requires d > 0.0
    ensures d / d == 1.0
  {
  }

  lemma FractionBounds(a: real, d: real)
    requires 0.0 <= a <= d && d > 0.0
    ensures 0.0 <= a / d <= 1.0
  {
  }

  lemma FractionMonotone(a: real, b: real, d: real)
    requires a <= b && d > 0.0
    ensures a / d <= b / d
  {
  }

  /** What `minimize` hands back for one target volatility: the achieved
      return `-result.fun` and the weights `result.x`. */
  datatype Solution = Solution(ret: real, weights: seq<real>)

  /** `set(*np.nonzero(weights > threshold))`. */
  function Above(w: seq<real>, threshold: real): (s: set<nat>)
    ensures forall i: nat :: i in s <==> i < |w| && w[i] > threshold
  {
    set i: nat | i < |w| && w[i] > threshold
  }

  /** The achieved return at each sample point. */
  function Returns(xs: seq<real>, solve: real -> Solution): (rs: seq<real>)
    ensures |rs| == |xs| && forall i :: 0 <= i < |xs| ==> rs[i] == solve(xs[i]).ret
  {
    seq(|xs|, i requires 0 <= i < |xs| => solve(xs[i]).ret)
  }

  /** The returns the sweep records, starting after a recorded `last`: each
      is kept while it is at least the one before, and the sweep ends at the
      first that is smaller. */
  function Accepted(rs: seq<real>, last: real): (a: seq<real>)
    ensures |a| <= |rs|
  {
    if |rs| == 0 || rs[0] < last then [] else [rs[0]] + Accepted(rs[1..], rs[0])
  }

  /** The recorded returns are a prefix of the achieved ones, never below
      the starting value and non-decreasing; when the sweep ends early, the
      next achieved return is smaller than the last recorded one. */
  lemma {:induction false} AcceptedIsMonotonePrefix(rs: seq<real>, last: real)
    ensures var a := Accepted(rs, last);
            a == rs[..|a|] &&
            (forall i :: 0 <= i < |a| ==> last <= a[i]) &&
            (forall i, j :: 0 <= i < j < |a| ==> a[i] <= a[j]) &&
            (|a| < |rs| ==> rs[|a|] < (if |a| == 0 then last else a[|a| - 1]))
  {
    if |rs| > 0 && rs[0] >= last {
      var tail := Accepted(rs[1..], rs[0]);
      AcceptedIsMonotonePrefix(rs[1..], rs[0]);
      var a := [rs[0]] + tail;
      assert a == Accepted(rs, last);
      forall i, j | 0 <= i < j < |a| ensures a[i] <= a[j] {
        if i > 0 {
          assert a[i] == tail[i - 1] && a[j] == tail[j - 1];
        }
      }
    }
  }

  /** One step of the sweep: the sample at `idx` is recorded when it does not
      regress, and the sweep ends there otherwise. */
  lemma AcceptedStep(rs: seq<real>, idx: nat, last: real)
    requires idx < |rs|
    ensures Accepted(rs[idx..], last) ==
            if rs[idx] < last then [] else [rs[idx]] + Accepted(rs[idx + 1..], rs[idx])
  {
    assert rs[idx..][1..] == rs[idx + 1..];
  }

  /** The number of solves the sweep performs: one more than it records,
      unless every sample point was recorded. */
  function Performed(recorded: nat, num: nat): nat
  {
    if recorded < num then recorded + 1 else num
  }

  /** The indices above the threshold in the weights of the first `m` solves. */
  function NonzeroUpTo(xs: seq<real>, solve: real -> Solution, threshold: real, m: nat): set<nat>
    requires m <= |xs|
  {
    if m == 0 then {} else NonzeroUpTo(xs, solve, threshold, m - 1) + Above(solve(xs[m - 1]).weights, threshold)
  }

  /** An index is collected exactly when some solve among the first `m` gave
      it a weight above the threshold. */
  lemma {:induction false} NonzeroUpToMeaning(xs: seq<real>, solve: real -> Solution, threshold: real, m: nat, i: nat)
    requires m <= |xs|
    ensures i in NonzeroUpTo(xs, solve, threshold, m) <==>
            exists s :: 0 <= s < m && i < |solve(xs[s]).weights| && solve(xs[s]).weights[i] > threshold
  {
    if m > 0 {
      NonzeroUpToMeaning(xs, solve, threshold, m - 1, i);
      var w := solve(xs[m - 1]).weights;
      if i < |w| && w[i] > threshold {
        assert exists s :: 0 <= s < m && i < |solve(xs[s]).weights| && solve(xs[s]).weights[i] > threshold;
      }
    }
  }

  /** The sweep over the sample points `xs`: solve at each target in turn,
      collect the indices whose weight exceeds `threshold` (also for the
      solve that is then rejected), record the return while it does not
      regress below the last recorded one (starting from 0.0), and stop at
      the first regression. Returns the recorded points' targets
      `xs[:len(ys)]`, the recorded returns and the collected indices. */
  method Sweep(xs: seq<real>, solve: real -> Solution, threshold: real)
    returns (targets: seq<real>, ys: seq<real>, nonzero: set<nat>)
    ensures ys == Accepted(Returns(xs, solve), 0.0)
    ensures targets == xs[..|ys|]
    ensures nonzero == NonzeroUpTo(xs, solve, threshold, Performed(|ys|, |xs|))
  {
    ghost var rs := Returns(xs, solve);
    ys, nonzero := [], {};
    var last := 0.0;
    var idx := 0;
    while idx < |xs|
      invariant idx <= |xs|
      invariant |ys| == idx
      invariant Accepted(rs, 0.0) == ys + Accepted(rs[idx..], last)
      invariant nonzero == NonzeroUpTo(xs, solve, threshold, idx)
    {
      var sol := solve(xs[idx]);
      nonzero := nonzero + Above(sol.weights, threshold);
      AcceptedStep(rs, idx, last);
      if sol.ret < last {
        // early stopping
        targets := xs[..idx];
        return;
      }
      ghost var rest := Accepted(rs[idx + 1..], sol.ret);
      assert ys + ([sol.ret] + rest) == (ys + [sol.ret]) + rest;
      last := sol.ret;
      ys := ys + [sol.ret];
      idx := idx + 1;
    }
    assert rs[idx..] == [];
    targets := xs[..|ys|];
  }

  /** `efficient_frontier`: the sweep over `num_samples` targets evenly
      spaced from the smallest to the largest asset volatility; `sigma.min()`
      of no assets raises. */
  method EfficientFrontier(sigma: seq<real>, numSamples: nat, threshold: real, solve: real -> Solution)
    returns (r: Result<(seq<real>, seq<real>, set<nat>)>)
    ensures r.Err? <==> |sigma| == 0
    ensures r.Ok? ==>
              var (targets, ys, nonzero) := r.value;
              var xs := Linspace(Min(sigma), Max(sigma), numSamples);
              |targets| == |ys| <= numSamples && targets == xs[..|ys|] &&
              ys == Accepted(Returns(xs, solve), 0.0) &&
              nonzero == NonzeroUpTo(xs, solve, threshold, Performed(|ys|, numSamples))
  {
    if |sigma| == 0 {
      return Err(EmptyInput);
    }
    var xs := Linspace(Min(sigma), Max(sigma), numSamples);
    var targets, ys, nonzero := Sweep(xs, solve, threshold);
    return Ok((targets, ys, nonzero));
  }
}
