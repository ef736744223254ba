/** Return-series reconstruction of `reports/frontier/preprocess.py`: the
    weighting and de-duplication steps of `load_pool_data`, the daily
    resampling onto a trailing window, and `daily_returns`, which drops pools
    whose last window row is incomplete, interpolates the rest and derives the
    day-over-day HODL and APY returns. Database reads are replaced by their
    results, given as inputs. */
module PreprocessSeries {
  import opened Common
  import Interpolation
  import Subgraphs

  /** A pandas float that may have become infinite or NaN by a division. */
  datatype Num = Finite(r: real) | NonFinite

  /** One observation of a time series: a UNIX timestamp and a value that may be missing. */
  datatype Obs = Obs(t: int, v: Option<real>)

  type Series = seq<Obs>

  predicate StrictlySorted(s: Series)
  {
    forall i, j :: 0 <= i < j < |s| ==> s[i].t < s[j].t
  }

  function Stamps(s: Series): set<int>
  {
    set i | 0 <= i < |s| :: s[i].t
  }

  datatype PoolInfo = PoolInfo(id: string, name: string, protocol: string)

  // ---------------------------------------------------------------------------
  // Composite pool price

  /** The token prices of one pool, one column per token, aligned on the
      sorted union of the tokens' timestamps (missing where a token has no
      price at that timestamp). A pool without tokens has no rows. */
  datatype PriceTable = PriceTable(index: seq<int>, rows: seq<seq<Option<real>>>)

  predicate WellFormedTable(p: PriceTable, n: nat)
  {
    && |p.index| == |p.rows|
    && (forall t :: 0 <= t < |p.rows| ==> |p.rows[t]| == n)
    && (n == 0 ==> |p.rows| == 0)
    && (forall i, j :: 0 <= i < j < |p.index| ==> p.index[i] < p.index[j])
  }

  /** The weights fetched for a pool when they can be used, all-ones when the
      fetch raised (a non-DEX schema type raises NotImplemented) or returned
      a list whose length is not the token count. */
  function RawWeights(fetched: Result<seq<real>>, n: nat): (w: seq<real>)
    ensures |w| == n
    ensures fetched.Ok? && |fetched.value| == n ==> w == fetched.value
    ensures fetched.Err? || |fetched.value| != n ==> forall i :: 0 <= i < n ==> w[i] == 1.0
  {
    if fetched.Ok? && |fetched.value| == n then fetched.value else seq(n, _ => 1.0)
  }

  /** `token_weights /= token_weights.sum()`. A zero sum makes every weight
      NaN or infinite, which turns every composite price into NaN (prices are
      non-negative); the model represents that outcome as no weights. */
  function NormalisedWeights(fetched: Result<seq<real>>, n: nat): (w: Option<seq<real>>)
    ensures w.None? <==> Sum(RawWeights(fetched, n)) == 0.0
    ensures w.Some? ==> |w.value| == n && Sum(w.value) == 1.0
    ensures w.Some? ==> forall i :: 0 <= i < n ==>
              w.value[i] == RawWeights(fetched, n)[i] / Sum(RawWeights(fetched, n))
  {
    var raw := RawWeights(fetched, n);
    var total := Sum(raw);
    if total == 0.0 then None
    else
      SumScale(raw, 1.0 / total);
      Some(Scale(raw, 1.0 / total))
  }

  /** When the fetched weights cannot be used, every token gets `1/n`. */
  lemma EqualWeightFallback(fetched: Result<seq<real>>, n: nat)
    requires n > 0
    requires fetched.Err? || |fetched.value| != n
    ensures NormalisedWeights(fetched, n) == Some(Uniform(n))
  {
    var raw := RawWeights(fetched, n);
    SumConstant(raw, 1.0);
    var w := NormalisedWeights(fetched, n).value;
    assert w == Uniform(n);
  }

  predicate AllKnown(row: seq<Option<real>>)
  {
    forall j :: 0 <= j < |row| ==> row[j].Some?
  }

  function Values(row: seq<Option<real>>): (v: seq<real>)
    requires AllKnown(row)
    ensures |v| == |row| && forall j :: 0 <= j < |row| ==> Some(v[j]) == row[j]
  {
    seq(|row|, j requires 0 <= j < |row| => row[j].value)
  }

  /** One row of `prices @ token_weights`: NaN as soon as one token price is. */
  function CompositeAt(row: seq<Option<real>>, w: Option<seq<real>>): Option<real>
    requires w.Some? ==> |w.value| == |row|
  {
    if w.Some? && AllKnown(row) then Some(Dot(Values(row), w.value)) else None
  }

  /** The pool's composite price series: for a single token its column
      unchanged, for several tokens the weighted sum of the token prices. */
  function CompositePrice(p: PriceTable, n: nat, fetched: Result<seq<real>>): (s: Series)
    requires WellFormedTable(p, n) && n > 0
    ensures |s| == |p.index| && StrictlySorted(s)
    ensures forall t :: 0 <= t < |s| ==> s[t].t == p.index[t]
    ensures n == 1 ==> forall t :: 0 <= t < |s| ==> s[t].v == p.rows[t][0]
    ensures n > 1 ==> forall t :: 0 <= t < |s| ==>
              (s[t].v.Some? <==> AllKnown(p.rows[t]) && Sum(RawWeights(fetched, n)) != 0.0)
  {
    if n > 1 then
      var w := NormalisedWeights(fetched, n);
      seq(|p.index|, t requires 0 <= t < |p.index| => Obs(p.index[t], CompositeAt(p.rows[t], w)))
    else
      seq(|p.index|, t requires 0 <= t < |p.index| => Obs(p.index[t], p.rows[t][0]))
  }

  /** Because the normalised weights sum to one, a timestamp at which every
      token has the same price gives the pool that price. */
  lemma CompositeOfEqualPrices(p: PriceTable, n: nat, fetched: Result<seq<real>>, t: nat, x: real)
    requires WellFormedTable(p, n) && n > 0 && t < |p.index|
    requires forall j :: 0 <= j < n ==> p.rows[t][j] == Some(x)
    requires Sum(RawWeights(fetched, n)) != 0.0
    ensures CompositePrice(p, n, fetched)[t].v == Some(x)
  {
    var row := p.rows[t];
    if n > 1 {
      var w := NormalisedWeights(fetched, n);
      assert CompositePrice(p, n, fetched)[t].v == CompositeAt(row, w);
      assert AllKnown(row);
      DotConstant(Values(row), w.value, x);
    } else {
      assert CompositePrice(p, n, fetched)[t].v == row[0];
    }
  }

  /** With the equal-weight fallback, the composite price is the plain mean
      of the token prices. */
  lemma CompositeFallbackIsMean(p: PriceTable, n: nat, fetched: Result<seq<real>>, t: nat)
    requires WellFormedTable(p, n) && n > 1 && t < |p.index|
    requires fetched.Err? || |fetched.value| != n
    requires AllKnown(p.rows[t])
    ensures CompositePrice(p, n, fetched)[t].v == Some(Mean(Values(p.rows[t])))
  {
    EqualWeightFallback(fetched, n);
    UniformDotIsMean(Values(p.rows[t]));
  }

  /** What `Subgraph.token_weights` hands back: NotImplemented for a schema
      type other than DEX AMM, `[]` on a transport error, else the list. */
  function FetchTokenWeights(schemaType: string, poolId: string, response: Option<seq<real>>): (r: Result<seq<real>>)
    ensures r.Err? <==> Subgraphs.TokenWeightsParams(schemaType, poolId).Err?
    ensures r.Ok? && response.None? ==> r.value == []
    ensures r.Ok? && response.Some? ==> r.value == response.value
  {
    match Subgraphs.TokenWeightsParams(schemaType, poolId)
    case Err(e) => Err(e)
    case Ok(_) => if response.Some? then Ok(response.value) else Ok([])
  }

  /** A multi-token pool of a non-DEX protocol, or one whose weights could not
      be fetched, is priced with equal weights. */
  lemma NonDexPoolsUseEqualWeights(schemaType: string, poolId: string, response: Option<seq<real>>, n: nat)
    requires n > 1
    requires schemaType != "DEX AMM" || response.None?
    ensures NormalisedWeights(FetchTokenWeights(schemaType, poolId, response), n) == Some(Uniform(n))
  {
    EqualWeightFallback(FetchTokenWeights(schemaType, poolId, response), n);
  }

  // ---------------------------------------------------------------------------
  // TVL and reward de-duplication

  datatype Reading = Reading(t: int, v: real)

  function ReadingStamps(rs: seq<Reading>): set<int>
  {
    set i | 0 <= i < |rs| :: rs[i].t
  }

  /** Insert an observation into a strictly sorted series unless its
      timestamp is already there (the earlier observation is kept). */
  function InsertKeepFirst(o: Obs, s: Series): (r: Series)
    requires StrictlySorted(s)
    ensures StrictlySorted(r) && |r| > 0
    ensures |s| > 0 ==> r[0] == s[0] || r[0] == o
  {
    if |s| == 0 then [o]
    else if o.t < s[0].t then [o] + s
    else if o.t == s[0].t then s
    else [s[0]] + InsertKeepFirst(o, s[1..])
  }

  lemma StampsCons(o: Obs, s: Series)
    ensures Stamps([o] + s) == {o.t} + Stamps(s)
  {
    var r := [o] + s;
    forall t | t in Stamps(s) ensures t in Stamps(r) {
      var i :| 0 <= i < |s| && s[i].t == t;
      assert r[i + 1] == s[i];
    }
    forall t | t in Stamps(r) ensures t in {o.t} + Stamps(s) {
      var i :| 0 <= i < |r| && r[i].t == t;
      if i > 0 { assert r[i] == s[i - 1]; }
    }
    assert r[0] == o;
  }

  /** The inserted timestamp joins the series' timestamps, and nothing else does. */
  lemma {:induction false} InsertKeepFirstStamps(o: Obs, s: Series)
    requires StrictlySorted(s)
    ensures Stamps(InsertKeepFirst(o, s)) == Stamps(s) + {o.t}
  {
    if |s| == 0 {
      assert Stamps([o]) == {o.t} by { assert [o][0] == o; }
    } else if o.t < s[0].t {
      StampsCons(o, s);
    } else if o.t == s[0].t {
      assert s[0].t in Stamps(s);
    } else {
      InsertKeepFirstStamps(o, s[1..]);
      assert s == [s[0]] + s[1..];
      StampsCons(s[0], s[1..]);
      StampsCons(s[0], InsertKeepFirst(o, s[1..]));
    }
  }

  /** Every observation of the result is the inserted one or was already there. */
  lemma {:induction false} InsertKeepFirstFrom(o: Obs, s: Series)
    requires StrictlySorted(s)
    ensures forall k :: 0 <= k < |InsertKeepFirst(o, s)| ==> InsertKeepFirst(o, s)[k] == o || InsertKeepFirst(o, s)[k] in s
  {
    if |s| > 0 && o.t > s[0].t {
      InsertKeepFirstFrom(o, s[1..]);
      var r, rest := InsertKeepFirst(o, s), InsertKeepFirst(o, s[1..]);
      forall k | 0 <= k < |r| ensures r[k] == o || r[k] in s {
        if k > 0 {
          assert r[k] == rest[k - 1];
          if rest[k - 1] in s[1..] {
            var m :| 0 <= m < |s[1..]| && s[1..][m] == rest[k - 1];
            assert s[m + 1] == rest[k - 1];
          }
        }
      }
    }
  }

  /** `series.sort_index()` followed by dropping duplicated timestamps with
      `keep="first"`. The sort is not stable, so which of several readings at
      one timestamp survives is not determined by the source; this model keeps
      the first in input order, one of the admissible outcomes. */
  function Dedup(rs: seq<Reading>): (s: Series)
    ensures StrictlySorted(s)
    ensures |s| > 0 <==> |rs| > 0
  {
    if |rs| == 0 then []
    else InsertKeepFirst(Obs(rs[|rs| - 1].t, Some(rs[|rs| - 1].v)), Dedup(rs[..|rs| - 1]))
  }

  /** De-duplication keeps exactly the distinct timestamps of the readings
      (one observation each, as the series is strictly sorted). */
  lemma {:induction false} DedupStamps(rs: seq<Reading>)
    ensures Stamps(Dedup(rs)) == ReadingStamps(rs)
  {
    if |rs| > 0 {
      var init, last := rs[..|rs| - 1], rs[|rs| - 1];
      DedupStamps(init);
      InsertKeepFirstStamps(Obs(last.t, Some(last.v)), Dedup(init));
      ReadingStampsSnoc(rs);
    }
  }

  lemma ReadingStampsSnoc(rs: seq<Reading>)
    requires |rs| > 0
    ensures ReadingStamps(rs) == ReadingStamps(rs[..|rs| - 1]) + {rs[|rs| - 1].t}
  {
    var init := rs[..|rs| - 1];
    forall t | t in ReadingStamps(rs) ensures t in ReadingStamps(init) + {rs[|rs| - 1].t} {
      var i :| 0 <= i < |rs| && rs[i].t == t;
      if i < |init| {
        assert init[i] == rs[i];
      }
    }
    forall t | t in ReadingStamps(init) ensures t in ReadingStamps(rs) {
      var i :| 0 <= i < |init| && init[i].t == t;
      assert rs[i] == init[i];
    }
  }

  /** Each observation de-duplication keeps is one of the readings at its
      timestamp; none is missing. */
  lemma {:induction false} DedupFromReadings(rs: seq<Reading>)
    ensures forall k :: 0 <= k < |Dedup(rs)| ==>
              Dedup(rs)[k].v.Some? && Reading(Dedup(rs)[k].t, Dedup(rs)[k].v.value) in rs
  {
    if |rs| > 0 {
      var init, last := rs[..|rs| - 1], rs[|rs| - 1];
      DedupFromReadings(init);
      var prev, o := Dedup(init), Obs(last.t, Some(last.v));
      InsertKeepFirstFrom(o, prev);
      var s := Dedup(rs);
      assert s == InsertKeepFirst(o, prev);
      forall k | 0 <= k < |s| ensures s[k].v.Some? && Reading(s[k].t, s[k].v.value) in rs {
        if s[k] == o {
          assert rs[|rs| - 1] == last;
        } else {
          assert s[k] in prev;
          var m :| 0 <= m < |prev| && prev[m] == s[k];
          assert Reading(prev[m].t, prev[m].v.value) in init;
          var i :| 0 <= i < |init| && init[i] == Reading(prev[m].t, prev[m].v.value);
          assert rs[i] == init[i];
        }
      }
    }
  }

  // ---------------------------------------------------------------------------
  // Daily resampling

  const SecondsPerDay: int := 86400

  /** The UTC calendar day of a timestamp (floor division). */
  function Day(t: int): int
  {
    t / SecondsPerDay
  }

  /** Position of the latest observation on day `d` whose value is known. */
  function LastOnDay(s: Series, d: int): (r: Option<nat>)
    ensures r.Some? ==> r.value < |s| && Day(s[r.value].t) == d && s[r.value].v.Some?
    ensures r.Some? ==> forall j :: r.value < j < |s| && Day(s[j].t) == d ==> s[j].v.None?
    ensures r.None? ==> forall i :: 0 <= i < |s| && Day(s[i].t) == d ==> s[i].v.None?
  {
    if |s| == 0 then None
    else if Day(s[|s| - 1].t) == d && s[|s| - 1].v.Some? then Some(|s| - 1)
    else
      var r := LastOnDay(s[..|s| - 1], d);
      assert forall i :: 0 <= i < |s| - 1 ==> s[..|s| - 1][i] == s[i];
      r
  }

  /** `resample("1D").last()` of one column at day `d`: the latest non-missing
      value of that day, missing when the day has none. */
  function DailyLast(s: Series, d: int): Option<real>
  {
    var r := LastOnDay(s, d);
    if r.Some? then s[r.value].v else None
  }

  /** The days of every observation of every column. */
  function AllDays(cols: seq<Series>): (ds: seq<int>)
    ensures |ds| == 0 <==> forall c :: 0 <= c < |cols| ==> |cols[c]| == 0
    ensures forall c, i :: 0 <= c < |cols| && 0 <= i < |cols[c]| ==> Day(cols[c][i].t) in ds
  {
    if |cols| == 0 then []
    else
      var rest := AllDays(cols[1..]);
      var head := seq(|cols[0]|, i requires 0 <= i < |cols[0]| => Day(cols[0][i].t));
      assert forall c, i :: 0 <= c < |cols| && 0 <= i < |cols[c]| ==> Day(cols[c][i].t) in head + rest by {
        forall c, i | 0 <= c < |cols| && 0 <= i < |cols[c]|
          ensures Day(cols[c][i].t) in head + rest
        {
          if c == 0 {
            assert (head + rest)[i] == head[i];
          } else {
            assert cols[c] == cols[1..][c - 1];
          }
        }
      }
      head + rest
  }

  function MinInt(s: seq<int>): (m: int)
    requires |s| > 0
    ensures m in s && forall i :: 0 <= i < |s| ==> m <= s[i]
  {
    if |s| == 1 then s[0]
    else
      var rest := MinInt(s[1..]);
      assert forall i :: 1 <= i < |s| ==> s[i] == s[1..][i - 1];
      if s[0] <= rest then s[0] else rest
  }

  function MaxInt(s: seq<int>): (m: int)
    requires |s| > 0
    ensures m in s && forall i :: 0 <= i < |s| ==> s[i] <= m
  {
    if |s| == 1 then s[0]
    else
      var rest := MaxInt(s[1..]);
      assert forall i :: 1 <= i < |s| ==> s[i] == s[1..][i - 1];
      if s[0] >= rest then s[0] else rest
  }

  /** A day-indexed frame, column-major: `cols[c][r]` is column `c` on `days[r]`. */
  datatype Frame = Frame(days: seq<int>, cols: seq<Interpolation.Column>)

  /** The consecutive days `first..last`. */
  function DayRange(first: int, last: int): (days: seq<int>)
    requires first <= last
    ensures |days| == last - first + 1 && days[|days| - 1] == last
    ensures forall r :: 0 <= r < |days| ==> days[r] == first + r
  {
    seq(last - first + 1, r requires 0 <= r < last - first + 1 => first + r)
  }

  /** Each column resampled onto the given days. */
  function Resampled(series: seq<Series>, days: seq<int>): (cols: seq<Interpolation.Column>)
    ensures |cols| == |series|
    ensures forall c :: 0 <= c < |cols| ==> |cols[c]| == |days|
    ensures forall c, r :: 0 <= c < |cols| && 0 <= r < |days| ==> cols[c][r] == DailyLast(series[c], days[r])
  {
    seq(|series|, c requires 0 <= c < |series| =>
      seq(|days|, r requires 0 <= r < |days| => DailyLast(series[c], days[r])))
  }

  /** `pd.DataFrame(pool_data).T`, resampled to one row per UTC day from the
      first to the last day on which any column has an observation, of which
      only the last `n` rows are kept (`iloc[-n:]`). */
  function Resample(series: seq<Series>, n: nat): (f: Frame)
    ensures |f.cols| == |series|
    ensures forall c :: 0 <= c < |f.cols| ==> |f.cols[c]| == |f.days|
    ensures |f.days| <= n
    ensures forall r :: 0 <= r < |f.days| - 1 ==> f.days[r + 1] == f.days[r] + 1
    ensures |AllDays(series)| == 0 ==> |f.days| == 0
    ensures |AllDays(series)| > 0 && n > 0 ==> |f.days| > 0
    ensures forall c, r :: 0 <= c < |f.cols| && 0 <= r < |f.days| ==>
              f.cols[c][r] == DailyLast(series[c], f.days[r])
  {
    var all := AllDays(series);
    if |all| == 0 || n == 0 then Frame([], Resampled(series, []))
    else
      var lo, hi := MinInt(all), MaxInt(all);
      var first := if hi - n + 1 > lo then hi - n + 1 else lo;
      var days := DayRange(first, hi);
      Frame(days, Resampled(series, days))
  }

  /** The resampled frame ends on the last observed day and spans `n` days,
      or every day from the first observed one when there are fewer. */
  lemma ResampleSpan(series: seq<Series>, n: nat)
    requires |AllDays(series)| > 0
    ensures var f, lo, hi := Resample(series, n), MinInt(AllDays(series)), MaxInt(AllDays(series));
            |f.days| == (if hi - lo + 1 < n then hi - lo + 1 else n) &&
            (|f.days| > 0 ==> f.days[|f.days| - 1] == hi)
  {
  }

  // ---------------------------------------------------------------------------
  // Daily returns

  /** One pool's three window columns, `pool_data.iloc[:, 3 * idx : 3 * idx + 3]`. */
  datatype PoolWindow = PoolWindow(price: Interpolation.Column, tvl: Interpolation.Column, reward: Interpolation.Column)

  predicate Shaped(w: PoolWindow, len: nat)
  {
    |w.price| == len && |w.tvl| == len && |w.reward| == len
  }

  /** The frame's columns grouped three by three. */
  function Windows(cols: seq<Interpolation.Column>, n: nat): (ws: seq<PoolWindow>)
    requires 3 * n <= |cols|
    ensures |ws| == n
    ensures forall i :: 0 <= i < n ==> ws[i] == PoolWindow(cols[3 * i], cols[3 * i + 1], cols[3 * i + 2])
  {
    seq(n, i requires 0 <= i < n => PoolWindow(cols[3 * i], cols[3 * i + 1], cols[3 * i + 2]))
  }

  predicate LastKnown(col: Interpolation.Column)
  {
    |col| > 0 && col[|col| - 1].Some?
  }

  /** `_pool_data.iloc[-1].isna().any()` is false. */
  predicate Survives(w: PoolWindow)
  {
    LastKnown(w.price) && LastKnown(w.tvl) && LastKnown(w.reward)
  }

  /** The positions of the surviving pools among the first `n`, in order. */
  function Survivors(ws: seq<PoolWindow>, n: nat): (k: seq<nat>)
    requires n <= |ws|
    ensures forall j :: 0 <= j < |k| ==> k[j] < n && Survives(ws[k[j]])
    ensures forall j, j' :: 0 <= j < j' < |k| ==> k[j] < k[j']
    ensures forall i :: 0 <= i < n && Survives(ws[i]) ==> i in k
  {
    if n == 0 then []
    else Survivors(ws, n - 1) + (if Survives(ws[n - 1]) then [n - 1] else [])
  }

  /** A column whose last cell is known, after `interpolate(limit_direction="both")`:
      no missing cell is left and known cells keep their values. */
  function Filled(col: Interpolation.Column): (v: seq<real>)
    requires LastKnown(col)
    ensures |v| == |col|
    ensures forall k :: 0 <= k < |col| ==> Some(v[k]) == Interpolation.Interpolate(col)[k]
    ensures forall k :: 0 <= k < |col| && col[k].Some? ==> v[k] == col[k].value
  {
    Interpolation.InterpolateComplete(col);
    var full := Interpolation.Interpolate(col);
    seq(|col|, k requires 0 <= k < |col| => full[k].value)
  }

  /** `prices.pct_change()` without its first row: the fractional change of
      the price from one day to the next, infinite or NaN (not coerced) when
      the previous price is zero. */
  function Hodl(price: seq<real>): (h: seq<Num>)
    requires |price| > 0
    ensures |h| == |price| - 1
    ensures forall t :: 0 <= t < |h| ==> (h[t].Finite? <==> price[t] != 0.0)
  {
    seq(|price| - 1, t requires 0 <= t < |price| - 1 =>
      if price[t] == 0.0 then NonFinite else Finite(price[t + 1] / price[t] - 1.0))
  }

  /** `rewards.diff() / tvls.shift()` without its first row, with infinite
      and NaN quotients (a zero previous TVL) replaced by 0.0. */
  function Apy(tvl: seq<real>, reward: seq<real>): (a: seq<real>)
    requires |tvl| == |reward| > 0
    ensures |a| == |tvl| - 1
    ensures forall t :: 0 <= t < |a| ==> tvl[t] == 0.0 ==> a[t] == 0.0
  {
    seq(|tvl| - 1, t requires 0 <= t < |tvl| - 1 =>
      if tvl[t] == 0.0 then 0.0 else (reward[t + 1] - reward[t]) / tvl[t])
  }

  /** Product of `1 + h` over the HODL returns, when all are finite. */
  function Growth(h: seq<Num>): real
    requires forall t :: 0 <= t < |h| ==> h[t].Finite?
  {
    if |h| == 0 then 1.0 else Growth(h[..|h| - 1]) * (1.0 + h[|h| - 1].r)
  }

  /** The HODL returns are a lossless encoding of the price path: compounding
      them from the first price gives back every later price, as long as no
      price is zero. */
  lemma {:induction false} HodlReconstructsPrice(price: seq<real>, k: nat)
    requires 0 < k < |price|
    requires forall t :: 0 <= t < |price| ==> price[t] != 0.0
    ensures forall t :: 0 <= t < |Hodl(price)| ==> Hodl(price)[t].Finite?
    ensures price[0] * Growth(Hodl(price)[..k]) == price[k]
  {
    var h := Hodl(price);
    if k == 1 {
      assert h[..1][..0] == [];
    } else {
      HodlReconstructsPrice(price, k - 1);
      assert h[..k][..k - 1] == h[..k - 1];
      assert price[k - 1] * (1.0 + h[k - 1].r) == price[k];
    }
  }

  /** The APY return is the reward accrued over the day per unit of the
      previous day's TVL: adding it back recovers the reward. */
  lemma ApyRecoversReward(tvl: seq<real>, reward: seq<real>, t: nat)
    requires |tvl| == |reward| > 0 && t < |tvl| - 1
    requires tvl[t] != 0.0
    ensures reward[t + 1] == reward[t] + Apy(tvl, reward)[t] * tvl[t]
  {
  }

  function HodlOf(w: PoolWindow): seq<Num>
    requires Survives(w)
  {
    Hodl(Filled(w.price))
  }

  function ApyOf(w: PoolWindow): seq<real>
    requires Survives(w) && |w.tvl| == |w.reward|
  {
    Apy(Filled(w.tvl), Filled(w.reward))
  }

  /** What the loop has appended after the first `n` pools. */
  datatype Appended = Appended(pools: seq<PoolInfo>, hodl: seq<seq<Num>>, apy: seq<seq<real>>)

  function AppendedAfter(info: seq<PoolInfo>, ws: seq<PoolWindow>, len: nat, n: nat): Appended
    requires n <= |info| == |ws|
    requires forall i :: 0 <= i < |ws| ==> Shaped(ws[i], len)
  {
    if n == 0 then Appended([], [], [])
    else
      var prev := AppendedAfter(info, ws, len, n - 1);
      if Survives(ws[n - 1]) then
        Appended(prev.pools + [info[n - 1]], prev.hodl + [HodlOf(ws[n - 1])], prev.apy + [ApyOf(ws[n - 1])])
      else prev
  }

  /** The j-th entry of each output list belongs to the j-th survivor: pools,
      HODL and APY columns stay aligned with one another and with the input
      order. */
  lemma {:induction false} AppendedAligned(info: seq<PoolInfo>, ws: seq<PoolWindow>, len: nat, n: nat)
    requires n <= |info| == |ws|
    requires forall i :: 0 <= i < |ws| ==> Shaped(ws[i], len)
    ensures var k, a := Survivors(ws, n), AppendedAfter(info, ws, len, n);
            |a.pools| == |k| && |a.hodl| == |k| && |a.apy| == |k| &&
            forall j :: 0 <= j < |k| ==>
              a.pools[j] == info[k[j]] && a.hodl[j] == HodlOf(ws[k[j]]) && a.apy[j] == ApyOf(ws[k[j]])
  {
    if n > 0 {
      AppendedAligned(info, ws, len, n - 1);
      var k0, a0 := Survivors(ws, n - 1), AppendedAfter(info, ws, len, n - 1);
      if Survives(ws[n - 1]) {
        AlignedSnoc(info, ws, k0, a0, n - 1);
      } else {
        assert Survivors(ws, n) == k0;
      }
    }
  }

  /** One more surviving pool keeps the three lists aligned with the
      survivor positions. */
  lemma AlignedSnoc(info: seq<PoolInfo>, ws: seq<PoolWindow>, k0: seq<nat>, a0: Appended, m: nat)
    requires m < |info| == |ws|
    requires forall i :: 0 <= i < |ws| ==> |ws[i].tvl| == |ws[i].reward|
    requires Survives(ws[m])
    requires forall j :: 0 <= j < |k0| ==> k0[j] < |ws| && Survives(ws[k0[j]])
    requires |a0.pools| == |k0| && |a0.hodl| == |k0| && |a0.apy| == |k0|
    requires forall j :: 0 <= j < |k0| ==>
               a0.pools[j] == info[k0[j]] && a0.hodl[j] == HodlOf(ws[k0[j]]) && a0.apy[j] == ApyOf(ws[k0[j]])
    ensures var k := k0 + [m];
            var a := Appended(a0.pools + [info[m]], a0.hodl + [HodlOf(ws[m])], a0.apy + [ApyOf(ws[m])]);
            |a.pools| == |k| && |a.hodl| == |k| && |a.apy| == |k| &&
            forall j :: 0 <= j < |k| ==>
              a.pools[j] == info[k[j]] && a.hodl[j] == HodlOf(ws[k[j]]) && a.apy[j] == ApyOf(ws[k[j]])
  {
  }

  /** The returns `daily_returns` produces for the window frame, aligned
      with the surviving pools. */
  lemma ReturnsLayout(info: seq<PoolInfo>, frame: Frame, a: Appended)
    requires |frame.cols| == 3 * |info|
    requires forall c :: 0 <= c < |frame.cols| ==> |frame.cols[c]| == |frame.days|
    requires var ws := Windows(frame.cols, |info|);
             (forall i :: 0 <= i < |ws| ==> Shaped(ws[i], |frame.days|)) &&
             a == AppendedAfter(info, ws, |frame.days|, |info|)
    ensures var ws := Windows(frame.cols, |info|);
            var k := Survivors(ws, |info|);
            |a.pools| == |k| && |a.hodl| == |k| && |a.apy| == |k| &&
            forall j :: 0 <= j < |k| ==>
              a.pools[j] == info[k[j]] && a.hodl[j] == HodlOf(ws[k[j]]) && a.apy[j] == ApyOf(ws[k[j]])
    ensures forall j :: 0 <= j < |a.hodl| ==> |a.hodl[j]| == |frame.days| - 1 && |a.apy[j]| == |frame.days| - 1
  {
    var ws := Windows(frame.cols, |info|);
    AppendedAligned(info, ws, |frame.days|, |info|);
    var k := Survivors(ws, |info|);
    forall j | 0 <= j < |a.hodl| ensures |a.hodl[j]| == |frame.days| - 1 && |a.apy[j]| == |frame.days| - 1 {
      assert Shaped(ws[k[j]], |frame.days|);
    }
  }

  /** `daily_returns` after loading: walk the pools in order, skip those whose
      last window row has a missing price, TVL or reward, interpolate the
      others and derive their HODL and APY return columns (the first day
      dropped). Every column of a survivor is complete, so `apy` holds no
      missing value, and each column is one day shorter than the window. */
  method DailyReturns(info: seq<PoolInfo>, frame: Frame)
    returns (pools: seq<PoolInfo>, hodl: seq<seq<Num>>, apy: seq<seq<real>>)
    requires |frame.cols| == 3 * |info|
    requires forall c :: 0 <= c < |frame.cols| ==> |frame.cols[c]| == |frame.days|
    ensures var ws := Windows(frame.cols, |info|);
            var k := Survivors(ws, |info|);
            |pools| == |k| && |hodl| == |k| && |apy| == |k| &&
            forall j :: 0 <= j < |k| ==>
              pools[j] == info[k[j]] && hodl[j] == HodlOf(ws[k[j]]) && apy[j] == ApyOf(ws[k[j]])
    ensures forall j :: 0 <= j < |hodl| ==> |hodl[j]| == |frame.days| - 1 && |apy[j]| == |frame.days| - 1
  {
    var ws := Windows(frame.cols, |info|);
    var len := |frame.days|;
    assert forall i :: 0 <= i < |ws| ==> Shaped(ws[i], len);
    pools, hodl, apy := [], [], [];
    var i := 0;
    while i < |info|
      invariant 0 <= i <= |info|
      invariant Appended(pools, hodl, apy) == AppendedAfter(info, ws, len, i)
    {
      var w := ws[i];
      if Survives(w) {
        pools, hodl, apy := pools + [info[i]], hodl + [HodlOf(w)], apy + [ApyOf(w)];
      }
      assert Appended(pools, hodl, apy) == AppendedAfter(info, ws, len, i + 1);
      i := i + 1;
    }
    ReturnsLayout(info, frame, Appended(pools, hodl, apy));
  }

  // ---------------------------------------------------------------------------
  // Loading

  datatype SnapshotRow = SnapshotRow(timestamp: int, tvl: real, reward: real)

  /** What the database and the subgraph give for one pool: its metadata, its
      token price table, the outcome of fetching its token weights, and its
      TVL/reward snapshot rows. The pool ids are read from the snapshot table,
      so every pool has at least one snapshot row. */
  datatype PoolInput = PoolInput(
    info: PoolInfo,
    tokenCount: nat,
    prices: PriceTable,
    weights: Result<seq<real>>,
    snapshots: seq<SnapshotRow>)

  predicate ValidInput(p: PoolInput)
  {
    WellFormedTable(p.prices, p.tokenCount) && |p.snapshots| > 0
  }

  function Tvls(rows: seq<SnapshotRow>): seq<Reading>
  {
    seq(|rows|, i requires 0 <= i < |rows| => Reading(rows[i].timestamp, rows[i].tvl))
  }

  function Rewards(rows: seq<SnapshotRow>): seq<Reading>
  {
    seq(|rows|, i requires 0 <= i < |rows| => Reading(rows[i].timestamp, rows[i].reward))
  }

  /** The positions of the pools among the first `n` that have a price row. */
  function Loaded(inputs: seq<PoolInput>, n: nat): (k: seq<nat>)
    requires n <= |inputs|
    ensures forall j :: 0 <= j < |k| ==> k[j] < n && |inputs[k[j]].prices.index| > 0
    ensures forall j, j' :: 0 <= j < j' < |k| ==> k[j] < k[j']
  {
    if n == 0 then []
    else Loaded(inputs, n - 1) + (if |inputs[n - 1].prices.index| > 0 then [n - 1] else [])
  }

  /** No pool with a price row is skipped. */
  lemma {:induction false} LoadedComplete(inputs: seq<PoolInput>, n: nat, i: nat)
    requires i < n <= |inputs| && |inputs[i].prices.index| > 0
    ensures i in Loaded(inputs, n)
  {
    if i < n - 1 {
      LoadedComplete(inputs, n - 1, i);
    }
  }

  /** The three series `load_pool_data` produces for one pool. */
  function PoolSeries(p: PoolInput): (s: seq<Series>)
    requires ValidInput(p) && |p.prices.index| > 0
    ensures |s| == 3 && |s[1]| > 0 && |s[2]| > 0
  {
    [CompositePrice(p.prices, p.tokenCount, p.weights), Dedup(Tvls(p.snapshots)), Dedup(Rewards(p.snapshots))]
  }

  /** The pools among the first `n` that have a price row, in order. */
  function LoadedPools(inputs: seq<PoolInput>, n: nat): seq<PoolInput>
    requires n <= |inputs|
  {
    if n == 0 then []
    else LoadedPools(inputs, n - 1) + (if |inputs[n - 1].prices.index| > 0 then [inputs[n - 1]] else [])
  }

  /** The j-th loaded pool is the input at the j-th loaded position. */
  lemma {:induction false} LoadedAligned(inputs: seq<PoolInput>, n: nat)
    requires n <= |inputs|
    ensures var k, ps := Loaded(inputs, n), LoadedPools(inputs, n);
            |ps| == |k| && forall j :: 0 <= j < |k| ==> ps[j] == inputs[k[j]]
  {
    if n > 0 {
      LoadedAligned(inputs, n - 1);
      var k0, p0 := Loaded(inputs, n - 1), LoadedPools(inputs, n - 1);
      if |inputs[n - 1].prices.index| > 0 {
        var k, ps := k0 + [n - 1], p0 + [inputs[n - 1]];
        assert Loaded(inputs, n) == k;
        assert LoadedPools(inputs, n) == ps;
        forall j | 0 <= j < |k| ensures ps[j] == inputs[k[j]] {
          if j < |k0| {
            assert ps[j] == p0[j] && k[j] == k0[j];
          }
        }
      } else {
        assert Loaded(inputs, n) == k0;
        assert LoadedPools(inputs, n) == p0;
      }
    }
  }


  /** Groups of series laid end to end: `pd.DataFrame(pool_data)` has one
      row per series. */
  function Concat(g: seq<seq<Series>>): seq<Series>
  {
    if |g| == 0 then [] else Concat(g[..|g| - 1]) + g[|g| - 1]
  }

  /** Laying groups of three end to end puts group `j` at positions `3j..3j+3`. */
  lemma {:induction false} ConcatTriples(g: seq<seq<Series>>)
    requires forall j :: 0 <= j < |g| ==> |g[j]| == 3
    ensures |Concat(g)| == 3 * |g|
    ensures forall j :: 0 <= j < |g| ==> Concat(g)[3 * j..3 * j + 3] == g[j]
  {
    if |g| > 0 {
      var init := g[..|g| - 1];
      ConcatTriples(init);
      var c, ci := Concat(g), Concat(init);
      assert c == ci + g[|g| - 1];
      forall j | 0 <= j < |g| ensures c[3 * j..3 * j + 3] == g[j] {
        if j < |g| - 1 {
          assert c[3 * j..3 * j + 3] == ci[3 * j..3 * j + 3];
          assert init[j] == g[j];
        } else {
          assert c[3 * j..3 * j + 3] == c[|ci|..];
        }
      }
    }
  }

  predicate Loadable(ps: seq<PoolInput>)
  {
    forall j :: 0 <= j < |ps| ==> ValidInput(ps[j]) && |ps[j].prices.index| > 0
  }

  /** The three series of each of the given pools. */
  function SeriesGroups(ps: seq<PoolInput>): (g: seq<seq<Series>>)
    requires Loadable(ps)
    ensures |g| == |ps| && forall j :: 0 <= j < |g| ==> |g[j]| == 3
  {
    seq(|ps|, j requires 0 <= j < |ps| => PoolSeries(ps[j]))
  }

  lemma SeriesGroupsSnoc(ps: seq<PoolInput>, p: PoolInput)
    requires Loadable(ps) && ValidInput(p) && |p.prices.index| > 0
    ensures Loadable(ps + [p])
    ensures SeriesGroups(ps + [p]) == SeriesGroups(ps) + [PoolSeries(p)]
  {
    var l, r := SeriesGroups(ps + [p]), SeriesGroups(ps) + [PoolSeries(p)];
    forall j | 0 <= j < |l| ensures l[j] == r[j] {
      if j < |ps| {
        assert (ps + [p])[j] == ps[j];
      }
    }
  }

  /** The metadata of the given pools. */
  function InfoOf(ps: seq<PoolInput>): (r: seq<PoolInfo>)
    ensures |r| == |ps| && forall j :: 0 <= j < |ps| ==> r[j] == ps[j].info
  {
    seq(|ps|, j requires 0 <= j < |ps| => ps[j].info)
  }

  lemma ConcatSnoc(g: seq<seq<Series>>, x: seq<Series>)
    ensures Concat(g + [x]) == Concat(g) + x
  {
    assert (g + [x])[..|g|] == g;
  }

  /** The loading loop's state after the first `i` inputs: the metadata and
      the series of the loaded pools among them. */
  predicate LoadState(inputs: seq<PoolInput>, i: nat, info: seq<PoolInfo>, data: seq<Series>)
  {
    && i <= |inputs|
    && Loadable(LoadedPools(inputs, i))
    && info == InfoOf(LoadedPools(inputs, i))
    && data == Concat(SeriesGroups(LoadedPools(inputs, i)))
  }

  /** One step of the loading loop: a pool with a price row appends its
      metadata and its three series, any other pool is skipped. */
  lemma LoadStep(inputs: seq<PoolInput>, i: nat, info: seq<PoolInfo>, data: seq<Series>,
                 info': seq<PoolInfo>, data': seq<Series>)
    requires forall i :: 0 <= i < |inputs| ==> ValidInput(inputs[i])
    requires i < |inputs| && LoadState(inputs, i, info, data)
    requires |inputs[i].prices.index| > 0 ==> info' == info + [inputs[i].info] && data' == data + PoolSeries(inputs[i])
    requires |inputs[i].prices.index| == 0 ==> info' == info && data' == data
    ensures LoadState(inputs, i + 1, info', data')
  {
    var ps, p := LoadedPools(inputs, i), inputs[i];
    if |p.prices.index| > 0 {
      assert LoadedPools(inputs, i + 1) == ps + [p];
      AppendPool(ps, p, info, data);
    } else {
      assert LoadedPools(inputs, i + 1) == ps;
    }
  }

  /** Appending a pool appends its metadata and its three series. */
  lemma AppendPool(ps: seq<PoolInput>, p: PoolInput, info: seq<PoolInfo>, data: seq<Series>)
    requires Loadable(ps) && ValidInput(p) && |p.prices.index| > 0
    requires info == InfoOf(ps) && data == Concat(SeriesGroups(ps))
    ensures Loadable(ps + [p])
    ensures info + [p.info] == InfoOf(ps + [p])
    ensures data + PoolSeries(p) == Concat(SeriesGroups(ps + [p]))
  {
    SeriesGroupsSnoc(ps, p);
    ConcatSnoc(SeriesGroups(ps), PoolSeries(p));
    assert InfoOf(ps + [p]) == InfoOf(ps) + [p.info];
  }

  lemma LoadStart(inputs: seq<PoolInput>)
    ensures LoadState(inputs, 0, [], [])
  {
    assert Concat(SeriesGroups([])) == [];
  }

  /** `load_pool_data` after the database reads: skip pools without any
      price row, and for every other pool append its metadata and its
      composite price, de-duplicated TVL and de-duplicated reward series. */
  method LoadPoolData(inputs: seq<PoolInput>) returns (info: seq<PoolInfo>, data: seq<Series>)
    requires forall i :: 0 <= i < |inputs| ==> ValidInput(inputs[i])
    ensures LoadState(inputs, |inputs|, info, data)
  {
    info, data := [], [];
    LoadStart(inputs);
    var i := 0;
    while i < |inputs|
      invariant i <= |inputs| && LoadState(inputs, i, info, data)
    {
      info, data := LoadOne(inputs, i, info, data);
      i := i + 1;
    }
  }

  /** One pass of the loop in `load_pool_data`: a pool with a price row
      contributes its metadata and its three series, any other is skipped. */
  method LoadOne(inputs: seq<PoolInput>, i: nat, info: seq<PoolInfo>, data: seq<Series>)
    returns (info': seq<PoolInfo>, data': seq<Series>)
    requires forall i :: 0 <= i < |inputs| ==> ValidInput(inputs[i])
    requires i < |inputs| && LoadState(inputs, i, info, data)
    ensures LoadState(inputs, i + 1, info', data')
  {
    var pool := inputs[i];
    info', data' := info, data;
    if |pool.prices.index| > 0 {
      info' := info + [pool.info];
      data' := data + PoolSeries(pool);
    }
    LoadStep(inputs, i, info, data, info', data');
  }


  /** Pool `j` of the loaded output is the input at the j-th position that
      has a price row, and owns series `3j`, `3j+1` and `3j+2`. */
  lemma LoadedLayout(inputs: seq<PoolInput>)
    requires forall i :: 0 <= i < |inputs| ==> ValidInput(inputs[i])
    requires Loadable(LoadedPools(inputs, |inputs|))
    ensures var k, ps := Loaded(inputs, |inputs|), LoadedPools(inputs, |inputs|);
            var info, data := InfoOf(ps), Concat(SeriesGroups(ps));
            |info| == |k| && |data| == 3 * |k| &&
            forall j :: 0 <= j < |k| ==>
              info[j] == inputs[k[j]].info && data[3 * j..3 * j + 3] == PoolSeries(inputs[k[j]])
  {
    var ps := LoadedPools(inputs, |inputs|);
    LoadedAligned(inputs, |inputs|);
    var groups := SeriesGroups(ps);
    ConcatTriples(groups);
    var k := Loaded(inputs, |inputs|);
    forall j | 0 <= j < |k|
      ensures InfoOf(ps)[j] == inputs[k[j]].info && Concat(groups)[3 * j..3 * j + 3] == PoolSeries(inputs[k[j]])
    {
      assert ps[j] == inputs[k[j]];
      assert Concat(groups)[3 * j..3 * j + 3] == groups[j];
    }
  }

  /** The loaded frame has three series per loaded pool, and as soon as
      one pool is loaded it has at least one observation (its TVL series is
      never empty). */
  lemma LoadedShape(inputs: seq<PoolInput>)
    requires Loadable(LoadedPools(inputs, |inputs|))
    ensures var ps := LoadedPools(inputs, |inputs|);
            var data := Concat(SeriesGroups(ps));
            |data| == 3 * |ps| && (|ps| > 0 ==> |AllDays(data)| > 0)
  {
    var ps := LoadedPools(inputs, |inputs|);
    var groups := SeriesGroups(ps);
    ConcatTriples(groups);
    var data := Concat(groups);
    if |ps| > 0 {
      assert data[0..3] == groups[0] == PoolSeries(ps[0]);
      assert |data[1]| > 0;
      assert Day(data[1][0].t) in AllDays(data);
    }
  }

  /** Every pool `daily_returns` keeps is one of the input pools. */
  lemma SurvivorsAreInputs(inputs: seq<PoolInput>, frame: Frame, pools: seq<PoolInfo>)
    requires Loadable(LoadedPools(inputs, |inputs|))
    requires var info := InfoOf(LoadedPools(inputs, |inputs|));
             |frame.cols| == 3 * |info| &&
             var k := Survivors(Windows(frame.cols, |info|), |info|);
             |pools| == |k| && forall j :: 0 <= j < |k| ==> pools[j] == info[k[j]]
    ensures forall j :: 0 <= j < |pools| ==> exists i :: 0 <= i < |inputs| && pools[j] == inputs[i].info
  {
    var ps := LoadedPools(inputs, |inputs|);
    var info := InfoOf(ps);
    LoadedAligned(inputs, |inputs|);
    var k := Survivors(Windows(frame.cols, |info|), |info|);
    var loaded := Loaded(inputs, |inputs|);
    forall j | 0 <= j < |pools| ensures exists i :: 0 <= i < |inputs| && pools[j] == inputs[i].info {
      assert pools[j] == info[k[j]] == ps[k[j]].info == inputs[loaded[k[j]]].info;
    }
  }

  /** Every pool with a price row can be loaded. */
  lemma {:induction false} LoadedLoadable(inputs: seq<PoolInput>, n: nat)
    requires n <= |inputs|
    requires forall i :: 0 <= i < |inputs| ==> ValidInput(inputs[i])
    ensures Loadable(LoadedPools(inputs, n))
  {
    if n > 0 {
      LoadedLoadable(inputs, n - 1);
    }
  }

  /** The three-column windows `daily_returns` cuts, one per loaded pool,
      from the loaded series resampled onto the trailing 90 days. */
  function LoadedWindows(inputs: seq<PoolInput>): (ws: seq<PoolWindow>)
    requires forall i :: 0 <= i < |inputs| ==> ValidInput(inputs[i])
    ensures |ws| == |Loaded(inputs, |inputs|)|
    ensures forall i :: 0 <= i < |ws| ==> |ws[i].tvl| == |ws[i].reward|
  {
    var ps := LoadedPools(inputs, |inputs|);
    LoadedLoadable(inputs, |inputs|);
    LoadedAligned(inputs, |inputs|);
    ConcatTriples(SeriesGroups(ps));
    var frame := Resample(Concat(SeriesGroups(ps)), 90);
    Windows(frame.cols, |ps|)
  }

  /** `daily_returns`: load, resample onto the trailing 90-day window and
      derive the returns of the surviving pools, each at most 89 days long.
      Output `j` is the j-th surviving loaded pool, with its HODL and APY
      columns. */
  method DailyReturnsPipeline(inputs: seq<PoolInput>)
    returns (pools: seq<PoolInfo>, hodl: seq<seq<Num>>, apy: seq<seq<real>>)
    requires forall i :: 0 <= i < |inputs| ==> ValidInput(inputs[i])
    ensures |pools| == |hodl| == |apy|
    ensures forall j :: 0 <= j < |hodl| ==> |hodl[j]| == |apy[j]| < 90
    ensures forall j :: 0 <= j < |pools| ==> exists i :: 0 <= i < |inputs| && pools[j] == inputs[i].info
    ensures var ws, loaded := LoadedWindows(inputs), Loaded(inputs, |inputs|);
            var k := Survivors(ws, |ws|);
            |pools| == |k| &&
            forall j :: 0 <= j < |k| ==>
              pools[j] == inputs[loaded[k[j]]].info && hodl[j] == HodlOf(ws[k[j]]) && apy[j] == ApyOf(ws[k[j]])
  {
    var info, data := LoadPoolData(inputs);
    LoadedShape(inputs);
    var frame := Resample(data, 90);
    pools, hodl, apy := DailyReturns(info, frame);
    SurvivorsAreInputs(inputs, frame, pools);
    SurvivorsOfInputs(inputs, Windows(frame.cols, |info|), pools);
  }

  /** The survivors among the loaded windows, named by their input pools. */
  lemma SurvivorsOfInputs(inputs: seq<PoolInput>, ws: seq<PoolWindow>, pools: seq<PoolInfo>)
    requires forall i :: 0 <= i < |inputs| ==> ValidInput(inputs[i])
    requires Loadable(LoadedPools(inputs, |inputs|))
    requires ws == LoadedWindows(inputs)
    requires var info, k := InfoOf(LoadedPools(inputs, |inputs|)), Survivors(ws, |ws|);
             |pools| == |k| && |info| == |ws| && forall j :: 0 <= j < |k| ==> pools[j] == info[k[j]]
    ensures var k, loaded := Survivors(ws, |ws|), Loaded(inputs, |inputs|);
            forall j :: 0 <= j < |k| ==> pools[j] == inputs[loaded[k[j]]].info
  {
    LoadedAligned(inputs, |inputs|);
    var k, ps, loaded := Survivors(ws, |ws|), LoadedPools(inputs, |inputs|), Loaded(inputs, |inputs|);
    forall j | 0 <= j < |k| ensures pools[j] == inputs[loaded[k[j]]].info {
      assert pools[j] == InfoOf(ps)[k[j]] == ps[k[j]].info;
    }
  }
}
