/** Shared vocabulary of the model: missing values, error outcomes, and the
    small folds over real sequences (sum, dot product, mean, extrema, sort)
    that the vectorised numpy/pandas expressions of the pipeline reduce to. */
module Common {

  /** A float cell that may be NaN / absent (pandas' missing value). */
  datatype Option<+T> = None | Some(value: T)

  /** The exceptions the modelled code raises. */
  datatype Error =
    | NotImplemented   // unsupported schema type
    | IndexError       // positional access into an empty sequence
    | KeyError         // label lookup of a row that is not in the frame
    | EmptyInput       // numpy reduction (min, max, quantile) over nothing
    | ZeroDivision     // Python division by a zero integer
    | Undefined        // a statistic pandas returns as NaN (too few rows)

  datatype Result<+T> = Ok(value: T) | Err(error: Error)

  /** Sum of a sequence, folded from the right. */
  function Sum(s: seq<real>): real
  {
    if |s| == 0 then 0.0 else s[0] + Sum(s[1..])
  }

  lemma {:induction false} SumAppend(a: seq<real>, b: seq<real>)
    ensures Sum(a + b) == Sum(a) + Sum(b)
  {
    if |a| == 0 {
      assert a + b == b;
    } else {
      assert (a + b)[1..] == a[1..] + b;
      SumAppend(a[1..], b);
    }
  }

  /** Every element multiplied by `c` (numpy broadcasting of a scalar). */
  function Scale(s: seq<real>, c: real): (r: seq<real>)
    ensures |r| == |s| && forall i :: 0 <= i < |s| ==> r[i] == s[i] * c
  {
    seq(|s|, i requires 0 <= i < |s| => s[i] * c)
  }

  /** Summing the scaled elements scales the sum. */
  lemma {:induction false} SumScale(s: seq<real>, c: real)
    ensures Sum(Scale(s, c)) == Sum(s) * c
  {
    if |s| > 0 {
      var t, u := Scale(s, c), Scale(s[1..], c);
      assert |t[1..]| == |u|;
      forall i | 0 <= i < |u| ensures t[1..][i] == u[i] {
        assert t[1..][i] == t[i + 1] == s[i + 1] * c;
      }
      assert t[1..] == u;
      SumScale(s[1..], c);
    }
  }

  /** A sum of positive terms is at least each of its terms. */
  lemma {:induction false} SumPositiveBound(s: seq<real>, k: nat)
    requires k < |s|
    requires forall i :: 0 <= i < |s| ==> s[i] > 0.0
    ensures Sum(s) >= s[k] && Sum(s) > 0.0
  {
    if k == 0 {
      SumNonNegative(s[1..]);
    } else {
      SumPositiveBound(s[1..], k - 1);
    }
  }

  lemma {:induction false} SumNonNegative(s: seq<real>)
    requires forall i :: 0 <= i < |s| ==> s[i] >= 0.0
    ensures Sum(s) >= 0.0
  {
    if |s| > 0 {
      SumNonNegative(s[1..]);
    }
  }

  /** Sum of `|s|` copies of one constant. */
  lemma {:induction false} SumConstant(s: seq<real>, c: real)
    requires forall i :: 0 <= i < |s| ==> s[i] == c
    ensures Sum(s) == (|s| as real) * c
  {
    if |s| > 0 {
      SumConstant(s[1..], c);
    }
  }

  /** Pointwise-equal sequences have equal sums (helper for sums of comprehensions). */
  lemma {:induction false} SumPointwise(a: seq<real>, b: seq<real>)
    requires |a| == |b|
    requires forall i :: 0 <= i < |a| ==> a[i] == b[i]
    ensures Sum(a) == Sum(b)
  {
    assert a == b;
  }

  /** Elementwise product `x * w` of two aligned vectors. */
  function Times(x: seq<real>, w: seq<real>): (r: seq<real>)
    requires |x| == |w|
    ensures |r| == |x| && forall i :: 0 <= i < |x| ==> r[i] == x[i] * w[i]
  {
    seq(|x|, i requires 0 <= i < |x| => x[i] * w[i])
  }

  /** `(x * w).sum()` for two aligned vectors. */
  function Dot(x: seq<real>, w: seq<real>): real
    requires |x| == |w|
  {
    Sum(Times(x, w))
  }

  /** numpy/pandas `mean` of a non-empty vector. */
  function Mean(s: seq<real>): real
    requires |s| > 0
  {
    Sum(s) / (|s| as real)
  }

  /** A weighted sum of one repeated value under weights summing to one is
      that value. */
  lemma DotConstant(v: seq<real>, w: seq<real>, x: real)
    requires |v| == |w| && Sum(w) == 1.0
    requires forall j :: 0 <= j < |v| ==> v[j] == x
    ensures Dot(v, w) == x
  {
    var prod := Times(v, w);
    forall j | 0 <= j < |v| ensures prod[j] == Scale(w, x)[j] {
    }
    SumPointwise(prod, Scale(w, x));
    SumScale(w, x);
  }

  lemma DotCommutes(x: seq<real>, w: seq<real>)
    requires |x| == |w|
    ensures Dot(x, w) == Dot(w, x)
  {
    assert Times(x, w) == Times(w, x);
  }

  /** Equal weights `1/n` over `n` assets. */
  function Uniform(n: nat): (w: seq<real>)
    requires n > 0
    ensures |w| == n && Sum(w) == 1.0
    ensures forall i :: 0 <= i < n ==> w[i] == 1.0 / (n as real)
  {
    var w := seq(n, i => 1.0 / (n as real));
    SumConstant(w, 1.0 / (n as real));
    w
  }

  /** With equal weights the weighted sum is the plain mean. */
  lemma UniformDotIsMean(x: seq<real>)
    requires |x| > 0
    ensures Dot(x, Uniform(|x|)) == Mean(x)
  {
    var n := |x| as real;
    var p, q := Times(x, Uniform(|x|)), Scale(x, 1.0 / n);
    forall i | 0 <= i < |x| ensures p[i] == q[i] {
    }
    SumPointwise(p, q);
    SumScale(x, 1.0 / n);
    TimesInverse(Sum(x), n);
  }

  /** Every entry is strictly positive. */
  predicate AllPositive(s: seq<real>)
  {
    forall i :: 0 <= i < |s| ==> s[i] > 0.0
  }

  /** A sum whose terms are all zero but the one at `k` is that term. */
  lemma {:induction false} SumSingle(s: seq<real>, k: nat)
    requires k < |s|
    requires forall i :: 0 <= i < |s| && i != k ==> s[i] == 0.0
    ensures Sum(s) == s[k]
  {
    if k == 0 {
      SumConstant(s[1..], 0.0);
    } else {
      SumSingle(s[1..], k - 1);
    }
  }

  /** The weights that put everything on asset `i` of `n`. */
  function Unit(n: nat, i: nat): (u: seq<real>)
    requires i < n
    ensures |u| == n && u[i] == 1.0 && Sum(u) == 1.0
    ensures forall j :: 0 <= j < n && j != i ==> u[j] == 0.0
  {
    var u := seq(n, j => if j == i then 1.0 else 0.0);
    SumSingle(u, i);
    u
  }

  /** Weighting by a unit vector picks one entry. */
  lemma DotUnit(v: seq<real>, i: nat)
    requires i < |v|
    ensures Dot(v, Unit(|v|, i)) == v[i] && Dot(Unit(|v|, i), v) == v[i]
  {
    SumSingle(Times(v, Unit(|v|, i)), i);
    DotCommutes(v, Unit(|v|, i));
  }

  /** With non-negative weights, a weighted sum of values inside `[lo, hi]`
      lies inside `[lo, hi]` scaled by the total weight. */
  lemma {:induction false} DotBetween(v: seq<real>, w: seq<real>, lo: real, hi: real)
    requires |v| == |w|
    requires forall i :: 0 <= i < |v| ==> lo <= v[i] <= hi && w[i] >= 0.0
    ensures lo * Sum(w) <= Dot(v, w) <= hi * Sum(w)
  {
    if |v| > 0 {
      assert Times(v, w)[1..] == Times(v[1..], w[1..]);
      DotBetween(v[1..], w[1..], lo, hi);
      MulNonNegative(v[0] - lo, w[0]);
      MulNonNegative(hi - v[0], w[0]);
      assert lo * Sum(w) == lo * w[0] + lo * Sum(w[1..]);
      assert hi * Sum(w) == hi * w[0] + hi * Sum(w[1..]);
    }
  }

  lemma TimesInverse(a: real, n: real)
    requires n > 0.0
    ensures a * (1.0 / n) == a / n
  {
  }

  lemma MulNonNegative(x: real, y: real)
    requires x >= 0.0 && y >= 0.0
    ensures x * y >= 0.0
  {
  }

  /** The point a fraction `g` of the way from `a` to `b`. */
  function Between(a: real, b: real, g: real): real
  {
    a + g * (b - a)
  }

  lemma BetweenBounds(a: real, b: real, g: real)
    requires a <= b && 0.0 <= g <= 1.0
    ensures a <= Between(a, b, g) <= b
  {
    MulNonNegative(g, b - a);
    MulNonNegative(1.0 - g, b - a);
  }

  lemma BetweenMonotone(a: real, b: real, g1: real, g2: real)
    requires a <= b && g1 <= g2
    ensures Between(a, b, g1) <= Between(a, b, g2)
  {
    MulNonNegative(g2 - g1, b - a);
  }

  /** `s.min()` of a non-empty sequence. */
  function Min(s: seq<real>): (m: real)
    requires |s| > 0
    ensures m in s && forall i :: 0 <= i < |s| ==> m <= s[i]
  {
    if |s| == 1 then s[0]
    else
      var rest := Min(s[1..]);
      assert forall i :: 1 <= i < |s| ==> s[i] == s[1..][i - 1];
      if s[0] <= rest then s[0] else rest
  }

  /** `s.max()` of a non-empty sequence. */
  function Max(s: seq<real>): (m: real)
    requires |s| > 0
    ensures m in s && forall i :: 0 <= i < |s| ==> s[i] <= m
  {
    if |s| == 1 then s[0]
    else
      var rest := Max(s[1..]);
      assert forall i :: 1 <= i < |s| ==> s[i] == s[1..][i - 1];
      if s[0] >= rest then s[0] else rest
  }

  /** Ascending in `key`. */
  predicate SortedBy<T>(s: seq<T>, key: T -> real)
  {
    forall i, j :: 0 <= i < j < |s| ==> key(s[i]) <= key(s[j])
  }

  /** Insert `x` before the first element whose key is larger. */
  function InsertBy<T>(x: T, s: seq<T>, key: T -> real): (r: seq<T>)
    requires SortedBy(s, key)
    ensures SortedBy(r, key)
    ensures multiset(r) == multiset(s) + multiset{x}
    ensures |r| == |s| + 1
  {
    if |s| == 0 then [x]
    else if key(x) <= key(s[0]) then [x] + s
    else
      var rest := InsertBy(x, s[1..], key);
      assert s == [s[0]] + s[1..];
      InsertAbove(x, s, rest, key);
      [s[0]] + rest
  }

  lemma InsertAbove<T>(x: T, s: seq<T>, rest: seq<T>, key: T -> real)
    requires |s| > 0 && SortedBy(s, key) && key(s[0]) < key(x)
    requires multiset(rest) == multiset(s[1..]) + multiset{x}
    ensures forall j :: 0 <= j < |rest| ==> key(s[0]) <= key(rest[j])
  {
    forall j | 0 <= j < |rest|
      ensures key(s[0]) <= key(rest[j])
    {
      assert rest[j] in multiset(rest);
      if rest[j] != x {
        assert rest[j] in multiset(s[1..]);
        var k :| 0 <= k < |s[1..]| && s[1..][k] == rest[j];
        assert s[k + 1] == rest[j];
      }
    }
  }

  /** An ascending sort by `key`: sorted and a permutation of its input
      (numpy and pandas sort with an unstable quicksort, so nothing is promised
      about the order of equal keys). */
  function SortBy<T>(s: seq<T>, key: T -> real): (r: seq<T>)
    ensures SortedBy(r, key)
    ensures multiset(r) == multiset(s)
    ensures |r| == |s|
  {
    if |s| == 0 then []
    else
      assert s == [s[0]] + s[1..];
      InsertBy(s[0], SortBy(s[1..], key), key)
  }
}
