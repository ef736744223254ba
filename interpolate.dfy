/** pandas' `interpolate(limit_direction="both")` with the default linear
    method, on one column. The default method ignores the index and treats
    the cells as equally spaced, so a missing cell at position k between the
    known cells at positions i < k < j takes v_i + (v_j - v_i)(k - i)/(j - i);
    missing cells before the first or after the last known cell copy that
    cell's value (numpy's `interp` clamps at the ends); a column with no known
    cell stays entirely missing. */
module Interpolation {
  import opened Common

  type Column = seq<Option<real>>

  predicate HasKnown(col: Column)
  {
    exists i :: 0 <= i < |col| && col[i].Some?
  }

  /** Position of the nearest known cell strictly before `k`. */
  function PrevKnown(col: Column, k: nat): (r: Option<nat>)
    requires k <= |col|
    ensures r.Some? ==> r.value < k && col[r.value].Some?
    ensures r.Some? ==> forall j :: r.value < j < k ==> col[j].None?
    ensures r.None? ==> forall j :: 0 <= j < k ==> col[j].None?
  {
    if k == 0 then None
    else if col[k - 1].Some? then Some(k - 1)
    else PrevKnown(col, k - 1)
  }

  /** Position of the nearest known cell at or after `k`. */
  function NextKnown(col: Column, k: nat): (r: Option<nat>)
    requires k <= |col|
    ensures r.Some? ==> k <= r.value < |col| && col[r.value].Some?
    ensures r.Some? ==> forall j :: k <= j < r.value ==> col[j].None?
    ensures r.None? ==> forall j :: k <= j < |col| ==> col[j].None?
    decreases |col| - k
  {
    if k == |col| then None
    else if col[k].Some? then Some(k)
    else NextKnown(col, k + 1)
  }

  /** The straight line through (i, a) and (j, b), evaluated at k. */
  function Linear(i: nat, a: real, j: nat, b: real, k: nat): real
    requires i < k < j
  {
    a + (b - a) * ((k - i) as real) / ((j - i) as real)
  }

  /** A point of a segment lies between the segment's end values. */
  lemma LinearBetween(i: nat, a: real, j: nat, b: real, k: nat)
    requires i < k < j
    ensures a <= b ==> a <= Linear(i, a, j, b, k) <= b
    ensures b <= a ==> b <= Linear(i, a, j, b, k) <= a
  {
    var f := ((k - i) as real) / ((j - i) as real);
    ProperFraction((k - i) as real, (j - i) as real);
    assert (b - a) * ((k - i) as real) / ((j - i) as real) == (b - a) * f;
    if a <= b {
      PartOf(b - a, f);
    } else {
      PartOf(a - b, f);
      assert (b - a) * f == -((a - b) * f);
    }
  }

  lemma ProperFraction(p: real, q: real)
    requires 0.0 < p < q
    ensures 0.0 < p / q < 1.0
  {
    var f := p / q;
    assert f * q == p;
    if f >= 1.0 {
      MulNonNegative(f - 1.0, q);
    }
  }

  /** A fraction of a non-negative length lies between zero and that length. */
  lemma PartOf(d: real, f: real)
    requires d >= 0.0 && 0.0 <= f <= 1.0
    ensures 0.0 <= d * f <= d
  {
    MulNonNegative(d, f);
    MulNonNegative(d, 1.0 - f);
  }

  /** The interpolated value of cell `k`. */
  function FillAt(col: Column, k: nat): (r: Option<real>)
    requires k < |col|
    ensures col[k].Some? ==> r == col[k]
    ensures HasKnown(col) <==> r.Some?
  {
    if col[k].Some? then col[k]
    else
      var p, n := PrevKnown(col, k), NextKnown(col, k + 1);
      if p.Some? && n.Some? then Some(Linear(p.value, col[p.value].value, n.value, col[n.value].value, k))
      else if p.Some? then col[p.value]
      else if n.Some? then col[n.value]
      else
        assert !HasKnown(col) by {
          forall i | 0 <= i < |col| ensures col[i].None? {
            if i > k { assert k + 1 <= i; }
          }
        }
        None
  }

  /** `col.interpolate(limit_direction="both")`. */
  function Interpolate(col: Column): (r: Column)
    ensures |r| == |col|
  {
    seq(|col|, k requires 0 <= k < |col| => FillAt(col, k))
  }

  /** Known cells are left as they were. */
  lemma InterpolateKeepsKnown(col: Column, k: nat)
    requires k < |col| && col[k].Some?
    ensures Interpolate(col)[k] == col[k]
  {
  }

  /** A column with at least one known cell comes out with no missing cell;
      one with none comes out unchanged. */
  lemma InterpolateComplete(col: Column)
    ensures HasKnown(col) ==> forall k :: 0 <= k < |col| ==> Interpolate(col)[k].Some?
    ensures !HasKnown(col) ==> Interpolate(col) == col
  {
    if !HasKnown(col) {
      forall k | 0 <= k < |col| ensures Interpolate(col)[k] == col[k] {
        assert col[k].None?;
      }
    }
  }

  /** Every filled value lies between the smallest and the largest known
      value of the column: linear interpolation and end-copying never leave
      the range of the data. */
  lemma InterpolateWithinRange(col: Column, k: nat, lo: real, hi: real)
    requires k < |col|
    requires forall i :: 0 <= i < |col| && col[i].Some? ==> lo <= col[i].value <= hi
    requires HasKnown(col)
    ensures Interpolate(col)[k].Some? && lo <= Interpolate(col)[k].value <= hi
  {
    assert Interpolate(col)[k] == FillAt(col, k);
    if col[k].None? {
      var p, n := PrevKnown(col, k), NextKnown(col, k + 1);
      if p.Some? && n.Some? {
        LinearBetween(p.value, col[p.value].value, n.value, col[n.value].value, k);
      }
    }
  }

  /** Between two consecutive known cells the filled value is the straight
      line through them, and so lies between their values. */
  lemma InterpolateInterior(col: Column, i: nat, k: nat, j: nat)
    requires i < k < j < |col|
    requires col[i].Some? && col[j].Some?
    requires forall m :: i < m < j ==> col[m].None?
    ensures Interpolate(col)[k] == Some(Linear(i, col[i].value, j, col[j].value, k))
  {
    var p, n := PrevKnown(col, k), NextKnown(col, k + 1);
    assert p == Some(i);
    assert n == Some(j);
  }

  /** Before the first known cell the column copies that cell. */
  lemma InterpolateLeadingEdge(col: Column, k: nat, j: nat)
    requires k < j < |col|
    requires col[j].Some?
    requires forall m :: 0 <= m < j ==> col[m].None?
    ensures Interpolate(col)[k] == col[j]
  {
    assert PrevKnown(col, k).None?;
    assert NextKnown(col, k + 1) == Some(j);
  }

  /** After the last known cell the column copies that cell. */
  lemma InterpolateTrailingEdge(col: Column, i: nat, k: nat)
    requires i < k < |col|
    requires col[i].Some?
    requires forall m :: i < m < |col| ==> col[m].None?
    ensures Interpolate(col)[k] == col[i]
  {
    assert PrevKnown(col, k) == Some(i);
    assert NextKnown(col, k + 1).None?;
  }
}
