/** Points in real vector space and the numeric primitives the clustering
    engine takes from numpy: squared Euclidean distance, the nearest-centroid
    distance, the per-dimension mean of a point set, and numpy's `argmin` /
    `argmax` (which break ties towards the first index).

    Euclidean distances are replaced by squared distances throughout: the
    square root is strictly monotone on non-negative reals, so every minimum,
    maximum, argmin and argmax (ties included) is the same for both. */
module Geometry {

  /** A point is a row of coordinates; a data set is a numpy array of shape (n, d). */
  type Point = seq<real>

  /** Every row has exactly `d` coordinates. */
  predicate SameDim(rows: seq<Point>, d: nat) {
    forall i :: 0 <= i < |rows| ==> |rows[i]| == d
  }

  function Abs(x: real): real {
    if x < 0.0 then -x else x
  }

  function Square(x: real): real {
    x * x
  }

  /** A square is never negative, and is positive away from zero. */
  lemma SquareSign(x: real)
    ensures Square(x) >= 0.0
    ensures x != 0.0 ==> Square(x) > 0.0
  {
    if x > 0.0 {
      calc { Square(x); == x * x; > 0.0 * x; == 0.0; }
    } else if x < 0.0 {
      calc { Square(x); == (-x) * (-x); > 0.0 * (-x); == 0.0; }
    }
  }

  /** Squared Euclidean distance. */
  function SqDist(p: Point, q: Point): (r: real)
    requires |p| == |q|
    ensures r >= 0.0
    decreases |p|
  {
    if |p| == 0 then 0.0
    else SquareSign(p[0] - q[0]); Square(p[0] - q[0]) + SqDist(p[1..], q[1..])
  }

  /** A point is at distance zero from itself and from nothing else. */
  lemma {:induction false} SqDistZeroIff(p: Point, q: Point)
    requires |p| == |q|
    ensures SqDist(p, q) == 0.0 <==> p == q
    decreases |p|
  {
    if |p| > 0 {
      SqDistZeroIff(p[1..], q[1..]);
      var x := p[0] - q[0];
      if x != 0.0 {
        SquareSign(x);
        assert p != q by { assert p[0] != q[0]; }
      } else if p[1..] == q[1..] {
        assert p == [p[0]] + p[1..] && q == [q[0]] + q[1..];
      } else {
        assert p[1..] != q[1..];
        assert p != q;
      }
    }
  }

  /** Distance from `p` to the nearest of the points `cs` (Python's `min` over
      a generator, taken in list order). */
  function MinSqDist(p: Point, cs: seq<Point>): (r: real)
    requires |cs| > 0 && SameDim(cs, |p|)
    ensures r >= 0.0
    decreases |cs|
  {
    if |cs| == 1 then SqDist(p, cs[0])
    else
      var m := MinSqDist(p, cs[..|cs| - 1]);
      var last := SqDist(p, cs[|cs| - 1]);
      if last < m then last else m
  }

  /** `MinSqDist` is the least distance from `p` to a point of `cs`. */
  lemma {:induction false} MinSqDistIsMin(p: Point, cs: seq<Point>)
    requires |cs| > 0 && SameDim(cs, |p|)
    ensures forall i :: 0 <= i < |cs| ==> MinSqDist(p, cs) <= SqDist(p, cs[i])
    ensures exists i :: 0 <= i < |cs| && MinSqDist(p, cs) == SqDist(p, cs[i])
    decreases |cs|
  {
    if |cs| > 1 {
      var front := cs[..|cs| - 1];
      MinSqDistIsMin(p, front);
      assert forall i :: 0 <= i < |cs| - 1 ==> front[i] == cs[i];
      var i :| 0 <= i < |front| && MinSqDist(p, front) == SqDist(p, front[i]);
      if SqDist(p, cs[|cs| - 1]) >= MinSqDist(p, front) {
        assert MinSqDist(p, cs) == SqDist(p, cs[i]);
      } else {
        assert MinSqDist(p, cs) == SqDist(p, cs[|cs| - 1]);
      }
    } else {
      assert MinSqDist(p, cs) == SqDist(p, cs[0]);
    }
  }

  /** A point lies at distance zero from a set of points exactly when it is one of them. */
  lemma MinSqDistZeroIff(p: Point, cs: seq<Point>)
    requires |cs| > 0 && SameDim(cs, |p|)
    ensures MinSqDist(p, cs) == 0.0 <==> p in cs
  {
    MinSqDistIsMin(p, cs);
    if MinSqDist(p, cs) == 0.0 {
      var i :| 0 <= i < |cs| && MinSqDist(p, cs) == SqDist(p, cs[i]);
      SqDistZeroIff(p, cs[i]);
    }
    if p in cs {
      var i :| 0 <= i < |cs| && cs[i] == p;
      SqDistZeroIff(p, cs[i]);
    }
  }

  /** `i` is the position numpy's `argmin` reports: a minimum, and the first one. */
  predicate IsFirstMin(ds: seq<real>, i: int) {
    && 0 <= i < |ds|
    && (forall j :: 0 <= j < |ds| ==> ds[i] <= ds[j])
    && (forall j :: 0 <= j < i ==> ds[i] < ds[j])
  }

  /** `i` is the position numpy's `argmax` reports: a maximum, and the first one. */
  predicate IsFirstMax(ds: seq<real>, i: int) {
    && 0 <= i < |ds|
    && (forall j :: 0 <= j < |ds| ==> ds[j] <= ds[i])
    && (forall j :: 0 <= j < i ==> ds[j] < ds[i])
  }

  /** numpy's `argmin`, scanning left to right and keeping the earlier index on ties. */
  function ArgMin(ds: seq<real>): (i: nat)
    requires |ds| > 0
    ensures IsFirstMin(ds, i)
    decreases |ds|
  {
    if |ds| == 1 then 0
    else
      var front := ds[..|ds| - 1];
      var j := ArgMin(front);
      assert forall t :: 0 <= t < |ds| - 1 ==> front[t] == ds[t];
      if ds[|ds| - 1] < ds[j] then |ds| - 1 else j
  }

  /** numpy's `argmax`, scanning left to right and keeping the earlier index on ties. */
  function ArgMax(ds: seq<real>): (i: nat)
    requires |ds| > 0
    ensures IsFirstMax(ds, i)
    decreases |ds|
  {
    if |ds| == 1 then 0
    else
      var front := ds[..|ds| - 1];
      var j := ArgMax(front);
      assert forall t :: 0 <= t < |ds| - 1 ==> front[t] == ds[t];
      if ds[|ds| - 1] > ds[j] then |ds| - 1 else j
  }

  /** The first minimum is unique, so `IsFirstMin` determines `ArgMin`. */
  lemma FirstMinUnique(ds: seq<real>, i: int, j: int)
    requires IsFirstMin(ds, i) && IsFirstMin(ds, j)
    ensures i == j
  {
    var a, b := ds[i], ds[j];
    if i < j {
      assert false;
    } else if j < i {
      assert false;
    }
  }

  /** Sum of the coordinates at position `c` over all points. */
  function ColumnSum(pts: seq<Point>, c: nat): real
    requires forall i :: 0 <= i < |pts| ==> c < |pts[i]|
    decreases |pts|
  {
    if |pts| == 0 then 0.0
    else ColumnSum(pts[..|pts| - 1], c) + pts[|pts| - 1][c]
  }

  /** numpy's `mean(axis=0)`: the per-dimension arithmetic mean of a nonempty point set. */
  function Mean(pts: seq<Point>): (m: Point)
    requires |pts| > 0 && SameDim(pts, |pts[0]|)
    ensures |m| == |pts[0]|
  {
    seq(|pts[0]|, c requires 0 <= c < |pts[0]| => ColumnSum(pts, c) / (|pts| as real))
  }

  /** Sum of a sequence of reals (numpy's `sum()` on a 1-D array). */
  function Sum(ws: seq<real>): real
    decreases |ws|
  {
    if |ws| == 0 then 0.0 else Sum(ws[..|ws| - 1]) + ws[|ws| - 1]
  }

  /** Column sums of points bounded by `lo` and `hi` lie between `n*lo` and `n*hi`. */
  lemma {:induction false} ColumnSumBounds(pts: seq<Point>, c: nat, lo: real, hi: real)
    requires forall i :: 0 <= i < |pts| ==> c < |pts[i]| && lo <= pts[i][c] <= hi
    ensures (|pts| as real) * lo <= ColumnSum(pts, c) <= (|pts| as real) * hi
    decreases |pts|
  {
    if |pts| > 0 {
      var front := pts[..|pts| - 1];
      assert forall i :: 0 <= i < |front| ==> front[i] == pts[i];
      ColumnSumBounds(front, c, lo, hi);
      var n := |front| as real;
      assert (|pts| as real) * lo == n * lo + lo;
      assert (|pts| as real) * hi == n * hi + hi;
    }
  }

  /** Each coordinate of a mean lies within the range of that coordinate over the points. */
  lemma MeanWithinBounds(pts: seq<Point>, c: nat, lo: real, hi: real)
    requires |pts| > 0 && SameDim(pts, |pts[0]|) && c < |pts[0]|
    requires forall i :: 0 <= i < |pts| ==> lo <= pts[i][c] <= hi
    ensures lo <= Mean(pts)[c] <= hi
  {
    ColumnSumBounds(pts, c, lo, hi);
    var n := |pts| as real;
    var s := ColumnSum(pts, c);
    assert Mean(pts)[c] == s / n;
    assert n * lo <= s <= n * hi;
    assert lo <= s / n by {
      assert (s / n) * n == s;
    }
    assert s / n <= hi by {
      assert (s / n) * n == s;
    }
  }

  /** The sum of non-negative weights is zero only when every weight is zero. */
  lemma {:induction false} SumZeroAllZero(ws: seq<real>)
    requires forall i :: 0 <= i < |ws| ==> ws[i] >= 0.0
    ensures Sum(ws) >= 0.0
    ensures Sum(ws) == 0.0 ==> forall i :: 0 <= i < |ws| ==> ws[i] == 0.0
    decreases |ws|
  {
    if |ws| > 0 {
      var front := ws[..|ws| - 1];
      assert forall i :: 0 <= i < |front| ==> front[i] == ws[i];
      SumZeroAllZero(front);
    }
  }
}
