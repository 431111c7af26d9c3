/** The initialisation strategies of `initialize_centroids`: random
    sampling without replacement, farthest-first traversal and kmeans++.
    The random choices numpy makes are inputs here: the sample of
    `np.random.choice`, the first index of `np.random.randint`, and the
    indices kmeans++ draws, each constrained to what the sampler can return. */
module Seeding {
  import opened Geometry
  import opened Clustering

  /** Distance from every point to its nearest centroid chosen so far (the
      list comprehensions building `distances` for farthest-first and kmeans++). */
  function NearestDists(data: seq<Point>, cs: seq<Point>): (ws: seq<real>)
    requires Fits(data, cs) && |cs| > 0
    ensures |ws| == |data|
    ensures forall i :: 0 <= i < |ws| ==> ws[i] >= 0.0
  {
    seq(|data|, i requires 0 <= i < |data| => MinSqDist(data[i], cs))
  }

  /** What `initialize_centroids` leaves in `self.centroids`, and the
      exception it raises, if any. */
  datatype InitOutcome = InitOutcome(centroids: Option<seq<Point>>, error: Option<Error>)

  // ---------------------------------------------------------------- random

  /** `sample` can come from `np.random.choice(n, k, replace=False)`:
      `k` distinct indices below `n`. */
  predicate IsSample(sample: seq<nat>, n: nat, k: nat) {
    && |sample| == k
    && (forall i :: 0 <= i < |sample| ==> sample[i] < n)
    && (forall i, j :: 0 <= i < j < |sample| ==> sample[i] != sample[j])
  }

  /** `data[sample]`: the rows at the sampled indices, in sample order. */
  function Pick(data: seq<Point>, sample: seq<nat>): (rows: seq<Point>)
    requires forall i :: 0 <= i < |sample| ==> sample[i] < |data|
    ensures |rows| == |sample|
    ensures forall i :: 0 <= i < |rows| ==> rows[i] in data
  {
    seq(|sample|, i requires 0 <= i < |sample| => data[sample[i]])
  }

  /** Random initialisation yields `k` rows of the data, each a different
      row when the data has no repeated point. */
  lemma RandomSeeds(data: seq<Point>, sample: seq<nat>, k: nat)
    requires IsSample(sample, |data|, k)
    ensures |Pick(data, sample)| == k
    ensures forall i :: 0 <= i < k ==> Pick(data, sample)[i] == data[sample[i]]
    ensures (forall a, b :: 0 <= a < b < |data| ==> data[a] != data[b]) ==>
      forall a, b :: 0 <= a < b < k ==> Pick(data, sample)[a] != Pick(data, sample)[b]
  {
    var rows := Pick(data, sample);
    if forall a, b :: 0 <= a < b < |data| ==> data[a] != data[b] {
      forall a, b | 0 <= a < b < k
        ensures rows[a] != rows[b]
      {
        var x, y := sample[a], sample[b];
        assert x != y;
        if x < y {
          assert data[x] != data[y];
        } else {
          assert data[y] != data[x];
        }
      }
    }
  }

  // ---------------------------------------------------------------- farthest first

  /** Farthest-first traversal up to `m` centroids: start from `data[first]`
      and repeatedly append the point whose nearest chosen centroid is
      farthest away (the first such point in data order). */
  function FarthestFirst(data: seq<Point>, first: nat, m: nat): (cs: seq<Point>)
    requires Shaped(data) && first < |data| && m >= 1
    ensures |cs| == m && Fits(data, cs)
    decreases m
  {
    if m == 1 then [data[first]]
    else
      var cs := FarthestFirst(data, first, m - 1);
      cs + [data[Farthest(data, cs)]]
  }

  /** The first point farthest from its nearest centroid: `np.argmax(distances)`. */
  function Farthest(data: seq<Point>, cs: seq<Point>): (i: nat)
    requires Fits(data, cs) && |cs| > 0
    ensures i < |data| && IsFirstMax(NearestDists(data, cs), i)
  {
    ArgMax(NearestDists(data, cs))
  }

  /** Growing the traversal only appends: its first `j` centroids are the traversal to `j`. */
  lemma {:induction false} FarthestFirstPrefix(data: seq<Point>, first: nat, m: nat, j: nat)
    requires Shaped(data) && first < |data| && 1 <= j <= m
    ensures FarthestFirst(data, first, m)[..j] == FarthestFirst(data, first, j)
    decreases m
  {
    if j < m {
      FarthestFirstPrefix(data, first, m - 1, j);
      assert FarthestFirst(data, first, m)[..m - 1] == FarthestFirst(data, first, m - 1);
      assert FarthestFirst(data, first, m)[..j] == FarthestFirst(data, first, m)[..m - 1][..j];
    }
  }

  /** One step of the traversal appends the first farthest point. */
  lemma FarthestFirstStep(data: seq<Point>, first: nat, j: nat)
    requires Shaped(data) && first < |data| && j >= 1
    ensures var before := FarthestFirst(data, first, j);
      FarthestFirst(data, first, j + 1) == before + [data[Farthest(data, before)]]
  {
  }

  /** The first centroid is the randomly chosen point, and every later one is
      the first point of the data that is farthest from its nearest
      centroid chosen before it. */
  lemma FarthestFirstMaximises(data: seq<Point>, first: nat, k: nat, j: nat)
    requires Shaped(data) && first < |data| && 1 <= j < k
    ensures FarthestFirst(data, first, k)[0] == data[first]
    ensures var cs := FarthestFirst(data, first, k);
      cs[j] == data[Farthest(data, cs[..j])]
  {
    var cs := FarthestFirst(data, first, k);
    FarthestFirstPrefix(data, first, k, 1);
    FarthestFirstPrefix(data, first, k, j);
    FarthestFirstPrefix(data, first, k, j + 1);
    var before := FarthestFirst(data, first, j);
    FarthestFirstStep(data, first, j);
    assert cs[..j] == before;
    assert cs[j] == cs[..j + 1][j];
    assert cs[0] == cs[..1][0];
  }

  /** Every centroid of the traversal is a row of the data. */
  lemma FarthestFirstRows(data: seq<Point>, first: nat, k: nat)
    requires Shaped(data) && first < |data| && k >= 1
    ensures forall j :: 0 <= j < k ==> FarthestFirst(data, first, k)[j] in data
  {
    var cs := FarthestFirst(data, first, k);
    forall j | 0 <= j < k
      ensures cs[j] in data
    {
      if j > 0 {
        FarthestFirstMaximises(data, first, k, j);
      } else if k > 1 {
        FarthestFirstMaximises(data, first, k, 1);
      }
    }
  }

  /** While some point is not yet a centroid, the farthest point is not one
      either: an uncovered point has a positive nearest distance, so the
      maximum is positive, and a point at positive distance is no centroid. */
  lemma FarthestIsNew(data: seq<Point>, cs: seq<Point>, i: nat)
    requires Fits(data, cs) && |cs| > 0 && i < |data| && data[i] !in cs
    ensures data[Farthest(data, cs)] !in cs
  {
    var ws := NearestDists(data, cs);
    var f := Farthest(data, cs);
    MinSqDistZeroIff(data[i], cs);
    MinSqDistZeroIff(data[f], cs);
    assert ws[i] > 0.0 && ws[i] <= ws[f];
  }

  /** The distinct elements of `s` number at most `|s|`, and exactly `|s|`
      when `s` has no repeats. */
  lemma {:induction false} ElementCount(s: seq<Point>)
    ensures |set x | x in s| <= |s|
    ensures (forall a, b :: 0 <= a < b < |s| ==> s[a] != s[b]) ==> |set x | x in s| == |s|
    decreases |s|
  {
    if |s| > 0 {
      var n := |s| - 1;
      ElementCount(s[..n]);
      assert s == s[..n] + [s[n]];
      assert (set x | x in s) == (set x | x in s[..n]) + {s[n]};
      if forall a, b :: 0 <= a < b < |s| ==> s[a] != s[b] {
        assert s[n] !in s[..n];
      }
    }
  }

  /** A subset has no more elements than its superset. */
  lemma SubsetCard(a: set<Point>, b: set<Point>)
    requires a <= b
    ensures |a| <= |b|
  {
    assert b == a + (b - a);
  }

  /** Pigeonhole: fewer centroids than the points of repeat-free data leave
      some point uncovered. */
  lemma Uncovered(data: seq<Point>, cs: seq<Point>) returns (i: nat)
    requires forall a, b :: 0 <= a < b < |data| ==> data[a] != data[b]
    requires |cs| < |data|
    ensures i < |data| && data[i] !in cs
  {
    ElementCount(data);
    ElementCount(cs);
    var d, c := set x | x in data, set x | x in cs;
    if d <= c {
      SubsetCard(d, c);
      assert false;
    }
    var p :| p in d && p !in c;
    var j :| 0 <= j < |data| && data[j] == p;
    i := j;
  }

  /** On data with no repeated point and `m <= n`, the traversal never
      chooses a point twice. */
  lemma {:induction false} FarthestFirstDistinct(data: seq<Point>, first: nat, m: nat)
    requires Shaped(data) && first < |data| && 1 <= m <= |data|
    requires forall a, b :: 0 <= a < b < |data| ==> data[a] != data[b]
    ensures forall a, b :: 0 <= a < b < m ==>
      FarthestFirst(data, first, m)[a] != FarthestFirst(data, first, m)[b]
    decreases m
  {
    if m > 1 {
      var before := FarthestFirst(data, first, m - 1);
      FarthestFirstDistinct(data, first, m - 1);
      var i := Uncovered(data, before);
      FarthestIsNew(data, before, i);
      var cs := FarthestFirst(data, first, m);
      assert cs == before + [data[Farthest(data, before)]];
      forall a, b | 0 <= a < b < m
        ensures cs[a] != cs[b]
      {
        if b == m - 1 {
          assert cs[a] == before[a] && before[a] in before;
          assert cs[b] == data[Farthest(data, before)];
        } else {
          assert cs[a] == before[a] && cs[b] == before[b];
        }
      }
    }
  }

  /** The `while` loop of farthest-first seeding. */
  method FarthestFirstInit(data: seq<Point>, k: nat, first: nat) returns (cs: seq<Point>)
    requires Shaped(data) && first < |data| && k >= 1
    ensures cs == FarthestFirst(data, first, k)
  {
    cs := [data[first]];
    while |cs| < k
      invariant 1 <= |cs| <= k
      invariant cs == FarthestFirst(data, first, |cs|)
      decreases k - |cs|
    {
      var distances := NearestDists(data, cs);
      var farthest := ArgMax(distances);
      cs := cs + [data[farthest]];
    }
  }

  // ---------------------------------------------------------------- kmeans++

  /** The centroid list after `j` kmeans++ draws: the first point, then the drawn ones. */
  function Chosen(data: seq<Point>, first: nat, picks: seq<nat>, j: nat): (cs: seq<Point>)
    requires first < |data| && j <= |picks|
    requires forall i :: 0 <= i < |picks| ==> picks[i] < |data|
    ensures |cs| == j + 1
  {
    [data[first]] + seq(j, i requires 0 <= i < j => data[picks[i]])
  }

  /** Enough draws for `k` centroids, each the index of a row. */
  predicate PicksInRange(data: seq<Point>, first: nat, picks: seq<nat>, k: nat) {
    && Shaped(data)
    && first < |data|
    && |picks| + 1 >= k
    && (forall i :: 0 <= i < |picks| ==> picks[i] < |data|)
  }

  /** `picks` can come from the categorical sampler of kmeans++: while the
      weights (squared distances to the nearest chosen centroid) have a
      positive sum, the draw has positive weight, hence positive probability
      `distances / distances.sum()`. */
  predicate ValidPicks(data: seq<Point>, first: nat, picks: seq<nat>, k: nat) {
    && PicksInRange(data, first, picks, k)
    && (forall j :: 0 <= j < k - 1 ==> DrawHasWeight(data, first, picks, j))
  }

  /** Draw `j` has positive weight whenever the weights have a positive sum. */
  predicate DrawHasWeight(data: seq<Point>, first: nat, picks: seq<nat>, j: nat)
    requires Shaped(data) && first < |data| && j < |picks|
    requires forall i :: 0 <= i < |picks| ==> picks[i] < |data|
  {
    var cs := Chosen(data, first, picks, j);
    Sum(NearestDists(data, cs)) > 0.0 ==> MinSqDist(data[picks[j]], cs) > 0.0
  }

  /** The centroid list kmeans++ builds, and whether it finished; when the
      weights sum to zero the sampler raises and the list stays as it was. */
  datatype Seeded = Seeded(centroids: seq<Point>, ok: bool)

  /** kmeans++ up to `m` centroids. */
  function PlusPlus(data: seq<Point>, first: nat, picks: seq<nat>, m: nat): (s: Seeded)
    requires Shaped(data) && first < |data| && 1 <= m <= |picks| + 1
    requires forall i :: 0 <= i < |picks| ==> picks[i] < |data|
    ensures Fits(data, s.centroids) && 1 <= |s.centroids| <= m
    decreases m
  {
    if m == 1 then Seeded([data[first]], true)
    else
      var s := PlusPlus(data, first, picks, m - 1);
      if !s.ok then s
      else if Sum(NearestDists(data, s.centroids)) == 0.0 then Seeded(s.centroids, false)
      else Seeded(s.centroids + [data[picks[m - 2]]], true)
  }

  /** A finished kmeans++ run of `m` centroids is the first point followed by
      the first `m - 1` draws; a failed one stopped at some shorter prefix
      whose weights were all zero. */
  lemma {:induction false} PlusPlusChosen(data: seq<Point>, first: nat, picks: seq<nat>, m: nat)
    requires Shaped(data) && first < |data| && 1 <= m <= |picks| + 1
    requires forall i :: 0 <= i < |picks| ==> picks[i] < |data|
    ensures var s := PlusPlus(data, first, picks, m);
      && (s.ok ==> s.centroids == Chosen(data, first, picks, m - 1))
      && (!s.ok ==>
            && |s.centroids| < m
            && s.centroids == Chosen(data, first, picks, |s.centroids| - 1)
            && Sum(NearestDists(data, s.centroids)) == 0.0)
    decreases m
  {
    if m > 1 {
      PlusPlusChosen(data, first, picks, m - 1);
      var s := PlusPlus(data, first, picks, m - 1);
      if s.ok {
        assert Chosen(data, first, picks, m - 1) == Chosen(data, first, picks, m - 2) + [data[picks[m - 2]]];
      }
    }
  }

  /** A finished kmeans++ run has `k` centroids: the first point, then the
      draws, each at positive distance from every centroid before it, so no
      row is chosen twice. */
  lemma PlusPlusSeeds(data: seq<Point>, first: nat, picks: seq<nat>, k: nat)
    requires k >= 1 && ValidPicks(data, first, picks, k)
    ensures var s := PlusPlus(data, first, picks, k);
      s.ok ==>
        && |s.centroids| == k
        && s.centroids[0] == data[first]
        && (forall j :: 1 <= j < k ==> s.centroids[j] == data[picks[j - 1]])
        && (forall a, b :: 0 <= a < b < k ==> s.centroids[a] != s.centroids[b])
  {
    PlusPlusChosen(data, first, picks, k);
    var s := PlusPlus(data, first, picks, k);
    if s.ok {
      var cs := s.centroids;
      forall a, b | 0 <= a < b < k
        ensures cs[a] != cs[b]
      {
        var before := Chosen(data, first, picks, b - 1);
        assert cs[a] == before[a];
        PlusPlusDrawIsNew(data, first, picks, k, b);
      }
    }
  }

  /** In a finished run, the `b`-th draw is none of the centroids chosen before it. */
  lemma PlusPlusDrawIsNew(data: seq<Point>, first: nat, picks: seq<nat>, k: nat, b: nat)
    requires ValidPicks(data, first, picks, k) && 1 <= b < k
    requires PlusPlus(data, first, picks, k).ok
    ensures data[picks[b - 1]] !in Chosen(data, first, picks, b - 1)
  {
    var before := Chosen(data, first, picks, b - 1);
    PlusPlusOkWeights(data, first, picks, k, b);
    assert DrawHasWeight(data, first, picks, b - 1);
    assert MinSqDist(data[picks[b - 1]], before) > 0.0;
    MinSqDistZeroIff(data[picks[b - 1]], before);
  }

  /** A finished run finished every shorter prefix too. */
  lemma {:induction false} PlusPlusOkPrefix(data: seq<Point>, first: nat, picks: seq<nat>, m: nat, j: nat)
    requires Shaped(data) && first < |data| && 1 <= j <= m <= |picks| + 1
    requires forall i :: 0 <= i < |picks| ==> picks[i] < |data|
    requires PlusPlus(data, first, picks, m).ok
    ensures PlusPlus(data, first, picks, j).ok
    decreases m
  {
    if j < m {
      PlusPlusOkPrefix(data, first, picks, m - 1, j);
    }
  }

  /** In a finished run, the weights were positive before each draw. */
  lemma PlusPlusOkWeights(data: seq<Point>, first: nat, picks: seq<nat>, m: nat, j: nat)
    requires Shaped(data) && first < |data| && 1 <= j < m <= |picks| + 1
    requires forall i :: 0 <= i < |picks| ==> picks[i] < |data|
    requires PlusPlus(data, first, picks, m).ok
    ensures Sum(NearestDists(data, Chosen(data, first, picks, j - 1))) > 0.0
  {
    PlusPlusOkPrefix(data, first, picks, m, j + 1);
    PlusPlusOkPrefix(data, first, picks, m, j);
    PlusPlusChosen(data, first, picks, j);
    var s := PlusPlus(data, first, picks, j);
    var w := NearestDists(data, s.centroids);
    SumZeroAllZero(w);
  }

  /** kmeans++ fails only on degenerate data: every point already is one of
      the fewer than `k` centroids chosen when the sampler raises. */
  lemma PlusPlusFailsWhenCovered(data: seq<Point>, first: nat, picks: seq<nat>, k: nat)
    requires k >= 1 && ValidPicks(data, first, picks, k)
    ensures var s := PlusPlus(data, first, picks, k);
      !s.ok ==> |s.centroids| < k && forall i :: 0 <= i < |data| ==> data[i] in s.centroids
  {
    PlusPlusChosen(data, first, picks, k);
    var s := PlusPlus(data, first, picks, k);
    if !s.ok {
      var w := NearestDists(data, s.centroids);
      SumZeroAllZero(w);
      forall i | 0 <= i < |data|
        ensures data[i] in s.centroids
      {
        assert w[i] == 0.0;
        MinSqDistZeroIff(data[i], s.centroids);
      }
    }
  }

  /** The `while` loop of kmeans++ seeding. The sampler raises
      when all weights are zero, leaving the list built so far. */
  method KMeansPlusPlusInit(data: seq<Point>, k: nat, first: nat, picks: seq<nat>)
    returns (cs: seq<Point>, ok: bool)
    requires k >= 1 && PicksInRange(data, first, picks, k)
    ensures Seeded(cs, ok) == PlusPlus(data, first, picks, k)
  {
    cs := [data[first]];
    while |cs| < k
      invariant 1 <= |cs| <= k
      invariant PlusPlus(data, first, picks, |cs|) == Seeded(cs, true)
      decreases k - |cs|
    {
      var distances := NearestDists(data, cs);
      if Sum(distances) == 0.0 {
        PlusPlusStaysFailed(data, first, picks, |cs| + 1, k);
        return cs, false;
      }
      var selected := picks[|cs| - 1];
      cs := cs + [data[selected]];
    }
    ok := true;
  }

  /** Once kmeans++ has failed, drawing further changes nothing. */
  lemma {:induction false} PlusPlusStaysFailed(data: seq<Point>, first: nat, picks: seq<nat>, j: nat, m: nat)
    requires Shaped(data) && first < |data| && 2 <= j <= m <= |picks| + 1
    requires forall i :: 0 <= i < |picks| ==> picks[i] < |data|
    requires PlusPlus(data, first, picks, j - 1).ok
    requires Sum(NearestDists(data, PlusPlus(data, first, picks, j - 1).centroids)) == 0.0
    ensures PlusPlus(data, first, picks, m) == Seeded(PlusPlus(data, first, picks, j - 1).centroids, false)
    decreases m
  {
    if m > j {
      PlusPlusStaysFailed(data, first, picks, j, m - 1);
    }
  }
}
