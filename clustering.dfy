/** The iteration both versions of the `KMeans` class share: assign every
    point to its nearest centroid, replace the centroids by the means of
    their clusters (dropping clusters left empty), and compare old and new
    centroids with numpy's `allclose`. `Run` is the bounded loop of
    `run_kmeans`.

    Every operation here can raise in the source; those exceptions are the
    `Err` cases of `Result`. */
module Clustering {
  import opened Geometry

  /** The exceptions the engine can raise, one per cause. */
  datatype Error =
    | UnknownInitMethod           // ValueError("Unknown initialization method")
    | ManualInitNotImplemented    // NotImplementedError from the "manual" strategy
    | SampleLargerThanPopulation  // np.random.choice(n, k, replace=False) with k > n
    | InvalidProbabilities        // kmeans++ weights summing to zero give NaN probabilities
    | NoCentroids                 // assigning points while `centroids` is None (TypeError)
    | EmptyArgMin                 // np.argmin over an empty row of distances (ValueError)
    | ShapeMismatch               // np.allclose cannot broadcast the two centroid sets
    | ClustersUnbound             // run_kmeans with max_steps == 0 (UnboundLocalError)

  datatype Result<T> = Ok(value: T) | Err(error: Error)

  /** A field that may still be `None`. */
  datatype Option<T> = None | Some(value: T)

  /** A nonempty rectangular data set. */
  predicate Shaped(data: seq<Point>) {
    |data| > 0 && SameDim(data, |data[0]|)
  }

  /** The centroids live in the data's space. */
  predicate Fits(data: seq<Point>, cs: seq<Point>) {
    Shaped(data) && SameDim(cs, |data[0]|)
  }

  /** Squared distance from `p` to each centroid, in centroid order. */
  function Dists(p: Point, cs: seq<Point>): (ds: seq<real>)
    requires SameDim(cs, |p|)
    ensures |ds| == |cs|
  {
    seq(|cs|, i requires 0 <= i < |cs| => SqDist(p, cs[i]))
  }

  /** Centroid `i` is a nearest one to `p`, and no earlier centroid is as near. */
  predicate IsNearest(p: Point, cs: seq<Point>, i: int)
    requires SameDim(cs, |p|)
  {
    IsFirstMin(Dists(p, cs), i)
  }

  // ---------------------------------------------------------------- assignment

  /** `assign_points_to_clusters` for a nonempty centroid set: one label per
      point, naming its nearest centroid (lowest index among ties). */
  function Assignment(data: seq<Point>, cs: seq<Point>): (labels: seq<nat>)
    requires Fits(data, cs) && |cs| > 0
    ensures |labels| == |data|
  {
    seq(|data|, j requires 0 <= j < |data| => ArgMin(Dists(data[j], cs)))
  }

  /** Each label names a centroid nearest to its point, the lowest index
      among ties. */
  lemma AssignmentNearest(data: seq<Point>, cs: seq<Point>)
    requires Fits(data, cs) && |cs| > 0
    ensures forall j :: 0 <= j < |data| ==>
      Assignment(data, cs)[j] < |cs| && IsNearest(data[j], cs, Assignment(data, cs)[j])
  {
  }

  /** `assign_points_to_clusters` including its failure: with no centroid at
      all, `np.argmin` of an empty array raises. */
  function Assign(data: seq<Point>, cs: seq<Point>): (r: Result<seq<nat>>)
    requires Fits(data, cs)
    ensures r.Err? <==> |cs| == 0
    ensures r.Err? ==> r.error == EmptyArgMin
    ensures r.Ok? ==> |r.value| == |data|
  {
    if |cs| == 0 then Err(EmptyArgMin) else Ok(Assignment(data, cs))
  }

  /** The loop of `assign_points_to_clusters` over the points, appending
      the `argmin` of each point's distances to the centroids. */
  method ComputeAssignment(data: seq<Point>, cs: seq<Point>) returns (r: Result<seq<nat>>)
    requires Fits(data, cs)
    ensures r == Assign(data, cs)
  {
    var clusters: seq<nat> := [];
    for j := 0 to |data|
      invariant |clusters| == j
      invariant j > 0 ==> |cs| > 0
      invariant forall t :: 0 <= t < j ==> |cs| > 0 && clusters[t] == ArgMin(Dists(data[t], cs))
    {
      var distances := Dists(data[j], cs);
      if |distances| == 0 {
        assert |cs| == 0;
        return Err(EmptyArgMin);
      }
      clusters := clusters + [ArgMin(distances)];
    }
    assert |cs| > 0;
    assert forall t :: 0 <= t < |data| ==> clusters[t] == Assignment(data, cs)[t];
    assert clusters == Assignment(data, cs);
    r := Ok(clusters);
  }

  /** The nearest-centroid labelling is unique: any labelling that picks a
      first nearest centroid for every point is `Assignment`. */
  lemma AssignmentUnique(data: seq<Point>, cs: seq<Point>, labels: seq<nat>)
    requires Fits(data, cs) && |cs| > 0 && |labels| == |data|
    requires forall j :: 0 <= j < |data| ==> IsNearest(data[j], cs, labels[j])
    ensures labels == Assignment(data, cs)
  {
    var a := Assignment(data, cs);
    forall j | 0 <= j < |data|
      ensures labels[j] == a[j]
    {
      FirstMinUnique(Dists(data[j], cs), labels[j], a[j]);
    }
  }

  // ---------------------------------------------------------------- update

  /** `data[clusters == i]`: the points labelled `i`, in data order. */
  function Members(data: seq<Point>, labels: seq<int>, i: int): (ms: seq<Point>)
    requires |labels| == |data|
    ensures |ms| <= |data|
    decreases |data|
  {
    if |data| == 0 then []
    else
      var n := |data| - 1;
      Members(data[..n], labels[..n], i) + (if labels[n] == i then [data[n]] else [])
  }

  /** Cluster `i` has as many members as there are labels `i`. */
  lemma {:induction false} MembersCount(data: seq<Point>, labels: seq<int>, i: int)
    requires |labels| == |data|
    ensures |Members(data, labels, i)| == multiset(labels)[i]
    decreases |data|
  {
    if |data| > 0 {
      var n := |data| - 1;
      MembersCount(data[..n], labels[..n], i);
      assert labels == labels[..n] + [labels[n]];
      assert multiset(labels) == multiset(labels[..n]) + multiset{labels[n]};
    }
  }

  /** The members of cluster `i` are exactly the points labelled `i`, as
      many as there are such labels. */
  lemma MembersExactly(data: seq<Point>, labels: seq<int>, i: int)
    requires |labels| == |data|
    ensures |Members(data, labels, i)| == multiset(labels)[i]
    ensures forall p :: p in Members(data, labels, i) <==>
      exists j :: 0 <= j < |data| && labels[j] == i && data[j] == p
  {
    MembersCount(data, labels, i);
    MembersInOrder(data, labels, i);
    var ms, js := Members(data, labels, i), LabelledAt(labels, i);
    forall p
      ensures p in ms <==> exists j :: 0 <= j < |data| && labels[j] == i && data[j] == p
    {
      if p in ms {
        var t :| 0 <= t < |ms| && ms[t] == p;
        assert js[t] in js;
        assert labels[js[t]] == i && data[js[t]] == p;
      }
      if exists j :: 0 <= j < |data| && labels[j] == i && data[j] == p {
        var j :| 0 <= j < |data| && labels[j] == i && data[j] == p;
        var t :| 0 <= t < |js| && js[t] == j;
        assert ms[t] == p;
      }
    }
  }

  /** The positions labelled `i`, in increasing order (the mask `clusters == i`). */
  function LabelledAt(labels: seq<int>, i: int): (js: seq<nat>)
    ensures forall t :: 0 <= t < |js| ==> js[t] < |labels|
    decreases |labels|
  {
    if |labels| == 0 then []
    else
      var n := |labels| - 1;
      LabelledAt(labels[..n], i) + (if labels[n] == i then [n] else [])
  }

  /** `data[clusters == i]` is the data at the positions labelled `i`, taken
      in increasing position order, each exactly once. */
  lemma {:induction false} MembersInOrder(data: seq<Point>, labels: seq<int>, i: int)
    requires |labels| == |data|
    ensures forall a, b :: 0 <= a < b < |LabelledAt(labels, i)| ==>
      LabelledAt(labels, i)[a] < LabelledAt(labels, i)[b]
    ensures forall j :: 0 <= j < |labels| ==> (j in LabelledAt(labels, i) <==> labels[j] == i)
    ensures |Members(data, labels, i)| == |LabelledAt(labels, i)|
    ensures forall t :: 0 <= t < |LabelledAt(labels, i)| ==>
      Members(data, labels, i)[t] == data[LabelledAt(labels, i)[t]]
    decreases |data|
  {
    if |data| > 0 {
      var n := |data| - 1;
      MembersInOrder(data[..n], labels[..n], i);
      var front := LabelledAt(labels[..n], i);
      var js := LabelledAt(labels, i);
      assert js == front + (if labels[n] == i then [n] else []);
      forall j | 0 <= j < n
        ensures (j in js <==> labels[j] == i)
      {
        assert labels[..n][j] == labels[j];
        assert j != n;
      }
      forall t | 0 <= t < |front|
        ensures data[..n][front[t]] == data[front[t]]
      {
      }
    }
  }

  /** Cluster `i` has a member exactly when some point carries label `i`. */
  lemma MembersNonEmpty(data: seq<Point>, labels: seq<int>, i: int)
    requires |labels| == |data|
    ensures |Members(data, labels, i)| > 0 <==> i in labels
  {
    MembersExactly(data, labels, i);
  }

  /** Members of a rectangular data set share its dimension. */
  lemma MembersDim(data: seq<Point>, labels: seq<int>, i: int, d: nat)
    requires |labels| == |data| && SameDim(data, d)
    ensures SameDim(Members(data, labels, i), d)
  {
    MembersExactly(data, labels, i);
    var pts := Members(data, labels, i);
    forall t | 0 <= t < |pts|
      ensures |pts[t]| == d
    {
      assert pts[t] in pts;
    }
  }

  /** Mean of cluster `i`, which must be nonempty. */
  function ClusterMean(data: seq<Point>, labels: seq<int>, i: int): (m: Point)
    requires Shaped(data) && |labels| == |data| && i in labels
    ensures |m| == |data[0]|
  {
    MembersNonEmpty(data, labels, i);
    var pts := Members(data, labels, i);
    MembersDim(data, labels, i, |data[0]|);
    Mean(pts)
  }

  /** `update_centroids` with `self.k == k`: for each cluster id
      `0 .. k-1` in turn, the mean of its members, skipping empty clusters. */
  function Update(data: seq<Point>, labels: seq<int>, k: nat): (rows: seq<Point>)
    requires Shaped(data) && |labels| == |data|
    ensures |rows| <= k
    ensures SameDim(rows, |data[0]|)
    decreases k
  {
    if k == 0 then []
    else if k - 1 in labels then Update(data, labels, k - 1) + [ClusterMean(data, labels, k - 1)]
    else Update(data, labels, k - 1)
  }

  /** The loop of `update_centroids` over the cluster ids `0 .. k-1`,
      appending the mean of each nonempty cluster. */
  method ComputeUpdate(data: seq<Point>, labels: seq<int>, k: nat) returns (rows: seq<Point>)
    requires Shaped(data) && |labels| == |data|
    ensures rows == Update(data, labels, k)
  {
    rows := [];
    for i := 0 to k
      invariant rows == Update(data, labels, i)
    {
      var members := Members(data, labels, i);
      MembersNonEmpty(data, labels, i);
      if |members| > 0 {
        MembersDim(data, labels, i, |data[0]|);
        rows := rows + [Mean(members)];
      }
    }
  }

  /** The ids `0 .. k-1` that label at least one point, ascending. */
  function NonEmptyIds(labels: seq<int>, k: nat): seq<nat>
    decreases k
  {
    if k == 0 then []
    else NonEmptyIds(labels, k - 1) + (if k - 1 in labels then [k - 1] else [])
  }

  /** `NonEmptyIds` lists, in increasing order, exactly the ids below `k`
      that some point carries. */
  lemma {:induction false} NonEmptyIdsExactly(labels: seq<int>, k: nat)
    ensures forall a, b :: 0 <= a < b < |NonEmptyIds(labels, k)| ==>
      NonEmptyIds(labels, k)[a] < NonEmptyIds(labels, k)[b]
    ensures forall r :: 0 <= r < |NonEmptyIds(labels, k)| ==>
      NonEmptyIds(labels, k)[r] < k && NonEmptyIds(labels, k)[r] in labels
    ensures forall i :: 0 <= i < k && i in labels ==> i in NonEmptyIds(labels, k)
    decreases k
  {
    if k > 0 {
      NonEmptyIdsExactly(labels, k - 1);
    }
  }

  /** Row `r` of the update is the mean of the `r`-th nonempty cluster, and
      there is one row per nonempty cluster. */
  lemma {:induction false} UpdateRows(data: seq<Point>, labels: seq<int>, k: nat)
    requires Shaped(data) && |labels| == |data|
    ensures var ids := NonEmptyIds(labels, k);
      && |Update(data, labels, k)| == |ids|
      && (forall r :: 0 <= r < |ids| ==> ids[r] < k && ids[r] in labels)
      && (forall r :: 0 <= r < |ids| ==> Update(data, labels, k)[r] == ClusterMean(data, labels, ids[r]))
    decreases k
  {
    NonEmptyIdsExactly(labels, k);
    if k > 0 {
      UpdateRows(data, labels, k - 1);
      NonEmptyIdsExactly(labels, k - 1);
      var ids := NonEmptyIds(labels, k);
      assert forall r :: 0 <= r < |ids| ==> ids[r] < k && ids[r] in labels;
    }
  }

  /** When every cluster id below `k` has a point, the update keeps all `k` rows. */
  lemma {:induction false} UpdateKeepsAllClusters(data: seq<Point>, labels: seq<int>, k: nat)
    requires Shaped(data) && |labels| == |data|
    requires forall i :: 0 <= i < k ==> i in labels
    ensures |Update(data, labels, k)| == k
    decreases k
  {
    if k > 0 {
      UpdateKeepsAllClusters(data, labels, k - 1);
    }
  }

  /** When every label is a cluster id below `k`, at least one row survives. */
  lemma UpdateNonEmpty(data: seq<Point>, labels: seq<int>, k: nat)
    requires Shaped(data) && |labels| == |data|
    requires forall j :: 0 <= j < |labels| ==> 0 <= labels[j] < k
    ensures |Update(data, labels, k)| > 0
  {
    UpdateRows(data, labels, k);
    NonEmptyIdsExactly(labels, k);
    assert labels[0] in labels;
    assert labels[0] in NonEmptyIds(labels, k);
  }

  /** A pass from between 1 and `k` centroids cannot fail to assign, and
      its update again has between 1 and `k` rows: each label is below the
      number of centroids, hence below `k`. */
  lemma PassKeepsCentroidCount(data: seq<Point>, cs: seq<Point>, k: nat)
    requires Fits(data, cs) && 1 <= |cs| <= k
    ensures Assign(data, cs).Ok?
    ensures 1 <= |Update(data, Assignment(data, cs), k)| <= k
  {
    AssignmentNearest(data, cs);
    UpdateNonEmpty(data, Assignment(data, cs), k);
  }

  // ---------------------------------------------------------------- convergence

  /** `np.allclose` defaults. */
  const RTOL: real := 0.00001
  const ATOL: real := 0.00000001

  /** numpy's `isclose` on one coordinate pair; the tolerance scales with the second argument. */
  predicate Close(a: real, b: real) {
    Abs(a - b) <= ATOL + RTOL * Abs(b)
  }

  predicate RowClose(a: Point, b: Point)
    requires |a| == |b|
  {
    forall c :: 0 <= c < |a| ==> Close(a[c], b[c])
  }

  /** Both centroid sets have rows of one common dimension. */
  predicate Conformable(a: seq<Point>, b: seq<Point>) {
    forall i, j :: 0 <= i < |a| && 0 <= j < |b| ==> |a[i]| == |b[j]|
  }

  /** `np.allclose(a, b)` on two centroid arrays of shapes (|a|, d) and
      (|b|, d): row-by-row when the row counts agree, against the single row
      when one side has one row (numpy broadcasting), and an error otherwise. */
  function AllClose(a: seq<Point>, b: seq<Point>): (r: Result<bool>)
    requires Conformable(a, b)
    ensures r.Err? <==> |a| != |b| && |a| != 1 && |b| != 1
    ensures r.Err? ==> r.error == ShapeMismatch
  {
    if |a| == |b| then Ok(forall i :: 0 <= i < |a| ==> RowClose(a[i], b[i]))
    else if |b| == 1 then Ok(forall i :: 0 <= i < |a| ==> RowClose(a[i], b[0]))
    else if |a| == 1 then Ok(forall j :: 0 <= j < |b| ==> RowClose(a[0], b[j]))
    else Err(ShapeMismatch)
  }

  /** A centroid set is all-close to itself. */
  lemma AllCloseReflexive(cs: seq<Point>)
    requires Conformable(cs, cs)
    ensures AllClose(cs, cs) == Ok(true)
  {
  }

  /** The test is not symmetric: the tolerance is relative to the second argument. */
  lemma AllCloseNotSymmetric()
    ensures AllClose([[99999.0]], [[100000.0]]) == Ok(true)
    ensures AllClose([[100000.0]], [[99999.0]]) == Ok(false)
  {
    var a, b := [[100000.0]], [[99999.0]];
    assert RowClose(b[0], a[0]);
    assert !RowClose(a[0], b[0]) by {
      assert !Close(a[0][0], b[0][0]);
    }
  }

  /** A difference of 1e-7 at magnitude 1 is within tolerance; a shift of 0.01 is not. */
  lemma AllCloseTolerance()
    ensures AllClose([[1.0000001]], [[1.0]]) == Ok(true)
    ensures AllClose([[1.01]], [[1.0]]) == Ok(false)
  {
    var a, b := [[1.01]], [[1.0]];
    assert RowClose([1.0000001], b[0]);
    assert !RowClose(a[0], b[0]) by {
      assert !Close(a[0][0], b[0][0]);
    }
  }

  // ---------------------------------------------------------------- one iteration and the bounded loop

  /** What one assign/update/compare pass computes from centroids `cs`. */
  datatype Iteration = Iteration(labels: seq<nat>, next: seq<Point>, converged: bool)

  /** One assign/update/compare pass, shared by `run_kmeans` and
      `run_kmeans_step`. */
  function Iterate(data: seq<Point>, cs: seq<Point>, k: nat): (r: Result<Iteration>)
    requires Fits(data, cs)
    ensures r.Ok? ==> Fits(data, r.value.next)
  {
    match Assign(data, cs)
    case Err(e) => Err(e)
    case Ok(labels) =>
      var next := Update(data, labels, k);
      match AllClose(cs, next)
      case Err(e) => Err(e)
      case Ok(c) => Ok(Iteration(labels, next, c))
  }

  /** An iteration that succeeds labels every point by its nearest current
      centroid, and its new centroids are the update of those labels. */
  lemma IterateMeaning(data: seq<Point>, cs: seq<Point>, k: nat)
    requires Fits(data, cs)
    ensures Iterate(data, cs, k).Ok? <==> |cs| > 0 && AllClose(cs, Update(data, Assignment(data, cs), k)).Ok?
    ensures Iterate(data, cs, k).Ok? ==>
      var it := Iterate(data, cs, k).value;
      && it.labels == Assignment(data, cs)
      && it.next == Update(data, it.labels, k)
      && AllClose(cs, it.next) == Ok(it.converged)
  {
  }

  /** What `run_kmeans`'s loop leaves behind: the final `self.centroids`, and
      the returned labels or the exception raised. */
  datatype RunOutcome = RunOutcome(centroids: seq<Point>, result: Result<seq<nat>>)

  /** The `for step in range(steps)` loop of `run_kmeans`, from centroids `cs`,
      where `last` is what `clusters` holds before the remaining steps (an
      unbound local before the first one): stop without adopting the new
      centroids once they are all-close to the current ones, otherwise adopt
      them and go on. */
  function Run(data: seq<Point>, cs: seq<Point>, k: nat, steps: nat, last: Result<seq<nat>>): RunOutcome
    requires Fits(data, cs)
    decreases steps
  {
    if steps == 0 then RunOutcome(cs, last)
    else
      match Iterate(data, cs, k)
      case Err(e) => RunOutcome(cs, Err(e))
      case Ok(it) =>
        if it.converged then RunOutcome(cs, Ok(it.labels))
        else Run(data, it.next, k, steps - 1, Ok(it.labels))
  }

  /** With no step to run, `clusters` is never bound and the return raises. */
  lemma RunWithoutSteps(data: seq<Point>, cs: seq<Point>, k: nat)
    requires Fits(data, cs)
    ensures Run(data, cs, k, 0, Err(ClustersUnbound)) == RunOutcome(cs, Err(ClustersUnbound))
  {
  }

  /** With at least one step left, the value `clusters` held before does not matter. */
  lemma RunIgnoresLast(data: seq<Point>, cs: seq<Point>, k: nat, steps: nat, l1: Result<seq<nat>>, l2: Result<seq<nat>>)
    requires Fits(data, cs) && steps >= 1
    ensures Run(data, cs, k, steps, l1) == Run(data, cs, k, steps, l2)
  {
  }

  /** `out` returned the labels computed against centroids `c`: either the
      update of those labels was all-close to `c` and `c` stayed in place, or
      it was not and the update was adopted (the step budget ran out). */
  predicate ReturnedFrom(data: seq<Point>, k: nat, out: RunOutcome, c: seq<Point>)
    requires Fits(data, c) && |c| > 0
  {
    var labels := Assignment(data, c);
    var next := Update(data, labels, k);
    && out.result == Ok(labels)
    && ((out.centroids == c && AllClose(c, next) == Ok(true)) ||
        (out.centroids == next && AllClose(c, next) == Ok(false)))
  }

  /** The labels `run_kmeans` returns were computed against the centroid set
      `c` the loop last held: on convergence `c` stays in `self.centroids`,
      and otherwise the update of those labels was adopted when the step
      budget ran out. */
  lemma {:induction false} RunReturnsLastAssignment(data: seq<Point>, cs: seq<Point>, k: nat, steps: nat, last: Result<seq<nat>>)
    returns (c: seq<Point>)
    requires Fits(data, cs) && steps >= 1
    ensures Run(data, cs, k, steps, last).result.Ok? ==>
      Fits(data, c) && |c| > 0 && ReturnedFrom(data, k, Run(data, cs, k, steps, last), c)
    decreases steps
  {
    c := cs;
    if Iterate(data, cs, k).Ok? {
      var it := Iterate(data, cs, k).value;
      IterateMeaning(data, cs, k);
      if !it.converged && steps > 1 {
        RunUnfold(data, cs, k, steps, last);
        c := RunReturnsLastAssignment(data, it.next, k, steps - 1, Ok(it.labels));
      }
    }
  }

  lemma RunUnfold(data: seq<Point>, cs: seq<Point>, k: nat, steps: nat, last: Result<seq<nat>>)
    requires Fits(data, cs) && steps >= 1
    requires Iterate(data, cs, k).Ok? && !Iterate(data, cs, k).value.converged
    ensures var it := Iterate(data, cs, k).value;
      Run(data, cs, k, steps, last) == Run(data, it.next, k, steps - 1, Ok(it.labels))
  {
  }

  /** `j` successive iterations from `cs` all succeed without converging. */
  predicate Unconverged(data: seq<Point>, cs: seq<Point>, k: nat, j: nat)
    requires Fits(data, cs)
    decreases j
  {
    j == 0 ||
    (Iterate(data, cs, k).Ok? && !Iterate(data, cs, k).value.converged &&
     Unconverged(data, Iterate(data, cs, k).value.next, k, j - 1))
  }

  /** The centroids after `j` successful iterations from `cs` (what
      `run_kmeans_step` holds after `j` calls past initialisation); a failed
      iteration leaves the centroids in place. */
  function Advance(data: seq<Point>, cs: seq<Point>, k: nat, j: nat): (c: seq<Point>)
    requires Fits(data, cs)
    ensures Fits(data, c)
    decreases j
  {
    if j == 0 then cs
    else
      match Iterate(data, cs, k)
      case Err(_) => cs
      case Ok(it) => Advance(data, it.next, k, j - 1)
  }

  lemma AdvanceUnfold(data: seq<Point>, cs: seq<Point>, k: nat, j: nat)
    requires Fits(data, cs) && j >= 1 && Iterate(data, cs, k).Ok?
    ensures Advance(data, cs, k, j) == Advance(data, Iterate(data, cs, k).value.next, k, j - 1)
  {
  }

  /** Running to completion from `cs` with budget `steps` behaves, after `j`
      unconverged iterations, like running from the centroids `j` single
      steps reach with the remaining budget. So the labels `run_kmeans`
      returns are those of the first single step that reports convergence. */
  lemma {:induction false} RunMatchesSteps(data: seq<Point>, cs: seq<Point>, k: nat, steps: nat, j: nat, last: Result<seq<nat>>)
    requires Fits(data, cs) && j < steps && Unconverged(data, cs, k, j)
    ensures Run(data, cs, k, steps, last) == Run(data, Advance(data, cs, k, j), k, steps - j, last)
    decreases j
  {
    if j > 0 {
      var it := Iterate(data, cs, k).value;
      var next := it.next;
      calc {
        Run(data, cs, k, steps, last);
        == { RunUnfold(data, cs, k, steps, last); }
        Run(data, next, k, steps - 1, Ok(it.labels));
        == { RunIgnoresLast(data, next, k, steps - 1, Ok(it.labels), last); }
        Run(data, next, k, steps - 1, last);
        == { RunMatchesSteps(data, next, k, steps - 1, j - 1, last); }
        Run(data, Advance(data, next, k, j - 1), k, steps - j, last);
        == { AdvanceUnfold(data, cs, k, j); }
        Run(data, Advance(data, cs, k, j), k, steps - j, last);
      }
    }
  }

  /** The number of assign/update passes the loop of `run_kmeans` makes. */
  function Passes(data: seq<Point>, cs: seq<Point>, k: nat, steps: nat): (n: nat)
    requires Fits(data, cs)
    ensures n <= steps && (steps >= 1 ==> n >= 1)
    decreases steps
  {
    if steps == 0 then 0
    else
      match Iterate(data, cs, k)
      case Err(_) => 1
      case Ok(it) => if it.converged then 1 else 1 + Passes(data, it.next, k, steps - 1)
  }

  /** One pass that neither fails nor converges leaves one pass fewer to count. */
  lemma PassesUnfold(data: seq<Point>, cs: seq<Point>, k: nat, steps: nat)
    requires Fits(data, cs) && steps >= 2
    requires Iterate(data, cs, k).Ok? && !Iterate(data, cs, k).value.converged
    ensures Passes(data, cs, k, steps) == 1 + Passes(data, Iterate(data, cs, k).value.next, k, steps - 1)
  {
  }

  /** Every pass but the last neither failed nor converged. */
  lemma {:induction false} PassesUnconverged(data: seq<Point>, cs: seq<Point>, k: nat, steps: nat)
    requires Fits(data, cs) && steps >= 1
    ensures Unconverged(data, cs, k, Passes(data, cs, k, steps) - 1)
    decreases steps
  {
    var r := Iterate(data, cs, k);
    if r.Ok? && !r.value.converged && steps > 1 {
      var next := r.value.next;
      PassesUnconverged(data, next, k, steps - 1);
      PassesUnfold(data, cs, k, steps);
    }
  }

  /** The loop stops before its budget runs out only at a pass that failed or converged. */
  lemma {:induction false} PassesStopEarly(data: seq<Point>, cs: seq<Point>, k: nat, steps: nat)
    requires Fits(data, cs) && steps >= 1
    ensures Passes(data, cs, k, steps) < steps ==>
      var it := Iterate(data, Advance(data, cs, k, Passes(data, cs, k, steps) - 1), k);
      it.Err? || it.value.converged
    decreases steps
  {
    var r := Iterate(data, cs, k);
    if r.Ok? && !r.value.converged && steps > 1 {
      var next := r.value.next;
      PassesStopEarly(data, next, k, steps - 1);
      PassesUnfold(data, cs, k, steps);
      var m := Passes(data, next, k, steps - 1);
      assert Advance(data, cs, k, m) == Advance(data, next, k, m - 1);
    }
  }

  /** The loop of `run_kmeans` is its last pass: the run from `cs` equals a
      run of the remaining budget from the centroids the first
      `Passes - 1` unconverged passes reach. */
  lemma RunAfterPasses(data: seq<Point>, cs: seq<Point>, k: nat, steps: nat, last: Result<seq<nat>>)
    requires Fits(data, cs) && steps >= 1
    ensures Run(data, cs, k, steps, last) ==
      Run(data, Advance(data, cs, k, Passes(data, cs, k, steps) - 1), k, steps - Passes(data, cs, k, steps) + 1, last)
  {
    var n := Passes(data, cs, k, steps);
    PassesUnconverged(data, cs, k, steps);
    RunMatchesSteps(data, cs, k, steps, n - 1, last);
    assert steps - (n - 1) == steps - n + 1;
  }
}
