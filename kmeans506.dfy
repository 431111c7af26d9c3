/** The full `KMeans` class (506-2/kmeans.py): three seeding strategies, the
    bounded run-to-completion loop and the single-step driver a front end
    polls. The fields `centroids`, `current_clusters` and `converged` change
    in place; `k` and `init_method` are set once. */
module KMeans506 {
  import opened Geometry
  import opened Clustering
  import opened Seeding

  /** The values numpy's random generator supplies to one initialisation:
      the sample of `np.random.choice(n, k, replace=False)`, the index of
      `np.random.randint(n)`, and the kmeans++ draws. */
  datatype Draws = Draws(sample: seq<nat>, first: nat, picks: seq<nat>)

  /** `d` is something the samplers can return for this data and `k`. */
  predicate Drawable(d: Draws, data: seq<Point>, k: nat) {
    && ValidPicks(data, d.first, d.picks, k)
    && (k <= |data| ==> IsSample(d.sample, |data|, k))
  }

  /** `initialize_centroids` for method tag `initMethod`, starting from
      `self.centroids == prior`. Raising before `self.centroids` is assigned
      leaves `prior`; kmeans++ assigns the list first and then appends to
      it, so a failed draw leaves the centroids chosen until then. */
  function Initialize(initMethod: string, data: seq<Point>, k: nat, d: Draws, prior: Option<seq<Point>>)
    : (r: InitOutcome)
    requires k >= 1 && Drawable(d, data, k)
    ensures r.error.None? ==> r.centroids.Some? && Fits(data, r.centroids.value)
    ensures r.centroids.Some? && r.centroids != prior ==> 1 <= |r.centroids.value| <= k
  {
    if initMethod == "random" then
      if k > |data| then InitOutcome(prior, Some(SampleLargerThanPopulation))
      else InitOutcome(Some(Pick(data, d.sample)), None)
    else if initMethod == "farthest_first" then
      InitOutcome(Some(FarthestFirst(data, d.first, k)), None)
    else if initMethod == "kmeans++" then
      var s := PlusPlus(data, d.first, d.picks, k);
      InitOutcome(Some(s.centroids), if s.ok then None else Some(InvalidProbabilities))
    else if initMethod == "manual" then InitOutcome(prior, Some(ManualInitNotImplemented))
    else InitOutcome(prior, Some(UnknownInitMethod))
  }

  /** Which calls raise: an unknown tag, the manual strategy, a random sample
      larger than the data, and kmeans++ once every weight is zero. All but
      the last raise before `self.centroids` is touched. */
  lemma InitializeErrors(initMethod: string, data: seq<Point>, k: nat, d: Draws, prior: Option<seq<Point>>)
    requires k >= 1 && Drawable(d, data, k)
    ensures var r := Initialize(initMethod, data, k, d, prior);
      && (r.error == Some(UnknownInitMethod) <==>
            initMethod !in {"random", "farthest_first", "kmeans++", "manual"})
      && (r.error == Some(ManualInitNotImplemented) <==> initMethod == "manual")
      && (r.error == Some(SampleLargerThanPopulation) <==> initMethod == "random" && k > |data|)
      && (r.error == Some(InvalidProbabilities) <==>
            initMethod == "kmeans++" && !PlusPlus(data, d.first, d.picks, k).ok)
      && (r.error.Some? && r.error != Some(InvalidProbabilities) ==> r.centroids == prior)
  {
  }

  /** A successful initialisation yields exactly `k` centroids, each a row
      of the data. kmeans++ never chooses the same point twice at all; random
      sampling never does when the data has no repeated point, and neither
      does farthest-first when moreover `k <= n`. */
  lemma InitializeSeeds(initMethod: string, data: seq<Point>, k: nat, d: Draws, prior: Option<seq<Point>>)
    requires k >= 1 && Drawable(d, data, k)
    ensures var r := Initialize(initMethod, data, k, d, prior);
      r.error.None? ==>
        && r.centroids.Some?
        && |r.centroids.value| == k
        && (forall j :: 0 <= j < k ==> r.centroids.value[j] in data)
    ensures var r := Initialize(initMethod, data, k, d, prior);
      r.error.None? && initMethod == "kmeans++" ==>
        forall a, b :: 0 <= a < b < k ==> r.centroids.value[a] != r.centroids.value[b]
    ensures var r := Initialize(initMethod, data, k, d, prior);
      r.error.None? && initMethod == "random" && (forall a, b :: 0 <= a < b < |data| ==> data[a] != data[b]) ==>
        forall a, b :: 0 <= a < b < k ==> r.centroids.value[a] != r.centroids.value[b]
    ensures var r := Initialize(initMethod, data, k, d, prior);
      && r.error.None? && initMethod == "farthest_first" && k <= |data|
      && (forall a, b :: 0 <= a < b < |data| ==> data[a] != data[b]) ==>
        forall a, b :: 0 <= a < b < k ==> r.centroids.value[a] != r.centroids.value[b]
  {
    var r := Initialize(initMethod, data, k, d, prior);
    if r.error.None? {
      var cs := r.centroids.value;
      if initMethod == "random" {
        RandomSeeds(data, d.sample, k);
      } else if initMethod == "farthest_first" {
        FarthestFirstRows(data, d.first, k);
        if k <= |data| && forall a, b :: 0 <= a < b < |data| ==> data[a] != data[b] {
          FarthestFirstDistinct(data, d.first, k);
        }
      } else {
        PlusPlusSeeds(data, d.first, d.picks, k);
        forall j | 0 <= j < k
          ensures cs[j] in data
        {
          if j > 0 {
            assert cs[j] == data[d.picks[j - 1]];
          }
        }
      }
    }
  }

  /** The dictionary `run_kmeans_step` returns, without the list conversion. */
  datatype Report = Report(centroids: seq<Point>, clusters: seq<nat>, converged: bool)

  class KMeans {
    const k: nat
    const initMethod: string
    var centroids: Option<seq<Point>>
    var currentClusters: Option<seq<nat>>
    var converged: bool

    /** Once a centroid set is in place it has between 1 and `k` rows. */
    ghost predicate Valid()
      reads this
    {
      k >= 1 && (centroids.Some? ==> 1 <= |centroids.value| <= k)
    }

    /** `KMeans(k, init_method="random")`: nothing chosen, nothing converged. */
    constructor(k: nat, initMethod: string := "random")
      requires k >= 1
      ensures Valid() && this.k == k && this.initMethod == initMethod
      ensures centroids == None && currentClusters == None && !converged
    {
      this.k := k;
      this.initMethod := initMethod;
      centroids := None;
      currentClusters := None;
      converged := false;
    }

    /** `initialize_centroids`: sets `centroids` as `Initialize` says and
        returns the exception raised, if any; nothing else changes. */
    method InitializeCentroids(data: seq<Point>, d: Draws) returns (err: Option<Error>)
      requires Valid() && Drawable(d, data, k)
      modifies this
      ensures Valid()
      ensures InitOutcome(centroids, err) == Initialize(initMethod, data, k, d, old(centroids))
      ensures currentClusters == old(currentClusters) && converged == old(converged)
    {
      if initMethod == "random" {
        if k > |data| {
          return Some(SampleLargerThanPopulation);
        }
        centroids := Some(Pick(data, d.sample));
      } else if initMethod == "farthest_first" {
        var cs := FarthestFirstInit(data, k, d.first);
        centroids := Some(cs);
      } else if initMethod == "kmeans++" {
        var cs, ok := KMeansPlusPlusInit(data, k, d.first, d.picks);
        centroids := Some(cs);
        if !ok {
          return Some(InvalidProbabilities);
        }
      } else if initMethod == "manual" {
        return Some(ManualInitNotImplemented);
      } else {
        return Some(UnknownInitMethod);
      }
      err := None;
    }

    /** `assign_points_to_clusters`: the nearest-centroid labels, or the
        exception raised when no centroid set is in place. */
    method AssignPointsToClusters(data: seq<Point>) returns (r: Result<seq<nat>>)
      requires Shaped(data) && (centroids.Some? ==> Fits(data, centroids.value))
      ensures r == if centroids.None? then Err(NoCentroids) else Assign(data, centroids.value)
      ensures Valid() && centroids.Some? ==> r.Ok?
    {
      if centroids.None? {
        return Err(NoCentroids);
      }
      r := ComputeAssignment(data, centroids.value);
      if Valid() {
        PassKeepsCentroidCount(data, centroids.value, k);
      }
    }

    /** `update_centroids` with this instance's `k`. */
    method UpdateCentroids(data: seq<Point>, clusters: seq<nat>) returns (rows: seq<Point>)
      requires Shaped(data) && |clusters| == |data|
      ensures rows == Update(data, clusters, k)
    {
      rows := ComputeUpdate(data, clusters, k);
    }

    /** `run_kmeans`: initialise afresh, then at most `maxSteps` passes; the
        result and the final centroids are those of `Run`. */
    method RunKMeans(data: seq<Point>, d: Draws, maxSteps: nat := 100) returns (r: Result<seq<nat>>)
      requires Valid() && Drawable(d, data, k)
      modifies this
      ensures Valid()
      ensures var init := Initialize(initMethod, data, k, d, old(centroids));
        && (init.error.Some? ==> r == Err(init.error.value) && centroids == init.centroids)
        && (init.error.None? ==>
              var out := Run(data, init.centroids.value, k, maxSteps, Err(ClustersUnbound));
              r == out.result && centroids == Some(out.centroids))
      ensures currentClusters == old(currentClusters) && converged == old(converged)
    {
      var err := InitializeCentroids(data, d);
      if err.Some? {
        return Err(err.value);
      }
      r := RunLoop(data, maxSteps);
    }

    /** The `for step in range(max_steps)` loop of `run_kmeans`, from the
        centroids in place. */
    method RunLoop(data: seq<Point>, maxSteps: nat) returns (r: Result<seq<nat>>)
      requires Valid() && centroids.Some? && Fits(data, centroids.value)
      modifies this
      ensures Valid()
      ensures var out := Run(data, old(centroids).value, k, maxSteps, Err(ClustersUnbound));
        r == out.result && centroids == Some(out.centroids)
      ensures currentClusters == old(currentClusters) && converged == old(converged)
    {
      ghost var start := centroids.value;
      var clusters: Result<seq<nat>> := Err(ClustersUnbound);
      for step := 0 to maxSteps
        invariant Valid() && centroids.Some? && Fits(data, centroids.value)
        invariant Run(data, start, k, maxSteps, Err(ClustersUnbound))
          == Run(data, centroids.value, k, maxSteps - step, clusters)
        invariant currentClusters == old(currentClusters) && converged == old(converged)
      {
        var labelling := AssignPointsToClusters(data);
        clusters := labelling;
        var newCentroids := UpdateCentroids(data, labelling.value);
        var close := AllClose(centroids.value, newCentroids);
        if close.Err? {
          return Err(close.error);
        }
        if close.value {
          break;
        }
        PassKeepsCentroidCount(data, centroids.value, k);
        centroids := Some(newCentroids);
      }
      r := clusters;
    }

    /** `run_kmeans_step`: reset `converged`, initialise only when no
        centroid set is in place, then always make one pass in which
        `currentClusters` becomes the labelling against the centroids held
        before the pass, `centroids` becomes their update and `converged` is
        whether the two centroid sets are all-close. An exception stops the
        call where the source raises it. */
    method RunKMeansStep(data: seq<Point>, d: Draws) returns (r: Result<Report>)
      requires Valid() && Drawable(d, data, k)
      requires centroids.Some? ==> Fits(data, centroids.value)
      modifies this
      ensures Valid() && (centroids.Some? ==> Fits(data, centroids.value))
      ensures var init := Initialize(initMethod, data, k, d, old(centroids));
        old(centroids).None? && init.error.Some? ==>
          && r == Err(init.error.value)
          && centroids == init.centroids
          && currentClusters == old(currentClusters)
          && !converged
      ensures var init := Initialize(initMethod, data, k, d, old(centroids));
        var start := if old(centroids).Some? then old(centroids) else init.centroids;
        (old(centroids).Some? || init.error.None?) ==>
          && start.Some?
          && Assign(data, start.value).Ok?
          && var labels := Assign(data, start.value).value;
             var next := Update(data, labels, k);
             && currentClusters == Some(labels)
             && match AllClose(start.value, next)
                case Err(e) => r == Err(e) && centroids == start && !converged
                case Ok(c) => r == Ok(Report(next, labels, c)) && centroids == Some(next) && converged == c
    {
      converged := false;
      if centroids.None? {
        var err := InitializeCentroids(data, d);
        if err.Some? {
          return Err(err.value);
        }
      }
      var oldCentroids := centroids.value;
      var labelling := AssignPointsToClusters(data);
      currentClusters := Some(labelling.value);
      var newCentroids := UpdateCentroids(data, labelling.value);
      PassKeepsCentroidCount(data, oldCentroids, k);
      var close := AllClose(oldCentroids, newCentroids);
      if close.Err? {
        return Err(close.error);
      }
      if close.value {
        converged := true;
      }
      centroids := Some(newCentroids);
      r := Ok(Report(newCentroids, labelling.value, converged));
    }
  }
}
