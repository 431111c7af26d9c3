/** The earlier `KMeans` class (yshan-assignment-2/kmeans.py): only random
    seeding works, the other strategies are placeholders that leave
    `centroids` as it was, and there is no single-step driver. */
module KMeansYshan {
  import opened Geometry
  import opened Clustering
  import opened Seeding

  /** `sample` is something `np.random.choice(n, k, replace=False)` can return. */
  predicate Drawable(sample: seq<nat>, data: seq<Point>, k: nat) {
    k <= |data| ==> IsSample(sample, |data|, k)
  }

  /** `initialize_centroids` for method tag `initMethod`, starting from
      `self.centroids == prior`. */
  function Initialize(initMethod: string, data: seq<Point>, k: nat, sample: seq<nat>, prior: Option<seq<Point>>)
    : (r: InitOutcome)
    requires Shaped(data) && Drawable(sample, data, k)
    ensures r.centroids.Some? && r.centroids != prior ==> Fits(data, r.centroids.value)
    ensures r.centroids.Some? && r.centroids != prior ==> |r.centroids.value| == k
  {
    if initMethod == "random" then
      if k > |data| then InitOutcome(prior, Some(SampleLargerThanPopulation))
      else InitOutcome(Some(Pick(data, sample)), None)
    else if initMethod in {"farthest_first", "kmeans++", "manual"} then InitOutcome(prior, None)
    else InitOutcome(prior, Some(UnknownInitMethod))
  }

  /** Random seeding picks `k` rows of the data, distinct when the data has
      no repeated point; the three placeholder strategies leave the centroids
      untouched; only an unknown tag and an oversized sample raise. */
  lemma InitializeMeaning(initMethod: string, data: seq<Point>, k: nat, sample: seq<nat>, prior: Option<seq<Point>>)
    requires Shaped(data) && Drawable(sample, data, k)
    ensures var r := Initialize(initMethod, data, k, sample, prior);
      && (r.error == Some(UnknownInitMethod) <==>
            initMethod !in {"random", "farthest_first", "kmeans++", "manual"})
      && (r.error == Some(SampleLargerThanPopulation) <==> initMethod == "random" && k > |data|)
      && (r.error.Some? || initMethod != "random" ==> r.centroids == prior)
    ensures var r := Initialize(initMethod, data, k, sample, prior);
      initMethod == "random" && r.error.None? ==>
        && r.centroids.Some?
        && |r.centroids.value| == k
        && (forall j :: 0 <= j < k ==> r.centroids.value[j] == data[sample[j]])
        && ((forall a, b :: 0 <= a < b < |data| ==> data[a] != data[b]) ==>
              forall a, b :: 0 <= a < b < k ==> r.centroids.value[a] != r.centroids.value[b])
  {
    if initMethod == "random" && k <= |data| {
      RandomSeeds(data, sample, k);
    }
  }

  class KMeans {
    const k: nat
    const initMethod: string
    var centroids: Option<seq<Point>>

    /** Once a centroid set is in place it has between 1 and `k` rows. */
    ghost predicate Valid()
      reads this
    {
      k >= 1 && (centroids.Some? ==> 1 <= |centroids.value| <= k)
    }

    /** `KMeans(k, init_method="random")`: no centroids yet. */
    constructor(k: nat, initMethod: string := "random")
      requires k >= 1
      ensures Valid() && this.k == k && this.initMethod == initMethod && centroids == None
    {
      this.k := k;
      this.initMethod := initMethod;
      centroids := None;
    }

    /** `initialize_centroids`: sets `centroids` as `Initialize` says and
        returns the exception raised, if any. */
    method InitializeCentroids(data: seq<Point>, sample: seq<nat>) returns (err: Option<Error>)
      requires Valid() && Shaped(data) && Drawable(sample, data, k)
      modifies this
      ensures Valid()
      ensures InitOutcome(centroids, err) == Initialize(initMethod, data, k, sample, old(centroids))
    {
      if initMethod == "random" {
        if k > |data| {
          return Some(SampleLargerThanPopulation);
        }
        centroids := Some(Pick(data, sample));
      } else if initMethod == "farthest_first" {
      } else if initMethod == "kmeans++" {
      } else if initMethod == "manual" {
      } else {
        return Some(UnknownInitMethod);
      }
      err := None;
    }

    /** `assign_points_to_clusters`: the nearest-centroid labels, or the
        exception raised when no centroid set is in place. */
    method AssignPointsToClusters(data: seq<Point>) returns (r: Result<seq<nat>>)
      requires Shaped(data) && (centroids.Some? ==> Fits(data, centroids.value))
      ensures r == if centroids.None? then Err(NoCentroids) else Assign(data, centroids.value)
      ensures Valid() && centroids.Some? ==> r.Ok?
    {
      if centroids.None? {
        return Err(NoCentroids);
      }
      r := ComputeAssignment(data, centroids.value);
      if Valid() {
        PassKeepsCentroidCount(data, centroids.value, k);
      }
    }

    /** `update_centroids` with this instance's `k`. */
    method UpdateCentroids(data: seq<Point>, clusters: seq<nat>) returns (rows: seq<Point>)
      requires Shaped(data) && |clusters| == |data|
      ensures rows == Update(data, clusters, k)
    {
      rows := ComputeUpdate(data, clusters, k);
    }

    /** `run_kmeans`: initialise, then at most `maxSteps` passes. With no
        centroid set in place (a placeholder strategy on a fresh instance)
        the first pass raises; with one, the result and the final centroids
        are those of `Run`. */
    method RunKMeans(data: seq<Point>, sample: seq<nat>, maxSteps: nat := 100) returns (r: Result<seq<nat>>)
      requires Valid() && Shaped(data) && Drawable(sample, data, k)
      requires centroids.Some? ==> Fits(data, centroids.value)
      modifies this
      ensures Valid()
      ensures var init := Initialize(initMethod, data, k, sample, old(centroids));
        && (init.error.Some? ==> r == Err(init.error.value) && centroids == init.centroids)
        && (init.error.None? && init.centroids.None? ==>
              centroids == None && r == Err(if maxSteps == 0 then ClustersUnbound else NoCentroids))
        && (init.error.None? && init.centroids.Some? ==>
              var out := Run(data, init.centroids.value, k, maxSteps, Err(ClustersUnbound));
              r == out.result && centroids == Some(out.centroids))
    {
      var err := InitializeCentroids(data, sample);
      if err.Some? {
        return Err(err.value);
      }
      r := RunLoop(data, maxSteps);
    }

    /** The `for step in range(max_steps)` loop of `run_kmeans`, from the
        centroids in place. */
    method RunLoop(data: seq<Point>, maxSteps: nat) returns (r: Result<seq<nat>>)
      requires Valid() && Shaped(data) && (centroids.Some? ==> Fits(data, centroids.value))
      modifies this
      ensures Valid()
      ensures old(centroids).None? ==>
        centroids == None && r == Err(if maxSteps == 0 then ClustersUnbound else NoCentroids)
      ensures old(centroids).Some? ==>
        var out := Run(data, old(centroids).value, k, maxSteps, Err(ClustersUnbound));
        r == out.result && centroids == Some(out.centroids)
    {
      ghost var start := centroids;
      var clusters: Result<seq<nat>> := Err(ClustersUnbound);
      for step := 0 to maxSteps
        invariant Valid()
        invariant start.None? ==> step == 0 && centroids.None? && clusters == Err(ClustersUnbound)
        invariant start.Some? ==>
          && centroids.Some? && Fits(data, centroids.value)
          && Run(data, start.value, k, maxSteps, Err(ClustersUnbound))
             == Run(data, centroids.value, k, maxSteps - step, clusters)
      {
        var labelling := AssignPointsToClusters(data);
        if labelling.Err? {
          return labelling;
        }
        clusters := labelling;
        var newCentroids := UpdateCentroids(data, labelling.value);
        var close := AllClose(centroids.value, newCentroids);
        if close.Err? {
          return Err(close.error);
        }
        if close.value {
          break;
        }
        PassKeepsCentroidCount(data, centroids.value, k);
        centroids := Some(newCentroids);
      }
      r := clusters;
    }
  }
}
