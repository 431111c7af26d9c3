# K-Means clustering engine, modelled in Dafny

This project models the `KMeans` class of an interactive K-Means
visualiser in its two versions.

- The full version (`506-2/kmeans.py`) has:
  - three seeding strategies: `random`, `farthest_first` and `kmeans++`;
  - two raising branches: `manual` and an unknown tag;
  - nearest-centroid assignment;
  - a mean-based update that drops empty clusters;
  - numpy's `allclose` as the convergence test;
  - the bounded `run_kmeans` loop;
  - the stateful `run_kmeans_step` driver, which a front end calls once per frame.
- The earlier version (`yshan-assignment-2/kmeans.py`) keeps the same assignment, update, convergence test and run loop. Only its `random` strategy works; the other tags are placeholders that leave the centroids as they are.

Layout:

- `geometry.dfy` (module `Geometry`) holds the numeric primitives:
  - squared Euclidean distance;
  - distance to the nearest of several points;
  - numpy's `argmin`/`argmax`, which break ties towards the first index;
  - the per-dimension mean;
  - the sum.
- `clustering.dfy` (module `Clustering`) holds what both versions share:
  - the exceptions, as the `Err` cases of a `Result`;
  - assignment and update, each as a specification function and as the loop method the source runs;
  - `allclose`, one iteration (`Iterate`) and the run loop (`Run`);
  - facts about many single steps (`Advance`, `RunMatchesSteps`, `Passes`).
- `seeding.dfy` (module `Seeding`) holds the seeding strategies:
  - the random pick;
  - the farthest-first traversal;
  - kmeans++, each strategy as a function plus the `while` loop that builds it.
- `kmeans506.dfy` (module `KMeans506`) holds the full class. Its fields `centroids`, `currentClusters` and `converged` change in place; `k` and `initMethod` are constants.
- `kmeans_yshan.dfy` (module `KMeansYshan`) holds the earlier class.

Modelling choices:

- Coordinates are `real`. The Euclidean norm is replaced by the squared distance. Taking the square root preserves order on non-negative reals, so every minimum, maximum, `argmin` and `argmax` is the same, ties included.
- Randomness comes in as inputs:
  - the index sample of `np.random.choice(n, k, replace=False)`;
  - the index of `np.random.randint(n)`;
  - the kmeans++ draws.

  Each is constrained by a predicate to what the sampler can return (`IsSample`, `ValidPicks`, `Drawable`). For kmeans++, a draw must have positive weight while the weights have a positive sum.
- Every exception the code can raise is an `Error` constructor:
  - `ValueError("Unknown initialization method")`;
  - `NotImplementedError` for `manual`;
  - a sample larger than the data;
  - kmeans++ probabilities that are all NaN because every weight is zero;
  - assignment while `centroids` is `None`;
  - `argmin` over no centroids;
  - an `allclose` shape mismatch;
  - the unbound `clusters` local when `run_kmeans` gets `max_steps == 0` (the budget is a `nat`; see "Left out").

  The state stays exactly as the source leaves it when it raises. In particular, a failed kmeans++ draw leaves the partial centroid list in `self.centroids`, because the field is assigned before the loop.
- `np.allclose(a, b)` checks `|x - y| <= 1e-8 + 1e-5 * |y|` coordinatewise. It compares row by row when both sets have the same number of rows. When one side has a single row, that row is compared with every row of the other side (numpy broadcasting). Any other mismatch is `Err(ShapeMismatch)`. A mismatch happens when an update keeps at least two rows but fewer than the current centroids; an update of one row is compared with every current centroid.

## Model

| member | source | states |
|---|---|---|
| Geometry.SqDist | 506-2/kmeans.py:43 | the squared distance between two points of one dimension is never negative |
| Geometry.SqDistZeroIff | 506-2/kmeans.py:43 | the distance is zero exactly when the two points are equal |
| Geometry.MinSqDist | 506-2/kmeans.py:20 | the distance from a point to its nearest centroid is never negative |
| Geometry.MinSqDistIsMin | 506-2/kmeans.py:20 | the nearest-centroid distance is at most the distance to every centroid, and equals the distance to one of them |
| Geometry.MinSqDistZeroIff | 506-2/kmeans.py:28 | a point's nearest-centroid distance is zero exactly when the point is one of the centroids |
| Geometry.ArgMin | 506-2/kmeans.py:44 | `np.argmin` returns a minimum position, and no earlier position holds an equal value |
| Geometry.ArgMax | 506-2/kmeans.py:21 | `np.argmax` returns a maximum position, and no earlier position holds an equal value |
| Geometry.FirstMinUnique | 506-2/kmeans.py:44 | at most one position is a first minimum, so the tie rule determines the label |
| Geometry.Mean | 506-2/kmeans.py:52 | `mean(axis=0)` of a nonempty cluster has the data's dimension |
| Geometry.ColumnSumBounds | 506-2/kmeans.py:52 | the column sum over n points bounded by lo and hi lies between n*lo and n*hi |
| Geometry.MeanWithinBounds | 506-2/kmeans.py:52 | each coordinate of a cluster mean lies within the range of that coordinate over the cluster's points |
| Geometry.SumZeroAllZero | 506-2/kmeans.py:28-29 | the sum of the kmeans++ weights is non-negative, and it is zero only when every weight is zero |
| Geometry.Sum | 506-2/kmeans.py:29 | the sum of the kmeans++ weights, left to right; it has no contract of its own, and `SumZeroAllZero` states its properties |
| Clustering.Dists | 506-2/kmeans.py:43 | one distance per centroid |
| Clustering.Assignment | 506-2/kmeans.py:40-45 | one label per point |
| Clustering.AssignmentNearest | 506-2/kmeans.py:42-44 | each label is a centroid index whose distance to the point is minimal, with ties going to the lowest index |
| Clustering.Assign | 506-2/kmeans.py:40-45 | assignment raises, with `EmptyArgMin`, exactly when there is no centroid; otherwise it labels every point |
| Clustering.ComputeAssignment | 506-2/kmeans.py:40-45 | the `for point in data` loop returns `Err(EmptyArgMin)` when there is no centroid, and the nearest-centroid labelling otherwise |
| Clustering.AssignmentUnique | 506-2/kmeans.py:42-44 | every labelling that picks a first nearest centroid for each point equals `Assignment` |
| Clustering.Members | 506-2/kmeans.py:50 | a cluster never has more members than there are points |
| Clustering.MembersCount | 506-2/kmeans.py:50 | cluster `i` has as many members as there are labels equal to `i` |
| Clustering.LabelledAt | 506-2/kmeans.py:50 | the mask `clusters == i` selects positions of the data |
| Clustering.MembersInOrder | 506-2/kmeans.py:50 | `data[clusters == i]` is the data at the positions labelled `i`, each taken once, in increasing position order; a position is selected exactly when its label is `i` |
| Clustering.MembersExactly | 506-2/kmeans.py:50 | `data[clusters == i]` holds exactly the points labelled `i`, as many as there are such labels |
| Clustering.MembersNonEmpty | 506-2/kmeans.py:50-51 | cluster `i` has a member exactly when some point is labelled `i` |
| Clustering.MembersDim | 506-2/kmeans.py:50 | the members of a cluster have the data's dimension |
| Clustering.ClusterMean | 506-2/kmeans.py:52 | the mean of a nonempty cluster has the data's dimension |
| Clustering.Update | 506-2/kmeans.py:47-53 | the update has at most `k` rows, all of the data's dimension |
| Clustering.ComputeUpdate | 506-2/kmeans.py:47-53 | the `for i in range(self.k)` loop returns exactly `Update` |
| Clustering.NonEmptyIdsExactly | 506-2/kmeans.py:49-51 | the ids that survive the update are strictly increasing; they are exactly the ids below `k` that label some point |
| Clustering.UpdateRows | 506-2/kmeans.py:47-53 | one row per nonempty cluster, in increasing id order; row `r` is the mean of the points of the `r`-th nonempty cluster |
| Clustering.UpdateKeepsAllClusters | 506-2/kmeans.py:49-53 | when every id `0..k-1` labels some point, the update has exactly `k` rows |
| Clustering.PassKeepsCentroidCount | 506-2/kmeans.py:40-53 | from between 1 and `k` centroids, assignment cannot raise and the update again has between 1 and `k` rows |
| Clustering.UpdateNonEmpty | 506-2/kmeans.py:49-53 | when every label is below `k`, the update keeps at least one row |
| Clustering.AllClose | 506-2/kmeans.py:55-56 | `np.allclose` raises, with `ShapeMismatch`, exactly when the two row counts differ and neither side has a single row |
| Clustering.AllCloseReflexive | yshan-assignment-2/kmeans.py:39-40 | `converged(c, c)` holds for every centroid set |
| Clustering.AllCloseNotSymmetric | 506-2/kmeans.py:55-56 | the test is relative to its second argument: 99999 is close to 100000, but 100000 is not close to 99999 |
| Clustering.AllCloseTolerance | 506-2/kmeans.py:55-56 | a shift of 1e-7 at magnitude 1 counts as converged; a shift of 0.01 does not |
| Clustering.Iterate | 506-2/kmeans.py:61-63 | a successful pass yields new centroids in the data's space |
| Clustering.IterateMeaning | 506-2/kmeans.py:61-63 | a pass succeeds exactly when there is a centroid and `allclose` can compare old and new. On success, the labels are the nearest-centroid labelling, the new centroids are its update, and the flag is the `allclose` verdict |
| Clustering.Run | 506-2/kmeans.py:60-66 | the `run_kmeans` loop after initialisation, defined pass by pass; it has no contract of its own, and the lemmas below state its properties |
| Clustering.RunWithoutSteps | 506-2/kmeans.py:60-66 | with `max_steps == 0`, `clusters` is never bound, the return raises, and the centroids stay as they were |
| Clustering.RunIgnoresLast | 506-2/kmeans.py:60-66 | while a step remains, the earlier value of `clusters` does not affect the outcome |
| Clustering.RunReturnsLastAssignment | 506-2/kmeans.py:60-66 | returned labels are the assignment against the centroids the loop last held. Either the update was all-close and was not adopted, or it was not all-close and was adopted because the budget ran out |
| Clustering.RunUnfold | 506-2/kmeans.py:60-65 | proof step, unfolding `Run` once: a pass that succeeds without converging adopts the update and continues with one step fewer |
| Clustering.Advance | 506-2/kmeans.py:76-86 | centroids reached after `j` single steps stay in the data's space |
| Clustering.AdvanceUnfold | 506-2/kmeans.py:76-86 | proof step, unfolding `Advance` once: after a pass that succeeds, `j` single steps are that pass followed by `j - 1` steps from its update |
| Clustering.RunMatchesSteps | 506-2/kmeans.py:58-93 | after `j` unconverged passes, running to completion equals running from the centroids that `j` single steps reach, with the remaining budget |
| Clustering.Passes | 506-2/kmeans.py:60-64 | the loop makes at most `max_steps` passes, and at least one when `max_steps >= 1` |
| Clustering.PassesUnfold | 506-2/kmeans.py:60-65 | proof step, unfolding `Passes` once: an unconverged, successful pass is followed by the passes from its update |
| Clustering.PassesUnconverged | 506-2/kmeans.py:60-65 | every pass before the last succeeded without converging |
| Clustering.PassesStopEarly | 506-2/kmeans.py:60-64 | the loop ends before its budget only at a pass that raised or converged |
| Clustering.RunAfterPasses | 506-2/kmeans.py:60-66 | the run equals its last pass: running the remaining budget from the centroids reached after `Passes - 1` unconverged passes |
| Seeding.NearestDists | 506-2/kmeans.py:20 | one non-negative nearest-centroid distance per point |
| Seeding.Pick | 506-2/kmeans.py:14 | `data[sample]` has one row per sampled index, each a row of the data |
| Seeding.RandomSeeds | 506-2/kmeans.py:14 | `data[sample]` has `k` rows, row `i` being `data[sample[i]]`; since the indices are distinct, the rows are distinct when the data has no repeated point |
| Seeding.FarthestFirst | 506-2/kmeans.py:16-22 | the traversal has exactly `m` centroids of the data's dimension |
| Seeding.Farthest | 506-2/kmeans.py:20-21 | the chosen index is a point farthest from its nearest centroid, and the first such point |
| Seeding.FarthestFirstPrefix | 506-2/kmeans.py:19-22 | the loop only appends, so the first `j` centroids are the traversal to `j` |
| Seeding.FarthestFirstStep | 506-2/kmeans.py:20-22 | proof step, unfolding `FarthestFirst` once: one iteration appends the first farthest point |
| Seeding.FarthestFirstMaximises | 506-2/kmeans.py:18-22 | the first centroid is `data[first]`; centroid `j` is the first point farthest from its nearest centroid among those chosen before it |
| Seeding.FarthestFirstRows | 506-2/kmeans.py:18-22 | every centroid is a row of the data |
| Seeding.FarthestIsNew | 506-2/kmeans.py:20-21 | while some point is not a centroid, the `argmax` point is not one either: an uncovered point has positive nearest distance, so the maximum is positive |
| Seeding.Uncovered | 506-2/kmeans.py:18-22 | fewer centroids than the points of repeat-free data leave some point uncovered |
| Seeding.FarthestFirstDistinct | 506-2/kmeans.py:18-22 | on data with no repeated point and `m <= n`, the traversal never chooses a point twice |
| Seeding.FarthestFirstInit | 506-2/kmeans.py:18-22 | the `while` loop builds exactly the `k`-centroid traversal |
| Seeding.Chosen | 506-2/kmeans.py:26-31 | after `j` draws, the list holds `j + 1` centroids |
| Seeding.PlusPlus | 506-2/kmeans.py:26-31 | kmeans++ ends with between 1 and `m` centroids in the data's space |
| Seeding.PlusPlusChosen | 506-2/kmeans.py:26-31 | a finished run is the first point followed by the first `m - 1` draws. A failed run stopped at a shorter prefix whose weights summed to zero |
| Seeding.PlusPlusSeeds | 506-2/kmeans.py:24-31 | a finished run has `k` centroids: `data[first]`, then `data[picks[j - 1]]`, no two of them equal |
| Seeding.PlusPlusDrawIsNew | 506-2/kmeans.py:28-31 | in a finished run, each drawn point is none of the centroids chosen before it |
| Seeding.PlusPlusOkPrefix | 506-2/kmeans.py:27-31 | a finished run finished every shorter run |
| Seeding.PlusPlusOkWeights | 506-2/kmeans.py:28-30 | in a finished run, the weights had a positive sum before every draw |
| Seeding.PlusPlusFailsWhenCovered | 506-2/kmeans.py:28-30 | kmeans++ raises only when every point already is one of the fewer than `k` centroids chosen |
| Seeding.KMeansPlusPlusInit | 506-2/kmeans.py:26-31 | the `while` loop yields exactly the `PlusPlus` centroid list and success flag, stopping at the first draw with zero-sum weights |
| Seeding.PlusPlusStaysFailed | 506-2/kmeans.py:27-31 | once a draw has failed, further draws change nothing |
| KMeans506.Initialize | 506-2/kmeans.py:11-38 | when `initialize_centroids` does not raise, it leaves a centroid set in the data's space; any centroid set it installs, a partial kmeans++ list included, has between 1 and `k` rows |
| KMeans506.InitializeErrors | 506-2/kmeans.py:11-38 | it raises exactly in four cases: an unknown tag, `manual`, `random` with `k > n`, and kmeans++ with zero-sum weights. Every raise but the kmeans++ one leaves `centroids` as it was |
| KMeans506.InitializeSeeds | 506-2/kmeans.py:12-31 | a successful initialisation gives `k` centroids, each a row of the data. kmeans++ never repeats a point; random sampling repeats none when the data has no duplicates, and farthest-first none when moreover `k <= n` |
| KMeans506.KMeans.constructor | 506-2/kmeans.py:4-9 | a new instance has no centroids, no clusters and `converged == false` |
| KMeans506.KMeans.InitializeCentroids | 506-2/kmeans.py:11-38 | it keeps the class invariant `Valid` (an installed centroid set has between 1 and `k` rows); `centroids` and the raised error are `Initialize`'s result; `currentClusters` and `converged` are unchanged |
| KMeans506.KMeans.AssignPointsToClusters | 506-2/kmeans.py:40-45 | `Err(NoCentroids)` while `centroids` is `None`, and the nearest-centroid labelling otherwise; against installed centroids of a valid instance it never raises |
| KMeans506.KMeans.UpdateCentroids | 506-2/kmeans.py:47-53 | the update of the labelled points with this instance's `k` |
| KMeans506.KMeans.RunKMeans | 506-2/kmeans.py:58-66 | it keeps `Valid`. It always initialises afresh. If initialisation raises, it returns that error; otherwise its result and final centroids are those of `Run` with `max_steps` |
| KMeans506.KMeans.RunLoop | 506-2/kmeans.py:60-66 | `Valid` is a loop invariant; the `for`/`break` loop returns `Run`'s result and leaves `Run`'s centroids in `centroids` |
| KMeans506.KMeans.RunKMeansStep | 506-2/kmeans.py:68-93 | it keeps `Valid`, so assignment in its pass never raises. It resets `converged` and initialises only when `centroids` is `None`. It then always makes one pass: `currentClusters` becomes the labelling against the previous centroids, `centroids` becomes their update, and `converged` is whether the two are all-close. Each exception stops the call where the source raises it |
| KMeansYshan.Initialize | yshan-assignment-2/kmeans.py:9-22 | a centroid set that initialisation installs lies in the data's space and has `k` rows |
| KMeansYshan.InitializeMeaning | yshan-assignment-2/kmeans.py:9-22 | it raises only for an unknown tag or for `random` with `k > n`. `farthest_first`, `kmeans++` and `manual` leave `centroids` unchanged. `random` installs `data[sample]`, which has distinct rows when the data has no duplicates |
| KMeansYshan.KMeans.constructor | yshan-assignment-2/kmeans.py:4-7 | a new instance has no centroids |
| KMeansYshan.KMeans.InitializeCentroids | yshan-assignment-2/kmeans.py:9-22 | it keeps `Valid`; `centroids` and the raised error are `Initialize`'s result |
| KMeansYshan.KMeans.AssignPointsToClusters | yshan-assignment-2/kmeans.py:24-29 | `Err(NoCentroids)` while `centroids` is `None`, and the nearest-centroid labelling otherwise; against installed centroids of a valid instance it never raises |
| KMeansYshan.KMeans.UpdateCentroids | yshan-assignment-2/kmeans.py:31-37 | the update of the labelled points with this instance's `k` |
| KMeansYshan.KMeans.RunKMeans | yshan-assignment-2/kmeans.py:42-50 | it keeps `Valid`. It initialises, then runs the loop. With no centroid set after initialisation, it raises on the first pass, or on return when `max_steps == 0`. Otherwise its result and final centroids are those of `Run` |
| KMeansYshan.KMeans.RunLoop | yshan-assignment-2/kmeans.py:44-50 | `Valid` is a loop invariant; the `for`/`break` loop returns `Run`'s result and final centroids, or the `None`-centroid error |

## Left out

- IEEE floating point: rounding, the square root inside `np.linalg.norm`, and the NaN that dividing by a zero sum produces are not modelled. Coordinates are exact reals. A zero-sum kmeans++ draw is modelled as the error that `np.random.choice` raises on NaN probabilities.
- Random number generation and its distributions are not modelled. The indices the samplers return are inputs, constrained only to what the sampler can return.
- `KMeans506.KMeans.constructor` and `KMeansYshan.KMeans.constructor` require `k >= 1`. The reason: with `k == 0` the update is an empty numpy array of shape `(0,)`, whose broadcasting in `allclose` is not modelled. With `k >= 1` such an empty update cannot occur: both classes keep the invariant `Valid` (an installed centroid set has between 1 and `k` rows), and `Clustering.PassKeepsCentroidCount` shows a pass preserves it, since labels are below the number of centroids.
- `Clustering.Run`, `KMeans506.KMeans.RunKMeans`, `KMeansYshan.KMeans.RunKMeans` and both `RunLoop` methods take `max_steps` as a `nat`. A negative budget behaves like 0 in the source: the loop does not run and the return raises.
- The data is a nonempty rectangular array. Empty input is rejected before it reaches the class, and numpy's behaviour on it (`randint(0)`, a mean over nothing) is not modelled.
- `KMeans506.KMeans.RunKMeansStep` and `KMeansYshan.KMeans.RunKMeans` require the centroids already in place to have the data's dimension. A later call with data of another width raises a numpy broadcasting error, which is not modelled.
- Conversions are not modelled: `np.array(...)` on returned lists and `.tolist()` in the step result. The step result is the `Report` datatype holding the three components.
- The farthest-first loop appends to `self.centroids` in place; the model builds the list in a local and assigns it once. Nothing can raise inside that loop, so no intermediate list is observable. kmeans++ can raise mid-loop, so its partial list is modelled explicitly.
- The class has no reset operation; clearing the state is done by the web layer creating a fresh instance. The web layer (`yshan-assignment-2/app.py`) and the browser code (`yshan-assignment-2/static/app.js`) are not part of this model.
- `convergedMethod` (and `converged` in the earlier version) is `Clustering.AllClose` itself and has no separate member.
