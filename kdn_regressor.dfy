/** The K-d Neighbors Regressor: an estimator that, once trained on a labelled
    dataset, predicts for each sample the (optionally inverse-distance
    weighted) mean of the labels of the neighbours its K-d tree returns.

    The estimator inherits its spatial index from a K-d tree whose
    construction and search are not part of this model. The tree is
    represented by what it was grown from (or by `Empty` before growing), and
    its neighbour search by a function `Search` supplied at construction,
    constrained only by what the aggregation relies on. */
module Regressors {
  import opened Wrappers
  import opened Stats
  import opened Datasets

  /** The result of a neighbour query: the neighbours' labels and their
      distances to the query point, aligned index by index. */
  datatype Neighborhood = Neighborhood(labels: seq<real>, distances: seq<real>)

  /** What the aggregation relies on: labels and distances aligned, at least
      one neighbour, and distances non-negative (a distance kernel's range). */
  predicate ValidNeighborhood(n: Neighborhood)
  {
    |n.labels| == |n.distances| > 0 && NonNegative(n.distances)
  }

  predicate NonNegative(ds: seq<real>)
  {
    forall i :: 0 <= i < |ds| ==> ds[i] >= 0.0
  }

  /** The K-d tree's neighbour search with its distance kernel: from the
      training samples and labels the tree was grown from and a query point,
      the neighbourhood of that point. */
  type Search = f: (seq<Sample>, seq<real>, Sample) -> Neighborhood
    | forall t, l, p :: ValidNeighborhood(f(t, l, p))
    witness (t: seq<Sample>, l: seq<real>, p: Sample) => Neighborhood([0.0], [0.0])

  /** The inherited tree state: empty (the estimator is bare) until grown
      from a labelled dataset. */
  datatype Tree = Empty | Grown(samples: seq<Sample>, labels: seq<real>)

  /** The exceptions the estimator throws. All but `NotTrained` are
      invalid-argument errors; `NotTrained` is a runtime error. */
  datatype Error =
    | TooFewNeighbors(k: int)
    | KExceedsMaxLeafSize(k: int, maxLeafSize: int)
    | UnlabeledTrainingSet
    | NonContinuousFeatures
    | NotTrained
  {
    predicate IsInvalidArgument()
    {
      !NotTrained?
    }
  }

  /** Validation of the hyper-parameters in the order the constructor checks
      them: first at least one neighbour, then no more than a leaf holds. */
  function CheckConfig(k: int, maxLeafSize: int): (o: Outcome<Error>)
    ensures o.Pass? <==> 1 <= k <= maxLeafSize
    ensures k < 1 ==> o == Fail(TooFewNeighbors(k))
    ensures 1 <= k && maxLeafSize < k ==> o == Fail(KExceedsMaxLeafSize(k, maxLeafSize))
    ensures o.Fail? ==> o.error.IsInvalidArgument()
  {
    if k < 1 then Fail(TooFewNeighbors(k))
    else if k > maxLeafSize then Fail(KExceedsMaxLeafSize(k, maxLeafSize))
    else Pass
  }

  /** Validation of a training set in the order `train` checks it: first that
      it is labelled, then that every column is continuous. */
  function CheckTrainingSet(d: Dataset): (o: Outcome<Error>)
    ensures o.Pass? <==> d.Labeled? && forall i :: 0 <= i < |d.types| ==> d.types[i] == Continuous
    ensures !d.Labeled? ==> o == Fail(UnlabeledTrainingSet)
    ensures d.Labeled? && Categorical in d.types ==> o == Fail(NonContinuousFeatures)
    ensures o.Fail? ==> o.error.IsInvalidArgument()
  {
    CountAll(d.types, Continuous);
    ContinuousIffNoCategorical(d);
    if !d.Labeled? then Fail(UnlabeledTrainingSet)
    else if d.TypeCount(Continuous) != d.NumColumns() then Fail(NonContinuousFeatures)
    else Pass
  }

  /** The weight of a neighbour at distance `d`; defined wherever `1 + d` is
      non-zero. */
  function Weight(d: real): (w: real)
    requires 1.0 + d != 0.0
    ensures w * (1.0 + d) == 1.0
  {
    1.0 / (1.0 + d)
  }

  /** A weight lies in (0, 1] and is 1 exactly for a neighbour at distance 0. */
  lemma WeightBounds(d: real)
    requires d >= 0.0
    ensures 0.0 < Weight(d) <= 1.0
    ensures Weight(d) == 1.0 <==> d == 0.0
  {
    var w := Weight(d);
    assert w * (1.0 + d) == 1.0;
    if w == 1.0 {
      assert 1.0 + d == 1.0;
    }
  }

  /** Closer neighbours weigh more: the weight strictly decreases with the
      distance. */
  lemma WeightDecreasing(d1: real, d2: real)
    requires 0.0 <= d1 <= d2
    ensures Weight(d2) <= Weight(d1)
    ensures d1 < d2 ==> Weight(d2) < Weight(d1)
  {
    var w1, w2 := Weight(d1), Weight(d2);
    assert w1 * (1.0 + d1) == 1.0;
    assert w2 * (1.0 + d2) == 1.0;
    assert w1 - w2 == w1 * w2 * (d2 - d1);
    assert w1 > 0.0 && w2 > 0.0 by {
      WeightBounds(d1);
      WeightBounds(d2);
    }
  }

  lemma WeightsInRange(ds: seq<real>)
    requires NonNegative(ds)
    ensures forall i :: 0 <= i < |ds| ==> 0.0 < Weight(ds[i]) <= 1.0 && (Weight(ds[i]) == 1.0 <==> ds[i] == 0.0)
  {
    forall i | 0 <= i < |ds|
      ensures 0.0 < Weight(ds[i]) <= 1.0 && (Weight(ds[i]) == 1.0 <==> ds[i] == 0.0)
    {
      WeightBounds(ds[i]);
    }
  }

  /** One weight per distance, each positive and at most 1, and 1 exactly at
      the distances that are 0. */
  function Weights(ds: seq<real>): (ws: seq<real>)
    requires NonNegative(ds)
    ensures |ws| == |ds| && AllPositive(ws)
    ensures forall i :: 0 <= i < |ds| ==> ws[i] <= 1.0 && (ws[i] == 1.0 <==> ds[i] == 0.0)
  {
    WeightsInRange(ds);
    seq(|ds|, i requires 0 <= i < |ds| => Weight(ds[i]))
  }

  /** The prediction for one neighbourhood: the weighted mean of the labels
      under the inverse-distance weights, or their plain mean. */
  function Estimate(n: Neighborhood, weighted: bool): real
    requires ValidNeighborhood(n)
  {
    if weighted then
      var ws := Weights(n.distances);
      SumPositive(ws);
      WeightedMean(n.labels, ws)
    else
      Mean(n.labels)
  }

  /** The prediction always lies between the smallest and largest neighbour
      label, in either mode. */
  lemma EstimateWithinLabels(n: Neighborhood, weighted: bool, lo: real, hi: real)
    requires ValidNeighborhood(n) && Within(n.labels, lo, hi)
    ensures lo <= Estimate(n, weighted) <= hi
  {
    if weighted {
      WeightedMeanBounds(n.labels, Weights(n.distances), lo, hi);
    } else {
      MeanBounds(n.labels, lo, hi);
    }
  }

  /** With a single neighbour (k = 1) the prediction is that neighbour's
      label, whatever its distance and in either mode. */
  lemma EstimateSingleNeighbor(n: Neighborhood, weighted: bool)
    requires ValidNeighborhood(n) && |n.labels| == 1
    ensures Estimate(n, weighted) == n.labels[0]
  {
    EstimateWithinLabels(n, weighted, n.labels[0], n.labels[0]);
  }

  /** When all neighbours are equally far away the weights cancel and the
      weighted prediction equals the unweighted one. */
  lemma EstimateEqualDistances(n: Neighborhood)
    requires ValidNeighborhood(n)
    requires forall i :: 0 <= i < |n.distances| ==> n.distances[i] == n.distances[0]
    ensures Estimate(n, true) == Estimate(n, false)
  {
    var ws := Weights(n.distances);
    WeightBounds(n.distances[0]);
    WeightedMeanUniform(n.labels, ws, Weight(n.distances[0]));
  }

  /** The predictions for a batch of samples against a grown tree: one per
      sample, in order, each the estimate for that sample's own neighbourhood. */
  function Predictions(search: Search, tree: Tree, weighted: bool, samples: seq<Sample>): (r: seq<real>)
    requires tree.Grown?
    ensures |r| == |samples|
    ensures forall i :: 0 <= i < |samples| ==>
      r[i] == Estimate(search(tree.samples, tree.labels, samples[i]), weighted)
  {
    if samples == [] then []
    else
      [Estimate(search(tree.samples, tree.labels, samples[0]), weighted)]
      + Predictions(search, tree, weighted, samples[1..])
  }

  /** Predicting a batch in two parts gives the same predictions as
      predicting it at once: samples do not interact. */
  lemma PredictionsAppend(search: Search, tree: Tree, weighted: bool, a: seq<Sample>, b: seq<Sample>)
    requires tree.Grown?
    ensures Predictions(search, tree, weighted, a + b)
         == Predictions(search, tree, weighted, a) + Predictions(search, tree, weighted, b)
  {
    var whole := Predictions(search, tree, weighted, a + b);
    var parts := Predictions(search, tree, weighted, a) + Predictions(search, tree, weighted, b);
    forall i | 0 <= i < |a + b| ensures whole[i] == parts[i] {
      if i < |a| {
        assert (a + b)[i] == a[i];
      } else {
        assert (a + b)[i] == b[i - |a|];
      }
    }
  }

  /** The estimator (the source's class `KDNRegressor`, flattened with the
      K-d tree it extends). */
  class KDNRegressor {
    /** The number of neighbours to consider. */
    const k: int
    /** Whether neighbours are weighted by inverse distance. */
    const weighted: bool
    /** The tree's leaf capacity. */
    const maxLeafSize: int
    /** The tree's neighbour search with its distance kernel. */
    const search: Search
    /** The tree grown by the last successful training, or `Empty`. */
    var tree: Tree

    /** Field set-up once the hyper-parameters have been validated. */
    constructor (k: int, maxLeafSize: int, weighted: bool, search: Search)
      requires CheckConfig(k, maxLeafSize).Pass?
      ensures 1 <= this.k <= this.maxLeafSize
      ensures this.k == k && this.maxLeafSize == maxLeafSize
      ensures this.weighted == weighted && this.search == search
      ensures tree == Empty
    {
      this.k := k;
      this.weighted := weighted;
      this.maxLeafSize := maxLeafSize;
      this.search := search;
      tree := Empty;
    }

    /** Construction: fails with the first violated hyper-parameter check,
        otherwise yields a bare estimator holding exactly the given values. */
    static method New(k: int, maxLeafSize: int, weighted: bool, search: Search)
      returns (r: Result<KDNRegressor, Error>)
      ensures r.Failure? <==> CheckConfig(k, maxLeafSize).Fail?
      ensures r.Failure? ==> r.error == CheckConfig(k, maxLeafSize).error
      ensures r.Success? ==> fresh(r.value) && r.value.tree == Empty
      ensures r.Success? ==> 1 <= r.value.k <= r.value.maxLeafSize
      ensures r.Success? ==> r.value.k == k && r.value.maxLeafSize == maxLeafSize
      ensures r.Success? ==> r.value.weighted == weighted && r.value.search == search
    {
      var config := CheckConfig(k, maxLeafSize);
      if config.Fail? {
        return Failure(config.error);
      }
      var regressor := new KDNRegressor(k, maxLeafSize, weighted, search);
      return Success(regressor);
    }

    /** Whether the tree has not been grown yet. */
    predicate Bare()
      reads this
    {
      tree.Empty?
    }

    /** The inherited tree growth: afterwards the tree holds the training
        samples and labels and is no longer bare. */
    method Grow(dataset: Dataset)
      requires dataset.Labeled?
      modifies this
      ensures tree == Grown(dataset.samples, dataset.labels)
      ensures !Bare()
    {
      tree := Grown(dataset.samples, dataset.labels);
    }

    /** The neighbourhood of `sample` in the grown tree. */
    function Neighbors(sample: Sample): (n: Neighborhood)
      reads this
      requires !Bare()
      ensures ValidNeighborhood(n)
    {
      search(tree.samples, tree.labels, sample)
    }

    /** Training: validates the dataset and grows the tree only if both
        checks pass; on failure the tree is left as it was. */
    method Train(dataset: Dataset) returns (o: Outcome<Error>)
      modifies this
      ensures o == CheckTrainingSet(dataset)
      ensures o.Fail? ==> tree == old(tree)
      ensures o.Pass? ==> tree == Grown(dataset.samples, dataset.labels) && !Bare()
    {
      if !dataset.Labeled? {
        return Fail(UnlabeledTrainingSet);
      }
      if dataset.TypeCount(Continuous) != dataset.NumColumns() {
        return Fail(NonContinuousFeatures);
      }
      Grow(dataset);
      return Pass;
    }

    /** Prediction: rejects categorical features before checking that the
        estimator is trained, then returns one prediction per sample, in
        order. The estimator itself is not changed. */
    method Predict(dataset: Dataset) returns (r: Result<seq<real>, Error>)
      ensures Categorical in dataset.types ==> r == Failure(NonContinuousFeatures)
      ensures Categorical !in dataset.types && Bare() ==> r == Failure(NotTrained)
      ensures Categorical !in dataset.types && !Bare() ==>
        r == Success(Predictions(search, tree, weighted, dataset.samples))
    {
      if Categorical in dataset.types {
        return Failure(NonContinuousFeatures);
      }
      if Bare() {
        return Failure(NotTrained);
      }
      var samples := dataset.samples;
      var predictions: seq<real> := [];
      var i := 0;
      while i < |samples|
        invariant 0 <= i <= |samples|
        invariant |predictions| == i
        invariant forall m :: 0 <= m < i ==> predictions[m] == Estimate(Neighbors(samples[m]), weighted)
      {
        var n := Neighbors(samples[i]);
        var outcome: real;
        if weighted {
          var weights: seq<real> := [];
          var j := 0;
          while j < |n.distances|
            invariant 0 <= j <= |n.distances|
            invariant |weights| == j
            invariant forall m :: 0 <= m < j ==> weights[m] == Weight(n.distances[m])
          {
            weights := weights + [1.0 / (1.0 + n.distances[j])];
            j := j + 1;
          }
          assert weights == Weights(n.distances);
          SumPositive(weights);
          outcome := WeightedMean(n.labels, weights);
        } else {
          outcome := Mean(n.labels);
        }
        predictions := predictions + [outcome];
        i := i + 1;
      }
      ghost var expected := Predictions(search, tree, weighted, samples);
      assert forall m :: 0 <= m < |samples| ==> expected[m] == Estimate(Neighbors(samples[m]), weighted);
      assert predictions == expected;
      return Success(predictions);
    }
  }
}
