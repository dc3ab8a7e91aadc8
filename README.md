# K-d Neighbors Regressor, modelled in Dafny

This project models the K-d Neighbors Regressor of the Rubix ML library
(`src/Regressors/KDNRegressor.php`). It is a regression estimator that extends
a K-d tree. Training validates a labelled dataset and grows the tree from it.
Prediction validates the input and checks that the tree has been grown. It then
asks the tree for each sample's neighbours. The prediction is the mean of the
neighbours' labels, or the weighted mean under the weights `1 / (1 + distance)`.

Files:

- `wrappers.dfy`: `Result` and `Outcome`. A thrown exception becomes a failure value.
- `stats.dfy`: the sum, mean, weighted sum and weighted mean, with the plain
  mathematical definitions (sum / count and sum of w·x / sum of w), and their bounds.
- `datasets.dfy`: what the regressor reads from a dataset. That is the samples,
  the type of each column, and, for a labelled dataset, its labels.
- `kdn_regressor.dfy`: the weights, the per-neighbourhood estimate, the batch
  predictions, and the class `KDNRegressor`.

The PHP class inherits its tree from `KDTree`. Dafny classes do not inherit, so
the inherited state is a field of the one class. `tree` is `Empty` until grown
and then `Grown(samples, labels)`. The tree's neighbour search is not part of
this model. It is the constant `search` of type `Search`, supplied at
construction. It stands for the tree's search together with its distance kernel.
`Search` promises three things and nothing more: labels and distances are
aligned, at least one neighbour is returned, and every distance is non-negative.
The constructor throws on bad hyper-parameters. In the model this is the static
method `New`, which returns a `Result`. The fields `k`, `weighted`,
`maxLeafSize` and `search` are never reassigned after construction, so they are
`const`s.

Three consequences of the code are worth stating:

- Prediction checks for categorical columns (line 116) before the bare tree
  (line 121). So an untrained estimator given categorical data reports the
  invalid-argument error. `Predict`'s first postcondition states this.
- With weighting, a neighbour at distance 0 decides the prediction alone only
  when it is the single neighbour (`EstimateSingleNeighbor`). Other neighbours
  keep positive weights and still contribute.
- Training requires `typeCount(CONTINUOUS) == numColumns()`, while prediction
  rejects `CATEGORICAL in types()`. These are different tests. With the two
  column types the code refers to they are equivalent
  (`ContinuousIffNoCategorical`).

## Model

| member | source | states |
|---|---|---|
| `Regressors.CheckConfig` | src/Regressors/KDNRegressor.php:60-68 | configuration is accepted iff 1 ≤ k ≤ maxLeafSize; k < 1 fails first with the too-few-neighbours error, otherwise k > maxLeafSize fails with the leaf-size error; both are invalid-argument errors |
| `Regressors.KDNRegressor.New` | src/Regressors/KDNRegressor.php:58-74 | construction fails exactly when the configuration check fails, with its error; on success the estimator is fresh and bare, satisfies 1 ≤ k ≤ maxLeafSize, and stores k, maxLeafSize, weighted and the search unchanged |
| `Regressors.KDNRegressor.constructor` | src/Regressors/KDNRegressor.php:70-73 | after the checks, the fields hold the given values and the tree is empty |
| `Regressors.CheckTrainingSet` | src/Regressors/KDNRegressor.php:93-101 | a training set is accepted iff it is labelled and every column is continuous; an unlabelled set fails first, then a labelled set with a categorical column fails; both are invalid-argument errors |
| `Regressors.KDNRegressor.Grow` | src/Regressors/KDNRegressor.php:103 | growing records the labelled samples and labels in the tree, so the estimator is no longer bare |
| `Regressors.KDNRegressor.Train` | src/Regressors/KDNRegressor.php:91-104 | the outcome is the training-set check; on failure the tree is unchanged (not grown); on success the tree is grown from exactly this dataset's samples and labels |
| `Regressors.KDNRegressor.Predict` | src/Regressors/KDNRegressor.php:114-146 | categorical columns fail with the invalid-argument error whether or not the estimator is trained; otherwise a bare estimator fails with the not-trained error and returns no predictions; otherwise the result is the batch predictions for the dataset's samples; the estimator's state is not changed |
| `Regressors.KDNRegressor.Bare` | src/Regressors/KDNRegressor.php:121 | definition: the estimator is bare exactly while its tree is empty |
| `Regressors.KDNRegressor.Neighbors` | src/Regressors/KDNRegressor.php:128 | the neighbourhood of a sample in the grown tree has aligned labels and distances, at least one neighbour and non-negative distances |
| `Regressors.Weight` | src/Regressors/KDNRegressor.php:134 | the weight of a neighbour is the reciprocal of one plus its distance: weight · (1 + d) = 1 |
| `Regressors.Estimate` | src/Regressors/KDNRegressor.php:130-140 | definition: in weighted mode the weighted mean of the labels under the weights of the distances, otherwise the plain mean of the labels |
| `Regressors.Predictions` | src/Regressors/KDNRegressor.php:125-145 | exactly one prediction per input sample, and prediction i is the estimate for the neighbourhood of sample i alone |
| `Regressors.PredictionsAppend` | src/Regressors/KDNRegressor.php:127-143 | predicting a batch split in two gives the concatenation of the parts' predictions: samples do not interact |
| `Regressors.Weights` | src/Regressors/KDNRegressor.php:131-135 | one weight per returned distance; each weight is in (0, 1], and it is exactly 1 where the distance is 0 |
| `Regressors.WeightBounds` | src/Regressors/KDNRegressor.php:134 | for d ≥ 0 the weight 1/(1+d) lies in (0, 1] and equals 1 iff d = 0 |
| `Regressors.WeightDecreasing` | src/Regressors/KDNRegressor.php:134 | closer neighbours weigh more: the weight is non-increasing in the distance, strictly decreasing for distinct distances |
| `Regressors.EstimateWithinLabels` | src/Regressors/KDNRegressor.php:130-140 | in both modes the prediction lies between the smallest and the largest neighbour label |
| `Regressors.EstimateSingleNeighbor` | src/Regressors/KDNRegressor.php:130-140 | with one neighbour the prediction is its label, in either mode and at any distance |
| `Regressors.EstimateEqualDistances` | src/Regressors/KDNRegressor.php:130-140 | when all neighbours are equally distant, the weighted prediction equals the plain mean |
| `Datasets.Count` | src/Regressors/KDNRegressor.php:98 | the number of columns of a given type never exceeds the number of columns |
| `Datasets.Dataset.TypeCount` | src/Regressors/KDNRegressor.php:98 | a dataset's count of columns of a type is at most its number of columns |
| `Datasets.CountAll` | src/Regressors/KDNRegressor.php:98 | the count of a column type equals the number of columns iff every column has that type |
| `Datasets.ContinuousIffNoCategorical` | src/Regressors/KDNRegressor.php:98-119 | the training check (continuous count equals column count) holds iff the prediction check (no categorical column) passes |
| `Stats.Mean` | src/Regressors/KDNRegressor.php:139 | the mean times the number of values is their sum |
| `Stats.WeightedMean` | src/Regressors/KDNRegressor.php:137 | the weighted mean times the total weight is the weighted sum |
| `Stats.MeanBounds` | src/Regressors/KDNRegressor.php:139 | the mean of values in [lo, hi] lies in [lo, hi] |
| `Stats.WeightedMeanBounds` | src/Regressors/KDNRegressor.php:137 | with positive weights the total weight is positive and the weighted mean of values in [lo, hi] lies in [lo, hi] |
| `Stats.WeightedMeanUniform` | src/Regressors/KDNRegressor.php:137-139 | with equal non-zero weights the weighted mean equals the mean |
| `Stats.SumBounds` | src/Regressors/KDNRegressor.php:139 | a sum of n values in [lo, hi] lies in [n·lo, n·hi] |
| `Stats.SumPositive` | src/Regressors/KDNRegressor.php:137 | a non-empty sum of positive weights is positive, so the weighted mean is defined |
| `Stats.WeightedSumBounds` | src/Regressors/KDNRegressor.php:137 | with positive weights the weighted sum lies between lo and hi times the total weight |
| `Stats.WeightedSumMonotone` | src/Regressors/KDNRegressor.php:137 | under positive weights, raising values never lowers the weighted sum |
| `Stats.WeightedSumConstant` | src/Regressors/KDNRegressor.php:137 | weighting one value c everywhere gives c times the total weight |
| `Stats.WeightedSumUniform` | src/Regressors/KDNRegressor.php:137 | with every weight equal to c, the weighted sum is c times the sum and the total weight is n·c |

## Left out

- The number of neighbours a search returns is not tied to `k`. The search does not receive `k`, and nothing in the model constrains the neighbourhood size beyond "at least one".
- Regressors.KDNRegressor.Grow: records only what the tree was grown from. The K-d tree's own code (`grow`, `neighbors`, `bare` of `Rubix\ML\Graph\KDTree`) is not part of this model. The search is the abstract `Search` function. No partitioning or pruning behaviour is modelled, so query correctness against brute force is not stated.
- `Search` is assumed to return at least one neighbour for every query. That keeps the mean and weighted mean defined. What the unseen tree returns after being grown from an empty dataset is not modelled. Neither is what `Stats` does with an empty or zero-weight input.
- `Stats::mean` and `Stats::weightedMean` are not part of this model. They are given their mathematical definitions.
- `Dataset`, `Labeled` and `DataFrame` are reduced to samples, column types and labels. `numColumns()` is the number of column types. Only the two column types the file refers to (categorical and continuous) exist. Feature values are reals, so the values of categorical columns are not represented; both operations reject such columns before reading any value.
- Dimensionality mismatches between a query and the tree are the tree's concern and are not modelled.
- The distance kernel, the parent constructor's own handling of `maxLeafSize` and the kernel, `Persistable` serialisation, and `type()` are not modelled. The PHP default arguments (k = 3, maxLeafSize = 20, weighted = true) are not modelled, because Dafny has no default parameters.
- IEEE floating point (rounding, infinities) is replaced by mathematical reals.
- `src/NeuralNet/ActivationFunctions/ELU.php` is not part of this model. It is floating-point numerics with `exp`, it relies on an external matrix library, and it draws random numbers.
