/** The facts of a dataset that the regressor consults: its samples, the type
    of each feature column, and, for a labelled dataset, its labels. Only the
    two column types the regressor refers to are modelled. */
module Datasets {

  /** A sample is one row of continuous feature values. */
  type Sample = seq<real>

  datatype ColumnType = Categorical | Continuous

  /** A dataset is either unlabelled or labelled (the `Labeled` subclass of
      the source); `types` holds one entry per feature column. */
  datatype Dataset =
    | Unlabeled(samples: seq<Sample>, types: seq<ColumnType>)
    | Labeled(samples: seq<Sample>, types: seq<ColumnType>, labels: seq<real>)
  {
    /** Number of feature columns. */
    function NumColumns(): nat
    {
      |types|
    }

    /** Number of feature columns of type `t`. */
    function TypeCount(t: ColumnType): (n: nat)
      ensures n <= NumColumns()
    {
      Count(types, t)
    }
  }

  /** Number of occurrences of `t` in `ts`. */
  function Count(ts: seq<ColumnType>, t: ColumnType): (n: nat)
    ensures n <= |ts|
  {
    if ts == [] then 0 else (if ts[0] == t then 1 else 0) + Count(ts[1..], t)
  }

  /** The count reaches the length exactly when every entry is `t`. */
  lemma {:induction false} CountAll(ts: seq<ColumnType>, t: ColumnType)
    ensures Count(ts, t) == |ts| <==> forall i :: 0 <= i < |ts| ==> ts[i] == t
  {
    if ts != [] {
      CountAll(ts[1..], t);
      if Count(ts, t) == |ts| {
        forall i | 0 <= i < |ts| ensures ts[i] == t {
          if i > 0 { assert ts[i] == ts[1..][i - 1]; }
        }
      }
      if forall i :: 0 <= i < |ts| ==> ts[i] == t {
        assert forall i :: 0 <= i < |ts[1..]| ==> ts[1..][i] == t by {
          forall i | 0 <= i < |ts[1..]| ensures ts[1..][i] == t {
            assert ts[1..][i] == ts[i + 1];
          }
        }
      }
    }
  }

  /** With only two column types, "every column is continuous" (the training
      check) and "no column is categorical" (the prediction check) coincide. */
  lemma ContinuousIffNoCategorical(d: Dataset)
    ensures d.TypeCount(Continuous) == d.NumColumns() <==> Categorical !in d.types
  {
    CountAll(d.types, Continuous);
    if Categorical in d.types {
      var i :| 0 <= i < |d.types| && d.types[i] == Categorical;
    }
  }
}
