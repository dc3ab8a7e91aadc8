/** The two statistics the regressor aggregates neighbour labels with, given
    their plain mathematical definitions: the arithmetic mean (sum / count) and
    the weighted mean (sum of weight * value / sum of weights). Reals are
    mathematical reals, not IEEE doubles. */
module Stats {

  /** Sum of a sequence of reals. */
  function Sum(xs: seq<real>): real
  {
    if xs == [] then 0.0 else xs[0] + Sum(xs[1..])
  }

  /** Sum of value * weight over aligned sequences. */
  function WeightedSum(xs: seq<real>, ws: seq<real>): real
    requires |xs| == |ws|
  {
    if xs == [] then 0.0 else xs[0] * ws[0] + WeightedSum(xs[1..], ws[1..])
  }

  /** Arithmetic mean; undefined on the empty sequence. */
  function Mean(xs: seq<real>): (m: real)
    requires |xs| > 0
    ensures m * (|xs| as real) == Sum(xs)
  {
    Sum(xs) / (|xs| as real)
  }

  /** Weighted mean; undefined when the weights sum to zero. */
  function WeightedMean(xs: seq<real>, ws: seq<real>): (m: real)
    requires |xs| == |ws|
    requires Sum(ws) != 0.0
    ensures m * Sum(ws) == WeightedSum(xs, ws)
  {
    WeightedSum(xs, ws) / Sum(ws)
  }

  /** Every element of `xs` lies in the closed interval [lo, hi]. */
  predicate Within(xs: seq<real>, lo: real, hi: real)
  {
    forall i :: 0 <= i < |xs| ==> lo <= xs[i] <= hi
  }

  /** Every element of `ws` is strictly positive. */
  predicate AllPositive(ws: seq<real>)
  {
    forall i :: 0 <= i < |ws| ==> ws[i] > 0.0
  }

  lemma TailWithin(xs: seq<real>, lo: real, hi: real)
    requires xs != [] && Within(xs, lo, hi)
    ensures Within(xs[1..], lo, hi)
  {
    forall i | 0 <= i < |xs[1..]| ensures lo <= xs[1..][i] <= hi {
      assert xs[1..][i] == xs[i + 1];
    }
  }

  lemma TailPositive(ws: seq<real>)
    requires ws != [] && AllPositive(ws)
    ensures AllPositive(ws[1..])
  {
    forall i | 0 <= i < |ws[1..]| ensures ws[1..][i] > 0.0 {
      assert ws[1..][i] == ws[i + 1];
    }
  }

  /** A sum of bounded terms is bounded by count * bound. */
  lemma {:induction false} SumBounds(xs: seq<real>, lo: real, hi: real)
    requires Within(xs, lo, hi)
    ensures (|xs| as real) * lo <= Sum(xs) <= (|xs| as real) * hi
  {
    if xs != [] {
      TailWithin(xs, lo, hi);
      SumBounds(xs[1..], lo, hi);
      assert (|xs| as real) * lo == lo + (|xs[1..]| as real) * lo;
      assert (|xs| as real) * hi == hi + (|xs[1..]| as real) * hi;
    }
  }

  /** A non-empty sum of positive terms is positive. */
  lemma {:induction false} SumPositive(ws: seq<real>)
    requires |ws| > 0 && AllPositive(ws)
    ensures Sum(ws) > 0.0
  {
    if |ws| > 1 {
      TailPositive(ws);
      SumPositive(ws[1..]);
    } else {
      assert ws[1..] == [];
    }
  }

  /** Under positive weights the weighted sum is monotone in the values. */
  lemma {:induction false} WeightedSumMonotone(xs: seq<real>, ys: seq<real>, ws: seq<real>)
    requires |xs| == |ys| == |ws| && AllPositive(ws)
    requires forall i :: 0 <= i < |xs| ==> xs[i] <= ys[i]
    ensures WeightedSum(xs, ws) <= WeightedSum(ys, ws)
  {
    if xs != [] {
      TailPositive(ws);
      assert forall i :: 0 <= i < |xs[1..]| ==> xs[1..][i] <= ys[1..][i] by {
        forall i | 0 <= i < |xs[1..]| ensures xs[1..][i] <= ys[1..][i] {
          assert xs[1..][i] == xs[i + 1] && ys[1..][i] == ys[i + 1];
        }
      }
      WeightedSumMonotone(xs[1..], ys[1..], ws[1..]);
      ScaleLe(xs[0], ys[0], ws[0]);
    }
  }

  /** Weighting the same value c everywhere gives c times the total weight. */
  lemma {:induction false} WeightedSumConstant(c: real, xs: seq<real>, ws: seq<real>)
    requires |xs| == |ws|
    requires forall i :: 0 <= i < |xs| ==> xs[i] == c
    ensures WeightedSum(xs, ws) == c * Sum(ws)
  {
    if xs != [] {
      assert forall i :: 0 <= i < |xs[1..]| ==> xs[1..][i] == c by {
        forall i | 0 <= i < |xs[1..]| ensures xs[1..][i] == c {
          assert xs[1..][i] == xs[i + 1];
        }
      }
      WeightedSumConstant(c, xs[1..], ws[1..]);
      Distribute(c, ws[0], Sum(ws[1..]));
    }
  }

  /** With positive weights, the weighted sum lies between lo and hi times the
      total weight. */
  lemma WeightedSumBounds(xs: seq<real>, ws: seq<real>, lo: real, hi: real)
    requires |xs| == |ws| && AllPositive(ws) && Within(xs, lo, hi)
    ensures lo * Sum(ws) <= WeightedSum(xs, ws) <= hi * Sum(ws)
  {
    var los: seq<real> := seq(|xs|, _ => lo);
    var his: seq<real> := seq(|xs|, _ => hi);
    WeightedSumMonotone(los, xs, ws);
    WeightedSumMonotone(xs, his, ws);
    WeightedSumConstant(lo, los, ws);
    WeightedSumConstant(hi, his, ws);
  }

  /** Multiplication distributes over addition. */
  lemma Distribute(a: real, b: real, c: real)
    ensures a * (b + c) == a * b + a * c
  {
  }

  /** Multiplying by a positive weight preserves order. */
  lemma ScaleLe(x: real, y: real, w: real)
    requires w > 0.0 && x <= y
    ensures x * w <= y * w
  {
    assert (y - x) * w >= 0.0;
  }

  /** A quotient q = a / s of a quantity in [lo * s, hi * s] by a positive s
      lands in [lo, hi]. */
  lemma QuotientBounds(a: real, s: real, q: real, lo: real, hi: real)
    requires s > 0.0 && lo * s <= a <= hi * s && q * s == a
    ensures lo <= q <= hi
  {
    assert (q - lo) * s >= 0.0;
    assert (hi - q) * s >= 0.0;
  }

  /** The mean of values in [lo, hi] lies in [lo, hi]. */
  lemma MeanBounds(xs: seq<real>, lo: real, hi: real)
    requires |xs| > 0 && Within(xs, lo, hi)
    ensures lo <= Mean(xs) <= hi
  {
    SumBounds(xs, lo, hi);
    QuotientBounds(Sum(xs), |xs| as real, Mean(xs), lo, hi);
  }

  /** The weighted mean of values in [lo, hi] under positive weights lies in
      [lo, hi]. */
  lemma WeightedMeanBounds(xs: seq<real>, ws: seq<real>, lo: real, hi: real)
    requires |xs| == |ws| > 0 && AllPositive(ws) && Within(xs, lo, hi)
    ensures Sum(ws) > 0.0
    ensures lo <= WeightedMean(xs, ws) <= hi
  {
    SumPositive(ws);
    WeightedSumBounds(xs, ws, lo, hi);
    QuotientBounds(WeightedSum(xs, ws), Sum(ws), WeightedMean(xs, ws), lo, hi);
  }

  /** When every weight is the same value c, each term is c times the value. */
  lemma {:induction false} WeightedSumUniform(xs: seq<real>, ws: seq<real>, c: real)
    requires |xs| == |ws|
    requires forall i :: 0 <= i < |ws| ==> ws[i] == c
    ensures WeightedSum(xs, ws) == c * Sum(xs)
    ensures Sum(ws) == (|ws| as real) * c
  {
    if xs != [] {
      assert forall i :: 0 <= i < |ws[1..]| ==> ws[1..][i] == c by {
        forall i | 0 <= i < |ws[1..]| ensures ws[1..][i] == c {
          assert ws[1..][i] == ws[i + 1];
        }
      }
      WeightedSumUniform(xs[1..], ws[1..], c);
      assert (|ws| as real) * c == c + (|ws[1..]| as real) * c;
    }
  }

  /** Equal non-zero weights make the weighted mean the plain mean. */
  lemma WeightedMeanUniform(xs: seq<real>, ws: seq<real>, c: real)
    requires |xs| == |ws| > 0 && c != 0.0
    requires forall i :: 0 <= i < |ws| ==> ws[i] == c
    ensures Sum(ws) != 0.0
    ensures WeightedMean(xs, ws) == Mean(xs)
  {
    WeightedSumUniform(xs, ws, c);
    CancelFactor(Sum(xs), |xs| as real, c);
  }

  /** A common non-zero factor cancels in a quotient. */
  lemma CancelFactor(a: real, n: real, c: real)
    requires n != 0.0 && c != 0.0
    ensures (c * a) / (n * c) == a / n
  {
    var q := a / n;
    assert q * n == a;
    assert c * a == q * (n * c);
  }
}
