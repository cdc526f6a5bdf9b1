/** Pair-count normalization (`normalization`, `normalized_wcounts`) and its
    meaning as a sum over ordered pairs of distinct objects. */
module Normalization {
  import opened Outcomes
  import opened Arrays
  import opened Catalog

  /** Normalization without weights: the number of ordered pairs of distinct objects,
      N(N-1) for an autocorrelation and N1*N2 across two catalogs. */
  function UnweightedNorm(autocorr: bool, n1: nat, n2: nat): int
  {
    if autocorr then n1 * (n1 - 1) else n1 * n2
  }

  /** Normalization with pair-product weights: (sum w)^2 - sum w^2 for an
      autocorrelation (self-pairs removed) and sum w1 * sum w2 across catalogs. */
  function WeightedNorm(autocorr: bool, w1: seq<real>, w2: seq<real>): real
  {
    if autocorr then Sum(w1) * Sum(w1) - SumSq(w1) else Sum(w1) * Sum(w2)
  }

  /** `normalization()`, dispatched on the resolved weight type. */
  function Norm(autocorr: bool, size1: nat, size2: nat, weighting: Weighting): (r: real)
    requires weighting.weightType == PairProduct ==> weighting.weights1.Some?
    requires weighting.weightType == PairProduct && !autocorr ==> weighting.weights2.Some?
    ensures weighting.weightType != PairProduct ==> r == UnweightedNorm(autocorr, size1, size2) as real
    ensures weighting.weightType == PairProduct ==>
      r == WeightedNorm(autocorr, weighting.weights1.value,
                        if autocorr then [] else weighting.weights2.value)
  {
    if weighting.weightType != PairProduct then UnweightedNorm(autocorr, size1, size2) as real
    else if autocorr then WeightedNorm(true, weighting.weights1.value, [])
    else WeightedNorm(false, weighting.weights1.value, weighting.weights2.value)
  }

  // ------------------------------------------------------------ ordered pairs

  /** Sum of w[i] * w[j] over j < n, j != i. */
  function PairProductsWith(w: seq<real>, i: nat, n: nat): real
    requires i < |w| && n <= |w|
  {
    if n == 0 then 0.0
    else PairProductsWith(w, i, n - 1) + (if n - 1 == i then 0.0 else w[i] * w[n - 1])
  }

  /** Sum of w[i] * w[j] over ordered pairs i < n, j < |w|, i != j. */
  function OrderedPairSum(w: seq<real>, n: nat): real
    requires n <= |w|
  {
    if n == 0 then 0.0 else OrderedPairSum(w, n - 1) + PairProductsWith(w, n - 1, |w|)
  }

  /** Sum of the first n weights. */
  function PrefixSum(w: seq<real>, n: nat): real
    requires n <= |w|
  {
    if n == 0 then 0.0 else PrefixSum(w, n - 1) + w[n - 1]
  }

  /** Sum of the squares of the first n weights. */
  function PrefixSumSq(w: seq<real>, n: nat): real
    requires n <= |w|
  {
    if n == 0 then 0.0 else PrefixSumSq(w, n - 1) + w[n - 1] * w[n - 1]
  }

  /** The prefix of every weight is the whole sum. */
  lemma {:induction false} PrefixSumsAreSums(w: seq<real>)
    ensures PrefixSum(w, |w|) == Sum(w) && PrefixSumSq(w, |w|) == SumSq(w)
  {
    if w != [] {
      var init, last := w[..|w| - 1], w[|w| - 1];
      assert w == init + [last];
      PrefixSumsAreSums(init);
      PrefixSumsAgree(w, init, |init|);
      SumSnoc(init, last);
      SumSqSnoc(init, last);
    }
  }

  /** Prefix sums only look at the prefix. */
  lemma {:induction false} PrefixSumsAgree(w: seq<real>, v: seq<real>, n: nat)
    requires n <= |w| && n <= |v| && w[..n] == v[..n]
    ensures PrefixSum(w, n) == PrefixSum(v, n) && PrefixSumSq(w, n) == PrefixSumSq(v, n)
  {
    if n > 0 {
      assert w[n - 1] == w[..n][n - 1] == v[..n][n - 1] == v[n - 1];
      assert w[..n - 1] == w[..n][..n - 1] == v[..n][..n - 1] == v[..n - 1];
      PrefixSumsAgree(w, v, n - 1);
    }
  }

  /** Sum of w[j] over j < n, j != i: the weights w[i] is paired with. */
  function Others(w: seq<real>, i: nat, n: nat): real
    requires i < |w| && n <= |w|
  {
    if n == 0 then 0.0 else Others(w, i, n - 1) + (if n - 1 == i then 0.0 else w[n - 1])
  }

  /** Leaving one weight out of the whole sum. */
  lemma {:induction false} OthersClosed(w: seq<real>, i: nat, n: nat)
    requires i < |w| && n <= |w|
    ensures Others(w, i, n) == PrefixSum(w, n) - (if i < n then w[i] else 0.0)
  {
    if n > 0 {
      OthersClosed(w, i, n - 1);
    }
  }

  /** The algebra of one induction step of PairProductsWithFactor. */
  lemma {:induction false} RowStep(a: real, before: real, after: real, others: real, othersN: real, term: real, x: real)
    requires before == a * others
    requires othersN == others + x && term == a * x && after == before + term
    ensures after == a * othersN
  {
  }

  /** One row of the pair sum is w[i] times the sum of the weights it is paired with. */
  lemma {:induction false} PairProductsWithFactor(w: seq<real>, i: nat, n: nat)
    requires i < |w| && n <= |w|
    ensures PairProductsWith(w, i, n) == w[i] * Others(w, i, n)
  {
    if n > 0 {
      PairProductsWithFactor(w, i, n - 1);
      RowStep(w[i], PairProductsWith(w, i, n - 1), PairProductsWith(w, i, n),
              Others(w, i, n - 1), Others(w, i, n),
              if n - 1 == i then 0.0 else w[i] * w[n - 1], if n - 1 == i then 0.0 else w[n - 1]);
    }
  }

  /** The algebra of one row: a * (t - a) == t * a - a * a. */
  lemma {:induction false} RowAlgebra(a: real, others: real, total: real, row: real)
    requires row == a * others && others == total - a
    ensures row == total * a - a * a
  {
  }

  /** Row i of the pair sum is w[i] times the total weight, less w[i] squared. */
  lemma {:induction false} RowValue(w: seq<real>, i: nat)
    requires i < |w|
    ensures PairProductsWith(w, i, |w|) == Sum(w) * w[i] - w[i] * w[i]
  {
    PairProductsWithFactor(w, i, |w|);
    OthersClosed(w, i, |w|);
    PrefixSumsAreSums(w);
    RowAlgebra(w[i], Others(w, i, |w|), Sum(w), PairProductsWith(w, i, |w|));
  }

  /** Every row of the pair sum at once, against the weights scaled by their total. */
  lemma {:induction false} RowValues(w: seq<real>)
    ensures forall i :: 0 <= i < |w| ==> PairProductsWith(w, i, |w|) == Scale(w, Sum(w))[i] - w[i] * w[i]
  {
    forall i | 0 <= i < |w|
      ensures PairProductsWith(w, i, |w|) == Scale(w, Sum(w))[i] - w[i] * w[i]
    {
      RowValue(w, i);
    }
  }

  /** Once every row is known as v[i] - w[i]^2, the ordered-pair sum is a plain sum. */
  lemma {:induction false} OrderedPairSumOfRows(w: seq<real>, v: seq<real>, n: nat)
    requires n <= |w| == |v|
    requires forall i :: 0 <= i < |w| ==> PairProductsWith(w, i, |w|) == v[i] - w[i] * w[i]
    ensures OrderedPairSum(w, n) == PrefixSum(v, n) - PrefixSumSq(w, n)
  {
    if n > 0 {
      OrderedPairSumOfRows(w, v, n - 1);
    }
  }

  /** The weighted autocorrelation normalization is the sum of w_i * w_j over all
      ordered pairs of distinct objects. */
  lemma {:induction false} WeightedAutoNormIsOrderedPairSum(w: seq<real>)
    ensures WeightedNorm(true, w, []) == OrderedPairSum(w, |w|)
  {
    var v := Scale(w, Sum(w));
    RowValues(w);
    OrderedPairSumOfRows(w, v, |w|);
    PrefixSumsAreSums(v);
    PrefixSumsAreSums(w);
    SumScale(w, Sum(w));
  }

  /** With non-negative weights the autocorrelation normalization is non-negative. */
  lemma {:induction false} WeightedAutoNormNonNegative(w: seq<real>)
    requires forall i :: 0 <= i < |w| ==> w[i] >= 0.0
    ensures WeightedNorm(true, w, []) >= 0.0
  {
    WeightedAutoNormIsOrderedPairSum(w);
    OrderedPairSumNonNegative(w, |w|);
  }

  lemma {:induction false} OrderedPairSumNonNegative(w: seq<real>, n: nat)
    requires n <= |w|
    requires forall i :: 0 <= i < |w| ==> w[i] >= 0.0
    ensures OrderedPairSum(w, n) >= 0.0
  {
    if n > 0 {
      OrderedPairSumNonNegative(w, n - 1);
      PairProductsWithNonNegative(w, n - 1, |w|);
    }
  }

  lemma {:induction false} PairProductsWithNonNegative(w: seq<real>, i: nat, n: nat)
    requires i < |w| && n <= |w|
    requires forall k :: 0 <= k < |w| ==> w[k] >= 0.0
    ensures PairProductsWith(w, i, n) >= 0.0
  {
    if n > 0 {
      PairProductsWithNonNegative(w, i, n - 1);
      assert w[i] * w[n - 1] >= 0.0;
    }
  }

  // ------------------------------------------------------------ unit weights

  function Ones(n: nat): (s: seq<real>)
    ensures |s| == n && forall i :: 0 <= i < n ==> s[i] == 1.0
  {
    seq(n, i => 1.0)
  }

  lemma {:induction false} SumOnes(n: nat)
    ensures Sum(Ones(n)) == n as real && SumSq(Ones(n)) == n as real
  {
    if n > 0 {
      SumOnes(n - 1);
      assert Ones(n) == [1.0] + Ones(n - 1);
    }
  }

  /** Unit weights reduce the weighted normalizations to the unweighted pair counts:
      N(N-1) for an autocorrelation, N1*N2 across catalogs. */
  lemma {:induction false} UnitWeightsGivePairCounts(n1: nat, n2: nat)
    ensures WeightedNorm(true, Ones(n1), []) == UnweightedNorm(true, n1, n1) as real
    ensures WeightedNorm(false, Ones(n1), Ones(n2)) == UnweightedNorm(false, n1, n2) as real
  {
    assert Sum(Ones(n1)) == n1 as real && SumSq(Ones(n1)) == n1 as real by {
      SumOnes(n1);
    }
    assert Sum(Ones(n2)) == n2 as real by {
      SumOnes(n2);
    }
    RealProduct(n1, n1 - 1);
    RealProduct(n1, n2);
  }

  /** Converting a product of integers to a real multiplies the converted factors. */
  lemma {:induction false} RealProduct(a: int, b: int)
    ensures (a * b) as real == (a as real) * (b as real)
  {
  }

  /** N(N-1) is the number of ordered pairs of distinct objects. */
  lemma {:induction false} UnweightedAutoNormCountsOrderedPairs(n: nat)
    ensures UnweightedNorm(true, n, n) as real == OrderedPairSum(Ones(n), n)
  {
    UnitWeightsGivePairCounts(n, n);
    WeightedAutoNormIsOrderedPairSum(Ones(n));
  }

  // ------------------------------------------------------------ normalized counts

  /** `wcounts / norm`, elementwise. */
  function NormalizedWcounts(wcounts: Grid, norm: real): (r: Grid)
    requires norm != 0.0
    ensures r.Dims() == wcounts.Dims() && r.Line? == wcounts.Line?
    ensures wcounts.Rectangular() ==> r.Rectangular()
    ensures r.Line? ==> forall i :: 0 <= i < |r.cells| ==> r.cells[i] * norm == wcounts.cells[i]
    ensures r.Plane? ==> forall i, j :: 0 <= i < |r.rows| && 0 <= j < |r.rows[i]| ==>
      |wcounts.rows[i]| == |r.rows[i]| && r.rows[i][j] * norm == wcounts.rows[i][j]
  {
    ScaleGrid(wcounts, 1.0 / norm)
  }

  /** Normalized counts add up to the total count over the normalization. */
  lemma {:induction false} NormalizedTotal(wcounts: Grid, norm: real)
    requires norm != 0.0
    ensures Total(NormalizedWcounts(wcounts, norm)) == Total(wcounts) / norm
  {
    TotalScale(wcounts, 1.0 / norm);
  }
}
