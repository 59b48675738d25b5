/** The performance functions that XPAL evaluates on probability-weighted
    confusion matrices: recall, macro accuracy, accuracy, precision and F1.
    Row `i` of a confusion matrix is the true class `i`, column `j` the
    predicted class `j`; the last class is the "positive" one. A NaN result
    is `None`. */
module Scores {
  import opened Common

  /** A confusion matrix over `n >= 1` classes with non-negative entries.
      The scores index its last row and column, so at least one class is
      needed. */
  predicate IsConfusion(c: seq<seq<real>>, n: nat)
  {
    n >= 1 && IsMatrix(c, n, n) && forall i, j :: 0 <= i < n && 0 <= j < n ==> c[i][j] >= 0.0
  }

  /** Column `j` of a matrix (`c[:, j]`). */
  function Column(c: seq<seq<real>>, j: nat): (col: seq<real>)
    requires forall i :: 0 <= i < |c| ==> j < |c[i]|
    ensures |col| == |c| && forall i :: 0 <= i < |c| ==> col[i] == c[i][j]
  {
    seq(|c|, i requires 0 <= i < |c| => c[i][j])
  }

  /** The diagonal of a square matrix (`c.diagonal()`). */
  function Diagonal(c: seq<seq<real>>, n: nat): (d: seq<real>)
    requires IsMatrix(c, n, n)
    ensures |d| == n && forall i :: 0 <= i < n ==> d[i] == c[i][i]
  {
    seq(n, i requires 0 <= i < n => c[i][i])
  }

  /** The row sums (`c.sum(axis=1)`). */
  function RowSums(c: seq<seq<real>>): (s: seq<real>)
    ensures |s| == |c| && forall i :: 0 <= i < |c| ==> s[i] == RealSum(c[i])
  {
    seq(|c|, i requires 0 <= i < |c| => RealSum(c[i]))
  }

  /** The sum of all entries (`c.sum()`). */
  function Total(c: seq<seq<real>>): real
  {
    RealSum(RowSums(c))
  }

  /** Floating-point division where a zero denominator comes with a zero
      numerator, so that `0/0` is NaN. */
  function Ratio(a: real, b: real): (r: Float)
    requires 0.0 <= a <= b
    ensures r.Some? <==> b > 0.0
    ensures r.Some? ==> 0.0 <= r.value <= 1.0 && r.value * b == a
  {
    if b == 0.0 then None else RatioBound(a, b); Some(a / b)
  }

  lemma RatioBound(a: real, b: real)
    requires 0.0 <= a <= b && b > 0.0
    ensures 0.0 <= a / b <= 1.0 && a / b * b == a
  {
  }

  lemma RowBounds(c: seq<seq<real>>, n: nat, i: nat)
    requires IsConfusion(c, n) && i < n
    ensures 0.0 <= c[i][i] <= RealSum(c[i])
  {
    RealSumBound(c[i], i);
  }

  lemma ColumnBounds(c: seq<seq<real>>, n: nat, j: nat)
    requires IsConfusion(c, n) && j < n
    ensures 0.0 <= c[j][j] <= RealSum(Column(c, j))
  {
    RealSumBound(Column(c, j), j);
  }

  /** `score_recall`: the share of the positive class that is predicted
      positive; NaN when the positive class has no mass. */
  function Recall(c: seq<seq<real>>, n: nat): (r: Float)
    requires IsConfusion(c, n)
    ensures r.Some? <==> RealSum(c[n - 1]) > 0.0
    ensures r.Some? ==> 0.0 <= r.value <= 1.0 && r.value * RealSum(c[n - 1]) == c[n - 1][n - 1]
  {
    RowBounds(c, n, n - 1);
    Ratio(c[n - 1][n - 1], RealSum(c[n - 1]))
  }

  /** `score_precision`: the share of positive predictions that are right,
      and 0 when nothing is predicted positive. */
  function Precision(c: seq<seq<real>>, n: nat): (r: real)
    requires IsConfusion(c, n)
    ensures 0.0 <= r <= 1.0
    ensures RealSum(Column(c, n - 1)) == 0.0 ==> r == 0.0
    ensures RealSum(Column(c, n - 1)) > 0.0 ==> r * RealSum(Column(c, n - 1)) == c[n - 1][n - 1]
  {
    var positives := RealSum(Column(c, n - 1));
    ColumnBounds(c, n, n - 1);
    if positives > 0.0 then RatioBound(c[n - 1][n - 1], positives); c[n - 1][n - 1] / positives else 0.0
  }

  /** `f1_score_func`: the harmonic mean of recall and precision, and 0 when
      their sum is not positive (a NaN recall also fails `norm > 0`). */
  function F1Score(c: seq<seq<real>>, n: nat): (r: real)
    requires IsConfusion(c, n)
    ensures 0.0 <= r <= 1.0
    ensures Recall(c, n).None? || Recall(c, n).value + Precision(c, n) == 0.0 ==> r == 0.0
  {
    var recall := Recall(c, n);
    var precision := Precision(c, n);
    if recall.Some? && recall.value + precision > 0.0 then F1Of(recall.value, precision) else 0.0
  }

  /** `2 r p / (r + p)` for a recall and a precision in [0, 1]. */
  function F1Of(r: real, p: real): (f: real)
    requires 0.0 <= r <= 1.0 && 0.0 <= p <= 1.0 && r + p > 0.0
    ensures 0.0 <= f <= 1.0
  {
    F1Bound(r, p);
    2.0 * r * p / (r + p)
  }

  lemma F1Bound(r: real, p: real)
    requires 0.0 <= r <= 1.0 && 0.0 <= p <= 1.0 && r + p > 0.0
    ensures 0.0 <= 2.0 * r * p / (r + p) <= 1.0
  {
    MulNonNegative(r, 1.0 - p);
    MulNonNegative(p, 1.0 - r);
    MulNonNegative(2.0 * r, p);
    assert r + p - 2.0 * r * p == r * (1.0 - p) + p * (1.0 - r);
    RatioBound(2.0 * r * p, r + p);
  }

  lemma MulNonNegative(a: real, b: real)
    requires a >= 0.0 && b >= 0.0
    ensures a * b >= 0.0
  {
  }

  /** With both recall and precision positive, F1 is their harmonic mean. */
  lemma F1IsHarmonicMean(c: seq<seq<real>>, n: nat)
    requires IsConfusion(c, n)
    requires Recall(c, n).Some? && Recall(c, n).value > 0.0 && Precision(c, n) > 0.0
    ensures F1Score(c, n) == 2.0 / (1.0 / Recall(c, n).value + 1.0 / Precision(c, n))
  {
    var r, p := Recall(c, n).value, Precision(c, n);
    assert F1Score(c, n) == F1Of(r, p);
    HarmonicMean(r, p);
  }

  lemma HarmonicMean(r: real, p: real)
    requires r > 0.0 && p > 0.0
    ensures 2.0 * r * p / (r + p) == 2.0 / (1.0 / r + 1.0 / p)
  {
    assert 1.0 / r + 1.0 / p == (r + p) / (r * p);
  }

  /** `macro_accuracy_func`: the mean over classes of the per-class recall;
      NaN as soon as one class has no mass. */
  function MacroAccuracy(c: seq<seq<real>>, n: nat): (r: Float)
    requires IsConfusion(c, n)
    ensures r.Some? <==> forall i :: 0 <= i < n ==> RealSum(c[i]) > 0.0
    ensures r.Some? ==> 0.0 <= r.value <= 1.0 && r.value * n as real == RealSum(ClassRecalls(c, n))
  {
    if forall i :: 0 <= i < n ==> RealSum(c[i]) > 0.0 then
      var recalls := ClassRecalls(c, n);
      MeanBound(recalls);
      Some(RealSum(recalls) / n as real)
    else None
  }

  /** The per-class recalls `diag / row sums`, all of them defined. */
  function ClassRecalls(c: seq<seq<real>>, n: nat): (v: seq<real>)
    requires IsConfusion(c, n) && forall i :: 0 <= i < n ==> RealSum(c[i]) > 0.0
    ensures |v| == n
    ensures forall i :: 0 <= i < n ==> 0.0 <= v[i] <= 1.0 && v[i] * RealSum(c[i]) == c[i][i]
  {
    RecallsBounded(c, n);
    seq(n, i requires 0 <= i < n => c[i][i] / RealSum(c[i]))
  }

  lemma RecallsBounded(c: seq<seq<real>>, n: nat)
    requires IsConfusion(c, n) && forall i :: 0 <= i < n ==> RealSum(c[i]) > 0.0
    ensures forall i :: 0 <= i < n ==>
      0.0 <= c[i][i] / RealSum(c[i]) <= 1.0 && c[i][i] / RealSum(c[i]) * RealSum(c[i]) == c[i][i]
  {
    forall i | 0 <= i < n
      ensures 0.0 <= c[i][i] / RealSum(c[i]) <= 1.0 && c[i][i] / RealSum(c[i]) * RealSum(c[i]) == c[i][i]
    {
      RowBounds(c, n, i);
      RatioBound(c[i][i], RealSum(c[i]));
    }
  }

  lemma MeanBound(v: seq<real>)
    requires |v| >= 1 && forall i :: 0 <= i < |v| ==> 0.0 <= v[i] <= 1.0
    ensures 0.0 <= RealSum(v) / |v| as real <= 1.0
  {
    RealSumNonNegative(v);
    RealSumAtMostLength(v);
    RatioBound(RealSum(v), |v| as real);
  }

  lemma RowSumsNonNegative(c: seq<seq<real>>, n: nat)
    requires IsConfusion(c, n)
    ensures forall i :: 0 <= i < n ==> RealSum(c[i]) >= 0.0
  {
    forall i | 0 <= i < n
      ensures RealSum(c[i]) >= 0.0
    {
      RealSumNonNegative(c[i]);
    }
  }

  /** `score_accuracy`: the diagonal mass over the total mass; NaN when the
      matrix is all zero. */
  function Accuracy(c: seq<seq<real>>, n: nat): (r: Float)
    requires IsConfusion(c, n)
    ensures r.Some? <==> Total(c) > 0.0
    ensures r.Some? ==> 0.0 <= r.value <= 1.0 && r.value * Total(c) == RealSum(Diagonal(c, n))
  {
    DiagonalBounds(c, n);
    Ratio(RealSum(Diagonal(c, n)), Total(c))
  }

  lemma DiagonalBounds(c: seq<seq<real>>, n: nat)
    requires IsConfusion(c, n)
    ensures 0.0 <= RealSum(Diagonal(c, n)) <= Total(c)
  {
    var d := Diagonal(c, n);
    forall i | 0 <= i < n
      ensures d[i] <= RowSums(c)[i]
    {
      RowBounds(c, n, i);
    }
    RealSumNonNegative(d);
    RealSumLeq(d, RowSums(c));
  }

  /** A confusion matrix of a classifier that is always right: all mass on
      the diagonal, and every class present. */
  predicate IsPerfect(c: seq<seq<real>>, n: nat)
  {
    IsConfusion(c, n) &&
    (forall i, j :: 0 <= i < n && 0 <= j < n && i != j ==> c[i][j] == 0.0) &&
    (forall i :: 0 <= i < n ==> c[i][i] > 0.0)
  }

  lemma PerfectRows(c: seq<seq<real>>, n: nat)
    requires IsPerfect(c, n)
    ensures forall i :: 0 <= i < n ==> RealSum(c[i]) == c[i][i]
    ensures RealSum(Column(c, n - 1)) == c[n - 1][n - 1]
  {
    forall i | 0 <= i < n
      ensures RealSum(c[i]) == c[i][i]
    {
      RealSumIndicator(c[i], i);
    }
    RealSumIndicator(Column(c, n - 1), n - 1);
  }

  /** On a perfect confusion matrix recall, precision and F1 are 1. */
  lemma PerfectRecallPrecision(c: seq<seq<real>>, n: nat)
    requires IsPerfect(c, n)
    ensures Recall(c, n) == Some(1.0)
    ensures Precision(c, n) == 1.0
    ensures F1Score(c, n) == 1.0
  {
    PerfectRows(c, n);
    UnitRatio(Recall(c, n).value, c[n - 1][n - 1]);
    UnitRatio(Precision(c, n), c[n - 1][n - 1]);
  }

  /** On a perfect confusion matrix accuracy is 1. */
  lemma PerfectAccuracy(c: seq<seq<real>>, n: nat)
    requires IsPerfect(c, n)
    ensures Accuracy(c, n) == Some(1.0)
  {
    PerfectRows(c, n);
    assert RowSums(c) == Diagonal(c, n);
    RealSumBound(Diagonal(c, n), 0);
    UnitRatio(Accuracy(c, n).value, Total(c));
  }

  /** On a perfect confusion matrix macro accuracy is 1. */
  lemma PerfectMacroAccuracy(c: seq<seq<real>>, n: nat)
    requires IsPerfect(c, n)
    ensures MacroAccuracy(c, n) == Some(1.0)
  {
    PerfectRows(c, n);
    var recalls := ClassRecalls(c, n);
    PerfectClassRecalls(c, n);
    MeanOfOnes(recalls);
  }

  lemma PerfectClassRecalls(c: seq<seq<real>>, n: nat)
    requires IsPerfect(c, n)
    requires forall i :: 0 <= i < n ==> RealSum(c[i]) == c[i][i]
    ensures forall i :: 0 <= i < n ==> ClassRecalls(c, n)[i] == 1.0
  {
    forall i | 0 <= i < n
      ensures ClassRecalls(c, n)[i] == 1.0
    {
      var v := ClassRecalls(c, n)[i];
      assert v * RealSum(c[i]) == c[i][i];
      UnitRatio(v, c[i][i]);
    }
  }

  lemma MeanOfOnes(v: seq<real>)
    requires |v| >= 1 && forall i :: 0 <= i < |v| ==> v[i] == 1.0
    ensures RealSum(v) / |v| as real == 1.0
  {
    AllOnes(v);
  }

  lemma UnitRatio(v: real, b: real)
    requires b > 0.0 && v * b == b
    ensures v == 1.0
  {
  }

  lemma {:induction false} AllOnes(v: seq<real>)
    requires forall i :: 0 <= i < |v| ==> v[i] == 1.0
    ensures RealSum(v) == |v| as real
  {
    if v != [] {
      AllOnes(v[..|v| - 1]);
    }
  }
}
