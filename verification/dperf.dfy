/** `_dperf`: the change in performance on the evaluation instances when
    the predictions change from `predOld` to `predNew`, with `probs[k][c]`
    the probability that instance `k` has class `c`. A decomposable metric
    (a cost matrix) sums cost differences over the instances whose
    prediction changed; any other metric compares a performance function on
    two probability-weighted confusion matrices. */
module PerformanceDelta {
  import opened Common
  import opened Scores
  import opened CostModel

  /** `probs` holds one distribution-like row of `n` non-negative entries
      per instance. */
  predicate IsProbs(probs: seq<seq<real>>, n: nat)
  {
    (forall k :: 0 <= k < |probs| ==> |probs[k]| == n) &&
    (forall k, c :: 0 <= k < |probs| && 0 <= c < n ==> probs[k][c] >= 0.0)
  }

  /** Every prediction is a class index. */
  predicate IsPrediction(pred: seq<int>, n: nat)
  {
    forall k :: 0 <= k < |pred| ==> 0 <= pred[k] < n
  }

  // Confusion matrices

  /** The mass of class `c` among the first `k` instances predicted as
      `y`: `np.sum(probs[pred == y], axis=0)[c]` restricted to a prefix. */
  function Mass(probs: seq<seq<real>>, pred: seq<int>, y: int, c: nat, k: nat): real
    requires k <= |probs| && |pred| == |probs|
    requires forall i :: 0 <= i < |probs| ==> c < |probs[i]|
  {
    if k == 0 then 0.0
    else Mass(probs, pred, y, c, k - 1) + (if pred[k - 1] == y then probs[k - 1][c] else 0.0)
  }

  /** `np.sum(probs[pred == y], axis=0)`. */
  function MaskedColumnSum(probs: seq<seq<real>>, pred: seq<int>, y: int, n: nat): (s: seq<real>)
    requires IsProbs(probs, n) && |pred| == |probs|
    ensures |s| == n
  {
    seq(n, c requires 0 <= c < n => Mass(probs, pred, y, c, |probs|))
  }

  /** The confusion matrix `_dperf` builds: entry `[c][y]` is the mass of
      class `c` on the instances predicted as `y`. */
  function Confusion(probs: seq<seq<real>>, pred: seq<int>, n: nat): seq<seq<real>>
    requires IsProbs(probs, n) && |pred| == |probs|
  {
    seq(n, c requires 0 <= c < n => seq(n, y requires 0 <= y < n => Mass(probs, pred, y, c, |probs|)))
  }

  /** The matrix after the loop has filled the columns `0 .. i-1`. */
  function PartialConfusion(probs: seq<seq<real>>, pred: seq<int>, n: nat, i: nat): seq<seq<real>>
    requires IsProbs(probs, n) && |pred| == |probs|
  {
    seq(n, c requires 0 <= c < n => seq(n, y requires 0 <= y < n => if y < i then Mass(probs, pred, y, c, |probs|) else 0.0))
  }

  /** `conf[:, y] += col`. */
  function AddToColumn(conf: seq<seq<real>>, y: nat, col: seq<real>): seq<seq<real>>
    requires |col| == |conf| && forall c :: 0 <= c < |conf| ==> y < |conf[c]|
  {
    seq(|conf|, c requires 0 <= c < |conf| => conf[c][y := conf[c][y] + col[c]])
  }

  lemma AddColumnStep(probs: seq<seq<real>>, pred: seq<int>, n: nat, i: nat)
    requires IsProbs(probs, n) && |pred| == |probs| && i < n
    ensures AddToColumn(PartialConfusion(probs, pred, n, i), i, MaskedColumnSum(probs, pred, i, n)) ==
      PartialConfusion(probs, pred, n, i + 1)
  {
    var before := PartialConfusion(probs, pred, n, i);
    var after := AddToColumn(before, i, MaskedColumnSum(probs, pred, i, n));
    var target := PartialConfusion(probs, pred, n, i + 1);
    forall c | 0 <= c < n
      ensures after[c] == target[c]
    {
    }
  }

  /** The loop of `_dperf` that fills `conf_mat_old` and `conf_mat_new`
      column by column, one predicted class at a time. */
  method ConfusionMatrices(probs: seq<seq<real>>, predOld: seq<int>, predNew: seq<int>, n: nat)
    returns (confOld: seq<seq<real>>, confNew: seq<seq<real>>)
    requires IsProbs(probs, n) && |predOld| == |probs| && |predNew| == |probs|
    ensures confOld == Confusion(probs, predOld, n)
    ensures confNew == Confusion(probs, predNew, n)
  {
    confOld := PartialConfusion(probs, predOld, n, 0);
    confNew := PartialConfusion(probs, predNew, n, 0);
    for y := 0 to n
      invariant confOld == PartialConfusion(probs, predOld, n, y)
      invariant confNew == PartialConfusion(probs, predNew, n, y)
    {
      AddColumnStep(probs, predOld, n, y);
      AddColumnStep(probs, predNew, n, y);
      confOld := AddToColumn(confOld, y, MaskedColumnSum(probs, predOld, y, n));
      confNew := AddToColumn(confNew, y, MaskedColumnSum(probs, predNew, y, n));
    }
    PartialConfusionComplete(probs, predOld, n);
    PartialConfusionComplete(probs, predNew, n);
  }

  lemma PartialConfusionComplete(probs: seq<seq<real>>, pred: seq<int>, n: nat)
    requires IsProbs(probs, n) && |pred| == |probs|
    ensures PartialConfusion(probs, pred, n, n) == Confusion(probs, pred, n)
  {
    var full := PartialConfusion(probs, pred, n, n);
    forall c | 0 <= c < n
      ensures full[c] == Confusion(probs, pred, n)[c]
    {
    }
  }

  lemma {:induction false} MassNonNegative(probs: seq<seq<real>>, pred: seq<int>, y: int, c: nat, k: nat, n: nat)
    requires IsProbs(probs, n) && |pred| == |probs| && k <= |probs| && c < n
    ensures Mass(probs, pred, y, c, k) >= 0.0
  {
    if k > 0 {
      MassNonNegative(probs, pred, y, c, k - 1, n);
    }
  }

  /** The confusion matrix of probabilities is a valid input to the scores. */
  lemma ConfusionIsConfusion(probs: seq<seq<real>>, pred: seq<int>, n: nat)
    requires IsProbs(probs, n) && |pred| == |probs| && n >= 1
    ensures IsConfusion(Confusion(probs, pred, n), n)
  {
    forall c, y | 0 <= c < n && 0 <= y < n
      ensures Confusion(probs, pred, n)[c][y] >= 0.0
    {
      MassNonNegative(probs, pred, y, c, |probs|, n);
    }
  }

  /** The mass of class `c` over the first `k` instances. */
  function ClassMass(probs: seq<seq<real>>, c: nat, k: nat): real
    requires k <= |probs| && forall i :: 0 <= i < |probs| ==> c < |probs[i]|
  {
    if k == 0 then 0.0 else ClassMass(probs, c, k - 1) + probs[k - 1][c]
  }

  /** Row `c` of the confusion matrix over the first `k` instances. */
  function ConfusionRow(probs: seq<seq<real>>, pred: seq<int>, c: nat, n: nat, k: nat): (row: seq<real>)
    requires IsProbs(probs, n) && |pred| == |probs| && k <= |probs| && c < n
    ensures |row| == n
  {
    seq(n, y requires 0 <= y < n => Mass(probs, pred, y, c, k))
  }

  /** When every prediction is a class, each instance's mass of class `c`
      lands in exactly one column of row `c`: the row sums to the total
      mass of class `c`. */
  lemma {:induction false} ConfusionRowTotal(probs: seq<seq<real>>, pred: seq<int>, c: nat, n: nat, k: nat)
    requires IsProbs(probs, n) && |pred| == |probs| && IsPrediction(pred, n) && k <= |probs| && c < n
    ensures RealSum(ConfusionRow(probs, pred, c, n, k)) == ClassMass(probs, c, k)
  {
    if k == 0 {
      RealSumZero(ConfusionRow(probs, pred, c, n, 0));
    } else {
      ConfusionRowTotal(probs, pred, c, n, k - 1);
      ConfusionRowStep(probs, pred, c, n, k);
    }
  }

  lemma ConfusionRowStep(probs: seq<seq<real>>, pred: seq<int>, c: nat, n: nat, k: nat)
    requires IsProbs(probs, n) && |pred| == |probs| && IsPrediction(pred, n) && 1 <= k <= |probs| && c < n
    ensures RealSum(ConfusionRow(probs, pred, c, n, k)) ==
      RealSum(ConfusionRow(probs, pred, c, n, k - 1)) + probs[k - 1][c]
  {
    var t := pred[k - 1];
    var x := probs[k - 1][c];
    var spike := seq(n, y requires 0 <= y < n => if y == t then x else 0.0);
    RealSumPlus(ConfusionRow(probs, pred, c, n, k), ConfusionRow(probs, pred, c, n, k - 1), spike);
    RealSumIndicator(spike, t);
  }

  /** The whole row `c` of `Confusion` is the total mass of class `c`. */
  lemma ConfusionConservesMass(probs: seq<seq<real>>, pred: seq<int>, n: nat, c: nat)
    requires IsProbs(probs, n) && |pred| == |probs| && IsPrediction(pred, n) && c < n
    ensures RealSum(Confusion(probs, pred, n)[c]) == ClassMass(probs, c, |probs|)
  {
    ConfusionRowTotal(probs, pred, c, n, |probs|);
    assert Confusion(probs, pred, n)[c] == ConfusionRow(probs, pred, c, n, |probs|);
  }

  // The decomposable branch

  /** Every prediction reads a row of `C.T` by Python's indexing: `-n ..
      n-1`, negative ones counting from the end. */
  predicate Indexable(pred: seq<int>, n: nat)
  {
    forall k :: 0 <= k < |pred| ==> PyIndex(pred[k], n).Some?
  }

  /** Only the changed predictions are used as indices
      (`pred_old[pred_changed]`, `pred_new[pred_changed]`), so only they
      need to read a row of `C.T`. */
  predicate ChangedIndexable(predOld: seq<int>, predNew: seq<int>, n: nat)
    requires |predOld| == |predNew|
  {
    forall k :: 0 <= k < |predOld| && predOld[k] != predNew[k] ==>
      PyIndex(predOld[k], n).Some? && PyIndex(predNew[k], n).Some?
  }

  lemma IndexableChanged(predOld: seq<int>, predNew: seq<int>, n: nat)
    requires |predOld| == |predNew| && Indexable(predOld, n) && Indexable(predNew, n)
    ensures ChangedIndexable(predOld, predNew, n)
  {
  }

  /** Some prediction of `pred` that differs from `other` lies outside
      `-n .. n-1`. */
  predicate ChangedOutside(pred: seq<int>, other: seq<int>, n: nat)
    requires |pred| == |other|
  {
    exists k :: 0 <= k < |pred| && pred[k] != other[k] && PyIndex(pred[k], n).None?
  }

  /** The predictions as the rows they read: each in `0 .. n-1`. */
  function Wrapped(pred: seq<int>, n: nat): (w: seq<int>)
    requires Indexable(pred, n)
    ensures |w| == |pred| && IsPrediction(w, n) && Indexable(w, n)
    ensures forall k :: 0 <= k < |pred| ==> PyIndex(w[k], n) == PyIndex(pred[k], n)
  {
    seq(|pred|, k requires 0 <= k < |pred| => PyIndex(pred[k], n).value as int)
  }

  /** `np.sum(p * (C.T[a] - C.T[b]))` for one instance. */
  function RowDelta(p: seq<real>, cost: seq<seq<real>>, a: nat, b: nat, n: nat): (d: seq<real>)
    requires |p| == n && IsMatrix(cost, n, n) && a < n && b < n
    ensures |d| == n
  {
    seq(n, c requires 0 <= c < n => p[c] * (cost[c][a] - cost[c][b]))
  }

  /** The summed cost differences of the first `k` instances, counting only
      those whose prediction changed. */
  function ChangedSum(probs: seq<seq<real>>, predOld: seq<int>, predNew: seq<int>, cost: seq<seq<real>>, n: nat, k: nat): real
    requires IsProbs(probs, n) && |predOld| == |probs| == |predNew| && k <= |probs|
    requires IsMatrix(cost, n, n) && ChangedIndexable(predOld, predNew, n)
  {
    if k == 0 then 0.0
    else
      ChangedSum(probs, predOld, predNew, cost, n, k - 1) +
      (if predOld[k - 1] != predNew[k - 1]
       then RealSum(RowDelta(probs[k - 1], cost, PyIndex(predOld[k - 1], n).value, PyIndex(predNew[k - 1], n).value, n))
       else 0.0)
  }

  /** The expected cost of predicting `j` for an instance with class
      probabilities `p`: `p . C[:, j]`. */
  function ExpectedCost(p: seq<real>, cost: seq<seq<real>>, j: nat, n: nat): real
    requires |p| == n && IsMatrix(cost, n, n) && j < n
  {
    RealSum(seq(n, c requires 0 <= c < n => p[c] * cost[c][j]))
  }

  /** The total expected cost of the predictions of the first `k` instances,
      each prediction read as the row of `C.T` it indexes. */
  function Risk(probs: seq<seq<real>>, pred: seq<int>, cost: seq<seq<real>>, n: nat, k: nat): real
    requires IsProbs(probs, n) && |pred| == |probs| && k <= |probs|
    requires IsMatrix(cost, n, n) && Indexable(pred, n)
  {
    if k == 0 then 0.0
    else Risk(probs, pred, cost, n, k - 1) + ExpectedCost(probs[k - 1], cost, PyIndex(pred[k - 1], n).value, n)
  }

  lemma RowDeltaSum(p: seq<real>, cost: seq<seq<real>>, a: nat, b: nat, n: nat)
    requires |p| == n && IsMatrix(cost, n, n) && a < n && b < n
    ensures RealSum(RowDelta(p, cost, a, b, n)) == ExpectedCost(p, cost, a, n) - ExpectedCost(p, cost, b, n)
  {
    var ea := seq(n, c requires 0 <= c < n => p[c] * cost[c][a]);
    var eb := seq(n, c requires 0 <= c < n => p[c] * cost[c][b]);
    var d := RowDelta(p, cost, a, b, n);
    forall c | 0 <= c < n
      ensures ea[c] == d[c] + eb[c]
    {
      MulSub(p[c], cost[c][a], cost[c][b]);
    }
    RealSumPlus(ea, d, eb);
  }

  lemma MulSub(x: real, a: real, b: real)
    ensures x * a == x * (a - b) + x * b
  {
  }

  /** Summing only over the changed predictions gives the full difference of
      expected costs: the unchanged instances cancel. */
  lemma {:induction false} ChangedSumIsRiskDifference(probs: seq<seq<real>>, predOld: seq<int>, predNew: seq<int>,
                                                      cost: seq<seq<real>>, n: nat, k: nat)
    requires IsProbs(probs, n) && |predOld| == |probs| == |predNew| && k <= |probs|
    requires IsMatrix(cost, n, n) && Indexable(predOld, n) && Indexable(predNew, n)
    ensures ChangedSum(probs, predOld, predNew, cost, n, k) ==
      Risk(probs, predOld, cost, n, k) - Risk(probs, predNew, cost, n, k)
  {
    if k > 0 {
      ChangedSumIsRiskDifference(probs, predOld, predNew, cost, n, k - 1);
      RowDeltaSum(probs[k - 1], cost, PyIndex(predOld[k - 1], n).value, PyIndex(predNew[k - 1], n).value, n);
    }
  }

  /** The decomposable branch. `C.T[pred_old[pred_changed]]` and then
      `C.T[pred_new[pred_changed]]` raise IndexError on a changed prediction
      outside `-n .. n-1`; otherwise the result is the changed-instance sum
      over `len(probs)`, and with no instances that is `0/0`, NaN. */
  function DecomposableDelta(probs: seq<seq<real>>, predOld: seq<int>, predNew: seq<int>, cost: seq<seq<real>>, n: nat)
    : (r: Result<Float>)
    requires IsProbs(probs, n) && |predOld| == |probs| == |predNew| && IsMatrix(cost, n, n)
    ensures r.Err? <==> !ChangedIndexable(predOld, predNew, n)
    ensures r.Err? ==> r.error == IndexError(if ChangedOutside(predOld, predNew, n) then "pred_old" else "pred_new")
    ensures r.Ok? ==> (r.value.Some? <==> |probs| > 0)
    ensures r.Ok? && r.value.Some? && Indexable(predOld, n) && Indexable(predNew, n) ==>
      r.value.value * |probs| as real == Risk(probs, predOld, cost, n, |probs|) - Risk(probs, predNew, cost, n, |probs|)
  {
    if ChangedOutside(predOld, predNew, n) then Err(IndexError("pred_old"))
    else if ChangedOutside(predNew, predOld, n) then Err(IndexError("pred_new"))
    else if |probs| == 0 then Ok(None)
    else
      var v := Ok(Some(ChangedSum(probs, predOld, predNew, cost, n, |probs|) / |probs| as real));
      if Indexable(predOld, n) && Indexable(predNew, n) then
        ChangedSumIsRiskDifference(probs, predOld, predNew, cost, n, |probs|);
        v
      else v
  }

  lemma {:induction false} RiskWrapped(probs: seq<seq<real>>, pred: seq<int>, cost: seq<seq<real>>, n: nat, k: nat)
    requires IsProbs(probs, n) && |pred| == |probs| && k <= |probs|
    requires IsMatrix(cost, n, n) && Indexable(pred, n)
    ensures Risk(probs, Wrapped(pred, n), cost, n, k) == Risk(probs, pred, cost, n, k)
  {
    if k > 0 {
      RiskWrapped(probs, pred, cost, n, k - 1);
    }
  }

  /** A negative prediction reads `C.T` from the end: on predictions in
      `-n .. n-1` the branch gives what it gives on the rows they read. */
  lemma DecomposableWraps(probs: seq<seq<real>>, predOld: seq<int>, predNew: seq<int>, cost: seq<seq<real>>, n: nat)
    requires IsProbs(probs, n) && |predOld| == |probs| == |predNew| && IsMatrix(cost, n, n)
    requires Indexable(predOld, n) && Indexable(predNew, n)
    ensures DecomposableDelta(probs, predOld, predNew, cost, n) ==
      DecomposableDelta(probs, Wrapped(predOld, n), Wrapped(predNew, n), cost, n)
  {
    var wOld, wNew := Wrapped(predOld, n), Wrapped(predNew, n);
    RiskWrapped(probs, predOld, cost, n, |probs|);
    RiskWrapped(probs, predNew, cost, n, |probs|);
    ChangedSumIsRiskDifference(probs, predOld, predNew, cost, n, |probs|);
    ChangedSumIsRiskDifference(probs, wOld, wNew, cost, n, |probs|);
    IndexableChanged(predOld, predNew, n);
    IndexableChanged(wOld, wNew, n);
  }

  // The whole of `_dperf`

  /** The value of `perf_func(conf)` for the selected performance function;
      `custom` is the caller's own function. */
  function Perf(f: PerfFunc, custom: seq<seq<real>> -> Float, conf: seq<seq<real>>, n: nat): Float
    requires IsConfusion(conf, n)
  {
    match f
    case MacroAccuracyFunc => MacroAccuracy(conf, n)
    case F1ScoreFunc => Some(F1Score(conf, n))
    case CustomPerfFunc => custom(conf)
  }

  /** Floating-point subtraction, NaN if either side is. */
  function Sub(a: Float, b: Float): Float
  {
    if a.Some? && b.Some? then Some(a.value - b.value) else None
  }

  /** Preconditions of `_dperf`: one row of `n >= 1` class probabilities per
      instance, one prediction per instance, and, for a decomposable metric,
      an `n` by `n` cost matrix. */
  predicate DperfArgs(probs: seq<seq<real>>, predOld: seq<int>, predNew: seq<int>, decomposable: bool,
                      costMatrix: Option<seq<seq<real>>>, n: nat)
  {
    n >= 1 && IsProbs(probs, n) && |predOld| == |probs| == |predNew| &&
    (decomposable && costMatrix.Some? ==> IsMatrix(costMatrix.value, n, n))
  }

  /** What `_dperf` returns, or the exception it raises: `C.T` on a missing
      cost matrix, a changed prediction that indexes no row of `C.T`, or a
      call of a missing performance function. */
  function DperfValue(probs: seq<seq<real>>, predOld: seq<int>, predNew: seq<int>, decomposable: bool,
                      costMatrix: Option<seq<seq<real>>>, perfFunc: Option<PerfFunc>,
                      custom: seq<seq<real>> -> Float, n: nat): Result<Float>
    requires DperfArgs(probs, predOld, predNew, decomposable, costMatrix, n)
  {
    if decomposable then
      if costMatrix.None? then Err(AttributeError("cost_matrix.T"))
      else DecomposableDelta(probs, predOld, predNew, costMatrix.value, n)
    else if perfFunc.None? then Err(TypeError("perf_func"))
    else
      ConfusionIsConfusion(probs, predOld, n);
      ConfusionIsConfusion(probs, predNew, n);
      Ok(Sub(Perf(perfFunc.value, custom, Confusion(probs, predNew, n), n),
             Perf(perfFunc.value, custom, Confusion(probs, predOld, n), n)))
  }

  /** `_dperf`. */
  method Dperf(probs: seq<seq<real>>, predOld: seq<int>, predNew: seq<int>, decomposable: bool,
               costMatrix: Option<seq<seq<real>>>, perfFunc: Option<PerfFunc>,
               custom: seq<seq<real>> -> Float, n: nat) returns (r: Result<Float>)
    requires DperfArgs(probs, predOld, predNew, decomposable, costMatrix, n)
    ensures r == DperfValue(probs, predOld, predNew, decomposable, costMatrix, perfFunc, custom, n)
  {
    if decomposable {
      if costMatrix.None? {
        return Err(AttributeError("cost_matrix.T"));
      }
      return DecomposableDelta(probs, predOld, predNew, costMatrix.value, n);
    }
    var confOld, confNew := ConfusionMatrices(probs, predOld, predNew, n);
    if perfFunc.None? {
      return Err(TypeError("perf_func"));
    }
    ConfusionIsConfusion(probs, predOld, n);
    ConfusionIsConfusion(probs, predNew, n);
    r := Ok(Sub(Perf(perfFunc.value, custom, confNew, n), Perf(perfFunc.value, custom, confOld, n)));
  }

  /** Unchanged predictions: `_dperf` is 0 in the decomposable branch (given
      at least one instance), and 0 in the other branch unless the
      performance function itself is NaN. */
  lemma DperfUnchanged(probs: seq<seq<real>>, pred: seq<int>, decomposable: bool,
                       costMatrix: Option<seq<seq<real>>>, perfFunc: Option<PerfFunc>,
                       custom: seq<seq<real>> -> Float, n: nat)
    requires DperfArgs(probs, pred, pred, decomposable, costMatrix, n)
    requires decomposable ==> costMatrix.Some? && |probs| > 0
    requires !decomposable ==> perfFunc.Some?
    ensures var r := DperfValue(probs, pred, pred, decomposable, costMatrix, perfFunc, custom, n);
      r.Ok? && (r.value == Some(0.0) || (!decomposable && r.value.None?))
  {
    if decomposable {
      UnchangedSumZero(probs, pred, costMatrix.value, n, |probs|);
    }
  }

  lemma {:induction false} UnchangedSumZero(probs: seq<seq<real>>, pred: seq<int>, cost: seq<seq<real>>, n: nat, k: nat)
    requires IsProbs(probs, n) && |pred| == |probs| && k <= |probs|
    requires IsMatrix(cost, n, n)
    ensures ChangedSum(probs, pred, pred, cost, n, k) == 0.0
  {
    if k > 0 {
      UnchangedSumZero(probs, pred, cost, n, k - 1);
    }
  }
}
