/** `_transform_metric`: turns the metric name chosen for XPAL into either a
    cost matrix (decomposable metrics, reported as
    'misclassification-loss') or a performance function on confusion
    matrices (reported as 'custom'). The cost matrices are built the way
    numpy builds them, from identity, outer products, transposes and
    `fill_diagonal`. */
module CostModel {
  import opened Common

  /** A numpy array argument, either one-dimensional or two-dimensional. */
  datatype NdArray = Vector(entries: seq<real>) | Matrix(rows: seq<seq<real>>)

  /** The performance functions the transform can select; `CustomPerfFunc`
      is the caller's own `custom_perf_func`. */
  datatype PerfFunc = MacroAccuracyFunc | F1ScoreFunc | CustomPerfFunc

  /** The triple `(metric, cost_matrix, perf_func)` returned by the
      transform; `None` stands for Python's `None`. */
  datatype Transformed = Transformed(metric: string, costMatrix: Option<seq<seq<real>>>, perfFunc: Option<PerfFunc>)

  const MisclassificationLoss: string := "misclassification-loss"
  const Custom: string := "custom"

  /** The metric names `_transform_metric` accepts. */
  predicate IsKnownMetric(metric: string)
  {
    metric in {"error", "cost-vector", "misclassification-loss", "mean-abs-error",
               "macro-accuracy", "f1-score", "cohens-kappa"}
  }

  // numpy building blocks

  /** `np.eye(n)`. */
  function Eye(n: nat): seq<seq<real>>
  {
    seq(n, i => seq(n, j => if i == j then 1.0 else 0.0))
  }

  /** `1 - a`, entry by entry. */
  function OneMinus(a: seq<seq<real>>): seq<seq<real>>
  {
    seq(|a|, i requires 0 <= i < |a| => seq(|a[i]|, j requires 0 <= j < |a[i]| => 1.0 - a[i][j]))
  }

  /** `np.ones([1, n])` as a flat row. */
  function Ones(n: nat): seq<real>
  {
    seq(n, _ => 1.0)
  }

  /** `np.arange(n)` as reals. */
  function Arange(n: nat): seq<real>
  {
    seq(n, i => i as real)
  }

  /** `u.reshape(-1, 1) @ w.reshape(1, -1)`: the outer product. */
  function Outer(u: seq<real>, w: seq<real>): seq<seq<real>>
  {
    seq(|u|, i requires 0 <= i < |u| => seq(|w|, j requires 0 <= j < |w| => u[i] * w[j]))
  }

  /** `a.T` of an `n` by `n` matrix. */
  function Transpose(a: seq<seq<real>>, n: nat): seq<seq<real>>
    requires IsMatrix(a, n, n)
  {
    seq(n, i requires 0 <= i < n => seq(n, j requires 0 <= j < n => a[j][i]))
  }

  function Abs(x: real): real
  {
    if x < 0.0 then -x else x
  }

  /** `abs(a - b)` for two `n` by `n` matrices. */
  function AbsDiff(a: seq<seq<real>>, b: seq<seq<real>>, n: nat): seq<seq<real>>
    requires IsMatrix(a, n, n) && IsMatrix(b, n, n)
  {
    seq(n, i requires 0 <= i < n => seq(n, j requires 0 <= j < n => Abs(a[i][j] - b[i][j])))
  }

  /** `np.fill_diagonal(a, x)`. */
  function FillDiagonal(a: seq<seq<real>>, x: real): seq<seq<real>>
  {
    seq(|a|, i requires 0 <= i < |a| => if i < |a[i]| then a[i][i := x] else a[i])
  }

  // The cost matrices

  /** `1 - np.eye(n)`: the 0/1 loss of the metric 'error'. */
  function ErrorCostMatrix(n: nat): (c: seq<seq<real>>)
    ensures IsMatrix(c, n, n)
    ensures forall i, j :: 0 <= i < n && 0 <= j < n ==> c[i][j] == if i == j then 0.0 else 1.0
  {
    OneMinus(Eye(n))
  }

  /** `abs(R - R.T)` with `R = arange(n).reshape(-1, 1) @ ones([1, n])`: the
      cost of predicting class `j` for class `i` is `|i - j|`. */
  function MeanAbsCostMatrix(n: nat): (c: seq<seq<real>>)
    ensures IsMatrix(c, n, n)
    ensures forall i, j :: 0 <= i < n && 0 <= j < n ==> c[i][j] == Abs((i - j) as real)
  {
    var rows := Outer(Arange(n), Ones(n));
    AbsDiff(rows, Transpose(rows, n), n)
  }

  /** `cost_vector.reshape(-1, 1) @ ones([1, n])` with a zero diagonal:
      misclassifying class `i` costs `v[i]`, whatever the prediction. */
  function CostVectorMatrix(v: seq<real>): (c: seq<seq<real>>)
    ensures IsMatrix(c, |v|, |v|)
    ensures forall i, j :: 0 <= i < |v| && 0 <= j < |v| ==> c[i][j] == if i == j then 0.0 else v[i]
  {
    FillDiagonal(Outer(v, Ones(|v|)), 0.0)
  }

  // Argument checks

  /** The numpy shape of an array argument. */
  function Shape(a: NdArray): seq<nat>
  {
    match a
    case Vector(v) => [|v|]
    case Matrix(m) => if m == [] then [0, 0] else [|m|, |m[0]|]
  }

  /** `shape != (n_classes)`: `(n_classes)` is the integer itself, not a
      one-element tuple, and a tuple never equals an integer. */
  predicate ShapeDiffersFromInt(shape: seq<nat>, n: nat)
  {
    true
  }

  /** The cost-vector check, as written (`fixed == false`: every vector is
      refused) or as intended (`fixed == true`: a vector of length `n`). */
  predicate CostVectorRefused(costVector: Option<NdArray>, n: nat, fixed: bool)
  {
    costVector.None? ||
    (if fixed then Shape(costVector.value) != [n] else ShapeDiffersFromInt(Shape(costVector.value), n))
  }

  /** `check_cost_matrix(cost_matrix, n_classes)`, as far as this model
      states it: an `n` by `n` matrix. */
  function CheckCostMatrix(a: NdArray, n: nat): (r: Result<seq<seq<real>>>)
    ensures r.Ok? <==> a.Matrix? && IsMatrix(a.rows, n, n)
    ensures r.Ok? ==> r.value == a.rows
  {
    if a.Matrix? && IsMatrix(a.rows, n, n) then Ok(a.rows) else Err(ValueError("cost_matrix"))
  }

  predicate IsValidCostMatrix(costMatrix: Option<NdArray>, n: nat)
  {
    costMatrix.Some? && costMatrix.value.Matrix? && IsMatrix(costMatrix.value.rows, n, n)
  }

  /** The shape of every successful transform: a decomposable metric with an
      `n` by `n` cost matrix and no performance function, or a custom one
      without a cost matrix. */
  predicate WellFormed(t: Transformed, n: nat)
  {
    (t.metric == MisclassificationLoss && t.costMatrix.Some? && IsMatrix(t.costMatrix.value, n, n) && t.perfFunc.None?) ||
    (t.metric == Custom && t.costMatrix.None?)
  }

  /** `_transform_metric(metric, cost_matrix, cost_vector, perf_func,
      n_classes)`, with the cost-vector check as written or fixed. */
  function TransformMetricWith(metric: string, costMatrix: Option<NdArray>, costVector: Option<NdArray>,
                               perfFunc: Option<PerfFunc>, n: nat, fixed: bool): (r: Result<Transformed>)
    ensures r.Ok? ==> WellFormed(r.value, n)
    ensures r.Err? ==> r.error.ValueError?
    ensures r.Err? <==>
      !IsKnownMetric(metric) ||
      (metric == "cost-vector" && CostVectorRefused(costVector, n, fixed)) ||
      (metric == "misclassification-loss" && !IsValidCostMatrix(costMatrix, n))
  {
    if metric == "error" then
      Ok(Transformed(MisclassificationLoss, Some(ErrorCostMatrix(n)), None))
    else if metric == "cost-vector" then
      if CostVectorRefused(costVector, n, fixed) then Err(ValueError("cost_vector"))
      else
        var v := costVector.value.entries;
        Ok(Transformed(MisclassificationLoss, Some(CostVectorMatrix(v)), None))
    else if metric == "misclassification-loss" then
      if costMatrix.None? then Err(ValueError("cost_matrix"))
      else
        var checked :- CheckCostMatrix(costMatrix.value, n);
        Ok(Transformed(MisclassificationLoss, Some(checked), None))
    else if metric == "mean-abs-error" then
      Ok(Transformed(MisclassificationLoss, Some(MeanAbsCostMatrix(n)), None))
    else if metric == "macro-accuracy" then
      Ok(Transformed(Custom, None, Some(MacroAccuracyFunc)))
    else if metric == "f1-score" then
      Ok(Transformed(Custom, None, Some(F1ScoreFunc)))
    else if metric == "cohens-kappa" then
      Ok(Transformed(Custom, None, perfFunc))
    else
      Err(ValueError("metric"))
  }

  /** `_transform_metric` as written. */
  function TransformMetric(metric: string, costMatrix: Option<NdArray>, costVector: Option<NdArray>,
                           perfFunc: Option<PerfFunc>, n: nat): (r: Result<Transformed>)
    ensures r.Err? <==>
      !IsKnownMetric(metric) || metric == "cost-vector" ||
      (metric == "misclassification-loss" && !IsValidCostMatrix(costMatrix, n))
  {
    TransformMetricWith(metric, costMatrix, costVector, perfFunc, n, false)
  }

  /** `_transform_metric` with the cost-vector shape compared to `(n,)`. */
  function TransformMetricCorrected(metric: string, costMatrix: Option<NdArray>, costVector: Option<NdArray>,
                                    perfFunc: Option<PerfFunc>, n: nat): (r: Result<Transformed>)
    ensures r.Err? <==>
      !IsKnownMetric(metric) ||
      (metric == "cost-vector" && !(costVector.Some? && costVector.value.Vector? && |costVector.value.entries| == n)) ||
      (metric == "misclassification-loss" && !IsValidCostMatrix(costMatrix, n))
  {
    TransformMetricWith(metric, costMatrix, costVector, perfFunc, n, true)
  }

  /** 'error' becomes 'misclassification-loss' with the 0/1 cost matrix. */
  lemma TransformError(costMatrix: Option<NdArray>, costVector: Option<NdArray>, perfFunc: Option<PerfFunc>, n: nat)
    ensures var r := TransformMetric("error", costMatrix, costVector, perfFunc, n);
      r.Ok? && r.value.metric == MisclassificationLoss && r.value.perfFunc.None? &&
      r.value.costMatrix == Some(ErrorCostMatrix(n))
  {
  }

  /** 'mean-abs-error' becomes 'misclassification-loss' with costs `|i - j|`. */
  lemma TransformMeanAbsError(costMatrix: Option<NdArray>, costVector: Option<NdArray>, perfFunc: Option<PerfFunc>, n: nat)
    ensures var r := TransformMetric("mean-abs-error", costMatrix, costVector, perfFunc, n);
      r.Ok? && r.value.metric == MisclassificationLoss && r.value.perfFunc.None? &&
      r.value.costMatrix == Some(MeanAbsCostMatrix(n))
  {
  }

  /** A valid cost matrix is passed through unchanged. */
  lemma TransformMisclassificationLoss(m: seq<seq<real>>, costVector: Option<NdArray>, perfFunc: Option<PerfFunc>, n: nat)
    requires IsMatrix(m, n, n)
    ensures TransformMetric("misclassification-loss", Some(Matrix(m)), costVector, perfFunc, n) ==
      Ok(Transformed(MisclassificationLoss, Some(m), None))
  {
  }

  /** The score-based metrics select their function and drop the cost matrix;
      'cohens-kappa' keeps whatever performance function was given. */
  lemma TransformCustom(costMatrix: Option<NdArray>, costVector: Option<NdArray>, perfFunc: Option<PerfFunc>, n: nat)
    ensures TransformMetric("macro-accuracy", costMatrix, costVector, perfFunc, n) ==
      Ok(Transformed(Custom, None, Some(MacroAccuracyFunc)))
    ensures TransformMetric("f1-score", costMatrix, costVector, perfFunc, n) ==
      Ok(Transformed(Custom, None, Some(F1ScoreFunc)))
    ensures TransformMetric("cohens-kappa", costMatrix, costVector, perfFunc, n) ==
      Ok(Transformed(Custom, None, perfFunc))
  {
  }

  /** As written, 'cost-vector' is refused whatever vector is given. */
  lemma CostVectorAlwaysRefused(costMatrix: Option<NdArray>, v: seq<real>, perfFunc: Option<PerfFunc>)
    ensures TransformMetric("cost-vector", costMatrix, Some(Vector(v)), perfFunc, |v|) == Err(ValueError("cost_vector"))
  {
  }

  /** With the shape compared to `(n,)`, a vector of length `n` is accepted
      and misclassifying class `i` costs `v[i]`. */
  lemma CostVectorCorrected(costMatrix: Option<NdArray>, v: seq<real>, perfFunc: Option<PerfFunc>)
    ensures TransformMetricCorrected("cost-vector", costMatrix, Some(Vector(v)), perfFunc, |v|) ==
      Ok(Transformed(MisclassificationLoss, Some(CostVectorMatrix(v)), None))
  {
  }
}
