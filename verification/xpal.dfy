/** `XPAL.query`: the metric transform, the optimal class prior and its
    scaled copies, the choice between the 'full' and the 'greedy'
    batch mode, and the greedy selection loop. Kernels, the classifier and
    the expected performance gain of a candidate set are not part of this
    model: the similarities between candidates are an input and the gain of
    a set is a function parameter. */
module Xpal {
  import opened Common
  import opened CostModel
  import opened HypotheticalLabels
  import opened Nonmyopic

  // The optimal prior

  /** `np.full([n], 1. / n)`. */
  function Uniform(n: nat): (p: seq<real>)
    ensures |p| == n && forall c :: 0 <= c < n ==> p[c] == 1.0 / n as real
  {
    seq(n, c requires 0 <= c < n => 1.0 / n as real)
  }

  /** `w / s` entry by entry. */
  function Scaled(w: seq<real>, s: real): (p: seq<real>)
    requires s != 0.0
    ensures |p| == |w| && forall c :: 0 <= c < |w| ==> p[c] == w[c] / s
  {
    seq(|w|, c requires 0 <= c < |w| => w[c] / s)
  }

  lemma DivAdd(a: real, b: real, s: real)
    requires s != 0.0
    ensures a / s + b / s == (a + b) / s
  {
  }

  lemma {:induction false} ScaledSum(w: seq<real>, s: real)
    requires s != 0.0
    ensures RealSum(Scaled(w, s)) == RealSum(w) / s
  {
    if w != [] {
      var k := |w| - 1;
      assert Scaled(w, s)[..k] == Scaled(w[..k], s);
      ScaledSum(w[..k], s);
      DivAdd(RealSum(w[..k]), w[k], s);
    }
  }

  lemma {:induction false} ConstantSum(c: real, n: nat)
    ensures RealSum(seq(n, _ => c)) == n as real * c
  {
    if n > 0 {
      assert seq(n, _ => c)[..n - 1] == seq(n - 1, _ => c);
      ConstantSum(c, n - 1);
    }
  }

  /** The uniform prior is a distribution over `n >= 1` classes. */
  lemma UniformIsDistribution(n: nat)
    requires n >= 1
    ensures IsDistribution(Uniform(n), n)
  {
    var c := 1.0 / n as real;
    assert Uniform(n) == seq(n, _ => c);
    ConstantSum(c, n);
    assert n as real * c == 1.0;
  }

  /** Normalising non-negative weights with a positive sum gives a
      distribution. */
  lemma NormalisedIsDistribution(w: seq<real>)
    requires NonNegativeReals(w) && RealSum(w) > 0.0
    ensures IsDistribution(Scaled(w, RealSum(w)), |w|)
  {
    var s := RealSum(w);
    var p := Scaled(w, s);
    ScaledSum(w, s);
    SelfDivision(s);
    forall c | 0 <= c < |w|
      ensures p[c] >= 0.0
    {
      DivNonNegative(w[c], s);
    }
  }

  lemma SelfDivision(s: real)
    requires s > 0.0
    ensures s / s == 1.0
  {
  }

  lemma DivNonNegative(a: real, s: real)
    requires a >= 0.0 && s > 0.0
    ensures a / s >= 0.0
  {
  }

  /** What the column sums of the inverse cost matrix
      (`np.ones([1, n]) @ np.linalg.inv(C)`) are taken to satisfy: one entry
      per class, not all zero. */
  ghost predicate IsInverseSums(inv: seq<seq<real>> -> seq<real>)
  {
    forall m :: |inv(m)| == |m| && (|m| >= 1 && NonNegativeReals(inv(m)) ==> RealSum(inv(m)) > 0.0)
  }

  /** The prior built from the inverse's column sums `w`: `w` normalised to
      sum 1 when no entry is negative, otherwise uniform. */
  function PriorFromWeights(w: seq<real>): (p: seq<real>)
    requires |w| >= 1 && NonNegativeReals(w) ==> RealSum(w) > 0.0
    ensures |p| == |w|
    ensures |w| >= 1 ==> IsDistribution(p, |w|)
    ensures NonNegativeReals(w) ==> forall c :: 0 <= c < |w| ==> p[c] * RealSum(w) == w[c]
    ensures !NonNegativeReals(w) ==> forall c :: 0 <= c < |w| ==> p[c] == 1.0 / |w| as real
  {
    if NonNegativeReals(w) then
      if |w| == 0 then []
      else NormalisedIsDistribution(w); Scaled(w, RealSum(w))
    else
      UniformIsDistribution(|w|); Uniform(|w|)
  }

  /** `calculate_optimal_prior(cost_matrix)` as written: `len(cost_matrix)`
      comes before the `None` test, so a missing matrix raises TypeError. */
  function OptimalPrior(costMatrix: Option<seq<seq<real>>>, inv: seq<seq<real>> -> seq<real>): (r: Result<seq<real>>)
    requires IsInverseSums(inv)
    ensures r.Err? <==> costMatrix.None?
    ensures r.Err? ==> r.error.TypeError?
    ensures r.Ok? && |costMatrix.value| >= 1 ==> IsDistribution(r.value, |costMatrix.value|)
    ensures r.Ok? && !NonNegativeReals(inv(costMatrix.value)) ==> r.value == Uniform(|costMatrix.value|)
  {
    if costMatrix.None? then Err(TypeError("object of type 'NoneType' has no len()"))
    else Ok(PriorFromWeights(inv(costMatrix.value)))
  }

  /** `calculate_optimal_prior` with the class count passed in: a missing
      matrix gives the uniform prior, as the `None` branch intends. */
  function OptimalPriorCorrected(costMatrix: Option<seq<seq<real>>>, inv: seq<seq<real>> -> seq<real>, n: nat)
    : (p: seq<real>)
    requires IsInverseSums(inv)
    requires costMatrix.Some? ==> |costMatrix.value| == n
    ensures n >= 1 ==> IsDistribution(p, n)
    ensures costMatrix.None? ==> p == Uniform(n)
  {
    if costMatrix.None? then
      if n >= 1 then UniformIsDistribution(n); Uniform(n) else Uniform(n)
    else PriorFromWeights(inv(costMatrix.value))
  }

  /** Every entry of `p` times `x` (`x * prior`). */
  function Times(x: real, p: seq<real>): (q: seq<real>)
    ensures |q| == |p| && forall c :: 0 <= c < |p| ==> q[c] == x * p[c]
  {
    seq(|p|, c requires 0 <= c < |p| => x * p[c])
  }

  // Batch-mode dispatch

  datatype BatchMode = Full | Greedy

  /** The `batch_mode` branches: 'full' only with a look-ahead of at most
      one, 'greedy', and nothing else. */
  function BatchModeOf(batchMode: string, lookAhead: int): (r: Result<BatchMode>)
    ensures r == Ok(Full) <==> batchMode == "full" && lookAhead <= 1
    ensures r == Ok(Greedy) <==> batchMode == "greedy"
    ensures r.Err? && batchMode == "full" ==> r.error.NotImplementedError?
    ensures r.Err? && batchMode != "full" ==> r.error.ValueError?
  {
    if batchMode == "full" then
      if lookAhead > 1 then Err(NotImplementedError("batch_mode = 'full' can only be combined with nonmyopic_look_ahead = 1"))
      else Ok(Full)
    else if batchMode == "greedy" then Ok(Greedy)
    else Err(ValueError("batch_mode unknown"))
  }

  /** What `query` has settled before it selects: the transformed metric,
      the optimal prior, its two scaled copies `_prior_cand` and
      `_prior_eval`, and the branch. Only `priorCand` reaches a learner:
      both learners are built with `_prior_cand`, and `priorEval` is
      computed and never read. */
  datatype Setup = Setup(transformed: Transformed, prior: seq<real>, priorCand: seq<real>, priorEval: seq<real>,
                         mode: BatchMode)

  /** The steps of `query` up to the batch-mode branch, as written
      (`fixed = false`) or corrected: the transform receives the cost vector
      and the cost matrix in the order it declares them, the cost-vector
      shape is compared to `(n,)`, and a missing cost matrix gives the
      uniform prior. */
  function XpalSetupWith(metric: string, costVector: Option<NdArray>, costMatrix: Option<NdArray>,
                         perfFunc: Option<PerfFunc>, n: nat, inv: seq<seq<real>> -> seq<real>,
                         priorCand: real, priorEval: real, batchMode: string, lookAhead: int, fixed: bool)
    : (r: Result<Setup>)
    requires IsInverseSums(inv)
    ensures r.Ok? ==> WellFormed(r.value.transformed, n)
    ensures r.Ok? && n >= 1 ==> IsDistribution(r.value.prior, n)
    ensures r.Ok? ==> r.value.priorCand == Times(priorCand, r.value.prior) &&
                      r.value.priorEval == Times(priorEval, r.value.prior)
  {
    var t :- if fixed then TransformMetricCorrected(metric, costMatrix, costVector, perfFunc, n)
             else TransformMetric(metric, costVector, costMatrix, perfFunc, n);
    var prior :- if fixed then Ok(OptimalPriorCorrected(t.costMatrix, inv, n)) else OptimalPrior(t.costMatrix, inv);
    var mode :- BatchModeOf(batchMode, lookAhead);
    Ok(Setup(t, prior, Times(priorCand, prior), Times(priorEval, prior), mode))
  }

  /** `query` up to its batch-mode branch, as written: `_transform_metric`
      receives `cost_vector` as its cost matrix and `cost_matrix` as its cost
      vector. Only a transform that produces a cost matrix gets past the
      optimal prior. */
  function XpalSetup(metric: string, costVector: Option<NdArray>, costMatrix: Option<NdArray>,
                     perfFunc: Option<PerfFunc>, n: nat, inv: seq<seq<real>> -> seq<real>,
                     priorCand: real, priorEval: real, batchMode: string, lookAhead: int): (r: Result<Setup>)
    requires IsInverseSums(inv)
    ensures r.Ok? <==>
      TransformMetric(metric, costVector, costMatrix, perfFunc, n).Ok? &&
      TransformMetric(metric, costVector, costMatrix, perfFunc, n).value.costMatrix.Some? &&
      BatchModeOf(batchMode, lookAhead).Ok?
    ensures r.Ok? ==> r.value.transformed.metric == MisclassificationLoss
    ensures r.Ok? && n >= 1 ==> IsDistribution(r.value.prior, n)
  {
    XpalSetupWith(metric, costVector, costMatrix, perfFunc, n, inv, priorCand, priorEval, batchMode, lookAhead, false)
  }

  /** `query` up to its batch-mode branch, corrected. */
  function XpalSetupCorrected(metric: string, costVector: Option<NdArray>, costMatrix: Option<NdArray>,
                              perfFunc: Option<PerfFunc>, n: nat, inv: seq<seq<real>> -> seq<real>,
                              priorCand: real, priorEval: real, batchMode: string, lookAhead: int)
    : (r: Result<Setup>)
    requires IsInverseSums(inv)
    ensures r.Ok? <==>
      TransformMetricCorrected(metric, costMatrix, costVector, perfFunc, n).Ok? && BatchModeOf(batchMode, lookAhead).Ok?
    ensures r.Ok? ==> r.value.transformed == TransformMetricCorrected(metric, costMatrix, costVector, perfFunc, n).value
    ensures r.Ok? && n >= 1 ==> IsDistribution(r.value.prior, n)
  {
    XpalSetupWith(metric, costVector, costMatrix, perfFunc, n, inv, priorCand, priorEval, batchMode, lookAhead, true)
  }

  /** As written, a valid cost matrix given for 'misclassification-loss'
      (and no cost vector) is refused; corrected, it is used. */
  lemma SwappedCostArguments(m: seq<seq<real>>, n: nat, inv: seq<seq<real>> -> seq<real>, batchMode: string)
    requires IsInverseSums(inv) && IsMatrix(m, n, n) && batchMode == "greedy"
    ensures XpalSetup("misclassification-loss", None, Some(Matrix(m)), None, n, inv, 1.0, 1.0, batchMode, 1) ==
      Err(ValueError("cost_matrix"))
    ensures var r := XpalSetupCorrected("misclassification-loss", None, Some(Matrix(m)), None, n, inv, 1.0, 1.0,
                                        batchMode, 1);
      r.Ok? && r.value.transformed.costMatrix == Some(m)
  {
  }

  /** As written, the score-based metrics never get past the optimal
      prior. */
  lemma ScoreMetricsRefused(metric: string, n: nat, inv: seq<seq<real>> -> seq<real>)
    requires IsInverseSums(inv) && metric in {"macro-accuracy", "f1-score", "cohens-kappa"}
    ensures XpalSetup(metric, None, None, None, n, inv, 1.0, 1.0, "greedy", 1).Err?
    ensures XpalSetup(metric, None, None, None, n, inv, 1.0, 1.0, "greedy", 1).error.TypeError?
  {
  }

  /** Corrected, the score-based metrics run with the uniform prior. */
  lemma ScoreMetricsUniform(metric: string, n: nat, inv: seq<seq<real>> -> seq<real>)
    requires IsInverseSums(inv) && metric in {"macro-accuracy", "f1-score", "cohens-kappa"}
    ensures var r := XpalSetupCorrected(metric, None, None, None, n, inv, 1.0, 1.0, "greedy", 1);
      r.Ok? && r.value.prior == Uniform(n)
  {
  }

  // The greedy loop

  /** `np.full([batch_size], np.nan, dtype=int)` fills with NaN converted
      to a 64-bit integer. C leaves that conversion undefined; on x86-64 it
      gives the smallest 64-bit integer, which is the value assumed here. */
  const NaNIndex: int := -0x8000_0000_0000_0000

  /** `np.arange(n)`. */
  function Indices(n: nat): (s: seq<int>)
    ensures |s| == n && forall a :: 0 <= a < n ==> s[a] == a
  {
    seq(n, a requires 0 <= a < n => a)
  }

  /** `np.setdiff1d(np.arange(n), chosen)`: the indices below `n` that are
      not in `chosen`, ascending. */
  function Unselected(n: nat, chosen: seq<int>): seq<int>
  {
    if n == 0 then []
    else
      var u := Unselected(n - 1, chosen);
      if n - 1 in chosen then u else u + [n - 1]
  }

  /** What `setdiff1d` promises: ascending, inside `0 .. n-1`, and holding
      exactly the indices not chosen. */
  lemma {:induction false} UnselectedSpec(n: nat, chosen: seq<int>)
    ensures var u := Unselected(n, chosen);
      |u| <= n &&
      (forall a :: 0 <= a < |u| ==> 0 <= u[a] < n && u[a] !in chosen) &&
      (forall c :: 0 <= c < n && c !in chosen ==> c in u) &&
      (forall a, b :: 0 <= a < b < |u| ==> u[a] < u[b])
  {
    if n > 0 {
      UnselectedSpec(n - 1, chosen);
    }
  }

  /** Entries outside `0 .. n-1` (the NaN sentinel) remove nothing. */
  lemma {:induction false} UnselectedIgnoresOutside(n: nat, chosen: seq<int>, rest: seq<int>)
    requires forall a :: 0 <= a < |rest| ==> !(0 <= rest[a] < n)
    ensures Unselected(n, chosen + rest) == Unselected(n, chosen)
  {
    if n > 0 {
      UnselectedIgnoresOutside(n - 1, chosen, rest);
      assert n - 1 in chosen + rest <==> n - 1 in chosen;
    }
  }

  /** With nothing chosen, every index is left. */
  lemma {:induction false} NothingSelected(n: nat)
    ensures Unselected(n, []) == Indices(n)
  {
    if n > 0 {
      NothingSelected(n - 1);
      assert Indices(n) == Indices(n - 1) + [n - 1];
    }
  }

  /** Choosing one of the indices left removes exactly that one. */
  lemma {:induction false} SelectOne(n: nat, chosen: seq<int>, x: int)
    ensures x in Unselected(n, chosen) ==> |Unselected(n, chosen + [x])| == |Unselected(n, chosen)| - 1
  {
    if n > 0 && x in Unselected(n, chosen) {
      UnselectedSpec(n, chosen);
      if x == n - 1 {
        SelectLast(n, chosen);
      } else {
        assert x in Unselected(n - 1, chosen);
        SelectOne(n - 1, chosen, x);
        SelectBelow(n, chosen, x);
      }
    }
  }

  lemma SelectLast(n: nat, chosen: seq<int>)
    requires n > 0 && n - 1 !in chosen
    ensures |Unselected(n, chosen + [n - 1])| == |Unselected(n, chosen)| - 1
  {
    UnselectedIgnoresOutside(n - 1, chosen, [n - 1]);
    assert n - 1 in chosen + [n - 1];
  }

  lemma SelectBelow(n: nat, chosen: seq<int>, x: int)
    requires n > 0 && x != n - 1
    requires |Unselected(n - 1, chosen + [x])| == |Unselected(n - 1, chosen)| - 1
    ensures |Unselected(n, chosen + [x])| == |Unselected(n, chosen)| - 1
  {
    assert n - 1 in chosen + [x] <==> n - 1 in chosen;
  }

  /** Every new candidate set appended to the selection so far. */
  function Prefixed(prefix: seq<int>, sets: seq<seq<int>>): (r: seq<seq<int>>)
    ensures |r| == |sets| && forall a :: 0 <= a < |sets| ==> r[a] == prefix + sets[a]
  {
    seq(|sets|, a requires 0 <= a < |sets| => prefix + sets[a])
  }

  lemma PrefixedEmpty(sets: seq<seq<int>>)
    ensures Prefixed([], sets) == sets
  {
    forall a | 0 <= a < |sets|
      ensures Prefixed([], sets)[a] == sets[a]
    {
      assert [] + sets[a] == sets[a];
    }
  }

  /** Positions within `idx` read as the indices stored there. */
  function Through(idx: seq<int>, sets: seq<seq<int>>): (r: seq<seq<int>>)
    requires forall a, b :: 0 <= a < |sets| && 0 <= b < |sets[a]| ==> 0 <= sets[a][b] < |idx|
    ensures |r| == |sets|
    ensures forall a :: 0 <= a < |sets| ==>
      |r[a]| == |sets[a]| && forall b :: 0 <= b < |sets[a]| ==> r[a][b] == idx[sets[a][b]]
  {
    seq(|sets|, a requires 0 <= a < |sets| =>
      seq(|sets[a]|, b requires 0 <= b < |sets[a]| => idx[sets[a][b]]))
  }

  /** Indices inside `0 .. n-1` are valid on an axis of length `n`. */
  lemma InRangeValid(s: seq<int>, n: nat)
    requires forall a :: 0 <= a < |s| ==> 0 <= s[a] < n
    ensures ValidIndices(s, n)
  {
    forall a | 0 <= a < |s|
      ensures PyIndex(s[a], n).Some?
    {
    }
  }

  /** One set per candidate, each of width `w`, holding positions below `k`. */
  predicate IsPositionTable(sets: seq<seq<int>>, k: nat, w: nat)
  {
    |sets| == k && forall a :: 0 <= a < k ==> |sets[a]| == w && forall b :: 0 <= b < w ==> 0 <= sets[a][b] < k
  }

  /** The width of a candidate set among `k` candidates. */
  function Width(neighbors: string, m: nat, k: nat): nat
  {
    if neighbors == "same" then m else Min(m, k)
  }

  /** On the positions `0 .. k-1` both known modes give a table of
      positions. */
  lemma CandSetPositions(neighbors: string, k: nat, sub: seq<seq<Float>>, m: nat)
    requires IsSquare(sub) && |sub| == k && (neighbors == "same" || neighbors == "nearest")
    ensures NonmyopicCandSet(neighbors, Indices(k), sub, m).Ok?
    ensures IsPositionTable(NonmyopicCandSet(neighbors, Indices(k), sub, m).value, k, Width(neighbors, m, k))
  {
    var r := NonmyopicCandSet(neighbors, Indices(k), sub, m);
    InRangeValid(Indices(k), k);
    if neighbors == "nearest" {
      forall a | 0 <= a < k
        ensures |r.value[a]| == Width(neighbors, m, k) &&
          forall b :: 0 <= b < Width(neighbors, m, k) ==> 0 <= r.value[a][b] < k
      {
        var row := Restrict(sub, Indices(k))[a];
        NearestRows(row, m);
      }
    }
  }

  /** `np.nanmax(nonmyopic_gain(..., cand_idx_set, ..., gain_mode=
      'nonmyopic'), axis=1)` for the greedy step's candidate sets, with
      `gain(s)` the row maximum computed for set `s`. As written,
      `nonmyopic_gain` divides each row once per later row as well, so that
      maximum also depends on the row and the number of sets; `gain` stands
      for the value after that division. The errors come
      in the order the call meets them: no sets at all, sets of width zero,
      an index outside the candidates in the first set's first prefix, the
      dependent-probability call with its surplus argument, and any other
      index outside the candidates. */
  function GainsOf(sets: seq<seq<int>>, nCand: nat, independence: bool, gain: seq<int> -> real)
    : (r: Result<seq<real>>)
    ensures r.Ok? <==>
      |sets| >= 1 && |sets[0]| >= 1 && independence && forall a :: 0 <= a < |sets| ==> ValidIndices(sets[a], nCand)
    ensures r.Ok? ==> |r.value| == |sets| && forall a :: 0 <= a < |sets| ==> r.value[a] == gain(sets[a])
    ensures |sets| == 0 ==> r.Err? && r.error.IndexError?
    ensures |sets| >= 1 && |sets[0]| == 0 ==> r.Err? && r.error.ValueError?
    ensures |sets| >= 1 && |sets[0]| >= 1 && PyIndex(sets[0][0], nCand).None? ==> r.Err? && r.error.IndexError?
    ensures |sets| >= 1 && |sets[0]| >= 1 && PyIndex(sets[0][0], nCand).Some? && !independence ==>
      r.Err? && r.error.TypeError?
  {
    if |sets| == 0 then Err(IndexError("tuple index out of range"))
    else if |sets[0]| == 0 then Err(ValueError("zero-size array to reduction operation fmax which has no identity"))
    else if PyIndex(sets[0][0], nCand).None? then Err(IndexError("index out of bounds"))
    else if !independence then Err(TypeError("dependent_cand_prob() takes 9 positional arguments but 10 were given"))
    else if exists a :: 0 <= a < |sets| && !ValidIndices(sets[a], nCand) then Err(IndexError("index out of bounds"))
    else Ok(seq(|sets|, a requires 0 <= a < |sets| => gain(sets[a])))
  }

  /** Once the selection so far holds the NaN sentinel, every candidate
      set starts with it and the gain computation fails on it. */
  lemma SentinelRefused(sets: seq<seq<int>>, nCand: nat, independence: bool, gain: seq<int> -> real)
    requires |sets| >= 1 && nCand < 0x8000_0000_0000_0000
    ensures GainsOf(Prefixed([NaNIndex], sets), nCand, independence, gain) == Err(IndexError("index out of bounds"))
  {
    var joined := Prefixed([NaNIndex], sets);
    assert joined[0][0] == NaNIndex;
  }

  /** The selected indices and the utilities `query` returns. */
  datatype Batch = Batch(indices: seq<int>, utilities: seq<seq<Float>>)

  function Rows(u: array2<Float>): (rows: seq<seq<Float>>)
    reads u
    ensures |rows| == u.Length0
    ensures forall a :: 0 <= a < u.Length0 ==> |rows[a]| == u.Length1
    ensures forall a, c :: 0 <= a < u.Length0 && 0 <= c < u.Length1 ==> rows[a][c] == u[a, c]
  {
    seq(u.Length0, a requires 0 <= a < u.Length0 reads u =>
      seq(u.Length1, c requires 0 <= c < u.Length1 reads u => u[a, c]))
  }

  /** A single row of utilities, none of them NaN. */
  lemma SingleRow(u: array2<Float>, v: seq<real>)
    requires u.Length0 == 1 && u.Length1 == |v|
    requires forall c :: 0 <= c < |v| ==> u[0, c] == Some(v[c])
    ensures Rows(u) == [Somes(v)]
  {
    assert Rows(u)[0] == Somes(v);
  }

  /** `utilities[i, idx] = vals`. */
  method Scatter(u: array2<Float>, i: nat, idx: seq<int>, vals: seq<real>)
    requires i < u.Length0 && |vals| == |idx|
    requires forall k :: 0 <= k < |idx| ==> 0 <= idx[k] < u.Length1
    requires forall k, l :: 0 <= k < l < |idx| ==> idx[k] < idx[l]
    modifies u
    ensures forall k :: 0 <= k < |idx| ==> u[i, idx[k]] == Some(vals[k])
    ensures forall a, c :: 0 <= a < u.Length0 && 0 <= c < u.Length1 && (a != i || c !in idx) ==>
      u[a, c] == old(u[a, c])
  {
    var k := 0;
    while k < |idx|
      invariant 0 <= k <= |idx|
      invariant forall l :: 0 <= l < k ==> u[i, idx[l]] == Some(vals[l])
      invariant forall a, c :: 0 <= a < u.Length0 && 0 <= c < u.Length1 && (a != i || c !in idx[..k]) ==>
        u[a, c] == old(u[a, c])
    {
      u[i, idx[k]] := Some(vals[k]);
      k := k + 1;
    }
  }

  /** Each entry as a utility that is not NaN. */
  function Somes(v: seq<real>): (u: seq<Float>)
    ensures |u| == |v| && forall c :: 0 <= c < |v| ==> u[c] == Some(v[c])
  {
    seq(|v|, c requires 0 <= c < |v| => Some(v[c]))
  }

  /** The candidate sets of the first greedy step, where nothing is
      selected yet: one set per candidate. */
  function FirstSets(neighbors: string, nCand: nat, sim: seq<seq<Float>>, m: nat): (sets: seq<seq<int>>)
    requires IsSquare(sim) && |sim| == nCand && (neighbors == "same" || neighbors == "nearest")
    ensures IsPositionTable(sets, nCand, Width(neighbors, m, nCand))
  {
    InRangeValid(Indices(nCand), nCand);
    CandSetPositions(neighbors, nCand, Restrict(sim, Indices(nCand)), m);
    NonmyopicCandSet(neighbors, Indices(nCand), Restrict(sim, Indices(nCand)), m).value
  }

  /** The gains of the first greedy step. */
  function FirstGains(neighbors: string, nCand: nat, sim: seq<seq<Float>>, m: nat, independence: bool,
                      gain: seq<int> -> real): Result<seq<real>>
    requires IsSquare(sim) && |sim| == nCand && (neighbors == "same" || neighbors == "nearest")
  {
    GainsOf(FirstSets(neighbors, nCand, sim, m), nCand, independence, gain)
  }

  /** How the first step ends: it needs candidates, a look-ahead of at
      least one, and independent probabilities. */
  lemma FirstStep(neighbors: string, nCand: nat, sim: seq<seq<Float>>, m: nat, independence: bool,
                  gain: seq<int> -> real)
    requires IsSquare(sim) && |sim| == nCand && (neighbors == "same" || neighbors == "nearest")
    ensures var g := FirstGains(neighbors, nCand, sim, m, independence, gain);
      (g.Ok? <==> nCand >= 1 && m >= 1 && independence) &&
      (g.Ok? ==> |g.value| == nCand) &&
      (nCand == 0 ==> g.Err? && g.error.IndexError?) &&
      (nCand >= 1 && m == 0 ==> g.Err? && g.error.ValueError?) &&
      (nCand >= 1 && m >= 1 && !independence ==> g.Err? && g.error.TypeError?)
  {
    var sets := FirstSets(neighbors, nCand, sim, m);
    forall a | 0 <= a < nCand
      ensures ValidIndices(sets[a], nCand)
    {
      InRangeValid(sets[a], nCand);
    }
    if nCand >= 1 && m >= 1 {
      assert |sets[0]| >= 1 && 0 <= sets[0][0] < nCand;
    }
  }

  /** A pass of the as-written loop, where `best` holds only the sentinel:
      every candidate is still unselected, the first pass gets the gains of
      the first step, and the second fails on the sentinel. */
  lemma SentinelPass(nCand: nat, neighbors: string, sim: seq<seq<Float>>, m: nat, independence: bool,
                     gain: seq<int> -> real, best: seq<int>, i: nat)
    requires IsSquare(sim) && |sim| == nCand && nCand < 0x8000_0000_0000_0000
    requires neighbors == "same" || neighbors == "nearest"
    requires i <= 1 && i < |best| && (i == 1 ==> nCand >= 1)
    requires forall a :: 0 <= a < |best| ==> best[a] == NaNIndex
    ensures Unselected(nCand, best) == Indices(nCand)
    ensures NonmyopicCandSet(neighbors, Indices(nCand), Restrict(sim, Indices(nCand)), m).Ok?
    ensures var sets := NonmyopicCandSet(neighbors, Indices(nCand), Restrict(sim, Indices(nCand)), m).value;
      GainsOf(Prefixed(best[..i], sets), nCand, independence, gain) ==
        if i == 0 then FirstGains(neighbors, nCand, sim, m, independence, gain)
        else Err(IndexError("index out of bounds"))
  {
    UnselectedIgnoresOutside(nCand, [], best);
    NothingSelected(nCand);
    assert [] + best == best;
    var sets := FirstSets(neighbors, nCand, sim, m);
    if i == 1 {
      assert best[..1] == [NaNIndex];
      SentinelRefused(sets, nCand, independence, gain);
    } else {
      assert best[..0] == [];
      PrefixedEmpty(sets);
    }
  }

  /** What the greedy loop as written ends with: every pass re-creates
      `best_indices` (filled with the NaN sentinel) and `utilities` (all
      NaN), so no selection survives a pass and from the second pass on
      every candidate set starts with the sentinel. With no pass at all,
      `best_indices` was never assigned. */
  function GreedyOutcome(nCand: nat, batchSize: int, neighbors: string, m: nat, sim: seq<seq<Float>>,
                         independence: bool, gain: seq<int> -> real, tie: nat): Result<Batch>
    requires IsSquare(sim) && |sim| == nCand
  {
    if batchSize <= 0 then Err(UnboundLocalError("best_indices"))
    else if neighbors != "same" && neighbors != "nearest" then Err(ValueError("neighbor_mode unknown"))
    else
      var g := FirstGains(neighbors, nCand, sim, m, independence, gain);
      if g.Err? then Err(g.error)
      else if batchSize >= 2 then Err(IndexError("index out of bounds"))
      else
        FirstStep(neighbors, nCand, sim, m, independence, gain);
        Ok(Batch([RandArgmax(g.value, tie)], [Somes(g.value)]))
  }

  /** The as-written loop succeeds only for a batch of one, and then picks
      a candidate whose row maximum `gain` is largest; larger batches fail
      on the sentinel. */
  lemma GreedyOutcomeCases(nCand: nat, batchSize: int, neighbors: string, m: nat, sim: seq<seq<Float>>,
                           independence: bool, gain: seq<int> -> real, tie: nat)
    requires IsSquare(sim) && |sim| == nCand
    ensures var r := GreedyOutcome(nCand, batchSize, neighbors, m, sim, independence, gain, tie);
      (batchSize <= 0 ==> r.Err? && r.error.UnboundLocalError?) &&
      (batchSize >= 1 && neighbors != "same" && neighbors != "nearest" ==> r.Err? && r.error.ValueError?) &&
      (batchSize >= 1 && (neighbors == "same" || neighbors == "nearest") ==>
        (nCand == 0 ==> r.Err? && r.error.IndexError?) &&
        (nCand >= 1 && m == 0 ==> r.Err? && r.error.ValueError?) &&
        (nCand >= 1 && m >= 1 && !independence ==> r.Err? && r.error.TypeError?) &&
        (nCand >= 1 && m >= 1 && independence && batchSize >= 2 ==> r.Err? && r.error.IndexError?)) &&
      (r.Ok? <==>
        batchSize == 1 && (neighbors == "same" || neighbors == "nearest") && nCand >= 1 && m >= 1 && independence)
    ensures var r := GreedyOutcome(nCand, batchSize, neighbors, m, sim, independence, gain, tie);
      r.Ok? ==>
        |r.value.indices| == 1 && |r.value.utilities| == 1 &&
        0 <= r.value.indices[0] < nCand && |r.value.utilities[0]| == nCand &&
        forall c :: 0 <= c < nCand ==>
          r.value.utilities[0][c].Some? && r.value.utilities[0][r.value.indices[0]].Some? &&
          r.value.utilities[0][c].value <= r.value.utilities[0][r.value.indices[0]].value
  {
    if batchSize >= 1 && (neighbors == "same" || neighbors == "nearest") {
      FirstStep(neighbors, nCand, sim, m, independence, gain);
    }
  }

  /** `sim_c_c` as `query` builds it: the kernel between the candidates
      when the batch or the look-ahead is larger than one, and otherwise an
      all-NaN matrix. */
  function CandSimilarity(batchSize: int, lookAhead: int, kernel: seq<seq<Float>>): (sim: seq<seq<Float>>)
    requires IsSquare(kernel)
    ensures IsSquare(sim) && |sim| == |kernel|
    ensures batchSize > 1 || lookAhead > 1 ==> sim == kernel
    ensures batchSize <= 1 && lookAhead <= 1 ==> forall a, b :: 0 <= a < |sim| && 0 <= b < |sim| ==> sim[a][b].None?
  {
    if batchSize > 1 || lookAhead > 1 then kernel else Blank(|kernel|, |kernel|)
  }

  /** Restricting to every candidate, in order, changes nothing. */
  lemma RestrictAll(sim: seq<seq<Float>>)
    requires IsSquare(sim)
    ensures ValidIndices(Indices(|sim|), |sim|) && Restrict(sim, Indices(|sim|)) == sim
  {
    InRangeValid(Indices(|sim|), |sim|);
    var r := Restrict(sim, Indices(|sim|));
    forall a | 0 <= a < |sim|
      ensures r[a] == sim[a]
    {
    }
  }

  /** At look-ahead one, the first step's 'nearest' set of a candidate is
      the nearest neighbour in its own row of similarities. */
  lemma FirstNearestSets(nCand: nat, sim: seq<seq<Float>>)
    requires IsSquare(sim) && |sim| == nCand
    ensures forall a :: 0 <= a < nCand ==> FirstSets("nearest", nCand, sim, 1)[a] == AsIndices(Nearest(sim[a], 1))
  {
    RestrictAll(sim);
  }

  /** As written, a batch of one with a look-ahead of one never computes the
      similarities between the candidates. Under 'nearest' every candidate
      set is then `[0]`, every candidate gets the same gain, and the pick is
      the random draw alone. */
  lemma NaNSimilarityPick(kernel: seq<seq<Float>>, gain: seq<int> -> real, tie: nat)
    requires IsSquare(kernel) && |kernel| >= 1
    ensures forall a :: 0 <= a < |kernel| ==> FirstSets("nearest", |kernel|, CandSimilarity(1, 1, kernel), 1)[a] == [0]
    ensures GreedyOutcome(|kernel|, 1, "nearest", 1, CandSimilarity(1, 1, kernel), true, gain, tie) ==
      Ok(Batch([tie % |kernel|], [Somes(seq(|kernel|, _ => gain([0])))]))
  {
    var n := |kernel|;
    var sim := CandSimilarity(1, 1, kernel);
    FirstNearestSets(n, sim);
    forall a | 0 <= a < n
      ensures FirstSets("nearest", n, sim, 1)[a] == [0]
    {
      NearestAllNaN(sim[a]);
      assert AsIndices([0]) == [0];
    }
    FirstStep("nearest", n, sim, 1, true, gain);
    var g := FirstGains("nearest", n, sim, 1, true, gain);
    assert g.value == seq(n, _ => gain([0]));
    RandArgmaxConstant(g.value, tie);
  }

  /** Every candidate is strictly more similar to itself than to any other
      candidate, as under a kernel whose largest values lie on the
      diagonal. */
  predicate SelfNearest(sim: seq<seq<Float>>)
    requires IsSquare(sim)
  {
    (forall a :: 0 <= a < |sim| ==> sim[a][a].Some?) &&
    (forall a, b :: 0 <= a < |sim| && 0 <= b < |sim| && a != b && sim[a][b].Some? ==> sim[a][b].value < sim[a][a].value)
  }

  /** Corrected, `sim_c_c` is the kernel whatever the batch size. When every
      candidate is its own nearest neighbour, its 'nearest' set at
      look-ahead one is itself, the step picks exactly as under 'same', and
      the pick is a candidate whose own gain is largest. */
  lemma KernelSimilarityPick(kernel: seq<seq<Float>>, gain: seq<int> -> real, tie: nat)
    requires IsSquare(kernel) && |kernel| >= 1 && SelfNearest(kernel)
    ensures forall a :: 0 <= a < |kernel| ==> FirstSets("nearest", |kernel|, kernel, 1)[a] == [a]
    ensures GreedyOutcome(|kernel|, 1, "nearest", 1, kernel, true, gain, tie) ==
      GreedyOutcome(|kernel|, 1, "same", 1, kernel, true, gain, tie)
    ensures var r := GreedyOutcome(|kernel|, 1, "nearest", 1, kernel, true, gain, tie);
      r.Ok? && |r.value.indices| == 1 && r.value.indices[0] < |kernel| &&
      forall c :: 0 <= c < |kernel| ==> gain([c]) <= gain([r.value.indices[0]])
  {
    var n := |kernel|;
    FirstNearestSets(n, kernel);
    var near, same := FirstSets("nearest", n, kernel, 1), FirstSets("same", n, kernel, 1);
    forall a | 0 <= a < n
      ensures near[a] == [a] && same[a] == [a]
    {
      NearestLargest(kernel[a], a);
      assert AsIndices([a]) == [a];
      assert Constant(a, 1) == [a];
    }
    assert near == same;
    FirstStep("nearest", n, kernel, 1, true, gain);
    var g := FirstGains("nearest", n, kernel, 1, true, gain);
    assert forall c :: 0 <= c < n ==> g.value[c] == gain([c]);
  }

  /** One pass of the as-written loop: `best_indices` and `utilities` are
      created afresh, every candidate counts as unselected, and the pass
      records its choice and its gains in row `i`. */
  method SentinelPassOnce(nCand: nat, batchSize: nat, i: nat, neighbors: string, m: nat, sim: seq<seq<Float>>,
                          independence: bool, gain: seq<int> -> real, tie: nat, ghost g: Result<seq<real>>)
    returns (best: array<int>, utilities: array2<Float>, gains: Result<seq<real>>)
    requires IsSquare(sim) && |sim| == nCand && nCand < 0x8000_0000_0000_0000
    requires neighbors == "same" || neighbors == "nearest"
    requires i <= 1 && i < batchSize && (i == 1 ==> nCand >= 1)
    requires g == FirstGains(neighbors, nCand, sim, m, independence, gain) && (g.Ok? ==> |g.value| == nCand)
    ensures fresh(best) && fresh(utilities)
    ensures best.Length == batchSize && utilities.Length0 == batchSize && utilities.Length1 == nCand
    ensures gains == if i == 0 then g else Err(IndexError("index out of bounds"))
    ensures gains.Ok? ==> best[i] == RandArgmax(gains.value, tie)
    ensures gains.Ok? ==> forall c :: 0 <= c < nCand ==> utilities[i, c] == Some(gains.value[c])
  {
    var unlabeled;
    unlabeled, gains := SentinelGains(Sentinels(batchSize), i, nCand, neighbors, m, sim, independence, gain);
    best, utilities := FreshPass(batchSize, nCand, i, gains, tie);
  }

  /** The arrays of a pass of the as-written loop: created afresh, and
      with the pass's choice and gains in row `i` when it has gains. */
  method FreshPass(batchSize: nat, nCand: nat, i: nat, gains: Result<seq<real>>, tie: nat)
    returns (best: array<int>, utilities: array2<Float>)
    requires i < batchSize && (gains.Ok? ==> |gains.value| == nCand >= 1)
    ensures fresh(best) && fresh(utilities)
    ensures best.Length == batchSize && utilities.Length0 == batchSize && utilities.Length1 == nCand
    ensures gains.Ok? ==> best[i] == RandArgmax(gains.value, tie)
    ensures gains.Ok? ==> forall c :: 0 <= c < nCand ==> utilities[i, c] == Some(gains.value[c])
  {
    best, utilities := NaNArrays(batchSize, nCand);
    if gains.Ok? {
      var unlabeled := Indices(nCand);
      Record(best, utilities, i, unlabeled, gains.value, tie);
    }
  }

  /** The computing half of a pass of the as-written loop, on the contents
      of a fresh `best_indices`: every candidate is unselected, and the
      gains are those of the first step on the first pass and refused on
      the sentinel after it. */
  method SentinelGains(best: seq<int>, i: nat, nCand: nat, neighbors: string, m: nat, sim: seq<seq<Float>>,
                       independence: bool, gain: seq<int> -> real)
    returns (unlabeled: seq<int>, gains: Result<seq<real>>)
    requires IsSquare(sim) && |sim| == nCand && nCand < 0x8000_0000_0000_0000
    requires neighbors == "same" || neighbors == "nearest"
    requires i <= 1 && i < |best| && (i == 1 ==> nCand >= 1) && best == Sentinels(|best|)
    ensures unlabeled == Indices(nCand)
    ensures gains == if i == 0 then FirstGains(neighbors, nCand, sim, m, independence, gain)
                     else Err(IndexError("index out of bounds"))
  {
    SentinelPass(nCand, neighbors, sim, m, independence, gain, best, i);
    InRangeValid(Indices(nCand), nCand);
    unlabeled := Unselected(nCand, best);
    var sets := NonmyopicCandSet(neighbors, unlabeled, Restrict(sim, unlabeled), m);
    gains := GainsOf(Prefixed(best[..i], sets.value), nCand, independence, gain);
  }

  /** The greedy loop of `query` as written. `sim` holds the similarities
      between the candidates, `gain` the gain of a candidate set, `tie` the
      random tie-breaking. */
  method GreedyAsWritten(nCand: nat, batchSize: int, neighbors: string, m: nat, sim: seq<seq<Float>>,
                         independence: bool, gain: seq<int> -> real, tie: nat) returns (r: Result<Batch>)
    requires IsSquare(sim) && |sim| == nCand && nCand < 0x8000_0000_0000_0000
    ensures r == GreedyOutcome(nCand, batchSize, neighbors, m, sim, independence, gain, tie)
  {
    if batchSize <= 0 {
      return Err(UnboundLocalError("best_indices"));
    }
    if neighbors != "same" && neighbors != "nearest" {
      return Err(ValueError("neighbor_mode unknown"));
    }
    FirstStep(neighbors, nCand, sim, m, independence, gain);
    r := SentinelLoop(nCand, batchSize, neighbors, m, sim, independence, gain, tie,
                      FirstGains(neighbors, nCand, sim, m, independence, gain));
  }

  /** The passes of the as-written loop, given the gains `g` of the first
      step: the first pass records them, the second fails on the sentinel. */
  method SentinelLoop(nCand: nat, batchSize: nat, neighbors: string, m: nat, sim: seq<seq<Float>>,
                      independence: bool, gain: seq<int> -> real, tie: nat, ghost g: Result<seq<real>>)
    returns (r: Result<Batch>)
    requires IsSquare(sim) && |sim| == nCand && nCand < 0x8000_0000_0000_0000
    requires neighbors == "same" || neighbors == "nearest"
    requires batchSize >= 1 && g == FirstGains(neighbors, nCand, sim, m, independence, gain)
    requires g.Ok? ==> |g.value| == nCand && nCand >= 1
    ensures g.Err? ==> r == Err(g.error)
    ensures g.Ok? && batchSize >= 2 ==> r == Err(IndexError("index out of bounds"))
    ensures g.Ok? && batchSize == 1 ==> r == Ok(Batch([RandArgmax(g.value, tie)], [Somes(g.value)]))
  {
    var best, utilities := NaNArrays(batchSize, nCand);
    var i := 0;
    while i < batchSize
      invariant 0 <= i <= 1 && i <= batchSize
      invariant i == 1 ==>
        g.Ok? && best.Length == batchSize && utilities.Length0 == batchSize && utilities.Length1 == nCand &&
        best[0] == RandArgmax(g.value, tie) && forall c :: 0 <= c < nCand ==> utilities[0, c] == Some(g.value[c])
    {
      var gains;
      best, utilities, gains := SentinelPassOnce(nCand, batchSize, i, neighbors, m, sim, independence, gain, tie, g);
      if gains.Err? {
        return Err(gains.error);
      }
      i := i + 1;
    }
    assert best[..] == [RandArgmax(g.value, tie)];
    SingleRow(utilities, g.value);
    r := Ok(Batch(best[..], Rows(utilities)));
  }

  // ---------------------------------------------------------------------
  // The greedy loop as evidently intended: `best_indices` and `utilities`
  // are created once, before the loop, so every pass sees the selection
  // made so far and forms its candidate sets among the candidates left.
  // ---------------------------------------------------------------------

  /** The candidate sets of the greedy step after the selection `chosen`:
      the sets are formed among the candidates not chosen yet, their
      positions are read back as candidate indices, and each is appended to
      the selection. One set per candidate left, in ascending order. */
  function StepSets(nCand: nat, neighbors: string, m: nat, sim: seq<seq<Float>>, chosen: seq<int>)
    : (sets: seq<seq<int>>)
    requires IsSquare(sim) && |sim| == nCand && (neighbors == "same" || neighbors == "nearest")
    ensures |sets| == |Unselected(nCand, chosen)|
  {
    var unl := Unselected(nCand, chosen);
    UnselectedSpec(nCand, chosen);
    InRangeValid(Indices(|unl|), |unl|);
    var sub := Restrict(sim, unl);
    CandSetPositions(neighbors, |unl|, sub, m);
    Prefixed(chosen, Through(unl, NonmyopicCandSet(neighbors, Indices(|unl|), sub, m).value))
  }

  /** Once the reset is fixed, the source's second restriction fails: line
      425 passes the similarities already restricted to the unselected
      candidates, and 'nearest' restricts them again by those candidates'
      indices. After candidate 0 is chosen among `n >= 2`, index `n - 1`
      lies outside the `(n-1) x (n-1)` matrix: IndexError. */
  lemma RestrictTwiceRefused(sim: seq<seq<Float>>, m: nat)
    requires IsSquare(sim) && |sim| >= 2
    ensures var unl := Unselected(|sim|, [0]);
      ValidIndices(unl, |sim|) &&
      NonmyopicCandSet("nearest", unl, Restrict(sim, unl), m).Err? &&
      NonmyopicCandSet("nearest", unl, Restrict(sim, unl), m).error.IndexError?
  {
    var n := |sim|;
    var unl := Unselected(n, [0]);
    UnselectedSpec(n, [0]);
    InRangeValid(unl, n);
    NothingSelected(n);
    assert Indices(n)[0] == 0;
    SelectOne(n, [], 0);
    assert [] + [0] == [0];
    assert |unl| == n - 1;
    assert n - 1 in unl;
    var a :| 0 <= a < |unl| && unl[a] == n - 1;
    assert PyIndex(unl[a], |Restrict(sim, unl)|).None?;
  }

  /** Each step set is the selection so far followed by `Width` candidates
      not chosen yet; in mode 'same' they are one candidate left, repeated. */
  lemma StepSetsSpec(nCand: nat, neighbors: string, m: nat, sim: seq<seq<Float>>, chosen: seq<int>)
    requires IsSquare(sim) && |sim| == nCand && (neighbors == "same" || neighbors == "nearest")
    ensures var sets := StepSets(nCand, neighbors, m, sim, chosen);
      forall p :: 0 <= p < |sets| ==>
        |sets[p]| == |chosen| + Width(neighbors, m, |sets|) && sets[p][..|chosen|] == chosen &&
        forall b :: |chosen| <= b < |sets[p]| ==> sets[p][b] in Unselected(nCand, chosen)
    ensures var sets := StepSets(nCand, neighbors, m, sim, chosen);
      neighbors == "same" ==> forall p :: 0 <= p < |sets| ==>
        sets[p] == chosen + Constant(Unselected(nCand, chosen)[p], m)
  {
    var unl := Unselected(nCand, chosen);
    UnselectedSpec(nCand, chosen);
    InRangeValid(unl, nCand);
    InRangeValid(Indices(|unl|), |unl|);
    var sub := Restrict(sim, unl);
    CandSetPositions(neighbors, |unl|, sub, m);
    var positions := NonmyopicCandSet(neighbors, Indices(|unl|), sub, m).value;
    var sets := StepSets(nCand, neighbors, m, sim, chosen);
    StepSetsShape(chosen, unl, positions, sets, Width(neighbors, m, |unl|));
    if neighbors == "same" {
      ThroughConstant(unl, positions, m);
    }
  }

  /** Read back through `unl`, the repeated positions of mode 'same' are
      the repeated candidates. */
  lemma ThroughConstant(unl: seq<int>, positions: seq<seq<int>>, m: nat)
    requires |positions| == |unl| && forall p :: 0 <= p < |unl| ==> positions[p] == Constant(p, m)
    requires forall a, b :: 0 <= a < |positions| && 0 <= b < |positions[a]| ==> 0 <= positions[a][b] < |unl|
    ensures forall p :: 0 <= p < |unl| ==> Through(unl, positions)[p] == Constant(unl[p], m)
  {
  }

  lemma StepSetsShape(chosen: seq<int>, unl: seq<int>, positions: seq<seq<int>>, sets: seq<seq<int>>, w: nat)
    requires IsPositionTable(positions, |unl|, w)
    requires sets == Prefixed(chosen, Through(unl, positions))
    ensures |sets| == |unl|
    ensures forall p :: 0 <= p < |sets| ==>
      |sets[p]| == |chosen| + w && sets[p][..|chosen|] == chosen &&
      forall b :: |chosen| <= b < |sets[p]| ==> sets[p][b] in unl
  {
    forall p | 0 <= p < |sets|
      ensures |sets[p]| == |chosen| + w && sets[p][..|chosen|] == chosen
      ensures forall b :: |chosen| <= b < |sets[p]| ==> sets[p][b] in unl
    {
      var t := Through(unl, positions)[p];
      assert sets[p] == chosen + t;
      forall b | |chosen| <= b < |sets[p]|
        ensures sets[p][b] in unl
      {
        assert sets[p][b] == t[b - |chosen|] == unl[positions[p][b - |chosen|]];
      }
    }
  }

  /** The gains of the greedy step after the selection `chosen`: the
      largest gain over the prefixes of each step set (each divided once,
      so a function of the set alone), one per candidate left; an unknown
      neighbour mode is refused. */
  function StepGains(nCand: nat, neighbors: string, m: nat, sim: seq<seq<Float>>, chosen: seq<int>,
                     gain: seq<int> -> real): Result<seq<real>>
    requires IsSquare(sim) && |sim| == nCand
  {
    if neighbors != "same" && neighbors != "nearest" then Err(ValueError("neighbor_mode unknown"))
    else GainsOf(StepSets(nCand, neighbors, m, sim, chosen), nCand, true, gain)
  }

  /** When a greedy step succeeds and how it fails: it needs a known
      neighbour mode and a candidate left, and on the first step a
      look-ahead of at least one. */
  lemma StepGainsCases(nCand: nat, neighbors: string, m: nat, sim: seq<seq<Float>>, chosen: seq<int>,
                       gain: seq<int> -> real)
    requires IsSquare(sim) && |sim| == nCand
    requires forall a :: 0 <= a < |chosen| ==> 0 <= chosen[a] < nCand
    ensures var g := StepGains(nCand, neighbors, m, sim, chosen, gain);
      var left := |Unselected(nCand, chosen)|;
      (neighbors != "same" && neighbors != "nearest" ==> g.Err? && g.error.ValueError?) &&
      ((neighbors == "same" || neighbors == "nearest") && left == 0 ==> g.Err? && g.error.IndexError?) &&
      ((neighbors == "same" || neighbors == "nearest") && left >= 1 && m == 0 && chosen == [] ==>
        g.Err? && g.error.ValueError?) &&
      ((neighbors == "same" || neighbors == "nearest") && left >= 1 && m >= 1 ==> g.Ok?) &&
      (g.Ok? ==>
        (neighbors == "same" || neighbors == "nearest") && left >= 1 && |g.value| == left && (chosen == [] ==> m >= 1))
  {
    if neighbors == "same" || neighbors == "nearest" {
      var sets := StepSets(nCand, neighbors, m, sim, chosen);
      StepSetsSpec(nCand, neighbors, m, sim, chosen);
      UnselectedSpec(nCand, chosen);
      var unl := Unselected(nCand, chosen);
      forall p | 0 <= p < |sets|
        ensures ValidIndices(sets[p], nCand)
      {
        forall b | 0 <= b < |sets[p]|
          ensures 0 <= sets[p][b] < nCand
        {
          if b < |chosen| {
            assert sets[p][b] == sets[p][..|chosen|][b];
          }
        }
        InRangeValid(sets[p], nCand);
      }
    }
  }

  /** One greedy step: the choice `pick` after the selection `chosen` is a
      candidate of largest gain among those left, and `row` holds the gains
      of the candidates left and NaN for those already chosen. */
  predicate IsGreedyStep(nCand: nat, neighbors: string, m: nat, sim: seq<seq<Float>>, gain: seq<int> -> real,
                         tie: nat, chosen: seq<int>, pick: int, row: seq<Float>)
    requires IsSquare(sim) && |sim| == nCand
  {
    var unl := Unselected(nCand, chosen);
    var g := StepGains(nCand, neighbors, m, sim, chosen, gain);
    g.Ok? && |g.value| == |unl| >= 1 && |row| == nCand &&
    pick == unl[RandArgmax(g.value, tie)] &&
    (forall p :: 0 <= p < |unl| ==> 0 <= unl[p] < nCand && row[unl[p]] == Some(g.value[p])) &&
    (forall c :: 0 <= c < nCand && c in chosen ==> row[c] == None)
  }

  /** Row `a` of `b`, with its index, is a `step` after the indices before
      it. */
  ghost predicate StepAt(step: (seq<int>, int, seq<Float>) -> bool, b: Batch, a: nat)
  {
    a < |b.indices| && a < |b.utilities| && step(b.indices[..a], b.indices[a], b.utilities[a])
  }

  /** Every row of `b`, with its index, is a `step` after the indices before
      it. */
  ghost predicate RunOf(step: (seq<int>, int, seq<Float>) -> bool, b: Batch)
  {
    |b.utilities| == |b.indices| &&
    forall a {:trigger StepAt(step, b, a)} :: 0 <= a < |b.indices| ==> StepAt(step, b, a)
  }

  /** A run extended by one more step is still a run. */
  lemma RunExtend(step: (seq<int>, int, seq<Float>) -> bool, chosen: seq<int>, rows: seq<seq<Float>>,
                  pick: int, row: seq<Float>)
    requires RunOf(step, Batch(chosen, rows)) && step(chosen, pick, row)
    ensures RunOf(step, Batch(chosen + [pick], rows + [row]))
  {
    var b, ext := Batch(chosen, rows), Batch(chosen + [pick], rows + [row]);
    forall a | 0 <= a < |ext.indices|
      ensures StepAt(step, ext, a)
    {
      if a < |chosen| {
        assert StepAt(step, b, a);
        assert ext.indices[..a] == chosen[..a] && ext.indices[a] == chosen[a] && ext.utilities[a] == rows[a];
      } else {
        assert ext.indices[..a] == chosen && ext.indices[a] == pick && ext.utilities[a] == row;
      }
    }
  }

  /** `IsGreedyStep` for fixed candidates, look-ahead, gain and tie-break. */
  function GreedyStepRelation(nCand: nat, neighbors: string, m: nat, sim: seq<seq<Float>>, gain: seq<int> -> real,
                              tie: nat): (seq<int>, int, seq<Float>) -> bool
    requires IsSquare(sim) && |sim| == nCand
  {
    (chosen, pick, row) => IsGreedyStep(nCand, neighbors, m, sim, gain, tie, chosen, pick, row)
  }

  /** Every row of `b` is the greedy step after the indices before it. */
  ghost predicate IsGreedyRun(nCand: nat, neighbors: string, m: nat, sim: seq<seq<Float>>, gain: seq<int> -> real,
                              tie: nat, b: Batch)
    requires IsSquare(sim) && |sim| == nCand
  {
    RunOf(GreedyStepRelation(nCand, neighbors, m, sim, gain, tie), b)
  }

  /** What a greedy run guarantees: distinct candidates, each of largest
      utility in its row, and NaN exactly at the candidates chosen before. */
  lemma GreedyRunSelects(nCand: nat, neighbors: string, m: nat, sim: seq<seq<Float>>, gain: seq<int> -> real,
                         tie: nat, b: Batch)
    requires IsSquare(sim) && |sim| == nCand && IsGreedyRun(nCand, neighbors, m, sim, gain, tie, b)
    ensures |b.utilities| == |b.indices| && forall a :: 0 <= a < |b.indices| ==> |b.utilities[a]| == nCand
    ensures forall a :: 0 <= a < |b.indices| ==> 0 <= b.indices[a] < nCand
    ensures forall a, a' :: 0 <= a < a' < |b.indices| ==> b.indices[a] != b.indices[a']
    ensures forall a, c :: 0 <= a < |b.indices| && 0 <= c < nCand ==>
      (b.utilities[a][c].None? <==> c in b.indices[..a])
    ensures forall a :: 0 <= a < |b.indices| ==> b.utilities[a][b.indices[a]].Some?
    ensures forall a :: 0 <= a < |b.indices| ==>
      forall c :: 0 <= c < nCand && b.utilities[a][c].Some? ==> b.utilities[a][c].value <= b.utilities[a][b.indices[a]].value
  {
    forall a | 0 <= a < |b.indices|
      ensures |b.utilities[a]| == nCand
      ensures 0 <= b.indices[a] < nCand && b.indices[a] !in b.indices[..a]
      ensures forall c :: 0 <= c < nCand ==> (b.utilities[a][c].None? <==> c in b.indices[..a])
      ensures b.utilities[a][b.indices[a]].Some?
      ensures forall c :: 0 <= c < nCand && b.utilities[a][c].Some? ==>
        b.utilities[a][c].value <= b.utilities[a][b.indices[a]].value
    {
      assert StepAt(GreedyStepRelation(nCand, neighbors, m, sim, gain, tie), b, a);
      GreedyStepSelects(nCand, neighbors, m, sim, gain, tie, b.indices[..a], b.indices[a], b.utilities[a]);
    }
    forall a, a' | 0 <= a < a' < |b.indices|
      ensures b.indices[a] != b.indices[a']
    {
      assert b.indices[a] == b.indices[..a'][a];
    }
  }

  lemma GreedyStepSelects(nCand: nat, neighbors: string, m: nat, sim: seq<seq<Float>>, gain: seq<int> -> real,
                          tie: nat, chosen: seq<int>, pick: int, row: seq<Float>)
    requires IsSquare(sim) && |sim| == nCand && IsGreedyStep(nCand, neighbors, m, sim, gain, tie, chosen, pick, row)
    ensures 0 <= pick < nCand && pick !in chosen
    ensures forall c :: 0 <= c < nCand ==> (row[c].None? <==> c in chosen)
    ensures row[pick].Some? && forall c :: 0 <= c < nCand && row[c].Some? ==> row[c].value <= row[pick].value
  {
    var unl := Unselected(nCand, chosen);
    var g := StepGains(nCand, neighbors, m, sim, chosen, gain).value;
    UnselectedSpec(nCand, chosen);
    var best := RandArgmax(g, tie);
    forall c | 0 <= c < nCand && row[c].Some?
      ensures row[c].value <= row[pick].value
    {
      assert c !in chosen;
      assert c in unl;
      var p :| 0 <= p < |unl| && unl[p] == c;
      assert row[c].value == g[p] <= g[best];
    }
  }

  /** `np.full([k], np.nan, dtype=int)`: `k` copies of the NaN sentinel. */
  function Sentinels(k: nat): (s: seq<int>)
    ensures |s| == k && forall a :: 0 <= a < k ==> s[a] == NaNIndex
  {
    seq(k, _ => NaNIndex)
  }

  /** A row of `n` NaN utilities. */
  function NaNRow(n: nat): (row: seq<Float>)
    ensures |row| == n && forall c :: 0 <= c < n ==> row[c] == None
  {
    seq(n, _ => None)
  }

  /** `np.full([k, n], np.nan)`. */
  function Blank(k: nat, n: nat): (rows: seq<seq<Float>>)
    ensures |rows| == k && forall a :: 0 <= a < k ==> rows[a] == NaNRow(n)
  {
    seq(k, _ => NaNRow(n))
  }

  /** `np.full([k], np.nan, dtype=int)` and `np.full([k, n], np.nan)`: a
      selection of `k` sentinels and `k` rows of `n` NaN utilities. */
  method NaNArrays(k: nat, n: nat) returns (best: array<int>, utilities: array2<Float>)
    ensures fresh(best) && fresh(utilities)
    ensures best.Length == k && utilities.Length0 == k && utilities.Length1 == n
    ensures best[..] == Sentinels(k) && Rows(utilities) == Blank(k, n)
  {
    best := new int[k](_ => NaNIndex);
    utilities := new Float[k, n]((_, _) => None);
    assert Rows(utilities) == Blank(k, n) by {
      forall a | 0 <= a < k
        ensures Rows(utilities)[a] == NaNRow(n)
      {
      }
    }
  }

  /** Filling the first sentinel after the selection extends the selection. */
  lemma FillSentinel(chosen: seq<int>, k: nat, x: int)
    requires k >= 1
    ensures (chosen + Sentinels(k))[|chosen| := x] == (chosen + [x]) + Sentinels(k - 1)
  {
  }

  /** Filling the first blank row after the finished rows extends them. */
  lemma FillRow(rows: seq<seq<Float>>, k: nat, n: nat, after: seq<seq<Float>>)
    requires k >= 1 && |after| == |rows| + k
    requires forall a :: 0 <= a < |after| && a != |rows| ==> after[a] == (rows + Blank(k, n))[a]
    ensures after == (rows + [after[|rows|]]) + Blank(k - 1, n)
  {
  }

  /** `best_indices[i] = unlabeled[cur_best_idx]` and
      `utilities[i, unlabeled] = gains`. */
  method Record(best: array<int>, utilities: array2<Float>, i: nat, unlabeled: seq<int>, gains: seq<real>, tie: nat)
    requires i < best.Length == utilities.Length0
    requires |gains| == |unlabeled| >= 1
    requires forall k :: 0 <= k < |unlabeled| ==> 0 <= unlabeled[k] < utilities.Length1
    requires forall k, l :: 0 <= k < l < |unlabeled| ==> unlabeled[k] < unlabeled[l]
    modifies best, utilities
    ensures best[..] == old(best[..])[i := unlabeled[RandArgmax(gains, tie)]]
    ensures forall p :: 0 <= p < |unlabeled| ==> Rows(utilities)[i][unlabeled[p]] == Some(gains[p])
    ensures forall c :: 0 <= c < utilities.Length1 && c !in unlabeled ==>
      Rows(utilities)[i][c] == old(Rows(utilities))[i][c]
    ensures forall a :: 0 <= a < utilities.Length0 && a != i ==> Rows(utilities)[a] == old(Rows(utilities))[a]
  {
    ghost var before := Rows(utilities);
    var pos := RandArgmax(gains, tie);
    best[i] := unlabeled[pos];
    Scatter(utilities, i, unlabeled, gains);
    forall a | 0 <= a < utilities.Length0 && a != i
      ensures Rows(utilities)[a] == before[a]
    {
      assert forall c :: 0 <= c < utilities.Length1 ==> Rows(utilities)[a][c] == before[a][c];
    }
  }

  /** A successful step has one gain per candidate left, and the
      candidates left are ascending candidates not chosen yet. */
  lemma StepLeft(nCand: nat, neighbors: string, m: nat, sim: seq<seq<Float>>, chosen: seq<int>,
                 gain: seq<int> -> real)
    requires IsSquare(sim) && |sim| == nCand
    requires StepGains(nCand, neighbors, m, sim, chosen, gain).Ok?
    ensures var unl := Unselected(nCand, chosen);
      |StepGains(nCand, neighbors, m, sim, chosen, gain).value| == |unl| >= 1 &&
      (forall k :: 0 <= k < |unl| ==> 0 <= unl[k] < nCand && unl[k] !in chosen) &&
      (forall k, l :: 0 <= k < l < |unl| ==> unl[k] < unl[l])
  {
    UnselectedSpec(nCand, chosen);
  }

  /** A step's gains, written into the row of NaNs for the candidates left,
      with the candidate of largest gain chosen, make a greedy step. */
  lemma StepMakesGreedyStep(nCand: nat, neighbors: string, m: nat, sim: seq<seq<Float>>, gain: seq<int> -> real,
                            tie: nat, chosen: seq<int>, g: seq<real>, row: seq<Float>)
    requires IsSquare(sim) && |sim| == nCand
    requires StepGains(nCand, neighbors, m, sim, chosen, gain) == Ok(g)
    requires |g| == |Unselected(nCand, chosen)| >= 1 && |row| == nCand
    requires forall p :: 0 <= p < |Unselected(nCand, chosen)| ==>
      0 <= Unselected(nCand, chosen)[p] < nCand && row[Unselected(nCand, chosen)[p]] == Some(g[p])
    requires forall c :: 0 <= c < nCand && c in chosen ==> row[c] == None
    ensures IsGreedyStep(nCand, neighbors, m, sim, gain, tie, chosen, Unselected(nCand, chosen)[RandArgmax(g, tie)], row)
  {
  }

  /** The computing half of a pass of the corrected loop, on the contents
      of `best_indices`: `unlabeled_cand_idx`, then the candidate sets among
      those candidates, read back as candidate indices and appended to the
      selection, then their gains. */
  method StepOf(best: seq<int>, i: nat, ghost chosen: seq<int>, nCand: nat, neighbors: string, m: nat,
                sim: seq<seq<Float>>, gain: seq<int> -> real)
    returns (unlabeled: seq<int>, gains: Result<seq<real>>)
    requires IsSquare(sim) && |sim| == nCand && nCand < 0x8000_0000_0000_0000
    requires i <= |best| && |chosen| == i && best == chosen + Sentinels(|best| - i)
    ensures unlabeled == Unselected(nCand, chosen)
    ensures gains == StepGains(nCand, neighbors, m, sim, chosen, gain)
  {
    unlabeled := Unselected(nCand, best);
    UnselectedIgnoresOutside(nCand, chosen, Sentinels(|best| - i));
    if neighbors != "same" && neighbors != "nearest" {
      return unlabeled, Err(ValueError("neighbor_mode unknown"));
    }
    UnselectedSpec(nCand, chosen);
    InRangeValid(unlabeled, nCand);
    InRangeValid(Indices(|unlabeled|), |unlabeled|);
    var sub := Restrict(sim, unlabeled);
    CandSetPositions(neighbors, |unlabeled|, sub, m);
    var sets := NonmyopicCandSet(neighbors, Indices(|unlabeled|), sub, m);
    assert best[..i] == chosen;
    var joined := Prefixed(best[..i], Through(unlabeled, sets.value));
    assert joined == StepSets(nCand, neighbors, m, sim, chosen);
    gains := GainsOf(joined, nCand, true, gain);
  }

  /** The candidates of a greedy run lie inside `0 .. nCand-1`. */
  lemma RunInRange(nCand: nat, neighbors: string, m: nat, sim: seq<seq<Float>>, gain: seq<int> -> real, tie: nat,
                   chosen: seq<int>, rows: seq<seq<Float>>)
    requires IsSquare(sim) && |sim| == nCand && IsGreedyRun(nCand, neighbors, m, sim, gain, tie, Batch(chosen, rows))
    ensures forall a :: 0 <= a < |chosen| ==> 0 <= chosen[a] < nCand
  {
    GreedyRunSelects(nCand, neighbors, m, sim, gain, tie, Batch(chosen, rows));
  }

  /** One pass of the corrected loop on the arrays created before it: the
      candidates left are those not among `best_indices`, and the pass
      records its choice at position `i` and its gains in row `i`. The
      selection so far is `chosen`, the rows so far `rows`. */
  method GreedyStep(best: array<int>, utilities: array2<Float>, i: nat, ghost chosen: seq<int>,
                    ghost rows: seq<seq<Float>>, nCand: nat, neighbors: string, m: nat, sim: seq<seq<Float>>,
                    gain: seq<int> -> real, tie: nat)
    returns (gains: Result<seq<real>>)
    requires IsSquare(sim) && |sim| == nCand && nCand < 0x8000_0000_0000_0000
    requires i < best.Length == utilities.Length0 && utilities.Length1 == nCand
    requires |chosen| == i && best[..] == chosen + Sentinels(best.Length - i)
    requires |rows| == i && Rows(utilities) == rows + Blank(best.Length - i, nCand)
    requires IsGreedyRun(nCand, neighbors, m, sim, gain, tie, Batch(chosen, rows))
    modifies best, utilities
    ensures gains == StepGains(nCand, neighbors, m, sim, chosen, gain)
    ensures gains.Err? ==> unchanged(best) && unchanged(utilities)
    ensures gains.Ok? ==> best[..] == (chosen + [best[i]]) + Sentinels(best.Length - i - 1)
    ensures gains.Ok? ==> Rows(utilities) == (rows + [Rows(utilities)[i]]) + Blank(best.Length - i - 1, nCand)
    ensures gains.Ok? ==>
      IsGreedyRun(nCand, neighbors, m, sim, gain, tie, Batch(chosen + [best[i]], rows + [Rows(utilities)[i]]))
    ensures gains.Ok? ==> |Unselected(nCand, chosen + [best[i]])| == |Unselected(nCand, chosen)| - 1
    ensures gains.Ok? ==> (neighbors == "same" || neighbors == "nearest") && (chosen == [] ==> m >= 1)
  {
    var unlabeled;
    unlabeled, gains := StepOf(best[..], i, chosen, nCand, neighbors, m, sim, gain);
    if gains.Ok? {
      StepFacts(nCand, neighbors, m, sim, gain, tie, chosen, rows, gains.value);
      RecordStep(best, utilities, i, chosen, rows, nCand, tie, unlabeled, gains.value,
                 GreedyStepRelation(nCand, neighbors, m, sim, gain, tie));
    }
  }

  /** What a successful greedy step offers the pass that records it: the
      candidates left are in range and ascending, every row that holds the
      gains at them and NaN elsewhere makes a greedy step with the
      candidate of largest gain, and that candidate leaves one fewer. */
  lemma StepFacts(nCand: nat, neighbors: string, m: nat, sim: seq<seq<Float>>, gain: seq<int> -> real, tie: nat,
                  chosen: seq<int>, rows: seq<seq<Float>>, g: seq<real>)
    requires IsSquare(sim) && |sim| == nCand && IsGreedyRun(nCand, neighbors, m, sim, gain, tie, Batch(chosen, rows))
    requires StepGains(nCand, neighbors, m, sim, chosen, gain) == Ok(g)
    ensures var unl := Unselected(nCand, chosen);
      |g| == |unl| >= 1 &&
      (forall k :: 0 <= k < |unl| ==> 0 <= unl[k] < nCand) &&
      (forall k, l :: 0 <= k < l < |unl| ==> unl[k] < unl[l]) &&
      (forall row :: FilledRow(row, nCand, unl, g) ==>
        GreedyStepRelation(nCand, neighbors, m, sim, gain, tie)(chosen, unl[RandArgmax(g, tie)], row)) &&
      |Unselected(nCand, chosen + [unl[RandArgmax(g, tie)]])| == |unl| - 1
    ensures (neighbors == "same" || neighbors == "nearest") && (chosen == [] ==> m >= 1)
  {
    var unl := Unselected(nCand, chosen);
    RunInRange(nCand, neighbors, m, sim, gain, tie, chosen, rows);
    StepLeft(nCand, neighbors, m, sim, chosen, gain);
    StepGainsCases(nCand, neighbors, m, sim, chosen, gain);
    var pick := unl[RandArgmax(g, tie)];
    forall row | FilledRow(row, nCand, unl, g)
      ensures GreedyStepRelation(nCand, neighbors, m, sim, gain, tie)(chosen, pick, row)
    {
      StepMakesGreedyStep(nCand, neighbors, m, sim, gain, tie, chosen, g, row);
    }
    SelectOne(nCand, chosen, pick);
  }

  /** `row` holds the gains `g` at the candidates `unl` and NaN elsewhere. */
  predicate FilledRow(row: seq<Float>, nCand: nat, unl: seq<int>, g: seq<real>)
    requires |g| == |unl|
  {
    |row| == nCand &&
    (forall p :: 0 <= p < |unl| ==> 0 <= unl[p] < nCand && row[unl[p]] == Some(g[p])) &&
    (forall c :: 0 <= c < nCand && c !in unl ==> row[c] == None)
  }

  /** The recording half of a successful pass of the corrected loop, for
      any `step` that holds of the choice and the row the pass records:
      position `i` and row `i` are filled, and the run grows by one step. */
  method RecordStep(best: array<int>, utilities: array2<Float>, i: nat, ghost chosen: seq<int>,
                    ghost rows: seq<seq<Float>>, nCand: nat, tie: nat, unlabeled: seq<int>, gains: seq<real>,
                    ghost step: (seq<int>, int, seq<Float>) -> bool)
    requires i < best.Length == utilities.Length0 && utilities.Length1 == nCand
    requires |chosen| == i && best[..] == chosen + Sentinels(best.Length - i)
    requires |rows| == i && Rows(utilities) == rows + Blank(best.Length - i, nCand)
    requires RunOf(step, Batch(chosen, rows))
    requires |gains| == |unlabeled| >= 1
    requires forall k :: 0 <= k < |unlabeled| ==> 0 <= unlabeled[k] < nCand
    requires forall k, l :: 0 <= k < l < |unlabeled| ==> unlabeled[k] < unlabeled[l]
    requires forall row :: FilledRow(row, nCand, unlabeled, gains) ==>
      step(chosen, unlabeled[RandArgmax(gains, tie)], row)
    modifies best, utilities
    ensures best[i] == unlabeled[RandArgmax(gains, tie)]
    ensures best[..] == (chosen + [best[i]]) + Sentinels(best.Length - i - 1)
    ensures Rows(utilities) == (rows + [Rows(utilities)[i]]) + Blank(best.Length - i - 1, nCand)
    ensures RunOf(step, Batch(chosen + [best[i]], rows + [Rows(utilities)[i]]))
  {
    ghost var before := Rows(utilities);
    assert before[i] == NaNRow(nCand);
    Record(best, utilities, i, unlabeled, gains, tie);
    ghost var after := Rows(utilities);
    var pick := unlabeled[RandArgmax(gains, tie)];
    FillSentinel(chosen, best.Length - i, pick);
    FillRow(rows, best.Length - i, nCand, after);
    assert FilledRow(after[i], nCand, unlabeled, gains);
    RunExtend(step, chosen, rows, pick, after[i]);
  }

  /** The error the corrected loop ends with, if any: a negative batch size
      is refused by `np.full`; a batch of none needs nothing; an unknown
      neighbour mode is refused by the first step; with no candidates the
      first step has no candidate sets, and with a look-ahead of zero its
      sets are empty; a batch larger than the candidates runs out of them. */
  function CorrectedError(nCand: nat, batchSize: int, neighbors: string, m: nat): Option<Error>
  {
    if batchSize < 0 then Some(ValueError("negative dimensions are not allowed"))
    else if batchSize == 0 then None
    else if neighbors != "same" && neighbors != "nearest" then Some(ValueError("neighbor_mode unknown"))
    else if nCand == 0 then Some(IndexError("tuple index out of range"))
    else if m == 0 then Some(ValueError("zero-size array to reduction operation fmax which has no identity"))
    else if batchSize > nCand then Some(IndexError("tuple index out of range"))
    else None
  }

  /** The corrected loop succeeds exactly for a batch no larger than the
      candidates, with a known neighbour mode and a look-ahead of at least
      one unless the batch is empty. */
  lemma CorrectedErrorCases(nCand: nat, batchSize: int, neighbors: string, m: nat)
    ensures CorrectedError(nCand, batchSize, neighbors, m).None? <==>
      0 <= batchSize <= nCand && (batchSize == 0 || ((neighbors == "same" || neighbors == "nearest") && m >= 1))
    ensures batchSize > nCand && (neighbors == "same" || neighbors == "nearest") && (m >= 1 || nCand == 0) ==>
      CorrectedError(nCand, batchSize, neighbors, m).Some? &&
      CorrectedError(nCand, batchSize, neighbors, m).value.IndexError?
  {
  }

  /** A failing step of the corrected loop fails with the error
      `CorrectedError` names. */
  lemma StepErrorIs(nCand: nat, batchSize: int, neighbors: string, m: nat, sim: seq<seq<Float>>,
                    gain: seq<int> -> real, chosen: seq<int>)
    requires IsSquare(sim) && |sim| == nCand
    requires forall a :: 0 <= a < |chosen| ==> 0 <= chosen[a] < nCand
    requires |chosen| < batchSize && |Unselected(nCand, chosen)| == nCand - |chosen|
    requires |chosen| >= 1 ==> (neighbors == "same" || neighbors == "nearest") && m >= 1
    requires StepGains(nCand, neighbors, m, sim, chosen, gain).Err?
    ensures CorrectedError(nCand, batchSize, neighbors, m) == Some(StepGains(nCand, neighbors, m, sim, chosen, gain).error)
  {
    StepGainsCases(nCand, neighbors, m, sim, chosen, gain);
    if neighbors == "same" || neighbors == "nearest" {
      var sets := StepSets(nCand, neighbors, m, sim, chosen);
      StepSetsSpec(nCand, neighbors, m, sim, chosen);
      if |Unselected(nCand, chosen)| == 0 {
        assert |sets| == 0;
      } else {
        assert m == 0 && chosen == [];
        assert |sets[0]| == 0;
      }
    }
  }

  /** The passes of the corrected loop over `best_indices` and `utilities`
      as created before it: each pass fills the next position and row, and
      the first pass that fails ends the loop with its error. */
  method FillBatch(best: array<int>, utilities: array2<Float>, nCand: nat, neighbors: string, m: nat,
                   sim: seq<seq<Float>>, gain: seq<int> -> real, tie: nat) returns (r: Result<Batch>)
    requires IsSquare(sim) && |sim| == nCand && nCand < 0x8000_0000_0000_0000
    requires best.Length == utilities.Length0 && utilities.Length1 == nCand
    requires best[..] == Sentinels(best.Length) && Rows(utilities) == Blank(best.Length, nCand)
    modifies best, utilities
    ensures r.Err? ==> CorrectedError(nCand, best.Length, neighbors, m) == Some(r.error)
    ensures r.Ok? ==> CorrectedError(nCand, best.Length, neighbors, m) == None
    ensures r.Ok? ==> |r.value.indices| == best.Length && IsGreedyRun(nCand, neighbors, m, sim, gain, tie, r.value)
  {
    ghost var chosen: seq<int> := [];
    ghost var rows: seq<seq<Float>> := [];
    assert best[..] == chosen + Sentinels(best.Length);
    assert Rows(utilities) == rows + Blank(best.Length, nCand);
    NothingSelected(nCand);
    var i := 0;
    while i < best.Length
      invariant 0 <= i <= best.Length && |chosen| == i && |rows| == i
      invariant best[..] == chosen + Sentinels(best.Length - i)
      invariant Rows(utilities) == rows + Blank(best.Length - i, nCand)
      invariant IsGreedyRun(nCand, neighbors, m, sim, gain, tie, Batch(chosen, rows))
      invariant |Unselected(nCand, chosen)| == nCand - i
      invariant i >= 1 ==> (neighbors == "same" || neighbors == "nearest") && m >= 1
    {
      RunInRange(nCand, neighbors, m, sim, gain, tie, chosen, rows);
      var gains := GreedyStep(best, utilities, i, chosen, rows, nCand, neighbors, m, sim, gain, tie);
      if gains.Err? {
        StepErrorIs(nCand, best.Length, neighbors, m, sim, gain, chosen);
        return Err(gains.error);
      }
      chosen := chosen + [best[i]];
      rows := rows + [Rows(utilities)[i]];
      i := i + 1;
    }
    assert best[..] == chosen;
    assert Rows(utilities) == rows;
    r := Ok(Batch(best[..], Rows(utilities)));
  }

  /** The greedy loop of `query` with `best_indices` and `utilities`
      created once, before the loop. A negative batch size is refused by
      `np.full`; otherwise the loop runs until the batch is full, and a
      step with no candidate left fails. */
  method GreedyCorrected(nCand: nat, batchSize: int, neighbors: string, m: nat, sim: seq<seq<Float>>,
                         gain: seq<int> -> real, tie: nat) returns (r: Result<Batch>)
    requires IsSquare(sim) && |sim| == nCand && nCand < 0x8000_0000_0000_0000
    ensures r.Err? ==> CorrectedError(nCand, batchSize, neighbors, m) == Some(r.error)
    ensures r.Ok? ==> CorrectedError(nCand, batchSize, neighbors, m) == None
    ensures r.Ok? ==> |r.value.indices| == batchSize && IsGreedyRun(nCand, neighbors, m, sim, gain, tie, r.value)
  {
    if batchSize < 0 {
      return Err(ValueError("negative dimensions are not allowed"));
    }
    var best, utilities := NaNArrays(batchSize, nCand);
    r := FillBatch(best, utilities, nCand, neighbors, m, sim, gain, tie);
  }
}
