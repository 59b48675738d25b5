/** The closed-form aggregation of `_cost_reduction` (McPAL): for each
    candidate with class-frequency vector `k`, the expected classification
    cost after `m` more labels is a sum over all label vectors `l` with
    `m` labels, and the candidate's utility is the largest cost reduction
    per label over `m = 1 .. m_max`. Euler's beta function is the
    parameter `beta`. */
module CostReduction {
  import opened Common
  import opened Combinatorics
  import CostModel

  /** `n` class frequencies per candidate. */
  predicate IsFrequencies(kVecs: seq<seq<real>>, n: nat)
  {
    forall i :: 0 <= i < |kVecs| ==> |kVecs[i]| == n
  }

  /** The cost matrix in use: the one given, or `1 - np.eye(n)`. */
  function EffectiveCost(costMatrix: Option<seq<seq<real>>>, n: nat): (cost: seq<seq<real>>)
    requires costMatrix.Some? ==> IsMatrix(costMatrix.value, n, n)
    ensures IsMatrix(cost, n, n)
  {
    if costMatrix.None? then CostModel.ErrorCostMatrix(n) else costMatrix.value
  }

  // The Bayes-optimal decision

  /** `(k + l) @ C[:, j]`: the cost of deciding `j` given counts `k + l`. */
  function DecisionCost(k: seq<real>, l: seq<int>, cost: seq<seq<real>>, j: nat, n: nat): real
    requires |k| == n && |l| == n && IsMatrix(cost, n, n) && j < n
  {
    RealSum(seq(n, c requires 0 <= c < n => (k[c] + l[c] as real) * cost[c][j]))
  }

  /** `np.argmin`: the first index of a smallest entry. */
  function ArgMin(v: seq<real>): (j: nat)
    requires |v| >= 1
    ensures j < |v|
    ensures forall i :: 0 <= i < |v| ==> v[j] <= v[i]
    ensures forall i :: 0 <= i < j ==> v[i] > v[j]
  {
    if |v| == 1 then 0
    else
      var j := ArgMin(v[..|v| - 1]);
      if v[|v| - 1] < v[j] then |v| - 1 else j
  }

  /** `y_hats[k, l]`: the decision for counts `k + l`, taken before the
      prior is added to `k`. */
  function YHat(k: seq<real>, l: seq<int>, cost: seq<seq<real>>, n: nat): (y: nat)
    requires n >= 1 && |k| == n && |l| == n && IsMatrix(cost, n, n)
    ensures y < n
    ensures forall j :: 0 <= j < n ==> DecisionCost(k, l, cost, y, n) <= DecisionCost(k, l, cost, j, n)
    ensures forall j :: 0 <= j < y ==> DecisionCost(k, l, cost, j, n) > DecisionCost(k, l, cost, y, n)
  {
    ArgMin(DecisionCosts(k, l, cost, n))
  }

  /** `(k + l) @ C`: the cost of each decision. */
  function DecisionCosts(k: seq<real>, l: seq<int>, cost: seq<seq<real>>, n: nat): (v: seq<real>)
    requires |k| == n && |l| == n && IsMatrix(cost, n, n)
    ensures |v| == n && forall j :: 0 <= j < n ==> v[j] == DecisionCost(k, l, cost, j, n)
  {
    seq(n, j requires 0 <= j < n => DecisionCost(k, l, cost, j, n))
  }

  // The three factors

  /** `k + prior * np.ones(n)`. */
  function WithPrior(k: seq<real>, prior: real): seq<real>
  {
    seq(|k|, c requires 0 <= c < |k| => k[c] + prior)
  }

  /** `k + l + e_c`, one row of `np.sum(combs, axis=1)`. */
  function Posterior(k: seq<real>, l: seq<int>, c: nat): seq<real>
    requires |l| == |k|
  {
    seq(|k|, i requires 0 <= i < |k| => k[i] + l[i] as real + (if i == c then 1.0 else 0.0))
  }

  /** The weight bincount adds for label vector `l` of a candidate:
      `multinomial(l) * (C[:, y_hat] @ factor_3[k, l])`. */
  function Term(k: seq<real>, l: seq<int>, cost: seq<seq<real>>, prior: real, beta: seq<real> -> real, n: nat): real
    requires n >= 1 && |k| == n && |l| == n && NonNegative(l) && IsMatrix(cost, n, n)
  {
    var y := YHat(k, l, cost, n);
    var kp := WithPrior(k, prior);
    Multinomial(l) as real * RealSum(seq(n, c requires 0 <= c < n => cost[c][y] * beta(Posterior(kp, l, c))))
  }

  /** Every row is a label vector over `n` classes. */
  predicate AreLabelRows(ls: seq<seq<int>>, n: nat)
  {
    forall j :: 0 <= j < |ls| ==> |ls[j]| == n && NonNegative(ls[j])
  }

  /** `np.bincount(m_list, weights)[m]`: the weights of the rows that sum
      to `m`. */
  function BinCount(k: seq<real>, ls: seq<seq<int>>, m: int, cost: seq<seq<real>>, prior: real,
                    beta: seq<real> -> real, n: nat): real
    requires n >= 1 && |k| == n && AreLabelRows(ls, n) && IsMatrix(cost, n, n)
  {
    if ls == [] then 0.0
    else
      BinCount(k, ls[..|ls| - 1], m, cost, prior, beta, n) +
      (if Sum(ls[|ls| - 1]) == m then Term(k, ls[|ls| - 1], cost, prior, beta, n) else 0.0)
  }

  /** The sum of the weights of all rows. */
  function BlockSum(k: seq<real>, ls: seq<seq<int>>, cost: seq<seq<real>>, prior: real,
                    beta: seq<real> -> real, n: nat): real
    requires n >= 1 && |k| == n && AreLabelRows(ls, n) && IsMatrix(cost, n, n)
  {
    if ls == [] then 0.0
    else BlockSum(k, ls[..|ls| - 1], cost, prior, beta, n) + Term(k, ls[|ls| - 1], cost, prior, beta, n)
  }

  /** `np.vstack([_gen_l_vec_list(m, n) for m in range(m_max + 1)])`. */
  function AllLabelVectors(mMax: nat, n: nat): seq<seq<int>>
  {
    if mMax == 0 then LabelVectorList(0, n)
    else AllLabelVectors(mMax - 1, n) + LabelVectorList(mMax, n)
  }

  lemma BlockRows(m: nat, n: nat)
    requires n >= 1
    ensures AreLabelRows(LabelVectorList(m, n), n)
    ensures forall j :: 0 <= j < |LabelVectorList(m, n)| ==> Sum(LabelVectorList(m, n)[j]) == m
  {
    LabelVectorListRows(m, n);
    forall j | 0 <= j < |LabelVectorList(m, n)|
      ensures IsLabelVector(LabelVectorList(m, n)[j], m, n)
    {
      assert LabelVectorList(m, n)[j] in LabelVectorList(m, n);
    }
  }

  lemma {:induction false} AllRows(mMax: nat, n: nat)
    requires n >= 1
    ensures AreLabelRows(AllLabelVectors(mMax, n), n)
    ensures forall j :: 0 <= j < |AllLabelVectors(mMax, n)| ==> Sum(AllLabelVectors(mMax, n)[j]) <= mMax
  {
    BlockRows(mMax, n);
    if mMax > 0 {
      AllRows(mMax - 1, n);
    }
  }

  lemma {:induction false} BinCountAppend(k: seq<real>, a: seq<seq<int>>, b: seq<seq<int>>, m: int,
                                          cost: seq<seq<real>>, prior: real, beta: seq<real> -> real, n: nat)
    requires n >= 1 && |k| == n && AreLabelRows(a, n) && AreLabelRows(b, n) && IsMatrix(cost, n, n)
    ensures AreLabelRows(a + b, n)
    ensures BinCount(k, a + b, m, cost, prior, beta, n) ==
      BinCount(k, a, m, cost, prior, beta, n) + BinCount(k, b, m, cost, prior, beta, n)
  {
    if b == [] {
      assert a + b == a;
    } else {
      assert (a + b)[..|a + b| - 1] == a + b[..|b| - 1];
      BinCountAppend(k, a, b[..|b| - 1], m, cost, prior, beta, n);
    }
  }

  /** On rows that all sum to `s`, bincount at `m` is everything or nothing. */
  lemma {:induction false} BinCountBlock(k: seq<real>, ls: seq<seq<int>>, s: int, m: int,
                                         cost: seq<seq<real>>, prior: real, beta: seq<real> -> real, n: nat)
    requires n >= 1 && |k| == n && AreLabelRows(ls, n) && IsMatrix(cost, n, n)
    requires forall j :: 0 <= j < |ls| ==> Sum(ls[j]) == s
    ensures BinCount(k, ls, m, cost, prior, beta, n) ==
      if s == m then BlockSum(k, ls, cost, prior, beta, n) else 0.0
  {
    if ls != [] {
      BinCountBlock(k, ls[..|ls| - 1], s, m, cost, prior, beta, n);
    }
  }

  /** Bincount at `m` of rows none of which sums to `m` is zero. */
  lemma {:induction false} BinCountNone(k: seq<real>, ls: seq<seq<int>>, m: int,
                                        cost: seq<seq<real>>, prior: real, beta: seq<real> -> real, n: nat)
    requires n >= 1 && |k| == n && AreLabelRows(ls, n) && IsMatrix(cost, n, n)
    requires forall j :: 0 <= j < |ls| ==> Sum(ls[j]) != m
    ensures BinCount(k, ls, m, cost, prior, beta, n) == 0.0
  {
    if ls != [] {
      BinCountNone(k, ls[..|ls| - 1], m, cost, prior, beta, n);
    }
  }

  /** Grouping by `m_list` picks out exactly the label vectors with `m`
      labels: entry `m` of the bincount is the sum over
      `_gen_l_vec_list(m, n)`. */
  lemma {:induction false} BinCountIsBlockSum(k: seq<real>, mMax: nat, m: nat,
                                              cost: seq<seq<real>>, prior: real, beta: seq<real> -> real, n: nat)
    requires n >= 1 && |k| == n && IsMatrix(cost, n, n) && m <= mMax
    ensures AreLabelRows(AllLabelVectors(mMax, n), n) && AreLabelRows(LabelVectorList(m, n), n)
    ensures BinCount(k, AllLabelVectors(mMax, n), m, cost, prior, beta, n) ==
      BlockSum(k, LabelVectorList(m, n), cost, prior, beta, n)
    decreases mMax, 1
  {
    if m < mMax {
      BinCountEarlier(k, mMax, m, cost, prior, beta, n);
    } else if m == 0 {
      BinCountFirst(k, cost, prior, beta, n);
    } else {
      BinCountLast(k, m, cost, prior, beta, n);
    }
  }

  /** The step for an `m` below `m_max`: the block for `m_max` adds nothing
      to entry `m`. */
  lemma {:induction false} BinCountEarlier(k: seq<real>, mMax: nat, m: nat,
                        cost: seq<seq<real>>, prior: real, beta: seq<real> -> real, n: nat)
    requires n >= 1 && |k| == n && IsMatrix(cost, n, n) && m < mMax
    ensures AreLabelRows(AllLabelVectors(mMax, n), n) && AreLabelRows(LabelVectorList(m, n), n)
    ensures BinCount(k, AllLabelVectors(mMax, n), m, cost, prior, beta, n) ==
      BlockSum(k, LabelVectorList(m, n), cost, prior, beta, n)
    decreases mMax, 0
  {
    BinCountIsBlockSum(k, mMax - 1, m, cost, prior, beta, n);
    BinCountNext(k, mMax, m, BlockSum(k, LabelVectorList(m, n), cost, prior, beta, n), cost, prior, beta, n);
  }

  /** Adding the block of `m_max` labels leaves the entries below `m_max`
      as they were. */
  lemma BinCountNext(k: seq<real>, mMax: nat, m: nat, total: real,
                     cost: seq<seq<real>>, prior: real, beta: seq<real> -> real, n: nat)
    requires n >= 1 && |k| == n && IsMatrix(cost, n, n) && m < mMax
    requires AreLabelRows(AllLabelVectors(mMax - 1, n), n)
    requires BinCount(k, AllLabelVectors(mMax - 1, n), m, cost, prior, beta, n) == total
    ensures AreLabelRows(AllLabelVectors(mMax, n), n)
    ensures BinCount(k, AllLabelVectors(mMax, n), m, cost, prior, beta, n) == total
  {
    var front, block := AllLabelVectors(mMax - 1, n), LabelVectorList(mMax, n);
    assert AllLabelVectors(mMax, n) == front + block;
    BlockRows(mMax, n);
    BinCountSkip(k, front, block, mMax, m, total, cost, prior, beta, n);
  }

  /** The case `m = m_max = 0`: the only block is the one of no labels. */
  lemma BinCountFirst(k: seq<real>, cost: seq<seq<real>>, prior: real, beta: seq<real> -> real, n: nat)
    requires n >= 1 && |k| == n && IsMatrix(cost, n, n)
    ensures AreLabelRows(AllLabelVectors(0, n), n) && AreLabelRows(LabelVectorList(0, n), n)
    ensures BinCount(k, AllLabelVectors(0, n), 0, cost, prior, beta, n) ==
      BlockSum(k, LabelVectorList(0, n), cost, prior, beta, n)
  {
    var block := LabelVectorList(0, n);
    assert AllLabelVectors(0, n) == block;
    BlockRows(0, n);
    BinCountBlock(k, block, 0, 0, cost, prior, beta, n);
  }

  /** The step for `m = m_max`: only the last block contributes. */
  lemma BinCountLast(k: seq<real>, m: nat, cost: seq<seq<real>>, prior: real, beta: seq<real> -> real, n: nat)
    requires n >= 1 && |k| == n && IsMatrix(cost, n, n) && m >= 1
    ensures AreLabelRows(AllLabelVectors(m, n), n) && AreLabelRows(LabelVectorList(m, n), n)
    ensures BinCount(k, AllLabelVectors(m, n), m, cost, prior, beta, n) ==
      BlockSum(k, LabelVectorList(m, n), cost, prior, beta, n)
  {
    var front, block := AllLabelVectors(m - 1, n), LabelVectorList(m, n);
    assert AllLabelVectors(m, n) == front + block;
    BlockRows(m, n);
    AllRows(m - 1, n);
    BinCountNone(k, front, m, cost, prior, beta, n);
    BinCountSplit(k, front, block, m, m, cost, prior, beta, n);
  }

  /** Appending a block of rows that all sum to `s != m` leaves entry `m`
      of the bincount as it was. */
  lemma BinCountSkip(k: seq<real>, front: seq<seq<int>>, block: seq<seq<int>>, s: int, m: int, total: real,
                     cost: seq<seq<real>>, prior: real, beta: seq<real> -> real, n: nat)
    requires n >= 1 && |k| == n && AreLabelRows(front, n) && AreLabelRows(block, n) && IsMatrix(cost, n, n)
    requires forall j :: 0 <= j < |block| ==> Sum(block[j]) == s
    requires s != m && BinCount(k, front, m, cost, prior, beta, n) == total
    ensures AreLabelRows(front + block, n)
    ensures BinCount(k, front + block, m, cost, prior, beta, n) == total
  {
    BinCountSplit(k, front, block, s, m, cost, prior, beta, n);
  }

  /** Bincount over a front part followed by a block of rows summing to `s`. */
  lemma BinCountSplit(k: seq<real>, front: seq<seq<int>>, block: seq<seq<int>>, s: int, m: int,
                      cost: seq<seq<real>>, prior: real, beta: seq<real> -> real, n: nat)
    requires n >= 1 && |k| == n && AreLabelRows(front, n) && AreLabelRows(block, n) && IsMatrix(cost, n, n)
    requires forall j :: 0 <= j < |block| ==> Sum(block[j]) == s
    ensures AreLabelRows(front + block, n)
    ensures BinCount(k, front + block, m, cost, prior, beta, n) ==
      BinCount(k, front, m, cost, prior, beta, n) + (if s == m then BlockSum(k, block, cost, prior, beta, n) else 0.0)
  {
    BinCountAppend(k, front, block, m, cost, prior, beta, n);
    BinCountBlock(k, block, s, m, cost, prior, beta, n);
  }

  /** `m_sums[k, m]`: the expected cost after `m` more labels,
      `factor_1 * bincount(...)[m]`. */
  function MSum(k: seq<real>, m: nat, mMax: nat, cost: seq<seq<real>>, prior: real, beta: seq<real> -> real, n: nat): real
    requires n >= 1 && |k| == n && IsMatrix(cost, n, n) && beta(WithPrior(k, prior)) != 0.0
  {
    AllRows(mMax, n);
    1.0 / beta(WithPrior(k, prior)) * BinCount(k, AllLabelVectors(mMax, n), m, cost, prior, beta, n)
  }

  /** `m_sums`: one row of expected costs `m = 0 .. m_max` per candidate. */
  function MSums(kVecs: seq<seq<real>>, mMax: nat, cost: seq<seq<real>>, prior: real, beta: seq<real> -> real, n: nat)
    : (s: seq<seq<real>>)
    requires n >= 1 && IsFrequencies(kVecs, n) && IsMatrix(cost, n, n)
    requires forall i :: 0 <= i < |kVecs| ==> beta(WithPrior(kVecs[i], prior)) != 0.0
    ensures |s| == |kVecs|
    ensures forall i :: 0 <= i < |kVecs| ==> |s[i]| == mMax + 1
    ensures forall i, m :: 0 <= i < |kVecs| && 0 <= m <= mMax ==> s[i][m] == MSum(kVecs[i], m, mMax, cost, prior, beta, n)
  {
    seq(|kVecs|, i requires 0 <= i < |kVecs| =>
      seq(mMax + 1, m requires 0 <= m <= mMax => MSum(kVecs[i], m, mMax, cost, prior, beta, n)))
  }

  /** `gains[k, m-1]`: the cost reduction per label after `m` labels. */
  function Gain(k: seq<real>, m: nat, mMax: nat, cost: seq<seq<real>>, prior: real, beta: seq<real> -> real, n: nat): real
    requires n >= 1 && |k| == n && IsMatrix(cost, n, n) && beta(WithPrior(k, prior)) != 0.0 && m >= 1
  {
    (MSum(k, 0, mMax, cost, prior, beta, n) - MSum(k, m, mMax, cost, prior, beta, n)) / m as real
  }

  /** `b` is the largest gain over `m = 1 .. m_max`: it bounds all of them
      and one of them attains it. */
  predicate IsBestGain(k: seq<real>, b: real, mMax: nat, cost: seq<seq<real>>, prior: real,
                       beta: seq<real> -> real, n: nat)
    requires n >= 1 && |k| == n && IsMatrix(cost, n, n) && beta(WithPrior(k, prior)) != 0.0
  {
    (forall m :: 1 <= m <= mMax ==> Gain(k, m, mMax, cost, prior, beta, n) <= b) &&
    (exists m :: 1 <= m <= mMax && Gain(k, m, mMax, cost, prior, beta, n) == b)
  }

  /** The largest of the gains `(m_sums[0] - m_sums[m]) / m` bounds every
      one of them and is one of them. */
  lemma MaxOfGains(k: seq<real>, row: seq<real>, mMax: nat, cost: seq<seq<real>>, prior: real,
                   beta: seq<real> -> real, n: nat)
    requires n >= 1 && |k| == n && IsMatrix(cost, n, n) && beta(WithPrior(k, prior)) != 0.0
    requires |row| == mMax >= 1
    requires forall j :: 0 <= j < mMax ==> row[j] == Gain(k, j + 1, mMax, cost, prior, beta, n)
    ensures IsBestGain(k, Max(row), mMax, cost, prior, beta, n)
  {
    forall m | 1 <= m <= mMax
      ensures Gain(k, m, mMax, cost, prior, beta, n) <= Max(row)
    {
      assert row[m - 1] == Gain(k, m, mMax, cost, prior, beta, n);
    }
    var j :| 0 <= j < mMax && row[j] == Max(row);
    assert Gain(k, j + 1, mMax, cost, prior, beta, n) == Max(row);
  }

  /** The `gains` array: filled with `m_sums[:, 0]`, then `m_sums[:, 1:]` is
      subtracted and each column `m-1` divided by `m`, in place. */
  method FillGains(mSums: seq<seq<real>>, mMax: nat) returns (gains: array2<real>)
    requires forall i :: 0 <= i < |mSums| ==> |mSums[i]| == mMax + 1
    ensures fresh(gains) && gains.Length0 == |mSums| && gains.Length1 == mMax
    ensures forall i, j :: 0 <= i < |mSums| && 0 <= j < mMax ==>
      gains[i, j] == (mSums[i][0] - mSums[i][j + 1]) / (j + 1) as real
  {
    gains := new real[|mSums|, mMax];
    for i := 0 to |mSums|
      invariant forall i', j :: 0 <= i' < i && 0 <= j < mMax ==>
        gains[i', j] == (mSums[i'][0] - mSums[i'][j + 1]) / (j + 1) as real
    {
      for j := 0 to mMax
        invariant forall i', j' :: 0 <= i' < i && 0 <= j' < mMax ==>
          gains[i', j'] == (mSums[i'][0] - mSums[i'][j' + 1]) / (j' + 1) as real
        invariant forall j' :: 0 <= j' < j ==> gains[i, j'] == (mSums[i][0] - mSums[i][j' + 1]) / (j' + 1) as real
      {
        gains[i, j] := mSums[i][0];
        gains[i, j] := gains[i, j] - mSums[i][j + 1];
        gains[i, j] := gains[i, j] / (j + 1) as real;
      }
    }
  }

  /** `_cost_reduction(k_vec_list, C, m_max, prior)` with `euler_beta` as
      `beta`, which is positive as Euler's beta function is on positive
      arguments. An empty candidate list fails at `k_vec_list[0]`, zero
      classes at the empty `argmin`, and `m_max = 0` at the empty `max`. */
  method CostReductionOf(kVecs: seq<seq<real>>, costMatrix: Option<seq<seq<real>>>, mMax: nat, prior: real,
                         beta: seq<real> -> real) returns (r: Result<seq<real>>)
    requires |kVecs| >= 1 ==> IsFrequencies(kVecs, |kVecs[0]|)
    requires |kVecs| >= 1 && costMatrix.Some? ==> IsMatrix(costMatrix.value, |kVecs[0]|, |kVecs[0]|)
    requires forall v :: beta(v) > 0.0
    ensures r.Ok? <==> |kVecs| >= 1 && |kVecs[0]| >= 1 && mMax >= 1
    ensures r.Ok? ==> |r.value| == |kVecs|
    ensures r.Ok? ==> forall i :: 0 <= i < |kVecs| ==>
      IsBestGain(kVecs[i], r.value[i], mMax, EffectiveCost(costMatrix, |kVecs[0]|), prior, beta, |kVecs[0]|)
  {
    if |kVecs| == 0 {
      return Err(IndexError("k_vec_list[0]"));
    }
    var n := |kVecs[0]|;
    if n == 0 {
      return Err(ValueError("argmin of an empty sequence"));
    }
    if mMax == 0 {
      return Err(ValueError("max of an empty sequence"));
    }
    var cost := EffectiveCost(costMatrix, n);
    var mSums := MSums(kVecs, mMax, cost, prior, beta, n);
    var gains := FillGains(mSums, mMax);
    var rows := seq(|kVecs|, i reads gains requires 0 <= i < |kVecs| =>
      seq(mMax, j reads gains requires 0 <= j < mMax => gains[i, j]));
    GainTable(kVecs, mSums, rows, mMax, cost, prior, beta, n);
    var best := seq(|kVecs|, i requires 0 <= i < |kVecs| => Max(rows[i]));
    BestGains(kVecs, rows, best, mMax, cost, prior, beta, n);
    r := Ok(best);
  }

  /** Row `i` of a gains table holds the gains of candidate `i` for
      `m = 1 .. m_max`. */
  predicate IsGainTable(kVecs: seq<seq<real>>, rows: seq<seq<real>>, mMax: nat, cost: seq<seq<real>>, prior: real,
                        beta: seq<real> -> real, n: nat)
    requires n >= 1 && IsFrequencies(kVecs, n) && IsMatrix(cost, n, n)
    requires forall i :: 0 <= i < |kVecs| ==> beta(WithPrior(kVecs[i], prior)) != 0.0
  {
    |rows| == |kVecs| &&
    forall i :: 0 <= i < |kVecs| ==>
      |rows[i]| == mMax &&
      forall j :: 0 <= j < mMax ==> rows[i][j] == Gain(kVecs[i], j + 1, mMax, cost, prior, beta, n)
  }

  /** The array filled from `m_sums` is the table of gains. */
  lemma GainTable(kVecs: seq<seq<real>>, mSums: seq<seq<real>>, rows: seq<seq<real>>, mMax: nat,
                  cost: seq<seq<real>>, prior: real, beta: seq<real> -> real, n: nat)
    requires n >= 1 && IsFrequencies(kVecs, n) && IsMatrix(cost, n, n)
    requires forall i :: 0 <= i < |kVecs| ==> beta(WithPrior(kVecs[i], prior)) != 0.0
    requires mSums == MSums(kVecs, mMax, cost, prior, beta, n)
    requires |rows| == |kVecs| && forall i :: 0 <= i < |rows| ==> |rows[i]| == mMax
    requires forall i, j :: 0 <= i < |rows| && 0 <= j < mMax ==>
      rows[i][j] == (mSums[i][0] - mSums[i][j + 1]) / (j + 1) as real
    ensures IsGainTable(kVecs, rows, mMax, cost, prior, beta, n)
  {
    forall i, j | 0 <= i < |kVecs| && 0 <= j < mMax
      ensures rows[i][j] == Gain(kVecs[i], j + 1, mMax, cost, prior, beta, n)
    {
      assert mSums[i][0] == MSum(kVecs[i], 0, mMax, cost, prior, beta, n);
      assert mSums[i][j + 1] == MSum(kVecs[i], j + 1, mMax, cost, prior, beta, n);
    }
  }

  /** The per-candidate maximum of a gains table is the best gain over
      `m = 1 .. m_max` and is attained. */
  lemma BestGains(kVecs: seq<seq<real>>, rows: seq<seq<real>>, best: seq<real>, mMax: nat,
                  cost: seq<seq<real>>, prior: real, beta: seq<real> -> real, n: nat)
    requires n >= 1 && IsFrequencies(kVecs, n) && IsMatrix(cost, n, n) && mMax >= 1
    requires forall i :: 0 <= i < |kVecs| ==> beta(WithPrior(kVecs[i], prior)) != 0.0
    requires IsGainTable(kVecs, rows, mMax, cost, prior, beta, n)
    requires |best| == |kVecs| && forall i :: 0 <= i < |kVecs| ==> best[i] == Max(rows[i])
    ensures forall i :: 0 <= i < |kVecs| ==> IsBestGain(kVecs[i], best[i], mMax, cost, prior, beta, n)
  {
    forall i | 0 <= i < |kVecs|
      ensures IsBestGain(kVecs[i], best[i], mMax, cost, prior, beta, n)
    {
      MaxOfGains(kVecs[i], rows[i], mMax, cost, prior, beta, n);
    }
  }
}
