/** `McPAL.query`: the argument checks, then every candidate's expected cost
    reduction weighted by its density, and the index of the best candidate.
    The classifier is not part of this model: whether it is a class
    frequency estimator is a flag, and its frequency estimates for the
    candidates are an input. */
module McPal {
  import opened Common
  import opened CostReduction

  /** A Python value given where a number is expected: an `int`, a finite
      `float`, or anything else (`None`, a string, ...). */
  datatype Number = IntNumber(i: int) | FloatNumber(x: real) | NotNumber

  function ValueOf(x: Number): real
    requires !x.NotNumber?
  {
    if x.IntNumber? then x.i as real else x.x
  }

  /** `float(x).is_integer()`. */
  predicate IsIntegral(x: Number)
    requires !x.NotNumber?
  {
    x.IntNumber? || x.x == x.x.Floor as real
  }

  /** `check_scalar(prior, 'prior', (float, int), min_inclusive=False,
      min_val=0)`. */
  function CheckPrior(prior: Number): Result<real>
  {
    if prior.NotNumber? then Err(TypeError("prior"))
    else if ValueOf(prior) <= 0.0 then Err(ValueError("prior"))
    else Ok(ValueOf(prior))
  }

  /** `m_max < 1 or not float(m_max).is_integer()`; comparing anything but
      a number with 1 raises TypeError. */
  function CheckMMax(mMax: Number): Result<()>
  {
    if mMax.NotNumber? then Err(TypeError("'<' not supported"))
    else if ValueOf(mMax) < 1.0 || !IsIntegral(mMax) then Err(ValueError("'m_max' must be a positive integer."))
    else Ok(())
  }

  /** `check_scalar(batch_size, 'batch_size', int, min_val=1)`. */
  function CheckBatchSize(batchSize: Number): Result<()>
  {
    if !batchSize.IntNumber? then Err(TypeError("batch_size"))
    else if batchSize.i < 1 then Err(ValueError("batch_size"))
    else Ok(())
  }

  /** The checks of `query`, in the order it runs them: the classifier, the
      prior, `m_max`, the batch size. The result is the prior's value. */
  function ValidateQuery(isFreqEstimator: bool, prior: Number, mMax: Number, batchSize: Number): (r: Result<real>)
    ensures r.Ok? <==>
      isFreqEstimator && !prior.NotNumber? && ValueOf(prior) > 0.0 &&
      !mMax.NotNumber? && ValueOf(mMax) >= 1.0 && IsIntegral(mMax) &&
      batchSize.IntNumber? && batchSize.i >= 1
    ensures r.Ok? ==> r.value == ValueOf(prior)
    ensures !isFreqEstimator ==> r.Err? && r.error.TypeError?
    ensures isFreqEstimator && !prior.NotNumber? && ValueOf(prior) <= 0.0 ==> r.Err? && r.error.ValueError?
    ensures isFreqEstimator && CheckPrior(prior).Ok? && !mMax.NotNumber? && ValueOf(mMax) < 1.0 ==>
      r.Err? && r.error.ValueError?
    ensures r.Err? ==> r.error.TypeError? || r.error.ValueError?
  {
    if !isFreqEstimator then Err(TypeError("'clf' must implement methods according to 'ClassFrequencyEstimator'."))
    else
      var p :- CheckPrior(prior);
      var _ :- CheckMMax(mMax);
      var _ :- CheckBatchSize(batchSize);
      Ok(p)
  }

  /** `range(m_max + 1)` inside `_cost_reduction`: only an `int` is
      accepted, so a float that passed the `m_max` check raises TypeError. */
  function RangeBound(mMax: Number): (r: Result<nat>)
    requires CheckMMax(mMax).Ok?
    ensures r.Ok? <==> mMax.IntNumber?
    ensures r.Ok? ==> r.value >= 1 && r.value as real == ValueOf(mMax)
    ensures r.Err? ==> r.error.TypeError?
  {
    if mMax.IntNumber? then Ok(mMax.i as nat)
    else Err(TypeError("'float' object cannot be interpreted as an integer"))
  }

  /** `range(int(m_max) + 1)`: every value the `m_max` check lets through
      is used as the integer it equals. */
  function RangeBoundCorrected(mMax: Number): (r: Result<nat>)
    requires CheckMMax(mMax).Ok?
    ensures r.Ok? && r.value >= 1 && r.value as real == ValueOf(mMax)
  {
    Ok(ValueOf(mMax).Floor as nat)
  }

  /** A float `m_max` with no fractional part passes the check and still
      makes the query fail. */
  lemma IntegralFloatMMax(x: real)
    requires x >= 1.0 && x == x.Floor as real
    ensures ValidateQuery(true, IntNumber(1), FloatNumber(x), IntNumber(1)).Ok?
    ensures RangeBound(FloatNumber(x)).Err?
    ensures RangeBoundCorrected(FloatNumber(x)) == Ok(x.Floor as nat)
  {
  }

  /** `sample_weight * cost_reduction` under numpy's broadcasting. */
  function Weighted(sampleWeight: seq<real>, gains: seq<real>, d: nat): (u: seq<real>)
    requires BroadcastDim(|sampleWeight|, |gains|) == Some(d)
    ensures |u| == d
  {
    seq(d, i requires 0 <= i < d =>
      sampleWeight[BroadcastIndex(i, |sampleWeight|)] * gains[BroadcastIndex(i, |gains|)])
  }

  /** `u` is the density `w` times the best gain of a candidate with
      frequency estimates `k`. */
  ghost predicate IsUtility(u: real, w: real, k: seq<real>, mMax: nat, prior: real, beta: seq<real> -> real, n: nat)
    requires n >= 1 && |k| == n && beta(WithPrior(k, prior)) != 0.0
  {
    exists b :: IsBestGain(k, b, mMax, EffectiveCost(None, n), prior, beta, n) && u == w * b
  }

  /** Weighting the best gains by the broadcast densities gives each
      position its candidate's utility. */
  lemma WeightedGains(kVecs: seq<seq<real>>, gains: seq<real>, sampleWeight: seq<real>, d: nat, mMax: nat,
                      prior: real, beta: seq<real> -> real)
    requires |kVecs| >= 1 && IsFrequencies(kVecs, |kVecs[0]|) && |kVecs[0]| >= 1
    requires forall v :: beta(v) > 0.0
    requires |gains| == |kVecs| && BroadcastDim(|sampleWeight|, |gains|) == Some(d)
    requires forall i :: 0 <= i < |kVecs| ==>
      IsBestGain(kVecs[i], gains[i], mMax, EffectiveCost(None, |kVecs[0]|), prior, beta, |kVecs[0]|)
    ensures forall i :: 0 <= i < d ==>
      IsUtility(Weighted(sampleWeight, gains, d)[i], sampleWeight[BroadcastIndex(i, |sampleWeight|)],
                kVecs[BroadcastIndex(i, |kVecs|)], mMax, prior, beta, |kVecs[0]|)
  {
    forall i | 0 <= i < d
      ensures IsUtility(Weighted(sampleWeight, gains, d)[i], sampleWeight[BroadcastIndex(i, |sampleWeight|)],
                        kVecs[BroadcastIndex(i, |kVecs|)], mMax, prior, beta, |kVecs[0]|)
    {
      var j := BroadcastIndex(i, |kVecs|);
      UtilityAt(kVecs[j], gains, sampleWeight, d, mMax, prior, beta, i, j);
    }
  }

  /** Position `i` of the weighted gains, which reads gain `j`, is a
      utility. */
  lemma UtilityAt(k: seq<real>, gains: seq<real>, sampleWeight: seq<real>, d: nat, mMax: nat,
                  prior: real, beta: seq<real> -> real, i: nat, j: nat)
    requires |k| >= 1 && beta(WithPrior(k, prior)) != 0.0
    requires BroadcastDim(|sampleWeight|, |gains|) == Some(d) && i < d && j == BroadcastIndex(i, |gains|)
    requires IsBestGain(k, gains[j], mMax, EffectiveCost(None, |k|), prior, beta, |k|)
    ensures IsUtility(Weighted(sampleWeight, gains, d)[i], sampleWeight[BroadcastIndex(i, |sampleWeight|)],
                      k, mMax, prior, beta, |k|)
  {
    var w := sampleWeight[BroadcastIndex(i, |sampleWeight|)];
    assert Weighted(sampleWeight, gains, d)[i] == w * gains[j];
    UtilityOfBest(Weighted(sampleWeight, gains, d)[i], w, k, gains[j], mMax, prior, beta, |k|);
  }

  /** The density times a best gain is a utility. */
  lemma UtilityOfBest(u: real, w: real, k: seq<real>, b: real, mMax: nat, prior: real, beta: seq<real> -> real,
                      n: nat)
    requires n >= 1 && |k| == n && beta(WithPrior(k, prior)) != 0.0
    requires IsBestGain(k, b, mMax, EffectiveCost(None, n), prior, beta, n) && u == w * b
    ensures IsUtility(u, w, k, mMax, prior, beta, n)
  {
  }

  /** The index `query` returns and the utilities it can return with it. */
  datatype Selection = Selection(index: nat, utilities: seq<real>)

  /** `McPAL.query` on the candidates' frequency estimates `kVecs` (the
      classifier's `predict_freq`) with the densities `sampleWeight`. The
      costs are the 0/1 costs; `beta` is the Euler beta function and `tie`
      stands for the random tie-breaking of `rand_argmax`. `batch_size` is
      checked but one index is returned whatever its value. */
  method McPalQuery(isFreqEstimator: bool, prior: Number, mMax: Number, batchSize: Number,
                    kVecs: seq<seq<real>>, sampleWeight: seq<real>, beta: seq<real> -> real, tie: nat)
    returns (r: Result<Selection>)
    requires |kVecs| >= 1 ==> IsFrequencies(kVecs, |kVecs[0]|)
    requires forall v :: beta(v) > 0.0
    ensures ValidateQuery(isFreqEstimator, prior, mMax, batchSize).Err? ==>
      r == Err(ValidateQuery(isFreqEstimator, prior, mMax, batchSize).error)
    ensures ValidateQuery(isFreqEstimator, prior, mMax, batchSize).Ok? && mMax.FloatNumber? && |kVecs| >= 1 ==>
      r.Err? && r.error.TypeError?
    ensures r.Ok? <==>
      ValidateQuery(isFreqEstimator, prior, mMax, batchSize).Ok? && mMax.IntNumber? &&
      |kVecs| >= 1 && |kVecs[0]| >= 1 &&
      BroadcastDim(|sampleWeight|, |kVecs|).Some? && BroadcastDim(|sampleWeight|, |kVecs|).value >= 1
    ensures r.Ok? ==>
      |r.value.utilities| == BroadcastDim(|sampleWeight|, |kVecs|).value &&
      forall i :: 0 <= i < |r.value.utilities| ==>
        IsUtility(r.value.utilities[i], sampleWeight[BroadcastIndex(i, |sampleWeight|)],
                  kVecs[BroadcastIndex(i, |kVecs|)], mMax.i, ValueOf(prior), beta, |kVecs[0]|)
    ensures r.Ok? ==>
      r.value.index < |r.value.utilities| &&
      forall j :: 0 <= j < |r.value.utilities| ==> r.value.utilities[j] <= r.value.utilities[r.value.index]
  {
    var valid := ValidateQuery(isFreqEstimator, prior, mMax, batchSize);
    if valid.Err? {
      return Err(valid.error);
    }
    if |kVecs| == 0 {
      return Err(IndexError("k_vec_list[0]"));
    }
    var bound := RangeBound(mMax);
    if bound.Err? {
      return Err(bound.error);
    }
    var gains := CostReductionOf(kVecs, None, bound.value, valid.value, beta);
    if gains.Err? {
      return Err(gains.error);
    }
    var d := BroadcastDim(|sampleWeight|, |gains.value|);
    if d.None? {
      return Err(ValueError("operands could not be broadcast together"));
    }
    var u := Weighted(sampleWeight, gains.value, d.value);
    if |u| == 0 {
      return Err(ValueError("attempt to get argmax of an empty sequence"));
    }
    WeightedGains(kVecs, gains.value, sampleWeight, d.value, bound.value, valid.value, beta);
    r := Ok(Selection(RandArgmax(u, tie), u));
  }
}
