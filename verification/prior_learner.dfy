/** `BayesianPriorLearner`: a Parzen-window classifier whose class frequency
    estimates are shifted by a fixed prior pseudo-count per class. The
    classifier it extends (`PWC`) is not part of this model: its `fit` is
    reduced to the number of classes it finds, and its `predict_freq` to the
    frequency matrix it returns, which `PredictFreq` receives. */
module PriorLearner {
  import opened Common
  import opened CostModel

  /** Whether `np.array(a)` builds a proper array: a vector, or a matrix
      whose rows all have the same length. */
  predicate Rectangular(a: NdArray)
  {
    a.Matrix? ==> forall i :: 0 <= i < |a.rows| ==> |a.rows[i]| == |a.rows[0]|
  }

  /** The two-dimensional shape numpy broadcasts with: a vector of length `m`
      counts as one row of `m` entries. */
  function RowCount(a: NdArray): nat
  {
    if a.Vector? then 1 else |a.rows|
  }

  function ColumnCount(a: NdArray): nat
  {
    if a.Vector? then |a.entries| else if a.rows == [] then 0 else |a.rows[0]|
  }

  /** The entry of `a` at row `i`, column `c`. */
  function At(a: NdArray, i: nat, c: nat): real
    requires Rectangular(a) && i < RowCount(a) && c < ColumnCount(a)
  {
    if a.Vector? then a.entries[c] else a.rows[i][c]
  }

  /** `np.zeros(n)`. */
  function Zeros(n: nat): (z: seq<real>)
    ensures |z| == n && forall c :: 0 <= c < n ==> z[c] == 0.0
  {
    seq(n, _ => 0.0)
  }

  /** `freq + a` for a frequency matrix with `n` columns, under numpy's
      broadcasting rules; shapes that do not broadcast raise ValueError. */
  function AddBroadcast(freq: seq<seq<real>>, n: nat, a: NdArray): (r: Result<seq<seq<real>>>)
    requires IsMatrix(freq, |freq|, n) && Rectangular(a)
    ensures r.Ok? <==> BroadcastDim(|freq|, RowCount(a)).Some? && BroadcastDim(n, ColumnCount(a)).Some?
    ensures r.Err? ==> r.error.ValueError?
    ensures r.Ok? ==>
      IsMatrix(r.value, BroadcastDim(|freq|, RowCount(a)).value, BroadcastDim(n, ColumnCount(a)).value)
  {
    var rows, cols := BroadcastDim(|freq|, RowCount(a)), BroadcastDim(n, ColumnCount(a));
    if rows.None? || cols.None? then Err(ValueError("operands could not be broadcast together"))
    else
      Ok(seq(rows.value, i requires 0 <= i < rows.value =>
        seq(cols.value, c requires 0 <= c < cols.value =>
          freq[BroadcastIndex(i, |freq|)][BroadcastIndex(c, n)] +
          At(a, BroadcastIndex(i, RowCount(a)), BroadcastIndex(c, ColumnCount(a))))))
  }

  /** Adding a one-row prior of `n` entries keeps the shape and adds
      `row[c]` to column `c` of every row. */
  lemma AddPriorRow(freq: seq<seq<real>>, n: nat, row: seq<real>)
    requires IsMatrix(freq, |freq|, n) && |row| == n
    ensures var r := AddBroadcast(freq, n, Matrix([row]));
      r.Ok? && IsMatrix(r.value, |freq|, n) &&
      forall i, c :: 0 <= i < |freq| && 0 <= c < n ==> r.value[i][c] == freq[i][c] + row[c]
  {
    var a := Matrix([row]);
    assert RowCount(a) == 1 && ColumnCount(a) == n;
    assert BroadcastDim(|freq|, 1) == Some(|freq|) && BroadcastDim(n, n) == Some(n);
    var r := AddBroadcast(freq, n, a);
    forall i, c | 0 <= i < |freq| && 0 <= c < n
      ensures r.value[i][c] == freq[i][c] + row[c]
    {
      assert BroadcastIndex(i, |freq|) == i && BroadcastIndex(c, n) == c;
      assert BroadcastIndex(i, RowCount(a)) == 0 && At(a, 0, c) == row[c];
    }
  }

  /** Without a prior the estimates come back unchanged. */
  lemma AddZeroPrior(freq: seq<seq<real>>, n: nat)
    requires IsMatrix(freq, |freq|, n)
    ensures AddBroadcast(freq, n, Matrix([Zeros(n)])) == Ok(freq)
  {
    var z := Zeros(n);
    AddPriorRow(freq, n, z);
    var r := AddBroadcast(freq, n, Matrix([z]));
    forall i | 0 <= i < |freq|
      ensures r.value[i] == freq[i]
    {
      assert |r.value[i]| == |freq[i]| == n;
      forall c | 0 <= c < n
        ensures r.value[i][c] == freq[i][c]
      {
        assert r.value[i][c] == freq[i][c] + z[c] && z[c] == 0.0;
      }
    }
    assert |r.value| == |freq|;
    assert r.value == freq;
  }

  class BayesianPriorLearner {
    /** The `prior` given at construction; `None` is Python's `None`. */
    var prior: Option<NdArray>
    /** `len(self.classes_)`, as set by the classifier's own `fit`. */
    var nClasses: nat
    /** `self.prior_`; `None` until `fit` assigns it. */
    var fittedPrior: Option<NdArray>

    /** Whatever `fit` has assigned to `prior_` is a proper array. */
    predicate Valid()
      reads this
    {
      fittedPrior.Some? ==> Rectangular(fittedPrior.value)
    }

    /** `prior_` holds one row of `n_classes` pseudo-counts, as after a
        successful `fit`. */
    predicate Fitted()
      reads this
    {
      fittedPrior.Some? && fittedPrior.value.Matrix? && |fittedPrior.value.rows| == 1 &&
      |fittedPrior.value.rows[0]| == nClasses
    }

    constructor(prior: Option<NdArray>)
      ensures Valid() && this.prior == prior && fittedPrior.None?
    {
      this.prior := prior;
      nClasses := 0;
      fittedPrior := None;
    }

    /** `fit`, after the classifier's own fit found `nClasses` classes: no
        prior gives zeros of shape `(1, n_classes)`; a prior of shape
        `(n_classes,)` is reshaped to one row; any other shape is refused
        with ValueError after `prior_` was already assigned. A ragged nested
        list is refused by `np.array` before anything is assigned. */
    method Fit(nClasses: nat) returns (r: Result<()>)
      requires Valid()
      modifies this
      ensures Valid() && prior == old(prior) && this.nClasses == nClasses
      ensures r.Err? ==> r.error.ValueError?
      ensures r.Ok? <==> prior.None? || (prior.value.Vector? && |prior.value.entries| == nClasses)
      ensures r.Ok? ==> Fitted()
      ensures prior.None? ==> fittedPrior == Some(Matrix([Zeros(nClasses)]))
      ensures prior.Some? && prior.value.Vector? && |prior.value.entries| == nClasses ==>
        fittedPrior == Some(Matrix([prior.value.entries]))
      ensures prior.Some? && Rectangular(prior.value) && r.Err? ==> fittedPrior == prior
      ensures prior.Some? && !Rectangular(prior.value) ==> fittedPrior == old(fittedPrior)
    {
      this.nClasses := nClasses;
      if prior.None? {
        fittedPrior := Some(Matrix([Zeros(nClasses)]));
        return Ok(());
      }
      var a := prior.value;
      if !Rectangular(a) {
        return Err(ValueError("setting an array element with a sequence"));
      }
      fittedPrior := Some(a);
      if a.Matrix? || |a.entries| != nClasses {
        return Err(ValueError("Shape mismatch for 'prior'"));
      }
      fittedPrior := Some(Matrix([a.entries]));
      r := Ok(());
    }

    /** `predict_freq`: the classifier's frequency estimates `freq` (one row
        of `n_classes` per sample) plus `prior_`, broadcast. Before `prior_`
        exists the call fails. After a successful fit every row gets the
        prior added class by class. */
    method PredictFreq(freq: seq<seq<real>>) returns (r: Result<seq<seq<real>>>)
      requires Valid() && IsMatrix(freq, |freq|, nClasses)
      ensures fittedPrior.None? ==> r.Err? && r.error.AttributeError?
      ensures fittedPrior.Some? ==> r == AddBroadcast(freq, nClasses, fittedPrior.value)
      ensures Fitted() ==> r.Ok? && IsMatrix(r.value, |freq|, nClasses)
      ensures Fitted() ==> forall i, c :: 0 <= i < |freq| && 0 <= c < nClasses ==>
        r.value[i][c] == freq[i][c] + fittedPrior.value.rows[0][c]
    {
      if fittedPrior.None? {
        return Err(AttributeError("prior_"));
      }
      if Fitted() {
        var row := fittedPrior.value.rows[0];
        assert fittedPrior.value == Matrix([row]);
        AddPriorRow(freq, nClasses, row);
      }
      r := AddBroadcast(freq, nClasses, fittedPrior.value);
    }
  }
}
