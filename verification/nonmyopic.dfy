/** The look-ahead machinery of XPAL's `nonmyopic_gain`: which candidates are
    considered together (`_get_nonmyopic_cand_set`), which of their subsets
    are evaluated, how the probability of a hypothetical labelling is built
    when the candidates' labels depend on each other
    (`dependent_cand_prob`), and how the utilities of each subset are
    accumulated and normalised by the number of labels in the subset. The
    classifiers that are refitted on hypothetical labels are not part of this
    model: their performance deltas and probabilities enter as inputs. */
module Nonmyopic {
  import opened Common
  import opened HypotheticalLabels

  // ---------------------------------------------------------------------
  // numpy's argsort on float keys: ascending, NaN last
  // ---------------------------------------------------------------------

  /** `a` sorts strictly before `b`: NaN (`None`) is larger than every
      number. */
  predicate KeyLt(a: Float, b: Float)
  {
    a.Some? && (b.None? || a.value < b.value)
  }

  /** Position `i` of `key` comes before position `j` when the keys are
      sorted ascending and equal keys keep their order. */
  predicate Before(key: seq<Float>, i: nat, j: nat)
    requires i < |key| && j < |key|
  {
    KeyLt(key[i], key[j]) || (!KeyLt(key[j], key[i]) && i < j)
  }

  predicate InRange(s: seq<nat>, k: nat)
  {
    forall a :: 0 <= a < |s| ==> s[a] < k
  }

  /** `s` lists positions of `key` in sorted order, each at most once. */
  predicate Ordered(key: seq<Float>, s: seq<nat>)
    requires InRange(s, |key|)
  {
    forall a, b :: 0 <= a < b < |s| ==> Before(key, s[a], s[b])
  }

  /** Insertion of position `j` behind every position whose key is not
      larger. */
  function Insert(key: seq<Float>, s: seq<nat>, j: nat): (r: seq<nat>)
    requires j < |key| && InRange(s, |key|)
    ensures |r| == |s| + 1 && InRange(r, |key|)
  {
    if s == [] then [j]
    else if KeyLt(key[j], key[s[0]]) then [j] + s
    else
      assert s == [s[0]] + s[1..];
      [s[0]] + Insert(key, s[1..], j)
  }

  /** `key[..k].argsort()`, with equal keys in position order. */
  function Argsort(key: seq<Float>, k: nat): (s: seq<nat>)
    requires k <= |key|
    ensures |s| == k && InRange(s, |key|)
  {
    if k == 0 then [] else Insert(key, Argsort(key, k - 1), k - 1)
  }

  /** The insertion holds the positions of `s` and `j`, and nothing else. */
  lemma {:induction false} InsertMembers(key: seq<Float>, s: seq<nat>, j: nat)
    requires j < |key| && InRange(s, |key|)
    ensures forall x :: x in Insert(key, s, j) <==> x in s || x == j
  {
    if s != [] && !KeyLt(key[j], key[s[0]]) {
      assert s == [s[0]] + s[1..];
      InsertMembers(key, s[1..], j);
    }
  }

  /** The argsort of `k` keys holds exactly the positions below `k`. */
  lemma {:induction false} ArgsortMembers(key: seq<Float>, k: nat)
    requires k <= |key|
    ensures forall x: nat :: x in Argsort(key, k) <==> x < k
  {
    if k > 0 {
      ArgsortMembers(key, k - 1);
      InsertMembers(key, Argsort(key, k - 1), k - 1);
    }
  }

  lemma KeyOrder(x: Float, y: Float, z: Float)
    ensures KeyLt(x, y) && !KeyLt(z, y) ==> KeyLt(x, z)
    ensures !KeyLt(y, x) && !KeyLt(z, y) ==> !KeyLt(z, x)
  {
  }

  /** Inserting a position larger than all present keeps the order. */
  lemma {:induction false} InsertOrdered(key: seq<Float>, s: seq<nat>, j: nat)
    requires j < |key| && InRange(s, |key|) && Ordered(key, s)
    requires forall a :: 0 <= a < |s| ==> s[a] < j
    ensures Ordered(key, Insert(key, s, j))
  {
    if s != [] {
      if KeyLt(key[j], key[s[0]]) {
        InsertFront(key, s, j);
      } else {
        var t := Insert(key, s[1..], j);
        InsertOrdered(key, s[1..], j);
        InsertMembers(key, s[1..], j);
        InsertBehind(key, s, j, t);
      }
    }
  }

  /** A position whose key is smaller than the first key goes in front. */
  lemma InsertFront(key: seq<Float>, s: seq<nat>, j: nat)
    requires j < |key| && InRange(s, |key|) && Ordered(key, s)
    requires s != [] && KeyLt(key[j], key[s[0]])
    ensures Ordered(key, [j] + s)
  {
    var r := [j] + s;
    forall a, b | 0 <= a < b < |r|
      ensures Before(key, r[a], r[b])
    {
      if a == 0 && b > 1 {
        assert Before(key, s[0], s[b - 1]);
        KeyOrder(key[j], key[s[0]], key[s[b - 1]]);
      }
    }
  }

  /** Otherwise the first position stays in front of the insertion into
      the rest. */
  lemma InsertBehind(key: seq<Float>, s: seq<nat>, j: nat, t: seq<nat>)
    requires j < |key| && InRange(s, |key|) && Ordered(key, s)
    requires forall a :: 0 <= a < |s| ==> s[a] < j
    requires s != [] && !KeyLt(key[j], key[s[0]])
    requires InRange(t, |key|) && Ordered(key, t) && forall x :: x in t ==> x in s[1..] || x == j
    ensures Ordered(key, [s[0]] + t)
  {
    forall b | 0 <= b < |t|
      ensures Before(key, s[0], t[b])
    {
      assert t[b] in t;
      if t[b] != j {
        var c :| 0 <= c < |s[1..]| && s[1..][c] == t[b];
        assert Before(key, s[0], s[c + 1]);
      }
    }
    var r := [s[0]] + t;
    forall a, b | 0 <= a < b < |r|
      ensures Before(key, r[a], r[b])
    {
      if a > 0 {
        assert r[a] == t[a - 1] && r[b] == t[b - 1];
      }
    }
  }

  /** The argsort lists every position once, in sorted order. */
  lemma {:induction false} ArgsortOrdered(key: seq<Float>, k: nat)
    requires k <= |key|
    ensures InRange(Argsort(key, k), k) && Ordered(key, Argsort(key, k))
  {
    var s := Argsort(key, k);
    ArgsortMembers(key, k);
    assert forall a :: 0 <= a < |s| ==> s[a] in s;
    if k > 0 {
      var t := Argsort(key, k - 1);
      ArgsortOrdered(key, k - 1);
      InsertOrdered(key, t, k - 1);
    }
  }

  /** A NaN key goes behind every position already placed. */
  lemma {:induction false} InsertNaN(key: seq<Float>, s: seq<nat>, j: nat)
    requires j < |key| && InRange(s, |key|) && key[j].None?
    ensures Insert(key, s, j) == s + [j]
  {
    if s != [] {
      assert s == [s[0]] + s[1..];
      InsertNaN(key, s[1..], j);
    }
  }

  /** On keys that are all NaN the argsort keeps the positions in order. */
  lemma {:induction false} ArgsortAllNaN(key: seq<Float>, k: nat)
    requires k <= |key| && forall c :: 0 <= c < |key| ==> key[c].None?
    ensures forall a :: 0 <= a < k ==> Argsort(key, k)[a] == a
  {
    if k > 0 {
      ArgsortAllNaN(key, k - 1);
      InsertNaN(key, Argsort(key, k - 1), k - 1);
    }
  }

  /** A position whose key is strictly smaller than every other comes
      first. */
  lemma ArgsortSmallestFirst(key: seq<Float>, x: nat)
    requires x < |key| && forall c :: 0 <= c < |key| && c != x ==> KeyLt(key[x], key[c])
    ensures Argsort(key, |key|)[0] == x
  {
    var s := Argsort(key, |key|);
    ArgsortMembers(key, |key|);
    ArgsortOrdered(key, |key|);
    assert x in s;
    var p :| 0 <= p < |s| && s[p] == x;
    assert p == 0 || Before(key, s[0], s[p]);
  }

  // ---------------------------------------------------------------------
  // _get_nonmyopic_cand_set
  // ---------------------------------------------------------------------

  /** A square matrix of similarities that may be NaN. */
  predicate IsSquare(sim: seq<seq<Float>>)
  {
    forall a :: 0 <= a < |sim| ==> |sim[a]| == |sim|
  }

  predicate ValidIndices(idx: seq<int>, len: nat)
  {
    forall a :: 0 <= a < |idx| ==> PyIndex(idx[a], len).Some?
  }

  /** `sim[idx][:, idx]`. */
  function Restrict(sim: seq<seq<Float>>, idx: seq<int>): (sub: seq<seq<Float>>)
    requires IsSquare(sim) && ValidIndices(idx, |sim|)
    ensures |sub| == |idx| && IsSquare(sub)
  {
    seq(|idx|, a requires 0 <= a < |idx| =>
      seq(|idx|, b requires 0 <= b < |idx| => sim[PyIndex(idx[a], |sim|).value][PyIndex(idx[b], |sim|).value]))
  }

  /** `-row`, with NaN staying NaN. */
  function Negated(row: seq<Float>): (key: seq<Float>)
    ensures |key| == |row|
  {
    seq(|row|, c requires 0 <= c < |row| => if row[c].None? then None else Some(-row[c].value))
  }

  function Min(a: nat, b: nat): nat
  {
    if a <= b then a else b
  }

  /** One row of `(-sim).argsort(axis=1)[:, :M]`. */
  function Nearest(row: seq<Float>, m: nat): (s: seq<nat>)
    ensures |s| == Min(m, |row|)
  {
    Argsort(Negated(row), |row|)[..Min(m, |row|)]
  }

  /** Every row as positions, each as an `int` index. */
  function AsIndices(s: seq<nat>): seq<int>
  {
    seq(|s|, a requires 0 <= a < |s| => s[a] as int)
  }

  /** `_get_nonmyopic_cand_set(neighbors, cand_idx, sim_cand, M)`:
      'same' repeats each candidate index `M` times; 'nearest' gives, for
      each candidate, the positions (within `cand_idx`) of its `M` most
      similar candidates; any other mode raises ValueError. */
  function NonmyopicCandSet(neighbors: string, candIdx: seq<int>, simCand: seq<seq<Float>>, m: nat)
    : (r: Result<seq<seq<int>>>)
    requires IsSquare(simCand)
    ensures r.Ok? <==> neighbors == "same" || (neighbors == "nearest" && ValidIndices(candIdx, |simCand|))
    ensures r.Err? && neighbors != "nearest" ==> r.error.ValueError?
    ensures r.Err? && neighbors == "nearest" ==> r.error.IndexError?
    ensures r.Ok? ==> |r.value| == |candIdx|
    ensures neighbors == "same" ==> forall i :: 0 <= i < |candIdx| ==> r.value[i] == Constant(candIdx[i], m)
    ensures neighbors == "nearest" && r.Ok? ==>
      forall a :: 0 <= a < |candIdx| ==> r.value[a] == AsIndices(Nearest(Restrict(simCand, candIdx)[a], m))
  {
    if neighbors == "same" then
      Ok(seq(|candIdx|, i requires 0 <= i < |candIdx| => Constant(candIdx[i], m)))
    else if neighbors == "nearest" then
      if !ValidIndices(candIdx, |simCand|) then Err(IndexError("cand_idx"))
      else
        var sub := Restrict(simCand, candIdx);
        Ok(seq(|candIdx|, a requires 0 <= a < |candIdx| => AsIndices(Nearest(sub[a], m))))
    else
      Err(ValueError("neighbor_mode unknown"))
  }

  /** The 'nearest' row of a candidate holds `min(M, k)` distinct positions
      among the `k` candidates, from most to least similar (NaN last,
      equal similarities by position), and every position left out is no
      more similar than any that was taken. */
  lemma NearestRows(row: seq<Float>, m: nat)
    ensures InRange(Nearest(row, m), |row|) && Ordered(Negated(row), Nearest(row, m))
    ensures forall q :: 0 <= q < |row| && q !in Nearest(row, m) ==>
      forall a :: 0 <= a < |Nearest(row, m)| ==> Before(Negated(row), Nearest(row, m)[a], q)
  {
    var key := Negated(row);
    var all := Argsort(key, |row|);
    ArgsortOrdered(key, |row|);
    var s := Nearest(row, m);
    assert s == all[..|s|];
    forall q | 0 <= q < |row| && q !in s
      ensures forall a :: 0 <= a < |s| ==> Before(key, s[a], q)
    {
      ArgsortMembers(key, |row|);
      PrefixBefore(key, all, s, q);
    }
  }

  /** A row of NaN similarities: the nearest neighbour of every candidate
      is position 0. */
  lemma NearestAllNaN(row: seq<Float>)
    requires |row| >= 1 && forall c :: 0 <= c < |row| ==> row[c].None?
    ensures Nearest(row, 1) == [0]
  {
    ArgsortAllNaN(Negated(row), |row|);
  }

  /** A row whose entry `x` is a number larger than every other entry: the
      nearest neighbour is `x`. */
  lemma NearestLargest(row: seq<Float>, x: nat)
    requires x < |row| && row[x].Some?
    requires forall c :: 0 <= c < |row| && c != x ==> row[c].None? || row[c].value < row[x].value
    ensures Nearest(row, 1) == [x]
  {
    ArgsortSmallestFirst(Negated(row), x);
  }

  /** A position of a sorted list that is missing from its prefix `s`
      comes after every position in `s`. */
  lemma PrefixBefore(key: seq<Float>, all: seq<nat>, s: seq<nat>, q: nat)
    requires InRange(all, |key|) && Ordered(key, all)
    requires |s| <= |all| && s == all[..|s|] && q in all && q !in s
    ensures q < |key| && forall a :: 0 <= a < |s| ==> Before(key, s[a], q)
  {
    var b :| 0 <= b < |all| && all[b] == q;
    OutsidePrefix(all, s, b);
    forall a | 0 <= a < |s|
      ensures Before(key, s[a], q)
    {
      assert all[a] == s[a];
    }
  }

  /** An entry before the end of a prefix is in it. */
  lemma OutsidePrefix(all: seq<nat>, s: seq<nat>, b: nat)
    requires |s| <= |all| && s == all[..|s|] && b < |all|
    ensures b < |s| ==> all[b] in s
  {
    if b < |s| {
      assert s[b] == all[b];
    }
  }

  // ---------------------------------------------------------------------
  // The subsets of a candidate set that nonmyopic_gain evaluates
  // ---------------------------------------------------------------------

  /** `cand_idx_subsets`: the prefixes `s[:1] .. s[:len(s)]` in 'nonmyopic'
      mode, the set itself in 'batch' mode; any other mode leaves the
      variable unassigned. */
  function CandIdxSubsets(gainMode: string, s: seq<int>): (r: Result<seq<seq<int>>>)
    ensures r.Ok? <==> gainMode == "nonmyopic" || gainMode == "batch"
    ensures r.Err? ==> r.error.UnboundLocalError?
    ensures gainMode == "batch" ==> r == Ok([s])
    ensures gainMode == "nonmyopic" ==> |r.value| == |s|
  {
    if gainMode == "nonmyopic" then Ok(seq(|s|, i requires 0 <= i < |s| => s[..i + 1]))
    else if gainMode == "batch" then Ok([s])
    else Err(UnboundLocalError("cand_idx_subsets"))
  }

  /** In 'nonmyopic' mode subset `i` holds the first `i + 1` candidates,
      each subset extends the one before, and the last is the whole set. */
  lemma SubsetsArePrefixes(s: seq<int>)
    ensures var r := CandIdxSubsets("nonmyopic", s).value;
      (forall i :: 0 <= i < |r| ==> |r[i]| == i + 1 && r[i] <= s) &&
      (forall i, j :: 0 <= i < j < |r| ==> r[i] < r[j]) &&
      (|s| >= 1 ==> r[|s| - 1] == s)
  {
    var r := CandIdxSubsets("nonmyopic", s).value;
    assert |s| >= 1 ==> r[|s| - 1] == s[..|s|];
  }

  // ---------------------------------------------------------------------
  // dependent_cand_prob
  // ---------------------------------------------------------------------

  /** The class distributions of the candidates when the labelling `y` is
      given one candidate at a time: `predict(y[..i])` is the distribution
      of candidate `i` from an estimator refitted on the labels before it. */
  function Predictions(predict: seq<int> -> seq<real>, y: seq<int>): (rows: seq<seq<real>>)
    ensures |rows| == |y| && forall i :: 0 <= i < |y| ==> rows[i] == predict(y[..i])
  {
    seq(|y|, i requires 0 <= i < |y| => predict(y[..i]))
  }

  /** `dependent_cand_prob`: starting from ones, the probability of each
      hypothetical labelling is multiplied in place by the predicted
      probability of each candidate's label, the estimator being refitted
      on the labels before it. The refitted estimator is `predict`. */
  method DependentCandProb(ySimList: seq<seq<int>>, predict: seq<int> -> seq<real>) returns (probs: array<real>)
    ensures fresh(probs) && probs.Length == |ySimList|
    ensures forall i :: 0 <= i < |ySimList| ==>
      probs[i] == LabellingProb(Predictions(predict, ySimList[i]), ySimList[i])
  {
    probs := new real[|ySimList|](_ => 1.0);
    for i := 0 to |ySimList|
      invariant forall i' :: 0 <= i' < i ==> probs[i'] == LabellingProb(Predictions(predict, ySimList[i']), ySimList[i'])
      invariant forall i' :: i <= i' < |ySimList| ==> probs[i'] == 1.0
    {
      MultiplyLabelling(probs, i, ySimList[i], predict);
    }
  }

  /** The inner loop of `dependent_cand_prob` for labelling `y`, stored at
      position `i`: entry `i` goes from one to the probability of `y`, and
      no other entry changes. */
  method MultiplyLabelling(probs: array<real>, i: nat, y: seq<int>, predict: seq<int> -> seq<real>)
    requires i < probs.Length && probs[i] == 1.0
    modifies probs
    ensures probs[i] == LabellingProb(Predictions(predict, y), y)
    ensures forall j :: 0 <= j < probs.Length && j != i ==> probs[j] == old(probs[j])
  {
    ghost var rows := Predictions(predict, y);
    for iy := 0 to |y|
      invariant probs[i] == LabellingProb(rows, y[..iy])
      invariant forall j :: 0 <= j < probs.Length && j != i ==> probs[j] == old(probs[j])
    {
      LabellingProbAppend(rows, y[..iy], y[iy]);
      assert y[..iy] + [y[iy]] == y[..iy + 1];
      var row := predict(y[..iy]);
      assert Entry(rows, iy, y[iy]) == if 0 <= y[iy] < |row| then row[y[iy]] else 0.0;
      probs[i] := probs[i] * (if 0 <= y[iy] < |row| then row[y[iy]] else 0.0);
    }
    assert y[..|y|] == y;
  }

  /** When a candidate's predicted distribution does not depend on the
      labels before it, the dependent probability is the product used for
      independent candidates. */
  lemma DependentProbIndependent(predict: seq<int> -> seq<real>, p: seq<seq<real>>, y: seq<int>)
    requires |y| <= |p|
    requires forall pre: seq<int> :: |pre| < |p| ==> predict(pre) == p[|pre|]
    ensures LabellingProb(Predictions(predict, y), y) == LabellingProb(p, y)
  {
    var rows := Predictions(predict, y);
    forall i | 0 <= i < |y|
      ensures rows[i] == p[i]
    {
      assert |y[..i]| == i;
    }
    LabellingProbRows(rows, p, y);
  }

  /** The probability of `y` reads only the first `|y|` rows. */
  lemma {:induction false} LabellingProbRows(q: seq<seq<real>>, p: seq<seq<real>>, y: seq<int>)
    requires |y| <= |q| && |y| <= |p|
    requires forall i :: 0 <= i < |y| ==> q[i] == p[i]
    ensures LabellingProb(q, y) == LabellingProb(p, y)
  {
    if y != [] {
      LabellingProbRows(q, p, y[..|y| - 1]);
    }
  }

  // ---------------------------------------------------------------------
  // Accumulating and normalising the utilities
  // ---------------------------------------------------------------------

  /** `sum_t dperf[t] * prob[t]`, peeled from the back. */
  function WeightedSum(d: seq<real>, p: seq<real>): real
    requires |d| == |p|
  {
    if d == [] then 0.0 else WeightedSum(d[..|d| - 1], p[..|p| - 1]) + d[|d| - 1] * p[|p| - 1]
  }

  /** `x ** e`. */
  function Power(x: real, e: nat): real
  {
    if e == 0 then 1.0 else Power(x, e - 1) * x
  }

  lemma {:induction false} PowerAtLeastOne(x: real, e: nat)
    requires x >= 1.0
    ensures Power(x, e) >= 1.0
  {
    if e > 0 {
      PowerAtLeastOne(x, e - 1);
      MulAtLeast(Power(x, e - 1), x);
    }
  }

  lemma MulAtLeast(a: real, x: real)
    requires a >= 1.0 && x >= 1.0
    ensures a * x >= x && a * x >= a
  {
  }

  /** The number of columns of `tmp_utilities`: one per look-ahead depth in
      'nonmyopic' mode, a single one in 'batch' mode. */
  function Columns(gainMode: string, width: nat): nat
  {
    if gainMode == "nonmyopic" then width else 1
  }

  /** For each candidate set `i` and subset `j`, one performance delta and
      one labelling probability per hypothetical labelling. */
  predicate Shaped(dperf: seq<seq<seq<real>>>, probYSim: seq<seq<seq<real>>>, rows: nat, cols: nat)
  {
    |dperf| == rows && |probYSim| == rows &&
    forall i :: 0 <= i < rows ==>
      |dperf[i]| == cols && |probYSim[i]| == cols &&
      forall j :: 0 <= j < cols ==> |dperf[i][j]| == |probYSim[i][j]|
  }

  /** The utility of subset `j` of candidate set `i`, as written: the
      division by `j + 1` runs once after each of the candidate sets
      `i .. n-1`, so it is applied `n - i` times. */
  function AsWrittenEntry(s: real, i: nat, j: nat, n: nat): real
    requires i < n
  {
    PowerAtLeastOne((j + 1) as real, n - i);
    s / Power((j + 1) as real, n - i)
  }

  /** The utility of subset `j`, normalised once by its `j + 1` labels. */
  function NormalisedEntry(s: real, j: nat): real
  {
    s / (j + 1) as real
  }

  /** `tmp_utilities[i, j] = 0`, then `+= dperf * prob` for every
      hypothetical labelling. */
  method AccumulateRow(u: array2<real>, i: nat, dperf: seq<seq<real>>, probYSim: seq<seq<real>>)
    requires i < u.Length0 && |dperf| == u.Length1 && |probYSim| == u.Length1
    requires forall j :: 0 <= j < |dperf| ==> |dperf[j]| == |probYSim[j]|
    modifies u
    ensures forall j :: 0 <= j < u.Length1 ==> u[i, j] == WeightedSum(dperf[j], probYSim[j])
    ensures forall i', j :: 0 <= i' < u.Length0 && 0 <= j < u.Length1 && i' != i ==> u[i', j] == old(u[i', j])
  {
    for j := 0 to u.Length1
      invariant forall j' :: 0 <= j' < j ==> u[i, j'] == WeightedSum(dperf[j'], probYSim[j'])
      invariant forall i', j' :: 0 <= i' < u.Length0 && 0 <= j' < u.Length1 && i' != i ==> u[i', j'] == old(u[i', j'])
    {
      var d, p := dperf[j], probYSim[j];
      u[i, j] := 0.0;
      for t := 0 to |d|
        invariant u[i, j] == WeightedSum(d[..t], p[..t])
        invariant forall j' :: 0 <= j' < j ==> u[i, j'] == WeightedSum(dperf[j'], probYSim[j'])
        invariant forall i', j' :: 0 <= i' < u.Length0 && 0 <= j' < u.Length1 && i' != i ==> u[i', j'] == old(u[i', j'])
      {
        assert d[..t + 1][..t] == d[..t] && p[..t + 1][..t] == p[..t];
        u[i, j] := u[i, j] + d[t] * p[t];
      }
      assert d[..|d|] == d && p[..|p|] == p;
    }
  }

  /** `tmp_utilities /= np.arange(1, n_cols + 1).reshape(1, -1)`: column `j`
      divided by `j + 1`, in place, in every row. */
  method DivideByDepth(u: array2<real>)
    modifies u
    ensures forall i, j :: 0 <= i < u.Length0 && 0 <= j < u.Length1 ==> u[i, j] == old(u[i, j]) / (j + 1) as real
  {
    for i := 0 to u.Length0
      invariant forall i', j :: 0 <= i' < i && 0 <= j < u.Length1 ==> u[i', j] == old(u[i', j]) / (j + 1) as real
      invariant forall i', j :: i <= i' < u.Length0 && 0 <= j < u.Length1 ==> u[i', j] == old(u[i', j])
    {
      for j := 0 to u.Length1
        invariant forall i', j' :: 0 <= i' < i && 0 <= j' < u.Length1 ==> u[i', j'] == old(u[i', j']) / (j' + 1) as real
        invariant forall j' :: 0 <= j' < j ==> u[i, j'] == old(u[i, j']) / (j' + 1) as real
        invariant forall i', j' :: i < i' < u.Length0 && 0 <= j' < u.Length1 ==> u[i', j'] == old(u[i', j'])
        invariant forall j' :: j <= j' < u.Length1 ==> u[i, j'] == old(u[i, j'])
      {
        u[i, j] := u[i, j] / (j + 1) as real;
      }
    }
  }

  /** One more division of an entry already divided `e` times. */
  lemma DivideOnceMore(s: real, x: real, e: nat)
    requires x >= 1.0
    ensures Power(x, e) >= 1.0
    ensures s / Power(x, e) / x == s / Power(x, e + 1)
  {
    PowerAtLeastOne(x, e);
    var p := Power(x, e);
    assert Power(x, e + 1) == p * x;
    assert s / p / x == s / (p * x);
  }

  /** The accumulation loop of `nonmyopic_gain` as written: the
      normalisation sits inside the loop over candidate sets. A mode other
      than 'nonmyopic' or 'batch' leaves a variable unassigned; without
      independence the call of `dependent_cand_prob` passes one argument
      too many and raises TypeError at the first subset. */
  method NonmyopicGain(candIdxSet: seq<seq<int>>, width: nat, gainMode: string, independence: bool,
                       dperf: seq<seq<seq<real>>>, probYSim: seq<seq<seq<real>>>)
    returns (r: Result<array2<real>>)
    requires forall i :: 0 <= i < |candIdxSet| ==> |candIdxSet[i]| == width
    requires Shaped(dperf, probYSim, |candIdxSet|, Columns(gainMode, width))
    ensures r.Err? <==>
      (gainMode != "nonmyopic" && gainMode != "batch") ||
      (!independence && |candIdxSet| >= 1 && Columns(gainMode, width) >= 1)
    ensures r.Err? && (gainMode == "nonmyopic" || gainMode == "batch") ==> r.error.TypeError?
    ensures r.Err? && gainMode != "nonmyopic" && gainMode != "batch" ==> r.error.UnboundLocalError?
    ensures r.Ok? ==> fresh(r.value) && r.value.Length0 == |candIdxSet| && r.value.Length1 == Columns(gainMode, width)
    ensures r.Ok? && gainMode == "nonmyopic" ==>
      forall i, j :: 0 <= i < |candIdxSet| && 0 <= j < width ==>
        r.value[i, j] == AsWrittenEntry(WeightedSum(dperf[i][j], probYSim[i][j]), i, j, |candIdxSet|)
    ensures r.Ok? && gainMode == "batch" ==>
      forall i :: 0 <= i < |candIdxSet| ==> r.value[i, 0] == WeightedSum(dperf[i][0], probYSim[i][0])
  {
    if gainMode != "nonmyopic" && gainMode != "batch" {
      return Err(UnboundLocalError("cand_idx_subsets"));
    }
    var n, cols := |candIdxSet|, Columns(gainMode, width);
    if !independence && n >= 1 && cols >= 1 {
      return Err(TypeError("dependent_cand_prob() takes 9 positional arguments but 10 were given"));
    }
    var divided := gainMode == "nonmyopic";
    var u := new real[n, cols];
    for i := 0 to n
      invariant forall i', j :: 0 <= i' < i && 0 <= j < cols ==>
        Power((j + 1) as real, if divided then i - i' else 0) >= 1.0 &&
        u[i', j] == WeightedSum(dperf[i'][j], probYSim[i'][j]) / Power((j + 1) as real, if divided then i - i' else 0)
    {
      AccumulateRow(u, i, dperf[i], probYSim[i]);
      if divided {
        DivideByDepth(u);
        forall i', j | 0 <= i' <= i && 0 <= j < cols
          ensures Power((j + 1) as real, i + 1 - i') >= 1.0
          ensures u[i', j] == WeightedSum(dperf[i'][j], probYSim[i'][j]) / Power((j + 1) as real, i + 1 - i')
        {
          DivideOnceMore(WeightedSum(dperf[i'][j], probYSim[i'][j]), (j + 1) as real, i - i');
          assert i + 1 - i' == (i - i') + 1;
        }
      }
    }
    return Ok(u);
  }

  /** The accumulation loop with the normalisation after the loop, applied
      once, and with the dependent probabilities computed as intended. */
  method NonmyopicGainCorrected(candIdxSet: seq<seq<int>>, width: nat, gainMode: string,
                                dperf: seq<seq<seq<real>>>, probYSim: seq<seq<seq<real>>>)
    returns (r: Result<array2<real>>)
    requires forall i :: 0 <= i < |candIdxSet| ==> |candIdxSet[i]| == width
    requires Shaped(dperf, probYSim, |candIdxSet|, Columns(gainMode, width))
    ensures r.Ok? <==> gainMode == "nonmyopic" || gainMode == "batch"
    ensures r.Err? ==> r.error.UnboundLocalError?
    ensures r.Ok? ==> fresh(r.value) && r.value.Length0 == |candIdxSet| && r.value.Length1 == Columns(gainMode, width)
    ensures r.Ok? && gainMode == "nonmyopic" ==>
      forall i, j :: 0 <= i < |candIdxSet| && 0 <= j < width ==>
        r.value[i, j] == NormalisedEntry(WeightedSum(dperf[i][j], probYSim[i][j]), j)
    ensures r.Ok? && gainMode == "batch" ==>
      forall i :: 0 <= i < |candIdxSet| ==> r.value[i, 0] == WeightedSum(dperf[i][0], probYSim[i][0])
  {
    if gainMode != "nonmyopic" && gainMode != "batch" {
      return Err(UnboundLocalError("cand_idx_subsets"));
    }
    var n, cols := |candIdxSet|, Columns(gainMode, width);
    var u := new real[n, cols];
    for i := 0 to n
      invariant forall i', j :: 0 <= i' < i && 0 <= j < cols ==> u[i', j] == WeightedSum(dperf[i'][j], probYSim[i'][j])
    {
      AccumulateRow(u, i, dperf[i], probYSim[i]);
    }
    if gainMode == "nonmyopic" {
      DivideByDepth(u);
    }
    return Ok(u);
  }

  lemma DivInjective(s: real, a: real, b: real)
    requires s != 0.0 && a > 0.0 && b > 0.0 && s / a == s / b
    ensures a == b
  {
    assert s == (s / a) * a;
    assert s == (s / b) * b;
  }

  /** As written, the utility of subset `j` of candidate set `i` equals the
      once-normalised one exactly when it is zero, when `j = 0` (no
      division), or when `i` is the last candidate set (divided once). */
  lemma OverNormalised(s: real, i: nat, j: nat, n: nat)
    requires i < n
    ensures AsWrittenEntry(s, i, j, n) == NormalisedEntry(s, j) <==> s == 0.0 || j == 0 || i == n - 1
  {
    if j == 0 {
      PowerOfOne(n - i);
    } else if i == n - 1 {
      assert Power((j + 1) as real, 1) == (j + 1) as real;
    } else if s != 0.0 {
      PowerAbove((j + 1) as real, n - i);
      PowerAtLeastOne((j + 1) as real, n - i);
      var x, pw := (j + 1) as real, Power((j + 1) as real, n - i);
      assert AsWrittenEntry(s, i, j, n) == s / pw;
      assert NormalisedEntry(s, j) == s / x;
      if s / pw == s / x {
        DivInjective(s, pw, x);
        assert false;
      }
    } else {
      PowerAtLeastOne((j + 1) as real, n - i);
    }
  }

  /** A base above one raised to at least the second power exceeds itself. */
  lemma PowerAbove(x: real, e: nat)
    requires x > 1.0 && e >= 2
    ensures Power(x, e) > x
  {
    PowerAtLeastOne(x, e - 2);
    var q := Power(x, e - 2);
    var q1 := Power(x, e - 1);
    assert q1 == q * x;
    assert Power(x, e) == q1 * x;
    MulAtLeast(q, x);
    MulAbove(q1, x);
  }

  lemma MulAbove(a: real, x: real)
    requires a >= x && x > 1.0
    ensures a * x > x
  {
  }

  lemma {:induction false} PowerOfOne(e: nat)
    ensures Power(1.0, e) == 1.0
  {
    if e > 0 {
      PowerOfOne(e - 1);
    }
  }
}
