/** Shared vocabulary: the exceptions the query strategies raise, and a
    Result type that carries either a value or the exception raised. */
module Common {

  /** The Python exception classes raised by the strategies, each with the
      name of the argument or mode that caused it. */
  datatype Error =
    | ValueError(what: string)
    | TypeError(what: string)
    | NotImplementedError(what: string)
    | AttributeError(what: string)
    | IndexError(what: string)
    | UnboundLocalError(what: string)

  datatype Result<+T> = Ok(value: T) | Err(error: Error) {
    predicate IsFailure() { Err? }

    function PropagateFailure<U>(): Result<U>
      requires Err?
    {
      Err(error)
    }

    function Extract(): T
      requires Ok?
    {
      value
    }
  }

  datatype Option<+T> = None | Some(value: T)

  /** A numpy float that may be NaN: `None` stands for NaN. */
  type Float = Option<real>

  /** Python's reading of index `i` on an axis of length `len`: negative
      indices count from the end; anything else raises IndexError. */
  function PyIndex(i: int, len: nat): Option<nat>
  {
    if 0 <= i < len then Some(i) else if -(len as int) <= i < 0 then Some((i + len) as nat) else None
  }

  /** Sum of a real vector, peeled from the back. */
  function RealSum(v: seq<real>): real
  {
    if v == [] then 0.0 else RealSum(v[..|v| - 1]) + v[|v| - 1]
  }

  lemma {:induction false} RealSumAppend(v: seq<real>, w: seq<real>)
    ensures RealSum(v + w) == RealSum(v) + RealSum(w)
  {
    if w != [] {
      assert (v + w)[..|v + w| - 1] == v + w[..|w| - 1];
      RealSumAppend(v, w[..|w| - 1]);
    } else {
      assert v + w == v;
    }
  }

  predicate NonNegativeReals(v: seq<real>)
  {
    forall i :: 0 <= i < |v| ==> v[i] >= 0.0
  }

  lemma {:induction false} RealSumNonNegative(v: seq<real>)
    requires NonNegativeReals(v)
    ensures RealSum(v) >= 0.0
  {
    if v != [] {
      RealSumNonNegative(v[..|v| - 1]);
    }
  }

  /** Each entry of a non-negative vector is at most its sum. */
  lemma {:induction false} RealSumBound(v: seq<real>, i: nat)
    requires NonNegativeReals(v) && i < |v|
    ensures v[i] <= RealSum(v)
  {
    RealSumNonNegative(v[..|v| - 1]);
    if i < |v| - 1 {
      RealSumBound(v[..|v| - 1], i);
    }
  }

  /** Summation is monotone entrywise. */
  lemma {:induction false} RealSumLeq(v: seq<real>, w: seq<real>)
    requires |v| == |w| && forall i :: 0 <= i < |v| ==> v[i] <= w[i]
    ensures RealSum(v) <= RealSum(w)
  {
    if v != [] {
      RealSumLeq(v[..|v| - 1], w[..|w| - 1]);
    }
  }

  /** Summation is additive entrywise. */
  lemma {:induction false} RealSumPlus(u: seq<real>, v: seq<real>, w: seq<real>)
    requires |u| == |v| == |w| && forall i :: 0 <= i < |u| ==> u[i] == v[i] + w[i]
    ensures RealSum(u) == RealSum(v) + RealSum(w)
  {
    if u != [] {
      RealSumPlus(u[..|u| - 1], v[..|v| - 1], w[..|w| - 1]);
    }
  }

  /** A vector that is zero except at `t` sums to its entry at `t`. */
  lemma {:induction false} RealSumIndicator(v: seq<real>, t: nat)
    requires t < |v| && forall i :: 0 <= i < |v| && i != t ==> v[i] == 0.0
    ensures RealSum(v) == v[t]
  {
    if t < |v| - 1 {
      RealSumIndicator(v[..|v| - 1], t);
    } else {
      RealSumZero(v[..|v| - 1]);
    }
  }

  lemma {:induction false} RealSumZero(v: seq<real>)
    requires forall i :: 0 <= i < |v| ==> v[i] == 0.0
    ensures RealSum(v) == 0.0
  {
    if v != [] {
      RealSumZero(v[..|v| - 1]);
    }
  }

  /** A vector whose entries are at most one sums to at most its length. */
  lemma {:induction false} RealSumAtMostLength(v: seq<real>)
    requires forall i :: 0 <= i < |v| ==> v[i] <= 1.0
    ensures RealSum(v) <= |v| as real
  {
    if v != [] {
      RealSumAtMostLength(v[..|v| - 1]);
    }
  }

  /** numpy broadcasting of one axis: equal lengths, or a length 1
      stretched to the other; `None` when the shapes do not broadcast. */
  function BroadcastDim(a: nat, b: nat): (d: Option<nat>)
    ensures d.Some? <==> a == b || a == 1 || b == 1
    ensures d.Some? ==> (d.value == a || a == 1) && (d.value == b || b == 1)
  {
    if a == b then Some(a) else if a == 1 then Some(b) else if b == 1 then Some(a) else None
  }

  /** The index read from an axis of length `len` at position `i` of the
      broadcast result: a stretched axis is always read at 0. */
  function BroadcastIndex(i: nat, len: nat): nat
  {
    if len == 1 then 0 else i
  }

  /** A real matrix with `rows` rows of `cols` entries each. */
  predicate IsMatrix(a: seq<seq<real>>, rows: nat, cols: nat)
  {
    |a| == rows && forall i :: 0 <= i < |a| ==> |a[i]| == cols
  }

  /** The sign of a product with a positive factor, stated without case
      splits so that callers need no impossible branch. */
  lemma MulSign(a: int, d: int)
    requires d >= 1
    ensures a >= 1 ==> a * d >= d
    ensures a <= -1 ==> a * d <= -d
  {
  }

  /** `np.max`: the largest entry. */
  function Max(v: seq<real>): (r: real)
    requires |v| >= 1
    ensures forall i :: 0 <= i < |v| ==> v[i] <= r
    ensures exists i :: 0 <= i < |v| && v[i] == r
  {
    if |v| == 1 then v[0]
    else
      var r := Max(v[..|v| - 1]);
      assert forall i :: 0 <= i < |v| - 1 ==> v[i] == v[..|v| - 1][i];
      if v[|v| - 1] > r then v[|v| - 1] else r
  }

  /** The positions below `k` at which `v` attains its largest value, in
      ascending order. */
  function Maximisers(v: seq<real>, k: nat): (s: seq<nat>)
    requires 1 <= |v| && k <= |v|
    ensures forall a :: 0 <= a < |s| ==> s[a] < k && v[s[a]] == Max(v)
    ensures forall i :: 0 <= i < k && v[i] == Max(v) ==> i in s
  {
    if k == 0 then []
    else
      var s := Maximisers(v, k - 1);
      if v[k - 1] == Max(v) then s + [k - 1] else s
  }

  /** `rand_argmax(v)`: a position holding the largest entry, drawn at random
      among the ties; `tie` stands for the random draw. */
  function RandArgmax(v: seq<real>, tie: nat): (i: nat)
    requires |v| >= 1
    ensures i < |v| && forall j :: 0 <= j < |v| ==> v[j] <= v[i]
  {
    var s := Maximisers(v, |v|);
    var w :| 0 <= w < |v| && v[w] == Max(v);
    assert w in s;
    s[tie % |s|]
  }

  /** Every position holding the largest entry is drawn for some `tie`. */
  lemma RandArgmaxReachesEveryMaximiser(v: seq<real>, i: nat)
    requires i < |v| && forall j :: 0 <= j < |v| ==> v[j] <= v[i]
    ensures exists tie :: RandArgmax(v, tie) == i
  {
    var s := Maximisers(v, |v|);
    assert v[i] == Max(v) by {
      var w :| 0 <= w < |v| && v[w] == Max(v);
      assert v[w] <= v[i];
    }
    assert i in s;
    var a :| 0 <= a < |s| && s[a] == i;
    RandArgmaxDraws(v, a);
    ModBelow(a, |s|);
  }

  lemma ModBelow(a: nat, n: nat)
    requires a < n
    ensures a % n == a
  {
    assert a == 0 * n + a;
  }

  /** Draw `tie` picks the maximiser at position `tie` modulo their number. */
  lemma RandArgmaxDraws(v: seq<real>, tie: nat)
    requires |v| >= 1
    ensures |Maximisers(v, |v|)| >= 1
    ensures RandArgmax(v, tie) == Maximisers(v, |v|)[tie % |Maximisers(v, |v|)|]
  {
  }

  /** With every entry equal, every position is a maximiser and the draw
      alone decides: `rand_argmax` is uniform. */
  lemma RandArgmaxConstant(v: seq<real>, tie: nat)
    requires |v| >= 1 && forall i :: 0 <= i < |v| ==> v[i] == v[0]
    ensures RandArgmax(v, tie) == tie % |v|
  {
    assert Max(v) == v[0];
    AllMaximisers(v, |v|);
    RandArgmaxDraws(v, tie);
  }

  lemma {:induction false} AllMaximisers(v: seq<real>, k: nat)
    requires 1 <= |v| && k <= |v| && forall i :: 0 <= i < |v| ==> v[i] == Max(v)
    ensures |Maximisers(v, k)| == k && forall a :: 0 <= a < k ==> Maximisers(v, k)[a] == a
  {
    if k > 0 {
      AllMaximisers(v, k - 1);
    }
  }
}
