/** The combinatorial helpers of probabilistic active learning: the list of
    all label vectors (hypothetical allocations of m labels to the classes)
    and the multinomial coefficient. Euler's beta function is floating-point
    special-function numerics and appears only as a parameter of the cost
    reduction model. */
module Combinatorics {
  import opened Common

  // ---------------------------------------------------------------------
  // Integer vectors
  // ---------------------------------------------------------------------

  /** Sum of an integer vector, peeled from the back so that the sum of
      `v + [x]` unfolds in one step. */
  function Sum(v: seq<int>): int
  {
    if v == [] then 0 else Sum(v[..|v| - 1]) + v[|v| - 1]
  }

  predicate NonNegative(v: seq<int>)
  {
    forall i :: 0 <= i < |v| ==> v[i] >= 0
  }

  /** A label vector: `n` non-negative counts adding up to `m`. */
  predicate IsLabelVector(v: seq<int>, m: int, n: int)
  {
    |v| == n && NonNegative(v) && Sum(v) == m
  }

  /** A partial label vector of length `i` whose counts leave something of `m`. */
  predicate IsPartial(v: seq<int>, m: int, i: int)
  {
    |v| == i && NonNegative(v) && Sum(v) <= m
  }

  lemma {:induction false} SumNonNegative(v: seq<int>)
    requires NonNegative(v)
    ensures Sum(v) >= 0
  {
    if v != [] {
      SumNonNegative(v[..|v| - 1]);
    }
  }

  /** Splitting a non-empty vector into its front and its last entry. */
  lemma SplitLast(v: seq<int>)
    requires |v| >= 1
    ensures Sum(v) == Sum(v[..|v| - 1]) + v[|v| - 1]
    ensures NonNegative(v) <==> NonNegative(v[..|v| - 1]) && v[|v| - 1] >= 0
  {
    SplitLastNonNegative(v);
  }

  lemma SplitLastNonNegative(v: seq<int>)
    requires |v| >= 1
    ensures NonNegative(v) <==> NonNegative(v[..|v| - 1]) && v[|v| - 1] >= 0
  {
  }

  lemma AppendSplit(p: seq<int>, x: int)
    ensures (p + [x])[..|p|] == p && (p + [x])[|p|] == x
    ensures Sum(p + [x]) == Sum(p) + x
  {
    assert (p + [x])[..|p + [x]| - 1] == p;
  }

  // ---------------------------------------------------------------------
  // The enumeration as the source builds it: prefixes grown one class at
  // a time, each prefix extended by every count that still fits, and the
  // last class receiving whatever is left.
  // ---------------------------------------------------------------------

  /** The extensions `p + [x]` for the candidate counts `x` in `0 .. hi-1`
      that pass the source's filter `x - (m - sum(p)) <= 1e-10`, which on
      integers is `x <= m - Sum(p)`. */
  function Extensions(p: seq<int>, m: nat, hi: nat): seq<seq<int>>
  {
    if hi == 0 then []
    else Extensions(p, m, hi - 1) + (if hi - 1 <= m - Sum(p) then [p + [hi - 1]] else [])
  }

  /** One pass of the outer loop: every prefix, in order, extended by every
      admissible count, in increasing order. */
  function Level(ps: seq<seq<int>>, m: nat): seq<seq<int>>
  {
    if ps == [] then [] else Level(ps[..|ps| - 1], m) + Extensions(ps[|ps| - 1], m, m + 1)
  }

  /** The prefixes of length `i` after `i` passes, starting from `[[]]`. */
  function Prefixes(m: nat, i: nat): seq<seq<int>>
  {
    if i == 0 then [[]] else Level(Prefixes(m, i - 1), m)
  }

  /** The final pass: each prefix receives `m - sum(prefix)` as its last entry. */
  function Complete(ps: seq<seq<int>>, m: nat): seq<seq<int>>
  {
    if ps == [] then []
    else Complete(ps[..|ps| - 1], m) + [ps[|ps| - 1] + [m - Sum(ps[|ps| - 1])]]
  }

  /** The list `_gen_l_vec_list(m, n_classes)` returns. With `n_classes <= 0`
      the outer loop does not run and the result is the single row `[m]`. */
  function LabelVectorList(m: nat, nClasses: int): seq<seq<int>>
  {
    Complete(Prefixes(m, if nClasses >= 1 then nClasses - 1 else 0), m)
  }

  /** `_gen_l_vec_list`: the nested loops of the source, growing the list of
      prefixes class by class and completing each prefix at the end. */
  method GenLabelVectors(m: nat, nClasses: int) returns (rows: seq<seq<int>>)
    ensures rows == LabelVectorList(m, nClasses)
    ensures nClasses >= 1 ==> forall r :: r in rows ==> IsLabelVector(r, m, nClasses)
    ensures nClasses >= 1 ==> |rows| == Binom(m + nClasses - 1, nClasses - 1)
    ensures LexSorted(rows)
  {
    var list := BuildPrefixes(m, nClasses);
    rows := CompleteAll(list, m);
    LabelVectorListSorted(m, nClasses);
    if nClasses >= 1 {
      LabelVectorListRows(m, nClasses);
      LabelVectorListCount(m, nClasses);
    }
  }

  /** The outer loop of `_gen_l_vec_list`: `n_classes - 1` passes, each
      extending every prefix by one more class. */
  method BuildPrefixes(m: nat, nClasses: int) returns (list: seq<seq<int>>)
    ensures list == Prefixes(m, if nClasses >= 1 then nClasses - 1 else 0)
  {
    var passes: nat := if nClasses >= 1 then nClasses - 1 else 0;
    list := [[]];
    var i: nat := 0;
    while i < passes
      invariant i <= passes && list == Prefixes(m, i)
    {
      list := ExtendAll(list, m);
      i := i + 1;
    }
  }

  /** The final loop of `_gen_l_vec_list`: each prefix receives the labels
      left over as its last entry. */
  method CompleteAll(list: seq<seq<int>>, m: nat) returns (rows: seq<seq<int>>)
    ensures rows == Complete(list, m)
  {
    rows := [];
    var j := 0;
    while j < |list|
      invariant 0 <= j <= |list|
      invariant rows == Complete(list[..j], m)
    {
      assert list[..j + 1][..j] == list[..j];
      rows := rows + [list[j] + [m - Sum(list[j])]];
      j := j + 1;
    }
    assert list[..|list|] == list;
  }

  /** One pass of the outer loop of `_gen_l_vec_list`. */
  method ExtendAll(list: seq<seq<int>>, m: nat) returns (next: seq<seq<int>>)
    ensures next == Level(list, m)
  {
    next := [];
    var j := 0;
    while j < |list|
      invariant 0 <= j <= |list|
      invariant next == Level(list[..j], m)
    {
      var extended := ExtendPrefix(list[j], m);
      assert list[..j + 1][..j] == list[..j];
      next := next + extended;
      j := j + 1;
    }
    assert list[..|list|] == list;
  }

  /** The innermost loop: every count in `0 .. m` that passes the filter. */
  method ExtendPrefix(p: seq<int>, m: nat) returns (extended: seq<seq<int>>)
    ensures extended == Extensions(p, m, m + 1)
  {
    var rest := m - Sum(p);
    extended := [];
    var x := 0;
    while x <= m
      invariant 0 <= x <= m + 1
      invariant extended == Extensions(p, m, x)
    {
      if x - rest <= 0 {
        extended := extended + [p + [x]];
      }
      x := x + 1;
    }
  }

  // ---------------------------------------------------------------------
  // Every label vector is listed exactly once.
  // ---------------------------------------------------------------------

  function Front(v: seq<int>): seq<int>
    requires |v| >= 1
  {
    v[..|v| - 1]
  }

  function Last(v: seq<int>): int
    requires |v| >= 1
  {
    v[|v| - 1]
  }

  /** Number of occurrences of `v` in `s`. */
  function Occurrences(s: seq<seq<int>>, v: seq<int>): nat
  {
    if s == [] then 0 else Occurrences(s[..|s| - 1], v) + (if s[|s| - 1] == v then 1 else 0)
  }

  lemma {:induction false} OccurrencesAppend(s: seq<seq<int>>, t: seq<seq<int>>, v: seq<int>)
    ensures Occurrences(s + t, v) == Occurrences(s, v) + Occurrences(t, v)
  {
    if t == [] {
      assert s + t == s;
    } else {
      assert (s + t)[..|s + t| - 1] == s + t[..|t| - 1];
      OccurrencesAppend(s, t[..|t| - 1], v);
    }
  }

  lemma OccurrencesSingleton(w: seq<int>, v: seq<int>)
    ensures Occurrences([w], v) == if w == v then 1 else 0
  {
    assert [w][..0] == [];
  }

  lemma {:induction false} OccurrencesMultiset(s: seq<seq<int>>, v: seq<int>)
    ensures multiset(s)[v] == Occurrences(s, v)
  {
    if s != [] {
      assert s == s[..|s| - 1] + [s[|s| - 1]];
      OccurrencesMultiset(s[..|s| - 1], v);
    }
  }

  /** `v` is `p` followed by `x` exactly when its front is `p` and its last entry `x`. */
  lemma AppendIff(v: seq<int>, p: seq<int>, x: int)
    ensures v == p + [x] <==> |v| >= 1 && Front(v) == p && Last(v) == x
  {
    if |v| >= 1 && Front(v) == p && Last(v) == x {
      assert v == v[..|v| - 1] + [v[|v| - 1]];
    }
    if v == p + [x] {
      AppendSplit(p, x);
    }
  }

  lemma {:induction false} ExtensionsOccurrences(p: seq<int>, m: nat, hi: nat, v: seq<int>)
    ensures Occurrences(Extensions(p, m, hi), v) ==
      if |v| >= 1 && Front(v) == p && 0 <= Last(v) < hi && Last(v) <= m - Sum(p) then 1 else 0
  {
    if hi > 0 {
      var tail := if hi - 1 <= m - Sum(p) then [p + [hi - 1]] else [];
      OccurrencesAppend(Extensions(p, m, hi - 1), tail, v);
      ExtensionsOccurrences(p, m, hi - 1, v);
      OccurrencesSingleton(p + [hi - 1], v);
      AppendIff(v, p, hi - 1);
    }
  }

  lemma {:induction false} LevelOccurrences(ps: seq<seq<int>>, m: nat, v: seq<int>)
    ensures Occurrences(Level(ps, m), v) ==
      if |v| >= 1 && 0 <= Last(v) <= m && Last(v) <= m - Sum(Front(v)) then Occurrences(ps, Front(v)) else 0
  {
    if ps != [] {
      var front, last := ps[..|ps| - 1], ps[|ps| - 1];
      OccurrencesAppend(Level(front, m), Extensions(last, m, m + 1), v);
      LevelOccurrences(front, m, v);
      ExtensionsOccurrences(last, m, m + 1, v);
    }
  }

  lemma {:induction false} PrefixesOccurrences(m: nat, i: nat, v: seq<int>)
    ensures Occurrences(Prefixes(m, i), v) == if IsPartial(v, m, i) then 1 else 0
  {
    if i == 0 {
      OccurrencesSingleton([], v);
    } else if |v| >= 1 {
      PrefixesOccurrences(m, i - 1, Front(v));
      PrefixesStep(m, i, v);
    } else {
      LevelOccurrences(Prefixes(m, i - 1), m, v);
    }
  }

  /** One pass of the outer loop turns the exact count of `Front(v)` among
      the shorter prefixes into the exact count of `v`. */
  lemma PrefixesStep(m: nat, i: nat, v: seq<int>)
    requires i >= 1 && |v| >= 1
    requires Occurrences(Prefixes(m, i - 1), Front(v)) == if IsPartial(Front(v), m, i - 1) then 1 else 0
    ensures Occurrences(Prefixes(m, i), v) == if IsPartial(v, m, i) then 1 else 0
  {
    LevelOccurrences(Prefixes(m, i - 1), m, v);
    SplitLast(v);
    if NonNegative(Front(v)) {
      SumNonNegative(Front(v));
    }
  }

  lemma {:induction false} CompleteOccurrences(ps: seq<seq<int>>, m: nat, v: seq<int>)
    ensures Occurrences(Complete(ps, m), v) ==
      if |v| >= 1 && Last(v) == m - Sum(Front(v)) then Occurrences(ps, Front(v)) else 0
  {
    if ps != [] {
      var front, last := ps[..|ps| - 1], ps[|ps| - 1];
      var row := last + [m - Sum(last)];
      OccurrencesAppend(Complete(front, m), [row], v);
      CompleteOccurrences(front, m, v);
      OccurrencesSingleton(row, v);
      AppendIff(v, last, m - Sum(last));
    }
  }

  /** Each label vector of length `n` summing to `m` occurs exactly once in
      `_gen_l_vec_list(m, n)`, and nothing else occurs. */
  lemma LabelVectorListExact(m: nat, n: int, v: seq<int>)
    requires n >= 1
    ensures Occurrences(LabelVectorList(m, n), v) == if IsLabelVector(v, m, n) then 1 else 0
  {
    var k: nat := n - 1;
    assert LabelVectorList(m, n) == Complete(Prefixes(m, k), m);
    CompleteOccurrences(Prefixes(m, k), m, v);
    LabelVectorSplit(v, m, n);
    if |v| >= 1 && Last(v) == m - Sum(Front(v)) {
      PrefixesOccurrences(m, k, Front(v));
    }
  }

  /** A label vector is a partial one of one entry less, completed by what
      is left of `m`. */
  lemma LabelVectorSplit(v: seq<int>, m: nat, n: int)
    requires n >= 1
    ensures IsLabelVector(v, m, n) <==>
      |v| >= 1 && Last(v) == m - Sum(Front(v)) && IsPartial(Front(v), m, n - 1)
  {
    if |v| >= 1 {
      SplitLast(v);
      if NonNegative(Front(v)) {
        SumNonNegative(Front(v));
      }
    }
  }

  /** Every row of `_gen_l_vec_list(m, n)` has length `n`, non-negative
      entries and sum `m`. */
  lemma LabelVectorListRows(m: nat, n: int)
    requires n >= 1
    ensures forall r :: r in LabelVectorList(m, n) ==> IsLabelVector(r, m, n)
  {
    forall r | r in LabelVectorList(m, n)
      ensures IsLabelVector(r, m, n)
    {
      LabelVectorListExact(m, n, r);
      OccurrencesMultiset(LabelVectorList(m, n), r);
    }
  }

  // ---------------------------------------------------------------------
  // The rows come in lexicographic order.
  // ---------------------------------------------------------------------

  /** `a` comes before `b` in lexicographic order, decided at position `k`:
      they agree before `k` and `a` is smaller at `k`. */
  predicate LexLessAt(a: seq<int>, b: seq<int>, k: nat)
  {
    k < |a| && k < |b| && a[..k] == b[..k] && a[k] < b[k]
  }

  predicate LexLess(a: seq<int>, b: seq<int>)
  {
    exists k: nat :: k < |a| && LexLessAt(a, b, k)
  }

  /** Every row comes strictly before every later row. */
  predicate LexSorted(s: seq<seq<int>>)
  {
    forall i, j :: 0 <= i < j < |s| ==> LexLess(s[i], s[j])
  }

  /** Appending an entry to each of two ordered vectors keeps their order. */
  lemma AppendLexLess(p: seq<int>, q: seq<int>, x: int, y: int)
    requires LexLess(p, q)
    ensures LexLess(p + [x], q + [y])
  {
    var k: nat :| k < |p| && LexLessAt(p, q, k);
    assert (p + [x])[..k] == p[..k] && (q + [y])[..k] == q[..k];
    assert LexLessAt(p + [x], q + [y], k);
  }

  /** The number of extensions of a prefix: the counts `0 .. hi-1` that do
      not exceed the `r` labels it leaves. */
  function Kept(hi: nat, r: int): nat
  {
    if r < 0 then 0 else if hi <= r + 1 then hi else r + 1
  }

  /** The extensions of `p` are `p + [0]`, `p + [1]`, ... up to the last
      count that fits. */
  lemma {:induction false} ExtensionsRows(p: seq<int>, m: nat, hi: nat)
    ensures |Extensions(p, m, hi)| == Kept(hi, m - Sum(p))
    ensures forall x :: 0 <= x < |Extensions(p, m, hi)| ==> Extensions(p, m, hi)[x] == p + [x]
  {
    if hi > 0 {
      ExtensionsRows(p, m, hi - 1);
    }
  }

  lemma ExtensionsSorted(p: seq<int>, m: nat, hi: nat)
    ensures LexSorted(Extensions(p, m, hi))
  {
    var e := Extensions(p, m, hi);
    ExtensionsRows(p, m, hi);
    forall i, j | 0 <= i < j < |e|
      ensures LexLess(e[i], e[j])
    {
      assert e[i][..|p|] == p == e[j][..|p|];
      assert LexLessAt(e[i], e[j], |p|);
    }
  }

  /** A vector occurs in a list exactly when it is in it. */
  lemma {:induction false} OccursIn(s: seq<seq<int>>, v: seq<int>)
    ensures v in s <==> Occurrences(s, v) > 0
  {
    OccurrencesMultiset(s, v);
  }

  /** Every row of a pass is one of the prefixes, extended. */
  lemma LevelMember(ps: seq<seq<int>>, m: nat, v: seq<int>)
    requires v in Level(ps, m)
    ensures |v| >= 1 && Front(v) in ps && v == Front(v) + [Last(v)]
  {
    OccursIn(Level(ps, m), v);
    LevelOccurrences(ps, m, v);
    OccursIn(ps, Front(v));
  }

  lemma ConcatSorted(a: seq<seq<int>>, b: seq<seq<int>>)
    requires LexSorted(a) && LexSorted(b)
    requires forall u, w :: u in a && w in b ==> LexLess(u, w)
    ensures LexSorted(a + b)
  {
    var s := a + b;
    forall i, j | 0 <= i < j < |s|
      ensures LexLess(s[i], s[j])
    {
      if j < |a| {
        assert s[i] == a[i] && s[j] == a[j];
      } else if i >= |a| {
        assert s[i] == b[i - |a|] && s[j] == b[j - |a|];
      } else {
        assert s[i] in a && s[j] in b;
      }
    }
  }

  /** One pass of the outer loop keeps the list in lexicographic order:
      the extensions of an earlier prefix all precede those of a later one. */
  lemma {:induction false} LevelSorted(ps: seq<seq<int>>, m: nat)
    requires LexSorted(ps)
    ensures LexSorted(Level(ps, m))
  {
    if ps != [] {
      var front, p := ps[..|ps| - 1], ps[|ps| - 1];
      SortedFront(ps);
      LevelSorted(front, m);
      ExtensionsSorted(p, m, m + 1);
      LevelPrecedes(front, p, m);
      ConcatSorted(Level(front, m), Extensions(p, m, m + 1));
    }
  }

  /** Without its last row a sorted list is still sorted, and that row
      comes after all the others. */
  lemma SortedFront(ps: seq<seq<int>>)
    requires LexSorted(ps) && ps != []
    ensures LexSorted(ps[..|ps| - 1])
    ensures forall t :: 0 <= t < |ps| - 1 ==> LexLess(ps[t], ps[|ps| - 1])
  {
    var front := ps[..|ps| - 1];
    forall i, j | 0 <= i < j < |front|
      ensures LexLess(front[i], front[j])
    {
      assert front[i] == ps[i] && front[j] == ps[j];
    }
  }

  /** The extensions of prefixes that precede `p` precede the extensions
      of `p`. */
  lemma LevelPrecedes(front: seq<seq<int>>, p: seq<int>, m: nat)
    requires forall t :: 0 <= t < |front| ==> LexLess(front[t], p)
    ensures forall u, w :: u in Level(front, m) && w in Extensions(p, m, m + 1) ==> LexLess(u, w)
  {
    forall u, w | u in Level(front, m) && w in Extensions(p, m, m + 1)
      ensures LexLess(u, w)
    {
      LevelMember(front, m, u);
      ExtensionPrecedes(front, p, m, Front(u), Last(u), w);
    }
  }

  lemma ExtensionPrecedes(front: seq<seq<int>>, p: seq<int>, m: nat, q: seq<int>, y: int, w: seq<int>)
    requires forall t :: 0 <= t < |front| ==> LexLess(front[t], p)
    requires q in front && w in Extensions(p, m, m + 1)
    ensures LexLess(q + [y], w)
  {
    ExtensionsRows(p, m, m + 1);
    var ext := Extensions(p, m, m + 1);
    var x :| 0 <= x < |ext| && ext[x] == w;
    AppendLexLess(q, p, y, x);
  }

  lemma {:induction false} PrefixesSorted(m: nat, i: nat)
    ensures LexSorted(Prefixes(m, i))
  {
    if i > 0 {
      PrefixesSorted(m, i - 1);
      LevelSorted(Prefixes(m, i - 1), m);
    }
  }

  /** Row `i` of the completed list is prefix `i` followed by what it leaves. */
  lemma {:induction false} CompleteRows(ps: seq<seq<int>>, m: nat)
    ensures |Complete(ps, m)| == |ps|
    ensures forall i :: 0 <= i < |ps| ==> Complete(ps, m)[i] == ps[i] + [m - Sum(ps[i])]
  {
    if ps != [] {
      CompleteRows(ps[..|ps| - 1], m);
    }
  }

  lemma CompleteSorted(ps: seq<seq<int>>, m: nat)
    requires LexSorted(ps)
    ensures LexSorted(Complete(ps, m))
  {
    var c := Complete(ps, m);
    CompleteRows(ps, m);
    forall i, j | 0 <= i < j < |c|
      ensures LexLess(c[i], c[j])
    {
      AppendLexLess(ps[i], ps[j], m - Sum(ps[i]), m - Sum(ps[j]));
    }
  }

  /** `_gen_l_vec_list(m, n)` lists its rows in strictly increasing
      lexicographic order. */
  lemma LabelVectorListSorted(m: nat, n: int)
    ensures LexSorted(LabelVectorList(m, n))
  {
    var k: nat := if n >= 1 then n - 1 else 0;
    PrefixesSorted(m, k);
    CompleteSorted(Prefixes(m, k), m);
  }

  // ---------------------------------------------------------------------
  // Counting: an independent enumeration with Pascal's recurrence.
  // ---------------------------------------------------------------------

  /** Binomial coefficient by Pascal's rule. */
  function Binom(n: nat, k: nat): nat
  {
    if k == 0 then 1
    else if n == 0 then 0
    else Binom(n - 1, k - 1) + Binom(n - 1, k)
  }

  lemma {:induction false} BinomDiagonal(n: nat)
    ensures Binom(n, n) == 1
  {
    if n > 0 {
      BinomAbove(n - 1, n);
      BinomDiagonal(n - 1);
    }
  }

  lemma {:induction false} BinomAbove(n: nat, k: nat)
    requires k > n
    ensures Binom(n, k) == 0
  {
    if n > 0 {
      BinomAbove(n - 1, k - 1);
      BinomAbove(n - 1, k);
    }
  }

  /** The hockey-stick sum over the counts `x < hi` with `x <= c`:
      the sum of `Binom(c - x + t, t)`. */
  function Hockey(c: int, hi: nat, t: nat): nat
  {
    if hi == 0 then 0
    else Hockey(c, hi - 1, t) + (if hi - 1 <= c then Binom(c - (hi - 1) + t, t) else 0)
  }

  /** Peeling the term `x = 0` off the front of the hockey-stick sum. */
  lemma {:induction false} HockeyShift(c: int, hi: nat, t: nat)
    requires c >= 1 && hi >= 1
    ensures Hockey(c, hi, t) == Binom(c + t, t) + Hockey(c - 1, hi - 1, t)
  {
    if hi > 1 {
      HockeyShift(c, hi - 1, t);
    }
  }

  /** Counts beyond `c` add nothing. */
  lemma {:induction false} HockeyBeyond(c: int, hi: nat, t: nat)
    requires hi >= c + 1 && c + 1 >= 0
    ensures Hockey(c, hi, t) == Hockey(c, c + 1, t)
  {
    if hi > c + 1 {
      HockeyBeyond(c, hi - 1, t);
    }
  }

  lemma {:induction false} HockeyNegative(c: int, hi: nat, t: nat)
    requires c < 0
    ensures Hockey(c, hi, t) == 0
  {
    if hi > 0 {
      HockeyNegative(c, hi - 1, t);
    }
  }

  /** The hockey-stick identity: the sum over `x` in `0 .. c` of
      `Binom(c - x + t, t)` is `Binom(c + t + 1, t + 1)`. */
  lemma {:induction false} HockeyStick(c: nat, t: nat)
    ensures Hockey(c, c + 1, t) == Binom(c + t + 1, t + 1)
  {
    if c == 0 {
      BinomDiagonal(t);
      BinomDiagonal(t + 1);
      BinomAbove(t, t + 1);
    } else {
      HockeyShift(c, c + 1, t);
      HockeyStick(c - 1, t);
    }
  }

  /** The number of ways to complete a prefix with `t` more classes: the
      stars-and-bars count of the labels it leaves over. */
  function Weight(p: seq<int>, m: nat, t: nat): nat
  {
    if Sum(p) <= m then Binom(m - Sum(p) + t, t) else 0
  }

  function WeightSum(ps: seq<seq<int>>, m: nat, t: nat): nat
  {
    if ps == [] then 0 else WeightSum(ps[..|ps| - 1], m, t) + Weight(ps[|ps| - 1], m, t)
  }

  lemma {:induction false} WeightSumAppend(ps: seq<seq<int>>, qs: seq<seq<int>>, m: nat, t: nat)
    ensures WeightSum(ps + qs, m, t) == WeightSum(ps, m, t) + WeightSum(qs, m, t)
  {
    if qs == [] {
      assert ps + qs == ps;
    } else {
      assert (ps + qs)[..|ps + qs| - 1] == ps + qs[..|qs| - 1];
      WeightSumAppend(ps, qs[..|qs| - 1], m, t);
    }
  }

  lemma {:induction false} ExtensionsWeight(p: seq<int>, m: nat, hi: nat, t: nat)
    ensures WeightSum(Extensions(p, m, hi), m, t) == Hockey(m - Sum(p), hi, t)
  {
    if hi > 0 {
      ExtensionsWeight(p, m, hi - 1, t);
      ExtensionsStep(p, m, hi, t);
    }
  }

  /** One pass of the outer loop trades one class of completions for one
      more entry in every prefix, without changing the total weight. */
  lemma {:induction false} LevelWeight(ps: seq<seq<int>>, m: nat, t: nat)
    requires forall p :: p in ps ==> Sum(p) >= 0
    ensures WeightSum(Level(ps, m), m, t) == WeightSum(ps, m, t + 1)
  {
    if ps != [] {
      var front, last := ps[..|ps| - 1], ps[|ps| - 1];
      assert forall p :: p in front ==> p in ps;
      WeightSumAppend(Level(front, m), Extensions(last, m, m + 1), m, t);
      LevelWeight(front, m, t);
      ExtensionsFullWeight(last, m, t);
    }
  }

  /** The last count tried adds the weight of its extension, if it is kept. */
  lemma ExtensionsStep(p: seq<int>, m: nat, hi: nat, t: nat)
    requires hi > 0
    ensures WeightSum(Extensions(p, m, hi), m, t) ==
      WeightSum(Extensions(p, m, hi - 1), m, t) +
      (if hi - 1 <= m - Sum(p) then Binom(m - Sum(p) - (hi - 1) + t, t) else 0)
  {
    var tail := if hi - 1 <= m - Sum(p) then [p + [hi - 1]] else [];
    assert Extensions(p, m, hi) == Extensions(p, m, hi - 1) + tail;
    WeightSumAppend(Extensions(p, m, hi - 1), tail, m, t);
    if hi - 1 <= m - Sum(p) {
      ExtensionWeight(p, m, hi - 1, t);
    } else {
      assert tail == [];
    }
  }

  /** The weight of one kept extension. */
  lemma ExtensionWeight(p: seq<int>, m: nat, x: nat, t: nat)
    requires x <= m - Sum(p)
    ensures WeightSum([p + [x]], m, t) == Binom(m - Sum(p) - x + t, t)
  {
    AppendSplit(p, x);
    var ps := [p + [x]];
    assert ps[..0] == [];
    assert WeightSum(ps, m, t) == Weight(p + [x], m, t);
  }

  /** The extensions of one prefix carry the weight of that prefix with
      one more class to fill. */
  lemma ExtensionsFullWeight(p: seq<int>, m: nat, t: nat)
    requires Sum(p) >= 0
    ensures WeightSum(Extensions(p, m, m + 1), m, t) == Weight(p, m, t + 1)
  {
    ExtensionsWeight(p, m, m + 1, t);
    if Sum(p) <= m {
      HockeyBeyond(m - Sum(p), m + 1, t);
      HockeyStick(m - Sum(p), t);
    } else {
      HockeyNegative(m - Sum(p), m + 1, t);
    }
  }

  /** Every prefix built by the outer loop is a partial label vector. */
  lemma PrefixesPartial(m: nat, i: nat, p: seq<int>)
    requires p in Prefixes(m, i)
    ensures IsPartial(p, m, i) && Sum(p) >= 0
  {
    OccurrencesMultiset(Prefixes(m, i), p);
    PrefixesOccurrences(m, i, p);
    SumNonNegative(p);
  }

  lemma PrefixesSums(m: nat, i: nat)
    ensures forall p :: p in Prefixes(m, i) ==> 0 <= Sum(p) <= m
  {
    forall p | p in Prefixes(m, i)
      ensures 0 <= Sum(p) <= m
    {
      PrefixesPartial(m, i, p);
    }
  }

  lemma PrefixesWeightBase(m: nat, t: nat)
    ensures WeightSum(Prefixes(m, 0), m, t) == Binom(m + t, t)
  {
    var empty: seq<int> := [];
    assert [empty][..0] == [];
    assert Sum(empty) == 0;
  }

  lemma {:induction false} PrefixesWeight(m: nat, i: nat, t: nat)
    ensures WeightSum(Prefixes(m, i), m, t) == Binom(m + i + t, i + t)
  {
    if i == 0 {
      PrefixesWeightBase(m, t);
    } else {
      PrefixesWeight(m, i - 1, t + 1);
      PrefixesWeightStep(m, i, t);
    }
  }

  lemma PrefixesWeightStep(m: nat, i: nat, t: nat)
    requires i >= 1
    requires WeightSum(Prefixes(m, i - 1), m, t + 1) == Binom(m + (i - 1) + (t + 1), (i - 1) + (t + 1))
    ensures WeightSum(Prefixes(m, i), m, t) == Binom(m + i + t, i + t)
  {
    PrefixesSums(m, i - 1);
    LevelWeight(Prefixes(m, i - 1), m, t);
  }

  /** With no classes left to fill, every partial vector has weight one. */
  lemma {:induction false} WeightSumZero(ps: seq<seq<int>>, m: nat)
    requires forall p :: p in ps ==> Sum(p) <= m
    ensures WeightSum(ps, m, 0) == |ps|
  {
    if ps != [] {
      assert forall p :: p in ps[..|ps| - 1] ==> p in ps;
      assert ps[|ps| - 1] in ps;
      WeightSumZero(ps[..|ps| - 1], m);
    }
  }

  lemma {:induction false} CompleteLength(ps: seq<seq<int>>, m: nat)
    ensures |Complete(ps, m)| == |ps|
  {
    if ps != [] {
      CompleteLength(ps[..|ps| - 1], m);
    }
  }

  /** `_gen_l_vec_list(m, n)` has the stars-and-bars number of rows,
      C(m + n - 1, n - 1). */
  lemma LabelVectorListCount(m: nat, n: int)
    requires n >= 1
    ensures |LabelVectorList(m, n)| == Binom(m + n - 1, n - 1)
  {
    var k: nat := n - 1;
    assert LabelVectorList(m, n) == Complete(Prefixes(m, k), m);
    CompletedCount(m, k);
    BinomOf(m + k, k, m + n - 1, n - 1);
  }

  lemma BinomOf(a: nat, b: nat, c: nat, d: nat)
    requires a == c && b == d
    ensures Binom(a, b) == Binom(c, d)
  {
  }

  lemma CompletedCount(m: nat, k: nat)
    ensures |Complete(Prefixes(m, k), m)| == Binom(m + k, k)
  {
    PrefixesWeightZero(m, k);
    PrefixesWeight(m, k, 0);
    CompleteLength(Prefixes(m, k), m);
  }

  lemma PrefixesWeightZero(m: nat, k: nat)
    ensures WeightSum(Prefixes(m, k), m, 0) == |Prefixes(m, k)|
  {
    PrefixesSums(m, k);
    WeightSumZero(Prefixes(m, k), m);
  }

  // ---------------------------------------------------------------------
  // Multinomial coefficient
  // ---------------------------------------------------------------------

  function Fact(n: nat): (r: nat)
    ensures r >= 1
  {
    if n == 0 then 1 else n * Fact(n - 1)
  }

  /** The denominator of the multinomial coefficient: the product of the
      factorials of the entries. */
  function ProdFact(a: seq<int>): (r: nat)
    requires NonNegative(a)
    ensures r >= 1
  {
    if a == [] then 1 else ProdFact(a[..|a| - 1]) * Fact(a[|a| - 1])
  }

  /** The multinomial coefficient as a product of binomial coefficients,
      one per entry: an independent reference for `multinomial`. */
  function MultinomialProduct(a: seq<int>): nat
    requires NonNegative(a)
  {
    if a == [] then 1
    else
      SumNonNegative(a[..|a| - 1]);
      MultinomialProduct(a[..|a| - 1]) * Binom(Sum(a[..|a| - 1]) + a[|a| - 1], a[|a| - 1])
  }

  lemma {:induction false} BinomFactorials(n: nat, k: nat)
    requires k <= n
    ensures Binom(n, k) * Fact(k) * Fact(n - k) == Fact(n)
  {
    if k == 0 {
    } else if k == n {
      BinomDiagonal(n);
    } else {
      BinomFactorials(n - 1, k - 1);
      BinomFactorials(n - 1, k);
      assert n - 1 - (k - 1) == n - k;
      PascalFactorials(Binom(n - 1, k - 1), Binom(n - 1, k), k, n - k, Fact(k - 1), Fact(n - k - 1), Fact(n - 1));
    }
  }

  /** The arithmetic step of `BinomFactorials`, with the factorials abstracted. */
  lemma PascalFactorials(a: int, b: int, k: int, j: int, f1: int, f2: int, f: int)
    requires a * f1 * (j * f2) == f && b * (k * f1) * f2 == f
    ensures (a + b) * (k * f1) * (j * f2) == (k + j) * f
  {
    calc {
      (a + b) * (k * f1) * (j * f2);
      a * (k * f1) * (j * f2) + b * (k * f1) * (j * f2);
      k * (a * f1 * (j * f2)) + j * (b * (k * f1) * f2);
    }
  }

  lemma {:induction false} MultinomialProductExact(a: seq<int>)
    requires NonNegative(a)
    ensures Sum(a) >= 0
    ensures MultinomialProduct(a) * ProdFact(a) == Fact(Sum(a))
  {
    SumNonNegative(a);
    if a != [] {
      var front, x := a[..|a| - 1], a[|a| - 1];
      MultinomialProductExact(front);
      var s := Sum(front);
      BinomFactorials(s + x, x);
      assert s + x - x == s;
      ProductStep(MultinomialProduct(front), ProdFact(front), Binom(s + x, x), Fact(x), Fact(s), Fact(s + x));
    }
  }

  /** The arithmetic step of `MultinomialProductExact`. */
  lemma ProductStep(q: int, p: int, b: int, fx: int, fs: int, f: int)
    requires q * p == fs && b * fx * fs == f
    ensures (q * b) * (p * fx) == f
  {
    calc {
      (q * b) * (p * fx);
      b * fx * (q * p);
    }
  }

  lemma DivideExact(x: nat, q: nat, d: nat)
    requires d >= 1 && x == q * d
    ensures x / d == q
  {
    var r, s := x / d, x % d;
    assert x == r * d + s && 0 <= s < d;
    assert (q - r) * d == s;
    MulSign(q - r, d);
  }

  /** `multinomial`: (sum of the entries)! divided by the product of the
      entries' factorials. The division is exact. */
  function Multinomial(a: seq<int>): (r: nat)
    requires NonNegative(a)
    ensures Sum(a) >= 0 && r * ProdFact(a) == Fact(Sum(a))
    ensures r == MultinomialProduct(a)
  {
    MultinomialProductExact(a);
    DivideExact(Fact(Sum(a)), MultinomialProduct(a), ProdFact(a));
    Fact(Sum(a)) / ProdFact(a)
  }

  function Zeros(n: nat): (z: seq<int>)
    ensures |z| == n && forall i :: 0 <= i < n ==> z[i] == 0
  {
    if n == 0 then [] else Zeros(n - 1) + [0]
  }

  /** The multinomial coefficient of a vector with at most one non-zero
      entry (in particular of the zero vector) is 1. */
  lemma {:induction false} MultinomialSingleNonZero(a: seq<int>, k: nat)
    requires NonNegative(a) && k < |a|
    requires forall i :: 0 <= i < |a| && i != k ==> a[i] == 0
    ensures Multinomial(a) == 1
  {
    MultinomialProductOne(a, k);
  }

  lemma {:induction false} MultinomialProductOne(a: seq<int>, k: nat)
    requires NonNegative(a)
    requires forall i :: 0 <= i < |a| && i != k ==> a[i] == 0
    ensures MultinomialProduct(a) == 1
    ensures k >= |a| ==> Sum(a) == 0
  {
    if a != [] {
      var front, x := a[..|a| - 1], a[|a| - 1];
      MultinomialProductOne(front, k);
      SumNonNegative(front);
      if k < |a| - 1 {
        BinomDiagonal(Sum(front));
      } else if k == |a| - 1 {
        BinomDiagonal(x);
      }
    }
  }

  /** `multinomial([2, 1]) == 3`. */
  lemma MultinomialTwoOne()
    ensures Multinomial([2, 1]) == 3
  {
    assert Sum([2, 1]) == 3 by {
      assert [2, 1][..1] == [2];
      assert [2][..0] == [];
    }
    assert ProdFact([2, 1]) == 2 by {
      assert [2, 1][..1] == [2];
      assert [2][..0] == [];
    }
  }
}
