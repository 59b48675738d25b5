/** The hypothetical labellings of a set of candidates (`_get_y_sim_list`)
    and the probability that the candidates receive each of them when
    their labels are drawn independently. */
module HypotheticalLabels {
  import opened Common

  // ---------------------------------------------------------------------
  // "All simulated labels equal": np.tile(np.arange(n), [k, 1]).T
  // ---------------------------------------------------------------------

  function Range(n: nat): seq<int>
  {
    seq(n, i => i)
  }

  function Tile(row: seq<int>, k: nat): seq<seq<int>>
  {
    seq(k, _ => row)
  }

  /** The transpose of a matrix with `cols` columns. */
  function Transpose(a: seq<seq<int>>, cols: nat): seq<seq<int>>
    requires forall i :: 0 <= i < |a| ==> |a[i]| == cols
  {
    seq(cols, j requires 0 <= j < cols => seq(|a|, i requires 0 <= i < |a| => a[i][j]))
  }

  /** One row per class `c`, giving the class `c` to every one of the
      `nInstances` candidates. */
  function AllEqualRows(nClasses: nat, nInstances: nat): (rows: seq<seq<int>>)
    ensures |rows| == nClasses
    ensures forall c :: 0 <= c < nClasses ==> rows[c] == Constant(c, nInstances)
  {
    Transpose(Tile(Range(nClasses), nInstances), nClasses)
  }

  function Constant(c: int, k: nat): seq<int>
  {
    seq(k, _ => c)
  }

  // ---------------------------------------------------------------------
  // The Cartesian product: list(itertools.product(range(n), ..., range(n)))
  // ---------------------------------------------------------------------

  /** Each tuple of `ps`, in order, followed by every class `0 .. n-1`. */
  function ExtendEach(ps: seq<seq<int>>, n: nat): seq<seq<int>>
  {
    if ps == [] then [] else Row(ps[0], n) + ExtendEach(ps[1..], n)
  }

  /** `itertools.product` of `k` copies of `range(n)`: the rightmost
      position varies fastest. */
  function Product(n: nat, k: nat): seq<seq<int>>
  {
    if k == 0 then [[]] else ExtendEach(Product(n, k - 1), n)
  }

  function Pow(n: nat, k: nat): nat
  {
    if k == 0 then 1 else Pow(n, k - 1) * n
  }

  /** The base-`n` digits of `i`, `k` of them, most significant first. */
  function Digits(i: nat, n: nat, k: nat): seq<int>
    requires n >= 1
    decreases k
  {
    if k == 0 then [] else Digits(i / n, n, k - 1) + [i % n]
  }

  /** A labelling of `k` candidates with classes `0 .. n-1`. */
  predicate IsLabelling(v: seq<int>, n: nat, k: nat)
  {
    |v| == k && forall j :: 0 <= j < |v| ==> 0 <= v[j] < n
  }

  /** `_get_y_sim_list`: the all-equal rows, or the full product in
      `itertools.product` order (row `i` holds the base-`n` digits of `i`). */
  function YSimList(nClasses: nat, nInstances: nat, allSimLabelsEqual: bool): (rows: seq<seq<int>>)
    ensures allSimLabelsEqual ==>
      |rows| == nClasses && forall c :: 0 <= c < nClasses ==> rows[c] == Constant(c, nInstances)
    ensures !allSimLabelsEqual ==> |rows| == Pow(nClasses, nInstances)
    ensures !allSimLabelsEqual && nClasses >= 1 ==>
      forall i :: 0 <= i < |rows| ==> rows[i] == Digits(i, nClasses, nInstances)
  {
    if allSimLabelsEqual then AllEqualRows(nClasses, nInstances)
    else
      ProductLength(nClasses, nInstances);
      ProductRows(nClasses, nInstances);
      Product(nClasses, nInstances)
  }

  lemma {:induction false} ExtendEachLength(ps: seq<seq<int>>, n: nat)
    ensures |ExtendEach(ps, n)| == |ps| * n
  {
    if ps != [] {
      ExtendEachLength(ps[1..], n);
    }
  }

  /** Entry `q * n + c` of `ExtendEach(ps, n)` is tuple `q` followed by `c`. */
  lemma {:induction false} ExtendEachIndex(ps: seq<seq<int>>, n: nat, q: nat, c: nat)
    requires q < |ps| && c < n
    ensures q * n + c < |ExtendEach(ps, n)|
    ensures ExtendEach(ps, n)[q * n + c] == ps[q] + [c]
  {
    ExtendEachLength(ps, n);
    BlockBound(q, c, n, |ps|);
    if q > 0 {
      ExtendEachIndex(ps[1..], n, q - 1, c);
      assert (q - 1) * n == q * n - n;
    }
  }

  lemma BlockBound(q: nat, c: nat, n: nat, b: nat)
    requires q < b && c < n
    ensures q * n + c < b * n
  {
    MulSign(b - q, n);
    assert (b - q) * n == b * n - q * n;
  }

  lemma {:induction false} ProductLength(n: nat, k: nat)
    ensures |Product(n, k)| == Pow(n, k)
  {
    if k > 0 {
      ProductLength(n, k - 1);
      ExtendEachLength(Product(n, k - 1), n);
    }
  }

  /** Euclidean division of `q * n + c` by `n` gives back `q` and `c`. */
  lemma DivMod(q: nat, c: nat, n: nat)
    requires c < n
    ensures (q * n + c) / n == q && (q * n + c) % n == c
  {
    var x := q * n + c;
    var d, r := x / n, x % n;
    assert x == d * n + r && 0 <= r < n;
    assert (d - q) * n == c - r;
    MulSign(d - q, n);
  }

  /** Row `i` of the product is the base-`n` expansion of `i`. */
  lemma {:induction false} ProductIndex(n: nat, k: nat, i: nat)
    requires n >= 1 && i < Pow(n, k)
    ensures i < |Product(n, k)| && Product(n, k)[i] == Digits(i, n, k)
  {
    ProductLength(n, k);
    if k > 0 {
      var q, c := i / n, i % n;
      QuotientBound(i, n, k);
      ProductIndex(n, k - 1, q);
      ProductStep(n, k, q, c);
    }
  }

  /** Row `q * n + c` of the product of `k` copies is row `q` of `k - 1`
      copies followed by `c`, which are the digits of `q * n + c`. */
  lemma ProductStep(n: nat, k: nat, q: nat, c: nat)
    requires n >= 1 && k >= 1 && c < n && q < Pow(n, k - 1)
    requires q < |Product(n, k - 1)| && Product(n, k - 1)[q] == Digits(q, n, k - 1)
    ensures q * n + c < |Product(n, k)| && Product(n, k)[q * n + c] == Digits(q * n + c, n, k)
  {
    var ps := Product(n, k - 1);
    assert Product(n, k) == ExtendEach(ps, n);
    ExtendEachIndex(ps, n, q, c);
    DivMod(q, c, n);
    assert Digits(q * n + c, n, k) == Digits(q, n, k - 1) + [c];
  }

  lemma ProductRows(n: nat, k: nat)
    ensures n >= 1 ==> forall i :: 0 <= i < |Product(n, k)| ==> Product(n, k)[i] == Digits(i, n, k)
  {
    ProductLength(n, k);
    if n >= 1 {
      forall i | 0 <= i < |Product(n, k)|
        ensures Product(n, k)[i] == Digits(i, n, k)
      {
        ProductIndex(n, k, i);
      }
    }
  }

  lemma {:induction false} DigitsRange(i: nat, n: nat, k: nat)
    requires n >= 1
    ensures IsLabelling(Digits(i, n, k), n, k)
    decreases k
  {
    if k > 0 {
      DigitsRange(i / n, n, k - 1);
    }
  }

  /** Different row numbers below `n^k` have different digits: the product
      has no repeated row. */
  lemma DigitsInjective(i: nat, j: nat, n: nat, k: nat)
    requires n >= 1 && i < Pow(n, k) && j < Pow(n, k)
    requires Digits(i, n, k) == Digits(j, n, k)
    ensures i == j
  {
    ValueOfDigits(i, n, k);
    ValueOfDigits(j, n, k);
  }

  /** Reading the digits of `i` back gives `i`. */
  lemma {:induction false} ValueOfDigits(i: nat, n: nat, k: nat)
    requires n >= 1 && i < Pow(n, k)
    ensures Value(Digits(i, n, k), n) == i
    decreases k
  {
    if k > 0 {
      QuotientBound(i, n, k);
      ValueOfDigits(i / n, n, k - 1);
      ValueOfDigitsStep(i, n, k);
    }
  }

  lemma ValueOfDigitsStep(i: nat, n: nat, k: nat)
    requires n >= 1 && k >= 1
    requires i == (i / n) * n + i % n
    requires Value(Digits(i / n, n, k - 1), n) == i / n
    ensures Value(Digits(i, n, k), n) == i
  {
    ValueStep(Digits(i / n, n, k - 1), i % n, n, i / n, i);
  }

  lemma ValueStep(d: seq<int>, c: int, n: nat, q: int, i: int)
    requires Value(d, n) == q && i == q * n + c
    ensures Value(d + [c], n) == i
  {
    assert (d + [c])[..|d|] == d;
  }

  lemma DigitsSplit(i: nat, n: nat, k: nat)
    requires n >= 1 && k >= 1
    ensures |Digits(i, n, k)| == k && Digits(i, n, k)[k - 1] == i % n
    ensures Digits(i, n, k)[..k - 1] == Digits(i / n, n, k - 1)
  {
    DigitsRange(i / n, n, k - 1);
  }

  lemma QuotientBound(i: nat, n: nat, k: nat)
    requires n >= 1 && k >= 1 && i < Pow(n, k)
    ensures i / n < Pow(n, k - 1)
    ensures i == (i / n) * n + i % n && 0 <= i % n < n
  {
    var q, p := i / n, Pow(n, k - 1);
    assert i == q * n + i % n;
    assert (q - p) * n == q * n - p * n;
    MulSign(q - p, n);
  }

  /** The number whose base-`n` digits are `v`. */
  function Value(v: seq<int>, n: nat): int
  {
    if v == [] then 0 else Value(v[..|v| - 1], n) * n + v[|v| - 1]
  }

  lemma {:induction false} ValueDigits(v: seq<int>, n: nat)
    requires n >= 1 && IsLabelling(v, n, |v|)
    ensures 0 <= Value(v, n) < Pow(n, |v|)
    ensures Digits(Value(v, n), n, |v|) == v
  {
    if v != [] {
      var front, c := v[..|v| - 1], v[|v| - 1];
      ValueDigits(front, n);
      var q := Value(front, n);
      BlockBound(q, c, n, Pow(n, |front|));
      DivMod(q, c, n);
      assert v == front + [c];
    }
  }

  /** The product lists exactly the labellings of `k` candidates with `n`
      classes. */
  lemma ProductMembers(n: nat, k: nat, v: seq<int>)
    requires n >= 1
    ensures v in Product(n, k) <==> IsLabelling(v, n, k)
  {
    ProductRows(n, k);
    ProductLength(n, k);
    if v in Product(n, k) {
      var i :| 0 <= i < |Product(n, k)| && Product(n, k)[i] == v;
      DigitsRange(i, n, k);
    }
    if IsLabelling(v, n, k) {
      ValueDigits(v, n);
      assert Product(n, k)[Value(v, n)] == v;
    }
  }

  /** No labelling occurs twice in the product. */
  lemma ProductDistinct(n: nat, k: nat, i: nat, j: nat)
    requires i < j < |Product(n, k)|
    ensures Product(n, k)[i] != Product(n, k)[j]
  {
    ProductLength(n, k);
    ZeroPow(k);
    ProductIndex(n, k, i);
    ProductIndex(n, k, j);
    if Product(n, k)[i] == Product(n, k)[j] {
      DigitsInjective(i, j, n, k);
    }
  }

  lemma {:induction false} ZeroPow(k: nat)
    ensures k >= 1 ==> Pow(0, k) == 0
  {
  }

  /** Each all-equal row is one of the labellings of the product. */
  lemma AllEqualInProduct(nClasses: nat, nInstances: nat, c: nat)
    requires c < nClasses
    ensures AllEqualRows(nClasses, nInstances)[c] in Product(nClasses, nInstances)
  {
    ProductMembers(nClasses, nInstances, Constant(c, nInstances));
  }

  // ---------------------------------------------------------------------
  // Independent candidate labels:
  // np.prod(prob_cand_y[range(len(cand_idx)), y_sim_list], axis=1)
  // ---------------------------------------------------------------------

  /** `p[i][c]`, or zero outside the matrix (never reached for the rows of
      `_get_y_sim_list`, whose classes are below the number of columns). */
  function Entry(p: seq<seq<real>>, i: int, c: int): real
  {
    if 0 <= i < |p| && 0 <= c < |p[i]| then p[i][c] else 0.0
  }

  /** The probability of the labelling `y` when candidate `i` takes class
      `c` with probability `p[i][c]`, independently of the others. */
  function LabellingProb(p: seq<seq<real>>, y: seq<int>): real
  {
    if y == [] then 1.0
    else LabellingProb(p, y[..|y| - 1]) * Entry(p, |y| - 1, y[|y| - 1])
  }

  /** `prob_y_sim`: one probability per row of `ys`. */
  function LabellingProbs(p: seq<seq<real>>, ys: seq<seq<int>>): (r: seq<real>)
    ensures |r| == |ys| && forall j :: 0 <= j < |ys| ==> r[j] == LabellingProb(p, ys[j])
  {
    seq(|ys|, j requires 0 <= j < |ys| => LabellingProb(p, ys[j]))
  }

  /** Row `c` of `p` is a probability distribution over `n` classes. */
  predicate IsDistribution(row: seq<real>, n: nat)
  {
    |row| == n && (forall c :: 0 <= c < n ==> row[c] >= 0.0) && RealSum(row) == 1.0
  }

  /** The total probability of the labellings in `ys`, peeled from the back. */
  function TotalProb(p: seq<seq<real>>, ys: seq<seq<int>>): real
  {
    if ys == [] then 0.0 else TotalProb(p, ys[..|ys| - 1]) + LabellingProb(p, ys[|ys| - 1])
  }

  lemma {:induction false} TotalProbIsSum(p: seq<seq<real>>, ys: seq<seq<int>>)
    ensures RealSum(LabellingProbs(p, ys)) == TotalProb(p, ys)
  {
    if ys != [] {
      TotalProbIsSum(p, ys[..|ys| - 1]);
      assert LabellingProbs(p, ys)[..|ys| - 1] == LabellingProbs(p, ys[..|ys| - 1]);
    }
  }

  /** With independently drawn labels, the probabilities of all the
      labellings in the product add up to one. */
  lemma ProductProbsSumToOne(p: seq<seq<real>>, n: nat, k: nat)
    requires n >= 1 && k <= |p|
    requires forall i :: 0 <= i < k ==> IsDistribution(p[i], n)
    ensures RealSum(LabellingProbs(p, Product(n, k))) == 1.0
  {
    TotalProbIsSum(p, Product(n, k));
    ProductTotalProb(p, n, k);
  }

  lemma {:induction false} ProductTotalProb(p: seq<seq<real>>, n: nat, k: nat)
    requires n >= 1 && k <= |p|
    requires forall i :: 0 <= i < k ==> IsDistribution(p[i], n)
    ensures TotalProb(p, Product(n, k)) == 1.0
  {
    if k == 0 {
      var empty: seq<int> := [];
      assert [empty][..0] == [];
    } else {
      ProductTotalProb(p, n, k - 1);
      ProductRowLengths(n, k - 1);
      ExtendEachProb(p, Product(n, k - 1), n, k - 1);
    }
  }

  lemma ProductRowLengths(n: nat, k: nat)
    requires n >= 1
    ensures forall j :: 0 <= j < |Product(n, k)| ==> |Product(n, k)[j]| == k
  {
    forall j | 0 <= j < |Product(n, k)|
      ensures |Product(n, k)[j]| == k
    {
      ProductMembers(n, k, Product(n, k)[j]);
    }
  }

  lemma {:induction false} TotalProbAppend(p: seq<seq<real>>, a: seq<seq<int>>, b: seq<seq<int>>)
    ensures TotalProb(p, a + b) == TotalProb(p, a) + TotalProb(p, b)
  {
    if b == [] {
      assert a + b == a;
    } else {
      assert (a + b)[..|a + b| - 1] == a + b[..|b| - 1];
      TotalProbAppend(p, a, b[..|b| - 1]);
    }
  }

  /** Extending every tuple of `ps` (all of length `i`) by every class
      keeps the total probability when row `i` is a distribution. */
  lemma {:induction false} ExtendEachProb(p: seq<seq<real>>, ps: seq<seq<int>>, n: nat, i: nat)
    requires i < |p| && IsDistribution(p[i], n)
    requires forall j :: 0 <= j < |ps| ==> |ps[j]| == i
    ensures TotalProb(p, ExtendEach(ps, n)) == TotalProb(p, ps)
  {
    if ps != [] {
      ExtendEachProb(p, ps[1..], n, i);
      ExtendEachSplit(p, ps, n);
      RowTotal(p, ps[0], n, i);
      FrontSplit(p, ps);
    }
  }

  lemma ExtendEachSplit(p: seq<seq<real>>, ps: seq<seq<int>>, n: nat)
    requires ps != []
    ensures TotalProb(p, ExtendEach(ps, n)) == TotalProb(p, Row(ps[0], n)) + TotalProb(p, ExtendEach(ps[1..], n))
  {
    TotalProbAppend(p, Row(ps[0], n), ExtendEach(ps[1..], n));
  }

  /** Extending one tuple by every class keeps its probability. */
  lemma RowTotal(p: seq<seq<real>>, y: seq<int>, n: nat, i: nat)
    requires i < |p| && IsDistribution(p[i], n) && |y| == i
    ensures TotalProb(p, Row(y, n)) == LabellingProb(p, y)
  {
    RowProb(p, y, n);
    assert p[i][..n] == p[i];
  }

  /** Splitting the first labelling off a list. */
  lemma FrontSplit(p: seq<seq<real>>, ps: seq<seq<int>>)
    requires ps != []
    ensures TotalProb(p, ps) == LabellingProb(p, ps[0]) + TotalProb(p, ps[1..])
  {
    assert ps == [ps[0]] + ps[1..];
    TotalProbAppend(p, [ps[0]], ps[1..]);
    assert [ps[0]][..0] == [];
  }

  /** The tuple `y` followed by each class `0 .. j-1`. */
  function Row(y: seq<int>, j: nat): seq<seq<int>>
  {
    seq(j, c => y + [c])
  }

  lemma {:induction false} RowProb(p: seq<seq<real>>, y: seq<int>, j: nat)
    requires |y| < |p| && j <= |p[|y|]|
    ensures TotalProb(p, Row(y, j)) == LabellingProb(p, y) * RealSum(p[|y|][..j])
  {
    if j > 0 {
      RowProb(p, y, j - 1);
      assert Row(y, j)[..j - 1] == Row(y, j - 1);
      LabellingProbAppend(p, y, j - 1);
      var row := p[|y|];
      assert row[..j][..j - 1] == row[..j - 1];
      Distribute(LabellingProb(p, y), RealSum(row[..j - 1]), row[j - 1]);
    }
  }

  /** Appending class `c` for candidate `|y|` multiplies by its probability. */
  lemma LabellingProbAppend(p: seq<seq<real>>, y: seq<int>, c: int)
    ensures LabellingProb(p, y + [c]) == LabellingProb(p, y) * Entry(p, |y|, c)
  {
    var z := y + [c];
    assert z != [] && z[..|z| - 1] == y && z[|z| - 1] == c && |z| - 1 == |y|;
    assert LabellingProb(p, z) == LabellingProb(p, z[..|z| - 1]) * Entry(p, |z| - 1, z[|z| - 1]);
  }

  lemma Distribute(a: real, r: real, x: real)
    ensures a * (r + x) == a * r + a * x
  {
  }
}
