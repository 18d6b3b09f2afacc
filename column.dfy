/**
 * Agreement between the two raters on one item (one column of each response
 * matrix): the inner `weight`, `agreement` and `expected_random_agreement` of
 * `pooled_cohen_kappa`.  Without a weighting, the observed agreement is the
 * fraction of matching rows and the chance agreement is the sum, over the
 * values seen in either column, of the products of the two raters' marginal
 * frequencies.  With a linear or quadratic weighting, both are sums over the
 * c-by-c contingency table of the item's declared values; the chance agreement
 * then uses the row and column sums of the joint count table.
 */
module ColumnAgreement {
  import opened Tables
  import opened Counts

  /** The weighting of the contingency table: none (identity), linear or quadratic. */
  datatype Scheme = Identity | Linear | Quadratic

  function Dist(i: nat, k: nat): nat
  {
    if i >= k then i - k else k - i
  }

  /**
   * Credit given to the answer pair at positions (i, k) of a domain of c values:
   * 1 - |i - k| / (c - 1) (linear), 1 - (|i - k| / (c - 1))^2 (quadratic), or
   * 1 on the diagonal and 0 elsewhere (identity).
   */
  function Weight(s: Scheme, i: nat, k: nat, c: nat): (w: real)
    requires s.Identity? || c >= 2
    ensures i == k ==> w == 1.0
    ensures s.Identity? && i != k ==> w == 0.0
    ensures i < c && k < c ==> 0.0 <= w <= 1.0
  {
    match s
    case Identity => if i == k then 1.0 else 0.0
    case Linear =>
      var d := (Dist(i, k) as real) / ((c - 1) as real);
      UnitRatio(Dist(i, k), c - 1);
      1.0 - d
    case Quadratic =>
      var d := (Dist(i, k) as real) / ((c - 1) as real);
      UnitRatio(Dist(i, k), c - 1);
      UnitSquare(d);
      1.0 - d * d
  }

  lemma {:induction false} UnitRatio(x: nat, y: nat)
    requires y > 0
    ensures 0.0 <= (x as real) / (y as real)
    ensures x <= y ==> (x as real) / (y as real) <= 1.0
  {
  }

  lemma {:induction false} UnitSquare(d: real)
    ensures 0.0 <= d <= 1.0 ==> 0.0 <= d * d <= 1.0
  {
    if 0.0 <= d <= 1.0 {
      assert d * d <= d * 1.0;
    }
  }

  /** The weight of (i, k) equals the weight of (k, i). */
  lemma {:induction false} WeightSymmetric(s: Scheme, i: nat, k: nat, c: nat)
    requires s.Identity? || c >= 2
    ensures Weight(s, i, k, c) == Weight(s, k, i, c)
  {
  }

  /** The c-by-c table of weights. */
  function WeightTable(s: Scheme, c: nat): (t: seq<seq<real>>)
    requires s.Identity? || c != 1
    ensures IsTable(t, c, c)
  {
    seq(c, i requires 0 <= i < c => seq(c, k requires 0 <= k < c => Weight(s, i, k, c)))
  }

  /** Every weight lies in [0, 1], the diagonal is 1, and the table is symmetric. */
  lemma {:induction false} WeightTableFacts(s: Scheme, c: nat)
    requires s.Identity? || c != 1
    ensures forall i, k :: 0 <= i < c && 0 <= k < c ==> 0.0 <= WeightTable(s, c)[i][k] <= 1.0
    ensures forall i :: 0 <= i < c ==> WeightTable(s, c)[i][i] == 1.0
    ensures Symmetric(WeightTable(s, c), c)
  {
    var w := WeightTable(s, c);
    forall i, k | 0 <= i < c && 0 <= k < c
      ensures w[i][k] == w[k][i]
    {
      WeightSymmetric(s, i, k, c);
    }
  }

  predicate Symmetric(K: seq<seq<real>>, c: nat)
    requires IsTable(K, c, c)
  {
    forall i, k :: 0 <= i < c && 0 <= k < c ==> K[i][k] == K[k][i]
  }

  /** The table whose every cell is 1. */
  function Ones(c: nat): (t: seq<seq<real>>)
    ensures IsTable(t, c, c)
  {
    seq(c, i requires 0 <= i < c => seq(c, k requires 0 <= k < c => 1.0))
  }

  // ---------------------------------------------------------------------------
  // Tables built cell by cell.

  /** Cell (i, k) counts the rows answered `vals[i]` by rater A and `vals[k]` by rater B. */
  function JointTable<V(==)>(a: seq<V>, b: seq<V>, vals: seq<V>): (t: seq<seq<real>>)
    ensures IsTable(t, |vals|, |vals|)
  {
    var c := |vals|;
    seq(c, i requires 0 <= i < c => seq(c, k requires 0 <= k < c => JointCount(a, b, vals[i], vals[k]) as real))
  }

  lemma {:induction false} JointEntry<V>(a: seq<V>, b: seq<V>, vals: seq<V>, i: nat, k: nat)
    requires i < |vals| && k < |vals|
    ensures JointTable(a, b, vals)[i][k] == JointCount(a, b, vals[i], vals[k]) as real
  {
  }

  /** The cell-by-cell product of two c-by-c tables. */
  function Hadamard(K: seq<seq<real>>, t: seq<seq<real>>, c: nat): (h: seq<seq<real>>)
    requires IsTable(K, c, c) && IsTable(t, c, c)
    ensures IsTable(h, c, c)
  {
    seq(c, i requires 0 <= i < c => seq(c, k requires 0 <= k < c => Scale(K[i][k], t[i][k])))
  }

  /** One cell of a weighted table: the weight w times the count x, over d. */
  function Share(w: real, x: real, d: nat): real
    requires d > 0
  {
    w * x / (d as real)
  }

  /** Cell (i, k) is K[i][k] times t[i][k], over d. */
  function WeightedRatio(K: seq<seq<real>>, t: seq<seq<real>>, c: nat, d: nat): (m: seq<seq<real>>)
    requires IsTable(K, c, c) && IsTable(t, c, c) && d > 0
    ensures IsTable(m, c, c)
  {
    seq(c, i requires 0 <= i < c => seq(c, k requires 0 <= k < c => Share(K[i][k], t[i][k], d)))
  }

  /** Cell (i, k) of the observed table: the mean over rows of weight(i, k) times the two indicators. */
  function ObservedTable<V(==)>(s: Scheme, a: seq<V>, b: seq<V>, vals: seq<V>): (t: seq<seq<real>>)
    requires |a| == |b| > 0
    requires s.Identity? || |vals| != 1
    ensures IsTable(t, |vals|, |vals|)
  {
    WeightedRatio(WeightTable(s, |vals|), JointTable(a, b, vals), |vals|, |a|)
  }

  /** Cell (i, k) is weight(i, k) times row sum i times column sum k of the joint counts, over n^2. */
  function ExpectedTable<V(==)>(s: Scheme, a: seq<V>, b: seq<V>, vals: seq<V>): (t: seq<seq<real>>)
    requires |a| == |b| > 0
    requires s.Identity? || |vals| != 1
    ensures IsTable(t, |vals|, |vals|)
  {
    var jt := JointTable(a, b, vals);
    WeightedRatio(WeightTable(s, |vals|), Outer(RowSums(jt), ColSums(jt, |vals|)), |vals|, Square(|a|))
  }

  /** The fraction of the rows of `col` answering `v` (`np.mean(col == v)`). */
  function Frequency<V(==)>(col: seq<V>, v: V): (f: real)
    requires |col| > 0
  {
    Count(col, v) as real / |col| as real
  }

  /** The chance that both raters pick `v` independently: the product of their frequencies of it. */
  function ChanceTerm<V(==)>(a: seq<V>, b: seq<V>, v: V): real
    requires |a| == |b| > 0
  {
    Frequency(a, v) * Frequency(b, v)
  }

  /** For each value, the product of the two raters' marginal frequencies of it. */
  function ChanceTerms<V(==)>(a: seq<V>, b: seq<V>, values: seq<V>): (t: seq<real>)
    requires |a| == |b| > 0
    ensures |t| == |values|
  {
    if |values| == 0 then []
    else ChanceTerms(a, b, values[..|values| - 1])
         + [ChanceTerm(a, b, values[|values| - 1])]
  }

  /**
   * Observed agreement a_j on one item. Without weighting it is a proportion,
   * and it is 1 exactly when the two columns are equal.
   */
  function Observed<V(==)>(s: Scheme, a: seq<V>, b: seq<V>, vals: seq<V>): (r: real)
    requires |a| == |b| > 0
    requires s.Identity? || |vals| != 1
    ensures s.Identity? ==> 0.0 <= r <= 1.0
    ensures s.Identity? ==> (r == 1.0 <==> a == b)
  {
    if s.Identity? then
      MatchesAll(a, b);
      UnitRatio(Matches(a, b), |a|);
      assert (Matches(a, b) as real) / (|a| as real) == 1.0 <==> Matches(a, b) as real == |a| as real;
      Matches(a, b) as real / |a| as real
    else TableSum(ObservedTable(s, a, b, vals))
  }

  /**
   * Expected chance agreement e_j on one item. Without weighting, the sum over
   * the values seen of the products of the two raters' marginal frequencies is
   * the number of matching cross-rater pairs over n^2, so the order in which
   * the values are listed does not matter.
   */
  function Chance<V(==)>(s: Scheme, a: seq<V>, b: seq<V>, vals: seq<V>): (r: real)
    requires |a| == |b| > 0
    requires s.Identity? || |vals| != 1
    ensures s.Identity? ==> r == (CrossMatches(a, b) as real) / (Square(|a|) as real)
  {
    if s.Identity? then
      var u := Unique(a + b);
      ChanceTermsSum(a, b, u);
      UniqueCoversFirst(a, b);
      DotCountsCross(a, b, u);
      SumSeq(ChanceTerms(a, b, u))
    else TableSum(ExpectedTable(s, a, b, vals))
  }

  /** Every answer of the first rater is among the values seen in both columns. */
  lemma {:induction false} UniqueCoversFirst<V>(a: seq<V>, b: seq<V>)
    ensures forall x :: x in a ==> x in Unique(a + b)
  {
    forall x | x in a
      ensures x in Unique(a + b)
    {
      var r :| 0 <= r < |a| && a[r] == x;
      assert (a + b)[r] == x;
    }
  }

  // ---------------------------------------------------------------------------
  // Counting through a kernel: the sum over the table of K[i][k] times the
  // joint counts is the sum over rows of K at the positions of the answers.

  /** What one row with answers (x, y) contributes: K at their positions, or 0 outside the domain. */
  function PairKernel<V(==)>(K: seq<seq<real>>, vals: seq<V>, x: V, y: V): real
    requires IsTable(K, |vals|, |vals|)
  {
    if x in vals && y in vals then K[Idx(vals, x)][Idx(vals, y)] else 0.0
  }

  /** Sum over rows of the kernel at the positions of the two answers. */
  function KernelRows<V(==)>(K: seq<seq<real>>, vals: seq<V>, a: seq<V>, b: seq<V>): real
    requires |a| == |b| && IsTable(K, |vals|, |vals|)
  {
    if |a| == 0 then 0.0
    else KernelRows(K, vals, a[..|a| - 1], b[..|b| - 1]) + PairKernel(K, vals, a[|a| - 1], b[|b| - 1])
  }

  /** The table of one row's indicator: K[i][k] where (vals[i], vals[k]) == (x, y), else 0. */
  function DeltaTable<V(==)>(K: seq<seq<real>>, vals: seq<V>, x: V, y: V): (t: seq<seq<real>>)
    requires IsTable(K, |vals|, |vals|)
    ensures IsTable(t, |vals|, |vals|)
  {
    var c := |vals|;
    seq(c, i requires 0 <= i < c => seq(c, k requires 0 <= k < c => if vals[i] == x && vals[k] == y then K[i][k] else 0.0))
  }

  lemma {:induction false} DeltaTableSum<V>(K: seq<seq<real>>, vals: seq<V>, x: V, y: V)
    requires IsTable(K, |vals|, |vals|) && Distinct(vals)
    ensures TableSum(DeltaTable(K, vals, x, y)) == PairKernel(K, vals, x, y)
  {
    var d := DeltaTable(K, vals, x, y);
    if x in vals && y in vals {
      var p, q := Idx(vals, x), Idx(vals, y);
      assert forall i, k :: 0 <= i < |vals| && 0 <= k < |vals| && (i != p || k != q) ==> d[i][k] == 0.0;
      TableSumSingle(d, |vals|, p, q);
    } else {
      TableSumZero(d);
    }
  }

  /**
   * For an item whose values are distinct, the kernel-weighted sum of the joint
   * count table equals the kernel summed row by row at the answers' positions.
   */
  lemma {:induction false} KernelCounting<V>(K: seq<seq<real>>, vals: seq<V>, a: seq<V>, b: seq<V>)
    requires |a| == |b| && IsTable(K, |vals|, |vals|) && Distinct(vals)
    ensures TableSum(Hadamard(K, JointTable(a, b, vals), |vals|)) == KernelRows(K, vals, a, b)
  {
    var c := |vals|;
    if |a| == 0 {
      var h := Hadamard(K, JointTable(a, b, vals), c);
      forall i, k | 0 <= i < c && 0 <= k < c
        ensures h[i][k] == 0.0
      {
        HadamardEntry(K, JointTable(a, b, vals), c, i, k);
        JointEntry(a, b, vals, i, k);
      }
      TableSumZero(h);
    } else {
      var n := |a| - 1;
      KernelCounting(K, vals, a[..n], b[..n]);
      var t, t' := Hadamard(K, JointTable(a, b, vals), c), Hadamard(K, JointTable(a[..n], b[..n], vals), c);
      var d := DeltaTable(K, vals, a[n], b[n]);
      forall i, k | 0 <= i < c && 0 <= k < c
        ensures t[i][k] == t'[i][k] + d[i][k]
      {
        KernelStep(K, vals, a, b, i, k);
      }
      TableSumAdd(t', d, t, c);
      DeltaTableSum(K, vals, a[n], b[n]);
    }
  }

  lemma {:induction false} HadamardEntry(K: seq<seq<real>>, t: seq<seq<real>>, c: nat, i: nat, k: nat)
    requires IsTable(K, c, c) && IsTable(t, c, c) && i < c && k < c
    ensures Hadamard(K, t, c)[i][k] == Scale(K[i][k], t[i][k])
  {
  }

  /** Appending one row adds that row's indicator table to the kernel-weighted joint table. */
  lemma {:induction false} KernelStep<V>(K: seq<seq<real>>, vals: seq<V>, a: seq<V>, b: seq<V>, i: nat, k: nat)
    requires |a| == |b| > 0 && IsTable(K, |vals|, |vals|) && i < |vals| && k < |vals|
    ensures Hadamard(K, JointTable(a, b, vals), |vals|)[i][k]
         == Hadamard(K, JointTable(a[..|a| - 1], b[..|b| - 1], vals), |vals|)[i][k]
            + DeltaTable(K, vals, a[|a| - 1], b[|b| - 1])[i][k]
  {
    var n, c := |a| - 1, |vals|;
    var jt, jt' := JointTable(a, b, vals), JointTable(a[..n], b[..n], vals);
    HadamardEntry(K, jt, c, i, k);
    HadamardEntry(K, jt', c, i, k);
    JointEntry(a, b, vals, i, k);
    JointEntry(a[..n], b[..n], vals, i, k);
    var d := DeltaTable(K, vals, a[n], b[n]);
    var hit := vals[i] == a[n] && vals[k] == b[n];
    JointCountLast(a, b, vals[i], vals[k]);
    assert d[i][k] == if hit then K[i][k] else 0.0;
    MulStepCell(K[i][k], jt[i][k], jt'[i][k], Hadamard(K, jt, c)[i][k], Hadamard(K, jt', c)[i][k], d[i][k], hit);
  }

  lemma {:induction false} MulStepCell(x: real, m: real, m': real, h: real, h': real, e: real, hit: bool)
    requires h == Scale(x, m) && h' == Scale(x, m')
    requires hit ==> m == m' + 1.0 && e == x
    requires !hit ==> m == m' && e == 0.0
    ensures h == h' + e
  {
  }

  /** With kernel entries in [0, 1], the row-wise sum lies in [0, n]. */
  lemma {:induction false} KernelRowsBounds<V>(K: seq<seq<real>>, vals: seq<V>, a: seq<V>, b: seq<V>)
    requires |a| == |b| && IsTable(K, |vals|, |vals|)
    requires forall i, k :: 0 <= i < |vals| && 0 <= k < |vals| ==> 0.0 <= K[i][k] <= 1.0
    ensures 0.0 <= KernelRows(K, vals, a, b) <= |a| as real
  {
    if |a| > 0 {
      KernelRowsBounds(K, vals, a[..|a| - 1], b[..|b| - 1]);
    }
  }

  /** A kernel with 1 on its diagonal gives n when both raters answer alike within the domain. */
  lemma {:induction false} KernelRowsDiagonal<V>(K: seq<seq<real>>, vals: seq<V>, a: seq<V>)
    requires IsTable(K, |vals|, |vals|)
    requires forall i :: 0 <= i < |vals| ==> K[i][i] == 1.0
    requires forall r :: 0 <= r < |a| ==> a[r] in vals
    ensures KernelRows(K, vals, a, a) == |a| as real
  {
    if |a| > 0 {
      KernelRowsDiagonal(K, vals, a[..|a| - 1]);
    }
  }

  /** The all-ones kernel gives n when every answer lies in the domain. */
  lemma {:induction false} KernelRowsOnes<V>(vals: seq<V>, a: seq<V>, b: seq<V>)
    requires |a| == |b|
    requires forall r :: 0 <= r < |a| ==> a[r] in vals && b[r] in vals
    ensures KernelRows(Ones(|vals|), vals, a, b) == |a| as real
  {
    if |a| > 0 {
      KernelRowsOnes(vals, a[..|a| - 1], b[..|b| - 1]);
    }
  }

  // ---------------------------------------------------------------------------
  // Observed agreement.

  /** The mean table sums to the Hadamard product's sum over n. */
  lemma {:induction false} RatioAsScaled(K: seq<seq<real>>, t: seq<seq<real>>, c: nat, n: nat)
    requires IsTable(K, c, c) && IsTable(t, c, c) && n > 0
    ensures TableSum(WeightedRatio(K, t, c, n)) == TableSum(Hadamard(K, t, c)) / (n as real)
  {
    var m, h := WeightedRatio(K, t, c, n), Hadamard(K, t, c);
    forall i, k | 0 <= i < c && 0 <= k < c
      ensures m[i][k] == Scale(1.0 / (n as real), h[i][k])
    {
      RatioCell(K, t, c, n, i, k);
    }
    TableSumScale(h, m, c, 1.0 / (n as real));
    ScaleBack(TableSum(m), TableSum(h), n);
  }

  lemma {:induction false} RatioCell(K: seq<seq<real>>, t: seq<seq<real>>, c: nat, n: nat, i: nat, k: nat)
    requires IsTable(K, c, c) && IsTable(t, c, c) && n > 0 && i < c && k < c
    ensures WeightedRatio(K, t, c, n)[i][k] == Scale(1.0 / (n as real), Hadamard(K, t, c)[i][k])
  {
    RatioEntry(K, t, c, n, i, k);
    HadamardEntry(K, t, c, i, k);
    ProductAsScale(K[i][k], t[i][k], n);
  }

  lemma {:induction false} RatioEntry(K: seq<seq<real>>, t: seq<seq<real>>, c: nat, n: nat, i: nat, k: nat)
    requires IsTable(K, c, c) && IsTable(t, c, c) && n > 0 && i < c && k < c
    ensures WeightedRatio(K, t, c, n)[i][k] == Share(K[i][k], t[i][k], n)
  {
  }

  lemma {:induction false} ProductAsScale(w: real, j: real, n: nat)
    requires n > 0
    ensures Share(w, j, n) == Scale(1.0 / (n as real), Scale(w, j))
  {
  }

  /**
   * Weighted observed agreement: the mean over rows of weight(idx(a[r]), idx(b[r])),
   * a row contributing 0 when one of its answers is outside the item's values.
   */
  lemma {:induction false} WeightedObservedRows<V>(s: Scheme, a: seq<V>, b: seq<V>, vals: seq<V>)
    requires |a| == |b| > 0 && !s.Identity? && |vals| != 1 && Distinct(vals)
    ensures Observed(s, a, b, vals) == KernelRows(WeightTable(s, |vals|), vals, a, b) / (|a| as real)
  {
    var w, jt := WeightTable(s, |vals|), JointTable(a, b, vals);
    RatioAsScaled(w, jt, |vals|, |a|);
    KernelCounting(w, vals, a, b);
  }

  lemma {:induction false} ScaleBack(x: real, t: real, n: nat)
    requires n > 0 && x == Scale(1.0 / (n as real), t)
    ensures x == t / (n as real)
  {
  }

  lemma {:induction false} RatioFacts(x: real, r: real, n: nat)
    requires n > 0 && x == r / (n as real) && 0.0 <= r <= n as real
    ensures 0.0 <= x <= 1.0
    ensures r == n as real ==> x == 1.0
  {
  }

  /** The observed agreement is a proportion (for a weighted item whose values are distinct). */
  lemma {:induction false} ObservedBounds<V>(s: Scheme, a: seq<V>, b: seq<V>, vals: seq<V>)
    requires |a| == |b| > 0 && (s.Identity? || (|vals| != 1 && Distinct(vals)))
    ensures 0.0 <= Observed(s, a, b, vals) <= 1.0
  {
    if s.Identity? {
      UnitRatio(Matches(a, b), |a|);
    } else {
      var w := WeightTable(s, |vals|);
      WeightedObservedRows(s, a, b, vals);
      WeightTableFacts(s, |vals|);
      KernelRowsBounds(w, vals, a, b);
      RatioFacts(Observed(s, a, b, vals), KernelRows(w, vals, a, b), |a|);
    }
  }

  /** A rater agrees perfectly with itself when every answer lies in the item's values. */
  lemma {:induction false} ObservedSelf<V>(s: Scheme, a: seq<V>, vals: seq<V>)
    requires |a| > 0 && (s.Identity? || (|vals| != 1 && Distinct(vals)))
    requires !s.Identity? ==> forall r :: 0 <= r < |a| ==> a[r] in vals
    ensures Observed(s, a, a, vals) == 1.0
  {
    if s.Identity? {
      MatchesAll(a, a);
    } else {
      var w := WeightTable(s, |vals|);
      WeightedObservedRows(s, a, a, vals);
      WeightTableFacts(s, |vals|);
      KernelRowsDiagonal(w, vals, a);
      RatioFacts(Observed(s, a, a, vals), KernelRows(w, vals, a, a), |a|);
    }
  }

  /** Exchanging the raters transposes the joint table. */
  lemma {:induction false} JointTableSwap<V>(a: seq<V>, b: seq<V>, vals: seq<V>)
    requires |a| == |b|
    ensures JointTable(b, a, vals) == Transpose(JointTable(a, b, vals), |vals|)
  {
    var c := |vals|;
    var t, tt := JointTable(b, a, vals), Transpose(JointTable(a, b, vals), c);
    forall i | 0 <= i < c
      ensures t[i] == tt[i]
    {
      forall k | 0 <= k < c
        ensures t[i][k] == tt[i][k]
      {
        JointCountSwap(a, b, vals[k], vals[i]);
      }
    }
  }

  /** With a symmetric kernel, the mean table of a transposed table is the transposed mean table. */
  lemma {:induction false} WeightedRatioTranspose(K: seq<seq<real>>, t: seq<seq<real>>, c: nat, n: nat)
    requires IsTable(K, c, c) && IsTable(t, c, c) && n > 0 && Symmetric(K, c)
    ensures WeightedRatio(K, Transpose(t, c), c, n) == Transpose(WeightedRatio(K, t, c, n), c)
  {
    var tt := Transpose(t, c);
    var m, m' := WeightedRatio(K, t, c, n), WeightedRatio(K, tt, c, n);
    var mt := Transpose(m, c);
    forall i | 0 <= i < c
      ensures m'[i] == mt[i]
    {
      forall k | 0 <= k < c
        ensures m'[i][k] == mt[i][k]
      {
        RatioEntry(K, tt, c, n, i, k);
        RatioEntry(K, t, c, n, k, i);
        assert K[i][k] == K[k][i] && tt[i][k] == t[k][i];
      }
    }
  }

  /** The observed agreement does not depend on which rater is called A. */
  lemma {:induction false} ObservedSwap<V>(s: Scheme, a: seq<V>, b: seq<V>, vals: seq<V>)
    requires |a| == |b| > 0 && (s.Identity? || |vals| != 1)
    ensures Observed(s, a, b, vals) == Observed(s, b, a, vals)
  {
    if s.Identity? {
      MatchesSwap(a, b);
    } else {
      var c, w, jt := |vals|, WeightTable(s, |vals|), JointTable(a, b, vals);
      JointTableSwap(a, b, vals);
      WeightTableFacts(s, c);
      WeightedRatioTranspose(w, jt, c, |a|);
      TableSumTranspose(WeightedRatio(w, jt, c, |a|), c);
    }
  }

  // ---------------------------------------------------------------------------
  // Chance agreement.

  /** The product of two marginal frequencies is the product of the counts over n^2. */
  lemma {:induction false} FrequencyProduct<V>(a: seq<V>, b: seq<V>, v: V)
    requires |a| == |b| > 0
    ensures ChanceTerm(a, b, v) == (CountProduct(a, b, v) as real) / (Square(|a|) as real)
  {
    ProductOfFrequencies(Count(a, v), Count(b, v), |a|);
  }

  lemma {:induction false} ProductOfFrequencies(x: nat, y: nat, n: nat)
    requires n > 0
    ensures (x as real / n as real) * (y as real / n as real) == ((x * y) as real) / (Square(n) as real)
  {
  }

  /** The chance terms sum to the dot product of the two raters' value counts, over n^2. */
  lemma {:induction false} ChanceTermsSum<V>(a: seq<V>, b: seq<V>, values: seq<V>)
    requires |a| == |b| > 0
    ensures SumSeq(ChanceTerms(a, b, values)) == (DotCounts(a, b, values) as real) / (Square(|a|) as real)
  {
    if |values| > 0 {
      var m := |values| - 1;
      ChanceTermsSum(a, b, values[..m]);
      ChanceTermsStep(a, b, values);
    }
  }

  lemma {:induction false} ChanceTermsStep<V>(a: seq<V>, b: seq<V>, values: seq<V>)
    requires |a| == |b| > 0 && |values| > 0
    requires SumSeq(ChanceTerms(a, b, values[..|values| - 1]))
          == (DotCounts(a, b, values[..|values| - 1]) as real) / (Square(|a|) as real)
    ensures SumSeq(ChanceTerms(a, b, values)) == (DotCounts(a, b, values) as real) / (Square(|a|) as real)
  {
    var m, v := |values| - 1, values[|values| - 1];
    var t := ChanceTerms(a, b, values);
    ChanceTermsLast(a, b, values);
    FrequencyProduct(a, b, v);
    RatioStep(SumSeq(t), SumSeq(ChanceTerms(a, b, values[..m])), t[m], DotCounts(a, b, values), DotCounts(a, b, values[..m]),
              CountProduct(a, b, v), Square(|a|));
  }

  lemma {:induction false} RatioStep(total: real, front: real, last: real, d: nat, d': nat, p: nat, nn: nat)
    requires nn > 0 && total == front + last && d == d' + p
    requires front == (d' as real) / (nn as real) && last == (p as real) / (nn as real)
    ensures total == (d as real) / (nn as real)
  {
  }

  lemma {:induction false} ChanceTermsLast<V>(a: seq<V>, b: seq<V>, values: seq<V>)
    requires |a| == |b| > 0 && |values| > 0
    ensures SumSeq(ChanceTerms(a, b, values))
         == SumSeq(ChanceTerms(a, b, values[..|values| - 1])) + ChanceTerms(a, b, values)[|values| - 1]
    ensures ChanceTerms(a, b, values)[|values| - 1]
         == ChanceTerm(a, b, values[|values| - 1])
  {
    var t := ChanceTerms(a, b, values);
    assert t[..|values| - 1] == ChanceTerms(a, b, values[..|values| - 1]);
  }

  /** The joint table totals the rows answered within the domain, and n when all are. */
  lemma {:induction false} JointTableTotal<V>(a: seq<V>, b: seq<V>, vals: seq<V>)
    requires |a| == |b| && Distinct(vals)
    ensures 0.0 <= TableSum(JointTable(a, b, vals)) <= |a| as real
    ensures (forall r :: 0 <= r < |a| ==> a[r] in vals && b[r] in vals) ==>
              TableSum(JointTable(a, b, vals)) == |a| as real
  {
    var c := |vals|;
    var one, jt := Ones(c), JointTable(a, b, vals);
    var h := Hadamard(one, jt, c);
    forall i | 0 <= i < c
      ensures h[i] == jt[i]
    {
      forall k | 0 <= k < c
        ensures h[i][k] == jt[i][k]
      {
        HadamardEntry(one, jt, c, i, k);
      }
    }
    assert h == jt;
    KernelCounting(one, vals, a, b);
    KernelRowsBounds(one, vals, a, b);
    if forall r :: 0 <= r < |a| ==> a[r] in vals && b[r] in vals {
      KernelRowsOnes(vals, a, b);
    }
  }

  /**
   * With every answer inside an item of distinct values, the row sums and the
   * column sums of the joint count table each total n.
   */
  lemma {:induction false} JointTableMargins<V>(a: seq<V>, b: seq<V>, vals: seq<V>)
    requires |a| == |b| && Distinct(vals)
    requires forall r :: 0 <= r < |a| ==> a[r] in vals && b[r] in vals
    ensures SumSeq(RowSums(JointTable(a, b, vals))) == |a| as real
    ensures SumSeq(ColSums(JointTable(a, b, vals), |vals|)) == |a| as real
  {
    var jt := JointTable(a, b, vals);
    JointTableTotal(a, b, vals);
    SumRowSums(jt);
    SumRowSums(Transpose(jt, |vals|));
    TableSumTranspose(jt, |vals|);
  }

  /** A weighting with weights in [0, 1] keeps a nonnegative table's total in [0, its total]. */
  lemma {:induction false} HadamardBound(K: seq<seq<real>>, t: seq<seq<real>>, c: nat)
    requires IsTable(K, c, c) && IsTable(t, c, c)
    requires forall i, k :: 0 <= i < c && 0 <= k < c ==> 0.0 <= K[i][k] <= 1.0 && 0.0 <= t[i][k]
    ensures 0.0 <= TableSum(Hadamard(K, t, c)) <= TableSum(t)
  {
    var h := Hadamard(K, t, c);
    forall i, k | 0 <= i < c && 0 <= k < c
      ensures 0.0 <= h[i][k] <= t[i][k]
    {
      HadamardEntry(K, t, c, i, k);
      UnitWeight(K[i][k], t[i][k], h[i][k]);
    }
    TableSumNonneg(h);
    TableSumMono(h, t, c);
  }

  lemma {:induction false} UnitWeight(w: real, x: real, p: real)
    requires 0.0 <= w <= 1.0 && 0.0 <= x && p == Scale(w, x)
    ensures 0.0 <= p <= x
  {
  }

  lemma {:induction false} SquareRatioBound(r: real, g: real, x: real, y: real, n: nat)
    requires n > 0 && 0.0 <= x <= n as real && 0.0 <= y <= n as real && 0.0 <= g <= Scale(x, y)
    requires r == g / (Square(n) as real)
    ensures 0.0 <= r <= 1.0
  {
    var m, d := n as real, Square(n) as real;
    MulAtMost(x, m, y);
    MulAtMost(y, m, m);
    assert d == m * m;
    RatioAtMostOne(r, g, d);
  }

  lemma {:induction false} MulAtMost(x: real, m: real, y: real)
    requires x <= m && 0.0 <= y
    ensures Scale(x, y) <= m * y && x * y <= m * y && y * x <= y * m
  {
  }

  lemma {:induction false} RatioAtMostOne(r: real, g: real, d: real)
    requires 0.0 < d && 0.0 <= g <= d && r == g / d
    ensures 0.0 <= r <= 1.0
  {
  }

  /** The row and column sums of the joint count table are nonnegative and both total the table. */
  lemma {:induction false} MarginsFacts<V>(a: seq<V>, b: seq<V>, vals: seq<V>)
    ensures forall i :: 0 <= i < |vals| ==>
              0.0 <= RowSums(JointTable(a, b, vals))[i] && 0.0 <= ColSums(JointTable(a, b, vals), |vals|)[i]
    ensures SumSeq(RowSums(JointTable(a, b, vals))) == TableSum(JointTable(a, b, vals))
    ensures SumSeq(ColSums(JointTable(a, b, vals), |vals|)) == TableSum(JointTable(a, b, vals))
  {
    var c, jt := |vals|, JointTable(a, b, vals);
    forall i | 0 <= i < c
      ensures 0.0 <= RowSums(jt)[i] && 0.0 <= ColSums(jt, c)[i]
    {
      SumSeqNonneg(jt[i]);
      SumSeqNonneg(Transpose(jt, c)[i]);
    }
    SumRowSums(jt);
    SumRowSums(Transpose(jt, c));
    TableSumTranspose(jt, c);
  }

  /** The weighted chance agreement is a proportion when the item's values are distinct. */
  lemma {:induction false} WeightedChanceBounds<V>(s: Scheme, a: seq<V>, b: seq<V>, vals: seq<V>)
    requires |a| == |b| > 0 && !s.Identity? && |vals| != 1 && Distinct(vals)
    ensures 0.0 <= TableSum(ExpectedTable(s, a, b, vals)) <= 1.0
  {
    var c, jt, w := |vals|, JointTable(a, b, vals), WeightTable(s, |vals|);
    var rs, cs := RowSums(jt), ColSums(jt, c);
    JointTableTotal(a, b, vals);
    MarginsFacts(a, b, vals);
    WeightTableFacts(s, c);
    ExpectedProportion(w, rs, cs, c, |a|);
  }

  lemma {:induction false} OuterWeighted(K: seq<seq<real>>, rs: seq<real>, cs: seq<real>, c: nat)
    requires IsTable(K, c, c) && |rs| == c && |cs| == c
    requires forall i, k :: 0 <= i < c && 0 <= k < c ==> 0.0 <= K[i][k] <= 1.0
    requires forall i :: 0 <= i < c ==> 0.0 <= rs[i] && 0.0 <= cs[i]
    ensures 0.0 <= TableSum(Hadamard(K, Outer(rs, cs), c)) <= Scale(SumSeq(rs), SumSeq(cs))
  {
    var o := Outer(rs, cs);
    OuterNonneg(rs, cs);
    HadamardBound(K, o, c);
    TableSumOuter(o, rs, cs);
  }

  /**
   * Weights in [0, 1] over the outer product of two nonnegative margins, each
   * totalling at most n, give a table whose total over n^2 lies in [0, 1].
   */
  lemma {:induction false} ExpectedProportion(K: seq<seq<real>>, rs: seq<real>, cs: seq<real>, c: nat, n: nat)
    requires IsTable(K, c, c) && |rs| == c && |cs| == c && n > 0
    requires forall i, k :: 0 <= i < c && 0 <= k < c ==> 0.0 <= K[i][k] <= 1.0
    requires forall i :: 0 <= i < c ==> 0.0 <= rs[i] && 0.0 <= cs[i]
    requires SumSeq(rs) <= n as real && SumSeq(cs) <= n as real
    ensures 0.0 <= TableSum(WeightedRatio(K, Outer(rs, cs), c, Square(n))) <= 1.0
  {
    var o := Outer(rs, cs);
    OuterWeighted(K, rs, cs, c);
    RatioAsScaled(K, o, c, Square(n));
    SumSeqNonneg(rs);
    SumSeqNonneg(cs);
    SquareRatioBound(TableSum(WeightedRatio(K, o, c, Square(n))), TableSum(Hadamard(K, o, c)), SumSeq(rs), SumSeq(cs), n);
  }

  /** The chance agreement is a proportion (for a weighted item whose values are distinct). */
  lemma {:induction false} ChanceBounds<V>(s: Scheme, a: seq<V>, b: seq<V>, vals: seq<V>)
    requires |a| == |b| > 0 && (s.Identity? || (|vals| != 1 && Distinct(vals)))
    ensures 0.0 <= Chance(s, a, b, vals) <= 1.0
  {
    if s.Identity? {
      UnitRatio(CrossMatches(a, b), |a| * |b|);
    } else {
      WeightedChanceBounds(s, a, b, vals);
    }
  }

  /** The chance agreement does not depend on which rater is called A. */
  lemma {:induction false} ChanceSwap<V>(s: Scheme, a: seq<V>, b: seq<V>, vals: seq<V>)
    requires |a| == |b| > 0 && (s.Identity? || |vals| != 1)
    ensures Chance(s, a, b, vals) == Chance(s, b, a, vals)
  {
    if s.Identity? {
      CrossMatchesSwap(a, b);
    } else {
      var c, jt, w := |vals|, JointTable(a, b, vals), WeightTable(s, |vals|);
      var rs, cs := RowSums(jt), ColSums(jt, c);
      JointTableSwap(a, b, vals);
      TransposeTwice(jt, c);
      assert RowSums(JointTable(b, a, vals)) == cs;
      assert ColSums(JointTable(b, a, vals), c) == rs;
      WeightTableFacts(s, c);
      OuterTranspose(rs, cs);
      WeightedRatioTranspose(w, Outer(rs, cs), c, Square(|a|));
      TableSumTranspose(WeightedRatio(w, Outer(rs, cs), c, Square(|a|)), c);
    }
  }
}
