/**
 * The inner `agreement` and `expected_random_agreement` of `pooled_cohen_kappa`
 * as the loops they are: the weighted versions fill c-by-c buffers cell by
 * cell and sum them, the unweighted chance agreement appends one term per
 * value seen in either column.  Each method is proved to compute the
 * corresponding function of ColumnAgreement.
 */
module ColumnLoops {
  import opened Tables
  import opened Counts
  import opened ColumnAgreement

  /** The contents of a two-dimensional buffer, row by row. */
  function Cells(m: array2<real>): (t: seq<seq<real>>)
    reads m
    ensures IsTable(t, m.Length0, m.Length1)
  {
    seq(m.Length0, i requires 0 <= i < m.Length0 reads m =>
      seq(m.Length1, k requires 0 <= k < m.Length1 reads m => m[i, k]))
  }

  /** A buffer that agrees with a table cell by cell holds that table. */
  lemma {:induction false} CellsOf(m: array2<real>, t: seq<seq<real>>)
    requires IsTable(t, m.Length0, m.Length1)
    requires forall i, k :: 0 <= i < m.Length0 && 0 <= k < m.Length1 ==> m[i, k] == t[i][k]
    ensures Cells(m) == t
  {
    var u := Cells(m);
    forall i | 0 <= i < m.Length0
      ensures u[i] == t[i]
    {
    }
  }

  lemma {:induction false} WeightEntry(s: Scheme, c: nat, i: nat, k: nat)
    requires (s.Identity? || c != 1) && i < c && k < c
    ensures WeightTable(s, c)[i][k] == Weight(s, i, k, c)
  {
  }

  /** Cell (i, k) of the observed table, in the terms the loop computes it. */
  lemma {:induction false} ObservedCell<V>(s: Scheme, a: seq<V>, b: seq<V>, vals: seq<V>, i: nat, k: nat)
    requires |a| == |b| > 0 && !s.Identity? && |vals| != 1 && i < |vals| && k < |vals|
    ensures ObservedTable(s, a, b, vals)[i][k]
         == Share(Weight(s, i, k, |vals|), JointCount(a, b, vals[i], vals[k]) as real, |a|)
  {
    var c, w, jt := |vals|, WeightTable(s, |vals|), JointTable(a, b, vals);
    RatioEntry(w, jt, c, |a|, i, k);
    JointEntry(a, b, vals, i, k);
    WeightEntry(s, c, i, k);
  }

  /** Cell (i, k) of a weighting of the outer product of two margins. */
  lemma {:induction false} OuterRatioEntry(K: seq<seq<real>>, rs: seq<real>, cs: seq<real>, c: nat, d: nat, i: nat, k: nat)
    requires IsTable(K, c, c) && |rs| == c && |cs| == c && d > 0 && i < c && k < c
    ensures WeightedRatio(K, Outer(rs, cs), c, d)[i][k] == Share(K[i][k], Scale(rs[i], cs[k]), d)
  {
    RatioEntry(K, Outer(rs, cs), c, d, i, k);
  }

  lemma {:induction false} ExpectedAsRatio<V>(s: Scheme, a: seq<V>, b: seq<V>, vals: seq<V>, rs: seq<real>, cs: seq<real>)
    requires |a| == |b| > 0 && !s.Identity? && |vals| != 1
    requires rs == RowSums(JointTable(a, b, vals)) && cs == ColSums(JointTable(a, b, vals), |vals|)
    ensures ExpectedTable(s, a, b, vals) == WeightedRatio(WeightTable(s, |vals|), Outer(rs, cs), |vals|, Square(|a|))
  {
  }

  lemma {:induction false} ChanceTermOf<V>(a: seq<V>, b: seq<V>, v: V, pa: real, pb: real)
    requires |a| == |b| > 0 && pa == Frequency(a, v) && pb == Frequency(b, v)
    ensures pa * pb == ChanceTerm(a, b, v)
  {
  }

  /**
   * `agreement(colum_a, colum_b, values)`: the fraction of matching rows when
   * unweighted; otherwise the sum of the c-by-c table whose cell (i, k) is the
   * mean over rows of weight(i, k) times the indicators of A answering values[i]
   * and B answering values[k].
   */
  method Agreement<V(==)>(s: Scheme, a: seq<V>, b: seq<V>, vals: seq<V>) returns (r: real)
    requires |a| == |b| > 0
    requires s.Identity? || |vals| != 1
    ensures r == Observed(s, a, b, vals)
  {
    if s.Identity? {
      r := Matches(a, b) as real / |a| as real;
    } else {
      var c := |vals|;
      ghost var ot := ObservedTable(s, a, b, vals);
      var table := new real[c, c];
      var i := 0;
      while i < c
        invariant 0 <= i <= c
        invariant forall p, q :: 0 <= p < i && 0 <= q < c ==> table[p, q] == ot[p][q]
      {
        var j := 0;
        while j < c
          invariant 0 <= j <= c
          invariant forall p, q :: 0 <= p < i && 0 <= q < c ==> table[p, q] == ot[p][q]
          invariant forall q :: 0 <= q < j ==> table[i, q] == ot[i][q]
        {
          ObservedCell(s, a, b, vals, i, j);
          table[i, j] := Share(Weight(s, i, j, c), JointCount(a, b, vals[i], vals[j]) as real, |a|);
          j := j + 1;
        }
        i := i + 1;
      }
      CellsOf(table, ot);
      r := TableSum(Cells(table));
    }
  }

  /**
   * `expected_random_agreement(colum_a, colum_b, values)`: the unweighted or
   * the weighted chance agreement, by the weighting in force.
   */
  method ExpectedRandomAgreement<V(==)>(s: Scheme, a: seq<V>, b: seq<V>, vals: seq<V>) returns (r: real)
    requires |a| == |b| > 0
    requires s.Identity? || |vals| != 1
    ensures r == Chance(s, a, b, vals)
  {
    if s.Identity? {
      r := UnweightedChance(a, b);
    } else {
      r := WeightedChance(s, a, b, vals);
    }
  }

  /**
   * One term per value of `np.unique` over both columns, the product of the
   * two raters' frequencies of it; the terms summed.
   */
  method UnweightedChance<V(==)>(a: seq<V>, b: seq<V>) returns (r: real)
    requires |a| == |b| > 0
    ensures r == Chance(Identity, a, b, [])
  {
    var u := Unique(a + b);
    var terms: seq<real> := [];
    var t := 0;
    while t < |u|
      invariant 0 <= t <= |u|
      invariant terms == ChanceTerms(a, b, u[..t])
    {
      var v := u[t];
      var pa := Frequency(a, v);
      var pb := Frequency(b, v);
      ChanceTermOf(a, b, v, pa, pb);
      assert u[..t + 1][..t] == u[..t];
      terms := terms + [pa * pb];
      t := t + 1;
    }
    assert u[..|u|] == u;
    r := SumSeq(terms);
  }

  /** The contingency table of joint counts: cell (i, j) counts the rows answered (vals[i], vals[j]). */
  method JointCounts<V(==)>(a: seq<V>, b: seq<V>, vals: seq<V>) returns (counts: array2<real>)
    ensures fresh(counts)
    ensures counts.Length0 == |vals| && counts.Length1 == |vals|
    ensures Cells(counts) == JointTable(a, b, vals)
  {
    var c := |vals|;
    ghost var jt := JointTable(a, b, vals);
    counts := new real[c, c];
    var i := 0;
    while i < c
      invariant 0 <= i <= c
      invariant forall p, q :: 0 <= p < i && 0 <= q < c ==> counts[p, q] == jt[p][q]
    {
      var j := 0;
      while j < c
        invariant 0 <= j <= c
        invariant forall p, q :: 0 <= p < i && 0 <= q < c ==> counts[p, q] == jt[p][q]
        invariant forall q :: 0 <= q < j ==> counts[i, q] == jt[i][q]
      {
        JointEntry(a, b, vals, i, j);
        counts[i, j] := JointCount(a, b, vals[i], vals[j]) as real;
        j := j + 1;
      }
      i := i + 1;
    }
    CellsOf(counts, jt);
  }

  /**
   * The joint count table, its row and column sums, then the table whose cell
   * (i, j) is weight(i, j) times row sum i times column sum j over n^2; summed.
   */
  method WeightedChance<V(==)>(s: Scheme, a: seq<V>, b: seq<V>, vals: seq<V>) returns (r: real)
    requires |a| == |b| > 0 && !s.Identity? && |vals| != 1
    ensures r == Chance(s, a, b, vals)
  {
    var c := |vals|;
    var counts := JointCounts(a, b, vals);
    var rs, cs := RowSums(Cells(counts)), ColSums(Cells(counts), c);
    var expected := ExpectedCounts(s, c, |a|, rs, cs);
    ExpectedAsRatio(s, a, b, vals, rs, cs);
    r := TableSum(Cells(expected));
  }

  /**
   * The expected contingency table under independence: cell (i, j) is
   * weight(i, j) times row margin i times column margin j, over n^2.
   */
  method ExpectedCounts(s: Scheme, c: nat, n: nat, rs: seq<real>, cs: seq<real>) returns (expected: array2<real>)
    requires !s.Identity? && c != 1 && n > 0 && |rs| == c && |cs| == c
    ensures fresh(expected)
    ensures Cells(expected) == WeightedRatio(WeightTable(s, c), Outer(rs, cs), c, Square(n))
  {
    ghost var w := WeightTable(s, c);
    ghost var et := WeightedRatio(w, Outer(rs, cs), c, Square(n));
    expected := new real[c, c];
    var i := 0;
    while i < c
      invariant 0 <= i <= c
      invariant forall p, q :: 0 <= p < i && 0 <= q < c ==> expected[p, q] == et[p][q]
    {
      var j := 0;
      while j < c
        invariant 0 <= j <= c
        invariant forall p, q :: 0 <= p < i && 0 <= q < c ==> expected[p, q] == et[p][q]
        invariant forall q :: 0 <= q < j ==> expected[i, q] == et[i][q]
      {
        OuterRatioEntry(w, rs, cs, c, Square(n), i, j);
        WeightEntry(s, c, i, j);
        expected[i, j] := Share(Weight(s, i, j, c), Scale(rs[i], cs[j]), Square(n));
        j := j + 1;
      }
      i := i + 1;
    }
    CellsOf(expected, et);
  }
}
