/**
 * Counting over the two raters' answers to one item (one column of each
 * response matrix): the integer quantities behind `np.mean(colum_a == colum_b)`,
 * `np.mean(column == value)`, `np.sum((colum_a == u) * (colum_b == w))` and
 * `np.unique`.
 */
module Counts {

  /** No value occurs twice. */
  predicate Distinct<V(==)>(s: seq<V>)
  {
    forall i, j :: 0 <= i < j < |s| ==> s[i] != s[j]
  }

  /** Number of rows whose answer is `v`. */
  function Count<V(==)>(col: seq<V>, v: V): (k: nat)
    ensures k <= |col|
    ensures k == 0 <==> v !in col
  {
    if |col| == 0 then 0
    else Count(col[..|col| - 1], v) + (if col[|col| - 1] == v then 1 else 0)
  }

  /**
   * Number of rows where rater A answered `u` and rater B answered `w` (the
   * columns are read pairwise up to the shorter one).
   */
  function JointCount<V(==)>(a: seq<V>, b: seq<V>, u: V, w: V): (k: nat)
    ensures k <= |a| && k <= |b|
  {
    if |a| == 0 || |b| == 0 then 0
    else JointCount(a[..|a| - 1], b[..|b| - 1], u, w)
         + (if a[|a| - 1] == u && b[|b| - 1] == w then 1 else 0)
  }

  /** Number of rows where the two raters gave the same answer. */
  function Matches<V(==)>(a: seq<V>, b: seq<V>): (k: nat)
    requires |a| == |b|
    ensures k <= |a|
  {
    if |a| == 0 then 0
    else Matches(a[..|a| - 1], b[..|b| - 1]) + (if a[|a| - 1] == b[|b| - 1] then 1 else 0)
  }

  /**
   * Number of ordered pairs of rows (r, s) with `a[r] == b[s]`: a reference
   * for the chance agreement that does not depend on any enumeration of values.
   */
  function CrossMatches<V(==)>(a: seq<V>, b: seq<V>): (k: nat)
    ensures k <= |a| * |b|
  {
    if |a| == 0 then 0
    else
      var front := CrossMatches(a[..|a| - 1], b);
      MulStep(|a| - 1, |b|);
      front + Count(b, a[|a| - 1])
  }

  lemma MulStep(n: nat, m: nat)
    ensures n * m + m == (n + 1) * m
  {
  }

  /** The distinct values of `s`, each kept at its first occurrence. */
  function Unique<V(==)>(s: seq<V>): (u: seq<V>)
    ensures Distinct(u)
    ensures forall i :: 0 <= i < |s| ==> s[i] in u
    ensures forall j :: 0 <= j < |u| ==> u[j] in s
  {
    if |s| == 0 then []
    else
      var front := Unique(s[..|s| - 1]);
      assert forall i :: 0 <= i < |s| - 1 ==> s[..|s| - 1][i] == s[i];
      if s[|s| - 1] in front then front else front + [s[|s| - 1]]
  }

  /** The first position of `x` in `vals`. */
  function Idx<V(==)>(vals: seq<V>, x: V): (i: nat)
    requires x in vals
    ensures i < |vals| && vals[i] == x
    ensures forall j :: 0 <= j < i ==> vals[j] != x
  {
    if vals[0] == x then 0 else 1 + Idx(vals[1..], x)
  }

  /** In a sequence without repetitions the position of a value is unique. */
  lemma IdxUnique<V>(vals: seq<V>, i: nat)
    requires Distinct(vals) && i < |vals|
    ensures Idx(vals, vals[i]) == i
  {
  }

  /** The two raters agree on every row exactly when all rows match. */
  lemma {:induction false} MatchesAll<V>(a: seq<V>, b: seq<V>)
    requires |a| == |b|
    ensures Matches(a, b) == |a| <==> a == b
  {
    if |a| > 0 {
      var n := |a| - 1;
      MatchesAll(a[..n], b[..n]);
      assert a == a[..n] + [a[n]] && b == b[..n] + [b[n]];
      if a == b {
        assert a[..n] == b[..n];
      }
    }
  }

  lemma {:induction false} MatchesSwap<V>(a: seq<V>, b: seq<V>)
    requires |a| == |b|
    ensures Matches(a, b) == Matches(b, a)
  {
    if |a| > 0 {
      MatchesSwap(a[..|a| - 1], b[..|b| - 1]);
    }
  }

  lemma {:induction false} JointCountSwap<V>(a: seq<V>, b: seq<V>, u: V, w: V)
    requires |a| == |b|
    ensures JointCount(b, a, w, u) == JointCount(a, b, u, w)
  {
    if |a| > 0 {
      JointCountSwap(a[..|a| - 1], b[..|b| - 1], u, w);
    }
  }

  /** Appending a row to the second column adds the number of its matches in the first. */
  lemma {:induction false} CrossMatchesSnoc<V>(a: seq<V>, b: seq<V>, y: V)
    ensures CrossMatches(a, b + [y]) == CrossMatches(a, b) + Count(a, y)
  {
    assert (b + [y])[..|b|] == b;
    if |a| > 0 {
      CrossMatchesSnoc(a[..|a| - 1], b, y);
    }
  }

  /** Counting pairs of equal answers does not depend on which rater comes first. */
  lemma {:induction false} CrossMatchesSwap<V>(a: seq<V>, b: seq<V>)
    ensures CrossMatches(a, b) == CrossMatches(b, a)
  {
    if |b| > 0 {
      var n := |b| - 1;
      CrossMatchesSwap(a, b[..n]);
      CrossMatchesSnoc(a, b[..n], b[n]);
      assert b[..n] + [b[n]] == b;
    }
  }

  /** Weighting each value `v` of `vals` by the count of `v` in `b` and by `[x == v]`. */
  function PickCount<V(==)>(vals: seq<V>, x: V, b: seq<V>): nat
  {
    if |vals| == 0 then 0
    else PickCount(vals[..|vals| - 1], x, b) + (if vals[|vals| - 1] == x then Count(b, x) else 0)
  }

  /** How many pairs of rows (r, s) have A's answer at r and B's at s both equal to v. */
  function CountProduct<V(==)>(a: seq<V>, b: seq<V>, v: V): nat
  {
    Count(a, v) * Count(b, v)
  }

  /** Sum over `vals` of the products of the counts in the two columns. */
  function DotCounts<V(==)>(a: seq<V>, b: seq<V>, vals: seq<V>): nat
  {
    if |vals| == 0 then 0
    else DotCounts(a, b, vals[..|vals| - 1]) + CountProduct(a, b, vals[|vals| - 1])
  }

  /** The joint count of a non-empty pair of columns, peeled at its last row. */
  lemma {:induction false} JointCountLast<V>(a: seq<V>, b: seq<V>, u: V, w: V)
    requires |a| == |b| > 0
    ensures JointCount(a, b, u, w)
         == JointCount(a[..|a| - 1], b[..|a| - 1], u, w) + (if a[|a| - 1] == u && b[|a| - 1] == w then 1 else 0)
  {
  }

  lemma {:induction false} PickCountDistinct<V>(vals: seq<V>, x: V, b: seq<V>)
    requires Distinct(vals)
    ensures PickCount(vals, x, b) == if x in vals then Count(b, x) else 0
  {
    if |vals| > 0 {
      var n := |vals| - 1;
      PickCountDistinct(vals[..n], x, b);
      assert vals == vals[..n] + [vals[n]];
    }
  }

  /** One more row in the first column adds the pick of its answer to the dot product. */
  lemma {:induction false} DotCountsSnoc<V>(a: seq<V>, x: V, b: seq<V>, vals: seq<V>)
    ensures DotCounts(a + [x], b, vals) == DotCounts(a, b, vals) + PickCount(vals, x, b)
  {
    if |vals| > 0 {
      var n := |vals| - 1;
      DotCountsSnoc(a, x, b, vals[..n]);
      assert (a + [x])[..|a|] == a;
      var v := vals[n];
      var ca, cb := Count(a, v), Count(b, v);
      assert Count(a + [x], v) == ca + (if x == v then 1 else 0);
      if x == v {
        MulStep(ca, cb);
      }
    }
  }

  /**
   * Summing count products over the distinct values that cover column `a`
   * counts the pairs of equal answers.
   */
  lemma {:induction false} DotCountsCross<V>(a: seq<V>, b: seq<V>, vals: seq<V>)
    requires Distinct(vals)
    requires forall x :: x in a ==> x in vals
    ensures DotCounts(a, b, vals) == CrossMatches(a, b)
  {
    if |a| == 0 {
      DotCountsEmpty(a, b, vals);
    } else {
      var n := |a| - 1;
      assert a[..n] + [a[n]] == a;
      DotCountsCross(a[..n], b, vals);
      DotCountsSnoc(a[..n], a[n], b, vals);
      PickCountDistinct(vals, a[n], b);
    }
  }

  lemma {:induction false} DotCountsEmpty<V>(a: seq<V>, b: seq<V>, vals: seq<V>)
    requires |a| == 0
    ensures DotCounts(a, b, vals) == 0
  {
    if |vals| > 0 {
      DotCountsEmpty(a, b, vals[..|vals| - 1]);
    }
  }
}
