/**
 * Sums of real sequences and of real tables (sequences of rows), the exact
 * counterparts of `np.sum`, `np.sum(axis=0)`, `np.sum(axis=1)` and `np.mean`
 * on the contingency tables of the pooled kappa.
 */
module Tables {

  /** Sum of a sequence, accumulated from the front. */
  function SumSeq(s: seq<real>): real
  {
    if |s| == 0 then 0.0 else SumSeq(s[..|s| - 1]) + s[|s| - 1]
  }

  /** `t` has `rows` rows of `cols` entries each. */
  predicate IsTable(t: seq<seq<real>>, rows: nat, cols: nat)
  {
    |t| == rows && forall i :: 0 <= i < rows ==> |t[i]| == cols
  }

  /** Sum of all cells of a table, row by row. */
  function TableSum(t: seq<seq<real>>): real
  {
    if |t| == 0 then 0.0 else TableSum(t[..|t| - 1]) + SumSeq(t[|t| - 1])
  }

  /** The sum of every row (`np.sum(t, axis=1)`). */
  function RowSums(t: seq<seq<real>>): (r: seq<real>)
    ensures |r| == |t|
  {
    seq(|t|, i requires 0 <= i < |t| => SumSeq(t[i]))
  }

  /** The table with rows and columns exchanged. */
  function Transpose(t: seq<seq<real>>, cols: nat): (r: seq<seq<real>>)
    requires forall i :: 0 <= i < |t| ==> |t[i]| == cols
    ensures IsTable(r, cols, |t|)
  {
    seq(cols, k requires 0 <= k < cols => seq(|t|, i requires 0 <= i < |t| => t[i][k]))
  }

  /** The sum of every column (`np.sum(t, axis=0)`). */
  function ColSums(t: seq<seq<real>>, cols: nat): (r: seq<real>)
    requires forall i :: 0 <= i < |t| ==> |t[i]| == cols
    ensures |r| == cols
  {
    RowSums(Transpose(t, cols))
  }

  lemma SumSeqSnoc(s: seq<real>, x: real)
    ensures SumSeq(s + [x]) == SumSeq(s) + x
  {
    assert (s + [x])[..|s|] == s;
  }

  lemma {:induction false} SumSeqMono(s: seq<real>, u: seq<real>)
    requires |s| == |u|
    requires forall i :: 0 <= i < |s| ==> s[i] <= u[i]
    ensures SumSeq(s) <= SumSeq(u)
  {
    if |s| > 0 {
      SumSeqMono(s[..|s| - 1], u[..|u| - 1]);
    }
  }

  /** A sum of entries between 0 and `hi` lies between 0 and `|s| * hi`. */
  lemma {:induction false} SumSeqBounds(s: seq<real>, hi: real)
    requires forall i :: 0 <= i < |s| ==> 0.0 <= s[i] <= hi
    ensures 0.0 <= SumSeq(s) <= (|s| as real) * hi
  {
    if |s| > 0 {
      SumSeqBounds(s[..|s| - 1], hi);
    }
  }

  lemma {:induction false} SumSeqNonneg(s: seq<real>)
    requires forall i :: 0 <= i < |s| ==> 0.0 <= s[i]
    ensures 0.0 <= SumSeq(s)
  {
    if |s| > 0 {
      SumSeqNonneg(s[..|s| - 1]);
    }
  }

  /** A sum of nonnegative entries is nonnegative, and a sum of proportions is at most their number. */
  lemma {:induction false} SumSeqSign(s: seq<real>)
    ensures (forall i :: 0 <= i < |s| ==> 0.0 <= s[i]) ==> 0.0 <= SumSeq(s)
    ensures (forall i :: 0 <= i < |s| ==> 0.0 <= s[i] <= 1.0) ==> SumSeq(s) <= |s| as real
  {
    if forall i :: 0 <= i < |s| ==> 0.0 <= s[i] {
      SumSeqNonneg(s);
    }
    if forall i :: 0 <= i < |s| ==> 0.0 <= s[i] <= 1.0 {
      SumSeqBounds(s, 1.0);
    }
  }

  /** n squared (`n**2` on a Python int). */
  function Square(n: nat): (r: nat)
    ensures n > 0 ==> r >= n > 0
  {
    n * n
  }

  /** `c` times `x`, kept as one term. */
  function Scale(c: real, x: real): real
  {
    c * x
  }

  lemma {:induction false} ScaleAdd(c: real, x: real, y: real)
    ensures Scale(c, x + y) == Scale(c, x) + Scale(c, y)
  {
  }

  /** Scaling every entry by `c` scales the sum by `c`. */
  lemma {:induction false} SumSeqScale(s: seq<real>, u: seq<real>, c: real)
    requires |s| == |u|
    requires forall i :: 0 <= i < |s| ==> u[i] == Scale(c, s[i])
    ensures SumSeq(u) == Scale(c, SumSeq(s))
  {
    if |s| > 0 {
      var m := |s| - 1;
      SumSeqScale(s[..m], u[..m], c);
      ScaleAdd(c, SumSeq(s[..m]), s[m]);
    }
  }

  /** A sequence that is zero except at index `q` sums to its entry at `q`. */
  lemma {:induction false} SumSeqSingle(s: seq<real>, q: nat)
    requires q < |s|
    requires forall i :: 0 <= i < |s| && i != q ==> s[i] == 0.0
    ensures SumSeq(s) == s[q]
  {
    if q < |s| - 1 {
      SumSeqSingle(s[..|s| - 1], q);
    } else {
      SumSeqZero(s[..|s| - 1]);
    }
  }

  lemma {:induction false} SumSeqZero(s: seq<real>)
    requires forall i :: 0 <= i < |s| ==> s[i] == 0.0
    ensures SumSeq(s) == 0.0
  {
    if |s| > 0 {
      SumSeqZero(s[..|s| - 1]);
    }
  }

  /** Adding two sequences entry by entry adds their sums. */
  lemma {:induction false} SumSeqAdd(s: seq<real>, u: seq<real>, w: seq<real>)
    requires |s| == |u| == |w|
    requires forall i :: 0 <= i < |s| ==> w[i] == s[i] + u[i]
    ensures SumSeq(w) == SumSeq(s) + SumSeq(u)
  {
    if |s| > 0 {
      SumSeqAdd(s[..|s| - 1], u[..|u| - 1], w[..|w| - 1]);
    }
  }

  /** Summing the row sums gives the table sum. */
  lemma {:induction false} SumRowSums(t: seq<seq<real>>)
    ensures SumSeq(RowSums(t)) == TableSum(t)
  {
    if |t| > 0 {
      SumRowSums(t[..|t| - 1]);
      assert RowSums(t)[..|t| - 1] == RowSums(t[..|t| - 1]);
    }
  }

  lemma {:induction false} TableSumMono(t: seq<seq<real>>, u: seq<seq<real>>, cols: nat)
    requires IsTable(t, |t|, cols) && IsTable(u, |t|, cols)
    requires forall i, k :: 0 <= i < |t| && 0 <= k < cols ==> t[i][k] <= u[i][k]
    ensures TableSum(t) <= TableSum(u)
  {
    if |t| > 0 {
      TableSumMono(t[..|t| - 1], u[..|u| - 1], cols);
      SumSeqMono(t[|t| - 1], u[|u| - 1]);
    }
  }

  lemma {:induction false} TableSumNonneg(t: seq<seq<real>>)
    requires forall i, k :: 0 <= i < |t| && 0 <= k < |t[i]| ==> 0.0 <= t[i][k]
    ensures 0.0 <= TableSum(t)
  {
    if |t| > 0 {
      TableSumNonneg(t[..|t| - 1]);
      SumSeqNonneg(t[|t| - 1]);
    }
  }

  lemma {:induction false} TableSumZero(t: seq<seq<real>>)
    requires forall i, k :: 0 <= i < |t| && 0 <= k < |t[i]| ==> t[i][k] == 0.0
    ensures TableSum(t) == 0.0
  {
    if |t| > 0 {
      TableSumZero(t[..|t| - 1]);
      SumSeqZero(t[|t| - 1]);
    }
  }

  /** A table that is zero except in cell (p, q) sums to that cell. */
  lemma {:induction false} TableSumSingle(t: seq<seq<real>>, cols: nat, p: nat, q: nat)
    requires IsTable(t, |t|, cols) && p < |t| && q < cols
    requires forall i, k :: 0 <= i < |t| && 0 <= k < cols && (i != p || k != q) ==> t[i][k] == 0.0
    ensures TableSum(t) == t[p][q]
  {
    if p < |t| - 1 {
      TableSumSingle(t[..|t| - 1], cols, p, q);
      SumSeqZero(t[|t| - 1]);
    } else {
      TableSumZero(t[..|t| - 1]);
      SumSeqSingle(t[|t| - 1], q);
    }
  }

  /** Adding two tables cell by cell adds their sums. */
  lemma {:induction false} TableSumAdd(t: seq<seq<real>>, u: seq<seq<real>>, w: seq<seq<real>>, cols: nat)
    requires IsTable(t, |t|, cols) && IsTable(u, |t|, cols) && IsTable(w, |t|, cols)
    requires forall i, k :: 0 <= i < |t| && 0 <= k < cols ==> w[i][k] == t[i][k] + u[i][k]
    ensures TableSum(w) == TableSum(t) + TableSum(u)
  {
    if |t| > 0 {
      TableSumAdd(t[..|t| - 1], u[..|u| - 1], w[..|w| - 1], cols);
      SumSeqAdd(t[|t| - 1], u[|u| - 1], w[|w| - 1]);
    }
  }

  /** Scaling every cell by `c` scales the table sum by `c`. */
  lemma {:induction false} TableSumScale(t: seq<seq<real>>, u: seq<seq<real>>, cols: nat, c: real)
    requires IsTable(t, |t|, cols) && IsTable(u, |t|, cols)
    requires forall i, k :: 0 <= i < |t| && 0 <= k < cols ==> u[i][k] == Scale(c, t[i][k])
    ensures TableSum(u) == Scale(c, TableSum(t))
  {
    var rt, ru := RowSums(t), RowSums(u);
    forall i | 0 <= i < |t|
      ensures ru[i] == Scale(c, rt[i])
    {
      SumSeqScale(t[i], u[i], c);
    }
    SumSeqScale(rt, ru, c);
    SumRowSums(t);
    SumRowSums(u);
  }

  /** The table of products `x[i] * y[k]` sums to the product of the sums. */
  lemma {:induction false} TableSumOuter(t: seq<seq<real>>, x: seq<real>, y: seq<real>)
    requires IsTable(t, |x|, |y|)
    requires forall i, k :: 0 <= i < |x| && 0 <= k < |y| ==> t[i][k] == Scale(x[i], y[k])
    ensures TableSum(t) == Scale(SumSeq(x), SumSeq(y))
  {
    var r, sy := RowSums(t), SumSeq(y);
    forall i | 0 <= i < |x|
      ensures r[i] == Scale(sy, x[i])
    {
      SumSeqScale(y, t[i], x[i]);
      ScaleSwap(x[i], sy);
    }
    SumSeqScale(x, r, sy);
    SumRowSums(t);
    ScaleSwap(sy, SumSeq(x));
  }

  lemma {:induction false} ScaleSwap(c: real, x: real)
    ensures Scale(c, x) == Scale(x, c)
  {
  }


  /** Exchanging rows and columns does not change the table sum. */
  lemma {:induction false} TableSumTranspose(t: seq<seq<real>>, cols: nat)
    requires IsTable(t, |t|, cols)
    ensures TableSum(Transpose(t, cols)) == TableSum(t)
  {
    if |t| > 0 {
      var m := |t| - 1;
      TableSumTranspose(t[..m], cols);
      TransposeLastRow(t, cols);
      TableAppendColumn(Transpose(t, cols), Transpose(t[..m], cols), t[m], cols, m);
    } else {
      TableSumZero(Transpose(t, cols));
    }
  }

  /** Every row of the transpose is the front's transposed row extended by one cell of the last row. */
  lemma {:induction false} TransposeLastRow(t: seq<seq<real>>, cols: nat)
    requires IsTable(t, |t|, cols) && |t| > 0
    ensures forall k :: 0 <= k < cols ==>
              SumSeq(Transpose(t, cols)[k]) == SumSeq(Transpose(t[..|t| - 1], cols)[k]) + t[|t| - 1][k]
  {
    var m := |t| - 1;
    var tt, tf := Transpose(t, cols), Transpose(t[..m], cols);
    forall k | 0 <= k < cols
      ensures SumSeq(tt[k]) == SumSeq(tf[k]) + t[m][k]
    {
      assert tt[k] == tf[k] + [t[m][k]];
      SumSeqSnoc(tf[k], t[m][k]);
    }
  }

  /** A table whose row `k` is row `k` of `u` followed by `x[k]` sums to `TableSum(u) + SumSeq(x)`. */
  lemma {:induction false} TableAppendColumn(w: seq<seq<real>>, u: seq<seq<real>>, x: seq<real>, rows: nat, cols: nat)
    requires IsTable(u, rows, cols) && |w| == rows && |x| == rows
    requires forall k :: 0 <= k < rows ==> SumSeq(w[k]) == SumSeq(u[k]) + x[k]
    ensures TableSum(w) == TableSum(u) + SumSeq(x)
  {
    if rows > 0 {
      TableAppendColumn(w[..rows - 1], u[..rows - 1], x[..rows - 1], rows - 1, cols);
    }
  }

  /** Transposing a square table twice gives it back. */
  lemma TransposeTwice(t: seq<seq<real>>, c: nat)
    requires IsTable(t, c, c)
    ensures Transpose(Transpose(t, c), c) == t
  {
    var tt := Transpose(Transpose(t, c), c);
    forall i | 0 <= i < c
      ensures tt[i] == t[i]
    {
    }
  }

  /** The outer product of two vectors (`np.outer(x, y)`). */
  function Outer(x: seq<real>, y: seq<real>): (o: seq<seq<real>>)
    ensures IsTable(o, |x|, |y|)
  {
    seq(|x|, i requires 0 <= i < |x| => seq(|y|, k requires 0 <= k < |y| => Scale(x[i], y[k])))
  }

  lemma {:induction false} OuterNonneg(x: seq<real>, y: seq<real>)
    requires forall i :: 0 <= i < |x| ==> 0.0 <= x[i]
    requires forall k :: 0 <= k < |y| ==> 0.0 <= y[k]
    ensures forall i, k :: 0 <= i < |x| && 0 <= k < |y| ==> 0.0 <= Outer(x, y)[i][k]
  {
    forall i, k | 0 <= i < |x| && 0 <= k < |y|
      ensures 0.0 <= Outer(x, y)[i][k]
    {
      NonnegProduct(x[i], y[k]);
    }
  }

  lemma {:induction false} NonnegProduct(p: real, q: real)
    requires 0.0 <= p && 0.0 <= q
    ensures 0.0 <= Scale(p, q)
  {
  }

  /** Exchanging the two vectors transposes their outer product. */
  lemma {:induction false} OuterTranspose(x: seq<real>, y: seq<real>)
    ensures Outer(y, x) == Transpose(Outer(x, y), |y|)
  {
    var o, o', ot := Outer(x, y), Outer(y, x), Transpose(Outer(x, y), |y|);
    forall k | 0 <= k < |y|
      ensures o'[k] == ot[k]
    {
      forall i | 0 <= i < |x|
        ensures o'[k][i] == ot[k][i]
      {
        ScaleSwap(y[k], x[i]);
      }
    }
  }
}
