/**
 * `ndarray.sort()` over the collected kappas, modelled on values: the result
 * is the sorted permutation of its input, which is unique, so any sorting
 * algorithm yields the same sequence.
 */
module Sorting {
  import opened Tables

  predicate Sorted(s: seq<real>)
  {
    forall i, j :: 0 <= i < j < |s| ==> s[i] <= s[j]
  }

  /** x placed before the first element of s that is not smaller. */
  function Insert(x: real, s: seq<real>): (r: seq<real>)
    requires Sorted(s)
    ensures Sorted(r)
    ensures multiset(r) == multiset(s) + multiset{x}
    decreases |s|
  {
    if |s| == 0 then [x]
    else if x <= s[0] then
      assert Sorted([x] + s) by { HeadLeast(s, s[0]); }
      [x] + s
    else
      var t := Insert(x, s[1..]);
      InsertBehind(x, s, t);
      [s[0]] + t
  }

  /** Behind a head smaller than x, the insertion into the tail keeps the sequence sorted. */
  lemma {:induction false} InsertBehind(x: real, s: seq<real>, t: seq<real>)
    requires Sorted(s) && |s| > 0 && s[0] < x
    requires Sorted(t) && multiset(t) == multiset(s[1..]) + multiset{x}
    ensures Sorted([s[0]] + t)
    ensures multiset([s[0]] + t) == multiset(s) + multiset{x}
  {
    assert s == [s[0]] + s[1..];
    forall k | 0 <= k < |t|
      ensures s[0] <= t[k]
    {
      assert t[k] in multiset(t);
      if t[k] != x {
        assert t[k] in multiset(s[1..]);
        var i :| 0 <= i < |s[1..]| && s[1..][i] == t[k];
        assert s[0] <= s[i + 1];
      }
    }
    var u := [s[0]] + t;
    forall i, j | 0 <= i < j < |u|
      ensures u[i] <= u[j]
    {
      if i > 0 {
        assert u[i] == t[i - 1] && u[j] == t[j - 1];
      } else {
        assert u[j] == t[j - 1];
      }
    }
  }

  /** An insertion sort: the sorted permutation of s. */
  function Sort(s: seq<real>): (r: seq<real>)
    ensures Sorted(r)
    ensures multiset(r) == multiset(s)
    ensures |r| == |s|
  {
    if |s| == 0 then []
    else
      var init, last := s[..|s| - 1], s[|s| - 1];
      var r := Insert(last, Sort(init));
      assert multiset(s) == multiset(init) + multiset{last} by { assert s == init + [last]; }
      assert |r| == |multiset(r)| == |multiset(s)| == |s|;
      r
  }

  /** Two sorted sequences holding the same values are equal: the sorted order is unique. */
  lemma {:induction false} SortedUnique(s: seq<real>, t: seq<real>)
    requires Sorted(s) && Sorted(t) && multiset(s) == multiset(t)
    ensures s == t
    decreases |s|
  {
    if |s| > 0 {
      SameHead(s, t);
      SortedUnique(s[1..], t[1..]);
      assert s == [s[0]] + s[1..];
      assert t == [t[0]] + t[1..];
    }
  }

  /** Two nonempty sorted sequences holding the same values start alike and have tails holding the same values. */
  lemma {:induction false} SameHead(s: seq<real>, t: seq<real>)
    requires Sorted(s) && Sorted(t) && multiset(s) == multiset(t) && |s| > 0
    ensures |t| == |s| && s[0] == t[0]
    ensures Sorted(s[1..]) && Sorted(t[1..]) && multiset(s[1..]) == multiset(t[1..])
  {
    assert |t| == |multiset(t)| == |multiset(s)| == |s|;
    HeadLeast(t, s[0]);
    HeadLeast(s, t[0]);
    Tail(s);
    Tail(t);
  }

  /** The tail of a sorted sequence is sorted and holds all its values but the head. */
  lemma {:induction false} Tail(s: seq<real>)
    requires Sorted(s) && |s| > 0
    ensures Sorted(s[1..])
    ensures multiset(s[1..]) == multiset(s) - multiset{s[0]}
  {
    assert s == [s[0]] + s[1..];
  }

  /** The head of a sorted sequence is at most any of its values. */
  lemma {:induction false} HeadLeast(s: seq<real>, x: real)
    requires Sorted(s) && x in multiset(s)
    ensures s[0] <= x
  {
    var k :| 0 <= k < |s| && s[k] == x;
    assert s[0] <= s[k];
  }

  /** The sum of t[k] and the rest of t. */
  lemma {:induction false} SumSeqRemove(t: seq<real>, k: nat)
    requires k < |t|
    ensures SumSeq(t) == SumSeq(t[..k] + t[k + 1..]) + t[k]
    decreases |t|
  {
    var u := t[..k] + t[k + 1..];
    if k == |t| - 1 {
      assert u == t[..|t| - 1];
    } else {
      var v := t[..|t| - 1];
      SumSeqRemove(v, k);
      assert v[..k] + v[k + 1..] == u[..|u| - 1];
      assert u[|u| - 1] == t[|t| - 1];
    }
  }

  /** Reordering a sequence does not change its sum. */
  lemma {:induction false} SumSeqPermutation(s: seq<real>, t: seq<real>)
    requires multiset(s) == multiset(t)
    ensures SumSeq(s) == SumSeq(t)
    decreases |s|
  {
    if |s| == 0 {
      assert |t| == |multiset(t)| == 0;
    } else {
      var x := s[|s| - 1];
      assert s == s[..|s| - 1] + [x];
      assert x in multiset(t);
      var k :| 0 <= k < |t| && t[k] == x;
      var u := t[..k] + t[k + 1..];
      assert t == t[..k] + [x] + t[k + 1..];
      assert multiset(u) == multiset(t) - multiset{x};
      assert multiset(s[..|s| - 1]) == multiset(u);
      SumSeqPermutation(s[..|s| - 1], u);
      SumSeqRemove(t, k);
    }
  }
}
