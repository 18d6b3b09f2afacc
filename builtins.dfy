/**
 * The Python built-ins the bootstrap procedures rely on: `int()` applied to a
 * float (truncation toward zero), indexing a sequence (negative indices count
 * from the end, anything else out of range raises IndexError) and `range`
 * with a step (a zero step raises ValueError).
 */
module Builtins {
  import opened Results

  /** `int(x)`: x with its fractional part dropped, rounding toward zero. */
  function Trunc(x: real): (r: int)
    ensures 0.0 <= x ==> 0 <= r && r as real <= x < r as real + 1.0
    ensures x < 0.0 ==> r <= 0 && r as real - 1.0 < x <= r as real
  {
    if x >= 0.0 then x.Floor else -((-x).Floor)
  }

  /** Truncation is monotone. */
  lemma {:induction false} TruncMono(x: real, y: real)
    requires x <= y
    ensures Trunc(x) <= Trunc(y)
  {
    if 0.0 <= x {
      assert x.Floor <= y.Floor;
    } else if y < 0.0 {
      assert (-y).Floor <= (-x).Floor;
    }
  }

  /** `s[k]`: None stands for the IndexError. */
  function Index(s: seq<real>, k: int): (r: Option<real>)
    ensures r.Some? <==> -|s| <= k < |s|
    ensures 0 <= k < |s| ==> r == Some(s[k])
    ensures -|s| <= k < 0 ==> r == Some(s[|s| + k])
  {
    if 0 <= k < |s| then Some(s[k])
    else if -|s| <= k < 0 then Some(s[|s| + k])
    else None
  }

  /** The number of elements of `range(start, stop, step)`, for a step other than 0. */
  function RangeLength(start: int, stop: int, step: int): (len: nat)
    requires step != 0
  {
    if step > 0 then
      (if start < stop then (stop - start - 1) / step + 1 else 0)
    else
      (if stop < start then (start - stop - 1) / (-step) + 1 else 0)
  }

  /** The k-th element of a range: start advanced k steps. */
  function Nth(start: int, step: int, k: nat): int
  {
    start + k * step
  }

  /** `range(start, stop, step)`: None stands for the ValueError a zero step raises. */
  function Range(start: int, stop: int, step: int): (r: Option<seq<int>>)
    ensures r.None? <==> step == 0
    ensures r.Some? ==> |r.value| == RangeLength(start, stop, step)
    ensures r.Some? ==> forall k :: 0 <= k < |r.value| ==> r.value[k] == Nth(start, step, k)
  {
    if step == 0 then None
    else Some(seq(RangeLength(start, stop, step), k requires k >= 0 => Nth(start, step, k)))
  }

  lemma {:induction false} NthMono(start: int, step: int, j: nat, k: nat)
    requires step > 0 && j <= k
    ensures Nth(start, step, j) + (k - j) * step == Nth(start, step, k)
    ensures Nth(start, step, j) <= Nth(start, step, k)
    ensures j < k ==> Nth(start, step, j) < Nth(start, step, k)
  {
    assert k * step == j * step + (k - j) * step;
    StepsAtLeast(k - j, step);
  }

  /** d positive steps advance at least one step. */
  lemma {:induction false} StepsAtLeast(d: nat, step: int)
    requires step > 0
    ensures 0 <= d * step
    ensures 1 <= d ==> step <= d * step
  {
    if d > 0 {
      StepsAtLeast(d - 1, step);
      assert d * step == (d - 1) * step + step;
    }
  }

  /**
   * With a positive step, a range is the arithmetic progression from start by
   * step over exactly the values below stop: every element is below stop, and
   * one more step reaches stop.
   */
  lemma {:induction false} RangeAscending(start: int, stop: int, step: int)
    requires step > 0
    ensures forall k :: 0 <= k < RangeLength(start, stop, step) ==> Nth(start, step, k) < stop
    ensures Nth(start, step, RangeLength(start, stop, step)) >= stop || RangeLength(start, stop, step) == 0
    ensures RangeLength(start, stop, step) == 0 <==> stop <= start
  {
    var len := RangeLength(start, stop, step);
    if start < stop {
      var q := (stop - start - 1) / step;
      assert q * step <= stop - start - 1 < q * step + step;
      assert Nth(start, step, q) < stop;
      assert Nth(start, step, len) == Nth(start, step, q) + step;
      forall k | 0 <= k < len
        ensures Nth(start, step, k) < stop
      {
        NthMono(start, step, k, q);
      }
    }
  }

  /** The sweep `range(start, max + 1, step)` has 1 + (max - start) / step elements when start <= max. */
  lemma {:induction false} InclusiveRangeLength(start: int, max: int, step: int)
    requires step > 0 && start <= max
    ensures RangeLength(start, max + 1, step) == 1 + (max - start) / step
  {
  }
}
