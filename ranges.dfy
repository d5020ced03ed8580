/** Python's range and list repetition, over unbounded integers. */
module Ranges {

  /** Number of elements of range(n) and of [v]*n: a negative count gives none. */
  function Count(n: int): nat
  {
    if n < 0 then 0 else n
  }

  /** list(range(n)): the indices 0 .. n-1 in ascending order. */
  function Range(n: int): (r: seq<int>)
    ensures |r| == Count(n)
    ensures forall i :: 0 <= i < |r| ==> r[i] == i
    decreases Count(n)
  {
    if n <= 0 then [] else Range(n - 1) + [n - 1]
  }

  /** list(range(start, stop, step)) for a non-zero step. */
  function Steps(start: int, stop: int, step: int): seq<int>
    requires step != 0
    decreases if step > 0 then stop - start else start - stop
  {
    if (step > 0 && start < stop) || (step < 0 && start > stop) then [start] + Steps(start + step, stop, step)
    else []
  }

  /** range(start, stop, step) is the arithmetic progression from start that
      stays strictly below stop (step > 0) or strictly above it (step < 0),
      and stops at the first term that would not. */
  lemma {:induction false} StepsProgression(start: int, stop: int, step: int)
    requires step != 0
    ensures var r := Steps(start, stop, step);
            forall i :: 0 <= i < |r| ==> r[i] == start + i * step
    ensures var r := Steps(start, stop, step);
            forall i :: 0 <= i < |r| ==> if step > 0 then r[i] < stop else r[i] > stop
    ensures var r := Steps(start, stop, step);
            if step > 0 then start + |r| * step >= stop else start + |r| * step <= stop
    decreases if step > 0 then stop - start else start - stop
  {
    if (step > 0 && start < stop) || (step < 0 && start > stop) {
      StepsProgression(start + step, stop, step);
      Progression(start, step, Steps(start + step, stop, step));
    }
  }

  /** Putting start in front of the progression from start + step gives the
      progression from start, one element longer. */
  lemma Progression(start: int, step: int, rest: seq<int>)
    requires forall i :: 0 <= i < |rest| ==> rest[i] == start + step + i * step
    ensures forall i :: 0 <= i < |rest| + 1 ==> ([start] + rest)[i] == start + i * step
    ensures start + step + |rest| * step == start + (|rest| + 1) * step
  {
    var r := [start] + rest;
    forall i | 0 <= i < |rest| + 1
      ensures r[i] == start + i * step
    {
      if i > 0 {
        assert r[i] == rest[i - 1];
        StepShift(start, step, i);
      }
    }
    StepShift(start, step, |rest| + 1);
  }

  lemma StepShift(start: int, step: int, i: int)
    ensures start + step + (i - 1) * step == start + i * step
  {
  }

  /** [v]*k: k copies of v. */
  function Repeat(v: int, k: int): (r: seq<int>)
    ensures |r| == Count(k)
    ensures forall i :: 0 <= i < |r| ==> r[i] == v
    decreases Count(k)
  {
    if k <= 0 then [] else Repeat(v, k - 1) + [v]
  }

  /** [v]*k holds v exactly Count(k) times and nothing else. */
  lemma {:induction false} RepeatCounts(v: int, k: int, w: int)
    ensures multiset(Repeat(v, k))[w] == if w == v then Count(k) else 0
    decreases Count(k)
  {
    if k > 0 {
      RepeatCounts(v, k - 1, w);
      assert Repeat(v, k) == Repeat(v, k - 1) + [v];
    }
  }
}
