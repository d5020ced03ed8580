/** Python's seeded `random` module, seen from outside.

    The generator's internals are not modelled. Every call below counts as
    one draw; an Oracle says what the d-th draw after random.seed(s) returns
    when it asks for a number below `bound` (CPython's `_randbelow`). Each
    list builder seeds the generator itself and then makes a sequence of
    calls fixed by its size, so what one builder gets from CPython is what it
    gets from some oracle, and every property below holds for every oracle. */
module Random {
  import opened Results

  /** Oracle(s, d, bound): the d-th draw after random.seed(s), a number below `bound`. */
  type Oracle = f: (int, nat, nat) -> nat | forall s, d, bound :: 0 < bound ==> f(s, d, bound) < bound
    witness (s: int, d: nat, bound: nat) => 0

  /** The generator's state: the last seed and how many outputs were drawn since. */
  datatype State = State(seed: int, drawn: nat)
  {
    /** The state `j` draws later. */
    function After(j: nat): State
    {
      State(seed, drawn + j)
    }
  }

  /** random.seed(s) */
  function Seed(s: int): State
  {
    State(s, 0)
  }

  /** The value randint(lo, hi) returns when drawn in state `st`. */
  function Pick(o: Oracle, st: State, lo: int, hi: int): (x: int)
    requires lo <= hi
    ensures lo <= x <= hi
  {
    lo + o(st.seed, st.drawn, hi - lo + 1)
  }

  /** random.randint(lo, hi): a value of [lo, hi] and the state after the
      draw; the empty range raises ValueError instead. */
  function RandInt(o: Oracle, st: State, lo: int, hi: int): (r: Result<(int, State)>)
    ensures r.Ok? <==> lo <= hi
    ensures r.Ok? ==> lo <= r.value.0 <= hi && r.value.1 == st.After(1)
    ensures r.Err? ==> r.error == EmptyRange(lo, hi)
  {
    if lo > hi then Err(EmptyRange(lo, hi)) else Ok((Pick(o, st, lo, hi), st.After(1)))
  }

  /** [random.randint(lo, hi) for _ in range(count)], drawn from state `st`:
      it fails as soon as one draw does, which is at the first draw when the
      range is empty; otherwise element i is the i-th draw. */
  function RandInts(o: Oracle, st: State, count: nat, lo: int, hi: int): (r: Result<seq<int>>)
    ensures r.Ok? <==> count == 0 || lo <= hi
    ensures r.Err? ==> r.error == EmptyRange(lo, hi)
    ensures r.Ok? ==> |r.value| == count
    ensures r.Ok? ==> forall i :: 0 <= i < count ==> r.value[i] == Pick(o, st.After(i), lo, hi)
    decreases count
  {
    if count == 0 then Ok([])
    else
      match RandInt(o, st, lo, hi)
      case Err(e) => Err(e)
      case Ok((x, next)) =>
        match RandInts(o, next, count - 1, lo, hi)
        case Err(e) => Err(e)
        case Ok(xs) => Ok([x] + xs)
  }

  /** random.random(): CPython returns k / 2**53 for a 53-bit integer k, so
      the float is exactly this rational. */
  function Random01(o: Oracle, st: State): (x: real)
    ensures 0.0 <= x < 1.0
  {
    o(st.seed, st.drawn, 0x20_0000_0000_0000) as real / 0x20_0000_0000_0000 as real
  }

  /** s with the elements at i and j exchanged: `s[i], s[j] = s[j], s[i]`. */
  function Swap<T>(s: seq<T>, i: nat, j: nat): (r: seq<T>)
    requires i < |s| && j < |s|
    ensures |r| == |s|
  {
    seq(|s|, k requires 0 <= k < |s| => if k == j then s[i] else if k == i then s[j] else s[k])
  }

  /** Exchanging two elements keeps the same elements. */
  lemma SwapPermutes<T>(s: seq<T>, i: nat, j: nat)
    requires i < |s| && j < |s|
    ensures multiset(Swap(s, i, j)) == multiset(s)
  {
    assert Swap(s, i, j) == s[i := s[j]][j := s[i]];
  }

  /** The list after the first m steps of random.shuffle starting in state
      `st`: step t (counting from 0) visits position |s|-1-t and exchanges it
      with a position drawn from [0, |s|-1-t]. */
  function ShuffleSteps<T>(o: Oracle, st: State, s: seq<T>, m: nat): (r: seq<T>)
    requires m < |s|
    ensures |r| == |s|
    decreases m
  {
    if m == 0 then s
    else
      var t := ShuffleSteps(o, st, s, m - 1);
      var i := |s| - m;
      Swap(t, i, Pick(o, st.After(m - 1), 0, i))
  }

  /** random.shuffle(s) from state `st`: Fisher-Yates from the last position
      down to position 1. */
  function Shuffled<T>(o: Oracle, st: State, s: seq<T>): (r: seq<T>)
    ensures |r| == |s|
  {
    if |s| <= 1 then s else ShuffleSteps(o, st, s, |s| - 1)
  }

  /** One step of the shuffle only exchanges two elements. */
  lemma ShuffleStepPermutes<T>(o: Oracle, st: State, s: seq<T>, m: nat)
    requires 0 < m < |s|
    ensures multiset(ShuffleSteps(o, st, s, m)) == multiset(ShuffleSteps(o, st, s, m - 1))
  {
    var t, i := ShuffleSteps(o, st, s, m - 1), |s| - m;
    SwapPermutes(t, i, Pick(o, st.After(m - 1), 0, i));
  }

  /** Every prefix of the shuffle's steps only rearranges the list. */
  lemma {:induction false} ShuffleStepsPermutes<T>(o: Oracle, st: State, s: seq<T>, m: nat)
    requires m < |s|
    ensures multiset(ShuffleSteps(o, st, s, m)) == multiset(s)
    decreases m
  {
    if m > 0 {
      ShuffleStepsPermutes(o, st, s, m - 1);
      ShuffleStepPermutes(o, st, s, m);
    }
  }

  /** random.shuffle is a permutation, whatever the generator draws. */
  lemma ShuffledPermutes<T>(o: Oracle, st: State, s: seq<T>)
    ensures multiset(Shuffled(o, st, s)) == multiset(s)
  {
    if |s| > 1 {
      ShuffleStepsPermutes(o, st, s, |s| - 1);
    }
  }

  /** Exchanges a[i] and a[j] in place. */
  method Exchange<T>(a: array<T>, i: nat, j: nat)
    requires i < a.Length && j < a.Length
    modifies a
    ensures a[..] == Swap(old(a[..]), i, j)
  {
    a[i], a[j] := a[j], a[i];
  }

  /** random.shuffle(a), in place. */
  method Shuffle<T>(o: Oracle, st: State, a: array<T>)
    modifies a
    ensures a[..] == Shuffled(o, st, old(a[..]))
  {
    ghost var s := a[..];
    if a.Length > 1 {
      // step m visits position i = |a| - m, for i from |a| - 1 down to 1
      for m := 1 to a.Length
        invariant a[..] == ShuffleSteps(o, st, s, m - 1)
      {
        var i := a.Length - m;
        Exchange(a, i, Pick(o, st.After(m - 1), 0, i));
      }
    }
  }
}
