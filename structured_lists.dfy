/** The input distributions of bench-structured.py: eight list builders keyed
    on a size n, registered in a fixed catalog under their labels.

    Sizes are unbounded integers as in Python: a negative n behaves like an
    empty range, and n / 4, n / 100 are Python's floor division (Dafny's `/`
    agrees with it for a positive divisor). */
module StructuredLists {
  import opened Results
  import opened Ranges
  import opened Random

  /** One catalog entry per generator. */
  datatype Shape = Star | Backslash | Slash | Three | Plus | Percent | Tilde | Equal

  /** The label each generator is registered under. */
  function Label(shape: Shape): string
  {
    match shape
    case Star => "*sort"
    case Backslash => "\\sort"
    case Slash => "/sort"
    case Three => "3sort"
    case Plus => "+sort"
    case Percent => "%sort"
    case Tilde => "~sort"
    case Equal => "=sort"
  }

  /** The `funcs` list, in registration order. */
  const Catalog: seq<Shape> := [Star, Backslash, Slash, Three, Plus, Percent, Tilde, Equal]

  /** The keys of the result map. */
  function Labels(): set<string>
  {
    set shape | shape in Catalog :: Label(shape)
  }

  /** The catalog names every generator once, under distinct labels. */
  lemma LabelInjective(a: Shape, b: Shape)
    ensures Label(a) == Label(b) ==> a == b
  {
    if Label(a) == Label(b) {
      assert Label(a)[0] == Label(b)[0];
    }
  }

  // ---------------------------------------------------------------- generators

  /** star_sort(n): n draws from randint(-2**31, 2**31). */
  function StarSort(o: Oracle, n: int): (r: seq<int>)
    ensures |r| == Count(n)
    ensures forall i :: 0 <= i < |r| ==> -0x8000_0000 <= r[i] <= 0x8000_0000
  {
    RandInts(o, Seed(n), Count(n), -0x8000_0000, 0x8000_0000).value
  }

  /** L.reverse(), in place. */
  method Reverse(a: array<int>)
    modifies a
    ensures forall k :: 0 <= k < a.Length ==> a[k] == old(a[a.Length - 1 - k])
  {
    var lo, hi := 0, a.Length - 1;
    while lo < hi
      invariant 0 <= lo && hi == a.Length - 1 - lo && lo <= a.Length - lo
      invariant forall k :: 0 <= k < lo || hi < k < a.Length ==> a[k] == old(a[a.Length - 1 - k])
      invariant forall k :: lo <= k <= hi ==> a[k] == old(a[k])
    {
      a[lo], a[hi] := a[hi], a[lo];
      lo, hi := lo + 1, hi - 1;
    }
  }

  /** backslash_sort(n): list(range(n)) reversed in place, so descending. */
  method BackslashSort(n: int) returns (r: seq<int>)
    ensures |r| == Count(n)
    ensures forall i :: 0 <= i < |r| ==> r[i] == Count(n) - 1 - i
  {
    var a := new int[Count(n)](i => i);
    Reverse(a);
    r := a[..];
  }

  /** slash_sort(n): list(range(n)), already sorted; the seeding draws nothing. */
  function SlashSort(n: int): (r: seq<int>)
    ensures |r| == Count(n)
    ensures forall i :: 0 <= i < |r| ==> r[i] == i
  {
    Range(n)
  }

  /** One round of three_sort's loop on a non-empty list, from state `st`:
      a = randint(0, len-1), b = randint(0, len-1), then s[a] and s[b] are
      exchanged. */
  function Exchanged(o: Oracle, st: State, t: seq<int>): seq<int>
    requires |t| >= 1
  {
    Swap(t, Pick(o, st, 0, |t| - 1), Pick(o, st.After(1), 0, |t| - 1))
  }

  /** A round only rearranges the list. */
  lemma ExchangedPermutes(o: Oracle, st: State, t: seq<int>)
    requires |t| >= 1
    ensures multiset(Exchanged(o, st, t)) == multiset(t)
  {
    SwapPermutes(t, Pick(o, st, 0, |t| - 1), Pick(o, st.After(1), 0, |t| - 1));
  }

  /** The list after `rounds` rounds of three_sort's loop from state `st`,
      each round taking two draws. */
  function SwapRounds(o: Oracle, st: State, s: seq<int>, rounds: nat): (r: seq<int>)
    requires |s| >= 1
    ensures |r| == |s|
    decreases rounds
  {
    if rounds == 0 then s
    else Exchanged(o, st.After(2 * (rounds - 1)), SwapRounds(o, st, s, rounds - 1))
  }

  /** Swap rounds only rearrange the list. */
  lemma {:induction false} SwapRoundsPermutes(o: Oracle, st: State, s: seq<int>, rounds: nat)
    requires |s| >= 1
    ensures multiset(SwapRounds(o, st, s, rounds)) == multiset(s)
    decreases rounds
  {
    if rounds > 0 {
      SwapRoundsPermutes(o, st, s, rounds - 1);
      ExchangedPermutes(o, st.After(2 * (rounds - 1)), SwapRounds(o, st, s, rounds - 1));
    }
  }

  /** One round of three_sort's loop on a list of length n from state `st`:
      two draws from randint(0, n-1), then the exchange; the first draw raises
      when n <= 0. */
  method SwapRound(o: Oracle, st: State, l: seq<int>, n: int) returns (r: Result<(seq<int>, State)>)
    requires |l| == Count(n)
    ensures r.Ok? <==> n >= 1
    ensures r.Err? ==> r.error == EmptyRange(0, n - 1)
    ensures r.Ok? ==> r.value == (Exchanged(o, st, l), st.After(2))
  {
    var first := RandInt(o, st, 0, n - 1);
    if first.Err? {
      return Err(first.error);
    }
    var (i, next) := first.value;
    var j := Pick(o, next, 0, n - 1);
    assert i == Pick(o, st, 0, |l| - 1) && j == Pick(o, st.After(1), 0, |l| - 1);
    r := Ok((Swap(l, i, j), next.After(1)));
  }

  /** three_sort(n): list(range(n)) after three random exchanges; for n <= 0
      the first randint(0, n-1) raises. */
  method ThreeSort(o: Oracle, n: int) returns (r: Result<seq<int>>)
    ensures r.Ok? <==> n >= 1
    ensures r.Err? ==> r.error == EmptyRange(0, n - 1)
    ensures r.Ok? ==> r.value == SwapRounds(o, Seed(n), Range(n), 3)
  {
    var st := Seed(n);
    var l := Range(n);
    for round := 0 to 3
      invariant round > 0 ==> n >= 1
      invariant |l| == Count(n)
      invariant st == Seed(n).After(2 * round)
      invariant n >= 1 ==> l == SwapRounds(o, Seed(n), Range(n), round)
    {
      var next := SwapRound(o, st, l, n);
      if next.Err? {
        return Err(next.error);
      }
      l, st := next.value.0, next.value.1;
    }
    r := Ok(l);
  }

  /** plus_sort(n): list(range(n)) followed by ten draws from randint(0, n-1);
      for n <= 0 the first draw raises. */
  function PlusSort(o: Oracle, n: int): (r: Result<seq<int>>)
    ensures r.Ok? <==> n >= 1
    ensures r.Err? ==> r.error == EmptyRange(0, n - 1)
    ensures r.Ok? ==> |r.value| == n + 10 && r.value[..n] == Range(n)
    ensures r.Ok? ==> forall i :: n <= i < n + 10 ==> 0 <= r.value[i] <= n - 1
  {
    match RandInts(o, Seed(n), 10, 0, n - 1)
    case Err(e) => Err(e)
    case Ok(extra) => Ok(Range(n) + extra)
  }

  /** The list after `rounds` rounds of percent_sort's loop from state `st`.
      In `L[randint(0,n-1)] = randint(0,n-1)` Python evaluates the right-hand
      side first, so each round draws the value, then the index. */
  function Overwrites(o: Oracle, st: State, s: seq<int>, rounds: nat): (r: seq<int>)
    requires |s| >= 1 || rounds == 0
    ensures |r| == |s|
    decreases rounds
  {
    if rounds == 0 then s
    else
      var t := Overwrites(o, st, s, rounds - 1);
      var round := st.After(2 * (rounds - 1));
      t[Pick(o, round.After(1), 0, |s| - 1) := Pick(o, round, 0, |s| - 1)]
  }

  /** The positions whose element is not its own index. */
  function Displaced(s: seq<int>): set<int>
  {
    set i | 0 <= i < |s| && s[i] != i
  }

  /** Every value an overwrite round writes lies in [0, n-1], as do the
      elements of range(n). */
  lemma {:induction false} OverwritesInRange(o: Oracle, st: State, n: nat, rounds: nat)
    requires n >= 1 || rounds == 0
    ensures forall i :: 0 <= i < n ==> 0 <= Overwrites(o, st, Range(n), rounds)[i] < n
    decreases rounds
  {
    if rounds > 0 {
      OverwritesInRange(o, st, n, rounds - 1);
    }
  }

  /** Each overwrite round displaces at most one more position. */
  lemma {:induction false} OverwritesDisplace(o: Oracle, st: State, n: nat, rounds: nat)
    requires n >= 1 || rounds == 0
    ensures |Displaced(Overwrites(o, st, Range(n), rounds))| <= rounds
    decreases rounds
  {
    if rounds == 0 {
      assert Displaced(Range(n)) == {};
    } else {
      var t := Overwrites(o, st, Range(n), rounds - 1);
      var round := st.After(2 * (rounds - 1));
      var at := Pick(o, round.After(1), 0, n - 1);
      var u := Overwrites(o, st, Range(n), rounds);
      assert u == t[at := Pick(o, round, 0, n - 1)];
      OverwritesDisplace(o, st, n, rounds - 1);
      assert Displaced(u) <= Displaced(t) + {at};
      SubsetSize(Displaced(u), Displaced(t) + {at});
    }
  }

  lemma SubsetSize(a: set<int>, b: set<int>)
    requires a <= b
    ensures |a| <= |b|
  {
    assert b == a + (b - a);
    assert a * (b - a) == {};
  }

  /** percent_sort(n): list(range(n)) with n // 100 random positions
      overwritten by random values of [0, n-1]. */
  method PercentSort(o: Oracle, n: int) returns (r: seq<int>)
    ensures r == Overwrites(o, Seed(n), Range(n), Count(n / 100))
    ensures |r| == Count(n)
    ensures forall i :: 0 <= i < |r| ==> 0 <= r[i] < n
    ensures |Displaced(r)| <= Count(n / 100)
    ensures n < 100 ==> r == Range(n)
  {
    var st := Seed(n);
    var l := Range(n);
    var rounds := Count(n / 100);
    for round := 0 to rounds
      invariant st == Seed(n).After(2 * round)
      invariant l == Overwrites(o, Seed(n), Range(n), round)
    {
      var value := Pick(o, st, 0, n - 1);
      var i := Pick(o, st.After(1), 0, n - 1);
      assert |l| == n;
      l := l[i := value];
      st := st.After(2);
    }
    r := l;
    OverwritesInRange(o, Seed(n), Count(n), rounds);
    OverwritesDisplace(o, Seed(n), Count(n), rounds);
  }

  /** [0]*(n//4) + [1]*(n//4) + [2]*(n//4) + [3]*(n//4) */
  function Buckets(n: int): seq<int>
  {
    Repeat(0, n / 4) + Repeat(1, n / 4) + Repeat(2, n / 4) + Repeat(3, n / 4)
  }

  /** Each of 0, 1, 2, 3 fills one quarter of the buckets, and nothing else occurs. */
  lemma BucketCounts(n: int, v: int)
    ensures |Buckets(n)| == 4 * Count(n / 4)
    ensures multiset(Buckets(n))[v] == if 0 <= v < 4 then Count(n / 4) else 0
  {
    RepeatCounts(0, n / 4, v);
    RepeatCounts(1, n / 4, v);
    RepeatCounts(2, n / 4, v);
    RepeatCounts(3, n / 4, v);
  }

  /** tilde_sort(n): the four buckets, shuffled in place. */
  method TildeSort(o: Oracle, n: int) returns (r: seq<int>)
    ensures r == Shuffled(o, Seed(n), Buckets(n))
    ensures |r| == 4 * Count(n / 4)
    ensures forall v :: 0 <= v < 4 ==> multiset(r)[v] == Count(n / 4)
    ensures forall x :: x in r ==> 0 <= x < 4
  {
    var buckets := Buckets(n);
    var a := new int[|buckets|](i requires 0 <= i < |buckets| => buckets[i]);
    assert a[..] == buckets;
    Shuffle(o, Seed(n), a);
    r := a[..];
    ShuffledPermutes(o, Seed(n), buckets);
    forall v | 0 <= v < 4
      ensures multiset(r)[v] == Count(n / 4)
    {
      BucketCounts(n, v);
    }
    forall x | x in r
      ensures 0 <= x < 4
    {
      BucketCounts(n, x);
    }
    BucketCounts(n, 0);
  }

  /** equal_sort(n): [0]*n. */
  function EqualSort(n: int): (r: seq<int>)
    ensures |r| == Count(n)
    ensures forall i :: 0 <= i < |r| ==> r[i] == 0
  {
    Repeat(0, n)
  }

  // ---------------------------------------------------------------- dispatch

  /** The generators that can raise: those that draw from randint(0, n-1). */
  predicate Fails(shape: Shape, n: int)
  {
    (shape == Three || shape == Plus) && n <= 0
  }

  /** Length of a generated list: n, except the ten extra draws of `+` and
      the dropped remainder of the four buckets of `~`. */
  function Size(shape: Shape, n: int): nat
  {
    match shape
    case Plus => Count(n + 10)
    case Tilde => 4 * Count(n / 4)
    case _ => Count(n)
  }

  /** func(n) for the catalog entry `shape`. */
  method Generate(o: Oracle, shape: Shape, n: int) returns (r: Result<seq<int>>)
    ensures r.Err? <==> Fails(shape, n)
    ensures r.Err? ==> r.error == EmptyRange(0, n - 1)
    ensures r.Ok? ==> |r.value| == Size(shape, n)
    ensures shape == Star ==> r == Ok(StarSort(o, n))
    ensures shape == Backslash ==> r.Ok? && forall i :: 0 <= i < |r.value| ==> r.value[i] == Count(n) - 1 - i
    ensures shape == Slash ==> r == Ok(SlashSort(n))
    ensures shape == Three && r.Ok? ==> r.value == SwapRounds(o, Seed(n), Range(n), 3)
    ensures shape == Plus ==> r == PlusSort(o, n)
    ensures shape == Percent ==> r == Ok(Overwrites(o, Seed(n), Range(n), Count(n / 100)))
    ensures shape == Tilde ==> r == Ok(Shuffled(o, Seed(n), Buckets(n)))
    ensures shape == Equal ==> r == Ok(EqualSort(n))
  {
    match shape
    case Star => r := Ok(StarSort(o, n));
    case Backslash => var l := BackslashSort(n); r := Ok(l);
    case Slash => r := Ok(SlashSort(n));
    case Three => r := ThreeSort(o, n);
    case Plus => r := PlusSort(o, n);
    case Percent => var l := PercentSort(o, n); r := Ok(l);
    case Tilde => var l := TildeSort(o, n); r := Ok(l);
    case Equal => r := Ok(EqualSort(n));
  }
}
