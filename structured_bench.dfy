/** The main loop of bench-structured.py: for every iteration, every catalog
    entry and every size of range(start_size, end_size, step), build the
    list, sort it while the sort's printed output is captured, read `TOT <n>`
    from the capture and add it to the entry's running total; after the sizes
    the total is appended to the entry's list in `times`.

    The sort and the redirection of standard output are not modelled: a
    Capture gives the text the sort printed for one call, so different
    iterations may report different durations. */
module StructuredBench {
  import opened Results
  import opened Ranges
  import opened Random
  import opened Instrumentation
  import opened StructuredLists

  /** Capture(iteration, entry, n): the text the sort printed while sorting func(n). */
  type Capture = (nat, Shape, int) -> string

  /** One measurement: the generator can raise first; otherwise the captured
      text must hold the duration. */
  function Measure(capture: Capture, iteration: nat, shape: Shape, n: int): Result<nat>
  {
    if Fails(shape, n) then Err(EmptyRange(0, n - 1))
    else ParseTot(capture(iteration, shape, n))
  }

  /** The measurement of every size, in loop order. */
  function Measurements(capture: Capture, iteration: nat, shape: Shape, sizes: seq<int>): (ms: seq<Result<nat>>)
    ensures |ms| == |sizes|
  {
    seq(|sizes|, i requires 0 <= i < |sizes| => Measure(capture, iteration, shape, sizes[i]))
  }

  /** total_time after the first m measurements of `ms`, in order: their
      sum, or the first failure. */
  function SumOver(ms: seq<Result<nat>>, m: nat): Result<nat>
    requires m <= |ms|
  {
    if m == 0 then Ok(0)
    else
      var sum := SumOver(ms, m - 1);
      if sum.Err? then sum
      else if ms[m - 1].Err? then ms[m - 1]
      else Ok(sum.value + ms[m - 1].value)
  }

  /** The value appended to times[label] in iteration `iteration`, or why the run stops there. */
  function Total(capture: Capture, iteration: nat, shape: Shape, start: int, step: int, stop: int): Result<nat>
  {
    if step == 0 then Err(ZeroStep)
    else
      var ms := Measurements(capture, iteration, shape, Steps(start, stop, step));
      SumOver(ms, |ms|)
  }

  /** The sum of the first m measured durations, when all succeed. */
  function Sum(ms: seq<Result<nat>>, m: nat): nat
    requires m <= |ms|
    requires forall i :: 0 <= i < m ==> ms[i].Ok?
  {
    if m == 0 then 0 else Sum(ms, m - 1) + ms[m - 1].value
  }

  /** A sum over sizes succeeds exactly when every measurement does, and is
      then the sum of the measured durations. */
  lemma {:induction false} SumOverOk(ms: seq<Result<nat>>, m: nat)
    requires m <= |ms|
    ensures SumOver(ms, m).Ok? <==> forall i :: 0 <= i < m ==> ms[i].Ok?
    ensures SumOver(ms, m).Ok? ==> SumOver(ms, m).value == Sum(ms, m)
  {
    if m > 0 {
      SumOverOk(ms, m - 1);
    }
  }

  /** Once the first m measurements fail, the whole loop fails with the same error. */
  lemma {:induction false} SumOverFailureSticks(ms: seq<Result<nat>>, m: nat, n: nat)
    requires m <= n <= |ms|
    requires SumOver(ms, m).Err?
    ensures SumOver(ms, n) == SumOver(ms, m)
    decreases n
  {
    if m < n {
      SumOverFailureSticks(ms, m, n - 1);
    }
  }

  /** One pass of the size loop for one catalog entry. */
  method TimeEntry(o: Oracle, capture: Capture, iteration: nat, shape: Shape, start: int, step: int, stop: int)
    returns (r: Result<nat>)
    ensures r == Total(capture, iteration, shape, start, step, stop)
  {
    if step == 0 {
      return Err(ZeroStep);
    }
    var sizes := Steps(start, stop, step);
    ghost var ms := Measurements(capture, iteration, shape, sizes);
    var total := 0;
    for m := 0 to |sizes|
      invariant SumOver(ms, m) == Ok(total)
    {
      var next := TimeSize(o, capture, iteration, shape, sizes, m, total);
      if next.Err? {
        SumOverFailureSticks(ms, m + 1, |ms|);
        return next;
      }
      total := next.value;
    }
    r := Ok(total);
  }

  /** The body of the size loop for the m-th size n: build func(n), which may
      raise, read the duration the sort printed and add it to total_time. */
  method TimeSize(o: Oracle, capture: Capture, iteration: nat, shape: Shape, sizes: seq<int>, m: nat, total: nat)
    returns (r: Result<nat>)
    requires m < |sizes|
    requires SumOver(Measurements(capture, iteration, shape, sizes), m) == Ok(total)
    ensures r == SumOver(Measurements(capture, iteration, shape, sizes), m + 1)
  {
    var n := sizes[m];
    assert Measurements(capture, iteration, shape, sizes)[m] == Measure(capture, iteration, shape, n);
    var list := Generate(o, shape, n);
    if list.Err? {
      return Err(list.error);
    }
    var time := ParseTot(capture(iteration, shape, n));
    if time.Err? {
      return Err(time.error);
    }
    r := Ok(total + time.value);
  }

  /** The entry for `shape` holds the totals of its first `count` iterations. */
  predicate Recorded(capture: Capture, start: int, step: int, stop: int, times: map<string, seq<nat>>, shape: Shape, count: nat)
  {
    var key := Label(shape);
    key in times && |times[key]| == count &&
    forall k :: 0 <= k < count ==> Total(capture, k, shape, start, step, stop) == Ok(times[key][k])
  }

  /** Changing the list under another label leaves an entry's record as it was. */
  lemma RecordedElsewhere(capture: Capture, start: int, step: int, stop: int, times: map<string, seq<nat>>,
                          shape: Shape, count: nat, key: string, entries: seq<nat>)
    requires Label(shape) != key
    ensures Recorded(capture, start, step, stop, times[key := entries], shape, count)
            == Recorded(capture, start, step, stop, times, shape, count)
  {
    var own := Label(shape);
    assert own in times[key := entries] <==> own in times;
    assert own in times ==> times[key := entries][own] == times[own];
  }

  /** Appending an entry's total for the next iteration extends its record by one. */
  lemma RecordedAppend(capture: Capture, start: int, step: int, stop: int, times: map<string, seq<nat>>,
                       shape: Shape, iteration: nat, total: nat)
    requires Recorded(capture, start, step, stop, times, shape, iteration)
    requires Total(capture, iteration, shape, start, step, stop) == Ok(total)
    ensures var key := Label(shape);
            Recorded(capture, start, step, stop, times[key := times[key] + [total]], shape, iteration + 1)
  {
    var key := Label(shape);
    var entries := times[key] + [total];
    forall k | 0 <= k < iteration + 1
      ensures Total(capture, k, shape, start, step, stop) == Ok(entries[k])
    {
      if k < iteration {
        assert entries[k] == times[key][k];
      }
    }
  }

  /** One pass over the catalog: every entry gets this iteration's total
      appended, or the run stops at the first entry whose loop fails. */
  method TimeIteration(o: Oracle, capture: Capture, iteration: nat, start: int, step: int, stop: int,
                       times: map<string, seq<nat>>)
    returns (r: Result<map<string, seq<nat>>>)
    requires times.Keys == Labels()
    requires forall i :: 0 <= i < |Catalog| ==> Recorded(capture, start, step, stop, times, Catalog[i], iteration)
    ensures r.Ok? <==> forall j :: 0 <= j < |Catalog| ==> Total(capture, iteration, Catalog[j], start, step, stop).Ok?
    ensures r.Err? ==> exists j :: 0 <= j < |Catalog| &&
                                  Total(capture, iteration, Catalog[j], start, step, stop) == Err(r.error) &&
                                  forall i :: 0 <= i < j ==> Total(capture, iteration, Catalog[i], start, step, stop).Ok?
    ensures r.Ok? ==> r.value.Keys == Labels()
    ensures r.Ok? ==> forall i :: 0 <= i < |Catalog| ==>
                        Recorded(capture, start, step, stop, r.value, Catalog[i], iteration + 1)
  {
    var next := times;
    for j := 0 to |Catalog|
      invariant next.Keys == Labels()
      invariant forall i :: 0 <= i < j ==> Recorded(capture, start, step, stop, next, Catalog[i], iteration + 1)
      invariant forall i :: j <= i < |Catalog| ==> Recorded(capture, start, step, stop, next, Catalog[i], iteration)
      invariant forall i :: 0 <= i < j ==> Total(capture, iteration, Catalog[i], start, step, stop).Ok?
    {
      var shape := Catalog[j];
      var total := TimeEntry(o, capture, iteration, shape, start, step, stop);
      if total.Err? {
        return Err(total.error);
      }
      LabelsOfCatalog(j);
      var key := Label(shape);
      RecordedAppend(capture, start, step, stop, next, shape, iteration, total.value);
      var entries := next[key] + [total.value];
      forall i | 0 <= i < |Catalog| && i != j
        ensures Recorded(capture, start, step, stop, next[key := entries], Catalog[i], iteration)
                == Recorded(capture, start, step, stop, next, Catalog[i], iteration)
        ensures Recorded(capture, start, step, stop, next[key := entries], Catalog[i], iteration + 1)
                == Recorded(capture, start, step, stop, next, Catalog[i], iteration + 1)
      {
        RecordedElsewhere(capture, start, step, stop, next, Catalog[i], iteration, key, entries);
        RecordedElsewhere(capture, start, step, stop, next, Catalog[i], iteration + 1, key, entries);
      }
      next := next[key := entries];
    }
    r := Ok(next);
  }

  /** run_benchmark(iterations, start_size, step, end_size): the `times` map. */
  method RunBenchmark(o: Oracle, capture: Capture, iterations: int, start: int, step: int, stop: int)
    returns (r: Result<map<string, seq<nat>>>)
    ensures r.Ok? <==> forall k, j :: 0 <= k < Count(iterations) && 0 <= j < |Catalog| ==>
                                       Total(capture, k, Catalog[j], start, step, stop).Ok?
    ensures r.Err? ==> exists k, j :: 0 <= k < Count(iterations) && 0 <= j < |Catalog| &&
                                     Total(capture, k, Catalog[j], start, step, stop) == Err(r.error) &&
                                     (forall i :: 0 <= i < j ==> Total(capture, k, Catalog[i], start, step, stop).Ok?) &&
                                     forall k', i :: 0 <= k' < k && 0 <= i < |Catalog| ==>
                                       Total(capture, k', Catalog[i], start, step, stop).Ok?
    ensures r.Ok? ==> r.value.Keys == Labels()
    ensures r.Ok? ==> forall j :: 0 <= j < |Catalog| ==>
                        Recorded(capture, start, step, stop, r.value, Catalog[j], Count(iterations))
  {
    var times: map<string, seq<nat>> := map key | key in Labels() :: [];
    forall i | 0 <= i < |Catalog|
      ensures Recorded(capture, start, step, stop, times, Catalog[i], 0)
    {
      LabelsOfCatalog(i);
    }
    for iteration := 0 to Count(iterations)
      invariant times.Keys == Labels()
      invariant forall j :: 0 <= j < |Catalog| ==> Recorded(capture, start, step, stop, times, Catalog[j], iteration)
      invariant forall k, j :: 0 <= k < iteration && 0 <= j < |Catalog| ==>
                  Total(capture, k, Catalog[j], start, step, stop).Ok?
    {
      var next := TimeIteration(o, capture, iteration, start, step, stop, times);
      if next.Err? {
        return Err(next.error);
      }
      times := next.value;
    }
    r := Ok(times);
  }

  /** Every catalog label is a key, and distinct entries have distinct keys. */
  lemma LabelsOfCatalog(j: nat)
    requires j < |Catalog|
    ensures Label(Catalog[j]) in Labels()
    ensures forall i :: 0 <= i < |Catalog| && i != j ==> Label(Catalog[i]) != Label(Catalog[j])
  {
    forall i | 0 <= i < |Catalog| && i != j
      ensures Label(Catalog[i]) != Label(Catalog[j])
    {
      LabelInjective(Catalog[i], Catalog[j]);
    }
  }
}
