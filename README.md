# Sorting benchmark harness, modelled in Dafny

The harness times CPython's list sort on many input distributions. It has
two scripts. `bench-structured.py` builds integer lists with structure:
random, descending, ascending, three swaps away from sorted, sorted with ten
random values appended, sorted with n/100 random overwrites, four shuffled
buckets, and constant. The sort is instrumented to print `TOT <ticks>`.
`bench.py` builds lists of one element type: floats, small ints, ints with
one huge sentinel, latin strings, strings with one `"\uffff"` sentinel, and
floats with one int. It sorts each list once as is and once boxed in
one-element tuples, and the sort prints `SORT TIME: <ticks>` per call.
Each script's `run_benchmark` loops over iterations, catalog entries and the
sizes of `range(start_size, end_size, step)`. It reads the printed durations
back from the captured text, sums them per entry and appends one total per
iteration to a dictionary keyed by the entry's label.

The model has eight modules, one per file:

- `Results` (results.dfy): the exceptions the harness lets escape, as `Failure`, and a `Result` type.
- `Ranges` (ranges.dfy): `range(n)`, `range(start, stop, step)` and `[v]*k` over unbounded integers.
- `Random` (random.dfy): the seeded `random` module seen from outside, as an abstract oracle that
  gives each draw from the seed, the draw's index and its bound. It provides
  `randint`, `random()`, and `shuffle` (a method over an array).
- `Instrumentation` (instrumentation.dfy): the two `re.match` parses of the captured text, with
  their round trips and their failure on text that does not match.
- `StructuredLists` (structured_lists.dfy): the eight generators and the catalog of bench-structured.py.
  `three_sort` and `percent_sort` are loops over a local list. `backslash_sort` reverses an array
  in place, and `tilde_sort` shuffles one.
- `StructuredBench` (structured_bench.dfy): bench-structured.py's `run_benchmark`, as methods whose
  loops keep the `times` invariants.
- `ShapeLists` (shape_lists.dfy): the six generators, the catalog and `tuplify` of bench.py.
- `ShapeBench` (shape_bench.dfy): bench.py's `run_benchmark`, with its two running totals and two maps.

Each loop of `run_benchmark` is a method proved against a specification function:

- `Total`/`Totals`: the sum of the parsed durations over the sizes, or the first failure.
- `Recorded`: an entry's list has one element per finished iteration, and element k is iteration k's total.

Lemmas then relate these functions to the plain sum and to map updates.

## Model

| member | source | states |
|---|---|---|
| Ranges.Range | bench-structured.py:22 | `list(range(n))` has max(n, 0) elements and element i is i |
| Ranges.StepsProgression | bench-structured.py:70 | `range(start, stop, step)` is the progression start + i*step. Every term is below stop (above it for a negative step), and the next term would not be |
| Ranges.Repeat | bench-structured.py:51 | `[v]*k` has max(k, 0) elements, all equal to v |
| Ranges.RepeatCounts | bench-structured.py:45 | `[v]*k` holds v exactly max(k, 0) times and no other value |
| Random.RandInt | bench-structured.py:24 | `randint(lo, hi)` returns a value of [lo, hi] and advances the generator by one draw; it raises exactly when lo > hi |
| Random.RandInts | bench-structured.py:32 | n calls of `randint(lo, hi)` give n values, the i-th being the i-th draw; they raise exactly when n > 0 and the range is empty |
| Random.Random01 | bench.py:6 | `random()` lies in [0, 1) |
| Random.SwapPermutes | bench-structured.py:25 | exchanging two elements keeps the multiset of elements |
| Random.ShuffleStepPermutes | bench-structured.py:46 | one step of `shuffle` keeps the multiset of elements |
| Random.ShuffleStepsPermutes | bench-structured.py:46 | any number of steps of `shuffle` keeps the multiset of elements |
| Random.ShuffledPermutes | bench-structured.py:46 | `shuffle` is a permutation whatever the generator draws |
| Random.Shuffle | bench-structured.py:46 | shuffling the array in place leaves exactly the Fisher-Yates result of its old contents |
| Instrumentation.DigitRun | bench-structured.py:74 | the greedy `\d+` takes a run of digits and stops before the first non-digit |
| Instrumentation.ScanMatches | bench-structured.py:74-76 | `re.match(tag + '(\d+)')` succeeds exactly when the text starts with the tag and a digit. It then reads the longest digit run, whose next character is not a digit, as a decimal number |
| Instrumentation.ScanNumeral | bench-structured.py:74-76 | a tag, then the numeral of v, then a non-digit or nothing, matches as v, ending just after the numeral |
| Instrumentation.ParseTot | bench-structured.py:74-77 | the `TOT` parse succeeds exactly when the text starts with `TOT ` and a digit; otherwise it fails with NoMatch, the AttributeError that `.groups()` on None raises |
| Instrumentation.ParseTotNumeral | bench-structured.py:74-77 | round trip: `TOT <v>` followed by anything that does not start with a digit parses to v |
| Instrumentation.ParseTotRejects | bench-structured.py:74-76 | text that does not start with `TOT ` is a failure, never a zero duration |
| Instrumentation.ParseSortTimes | bench.py:59-63 | the two-value parse succeeds only on text that starts with `SORT TIME: `; every failure is NoMatch, the AttributeError that `.groups()` on None raises |
| Instrumentation.ParseSortTimesAccepts | bench.py:59-63 | the parse succeeds exactly when the text starts with `SORT TIME: ` and a digit and, right after that digit run, `\nSORT TIME: ` and a digit follow |
| Instrumentation.ParseSortTimesRejects | bench.py:59-63 | a first `SORT TIME` line not followed by a second one fails with NoMatch; there is no fallback for the missing duration |
| Instrumentation.ParseSortTimesNumerals | bench.py:59-63 | round trip: `SORT TIME: <a>\nSORT TIME: <b>`, then text not starting with a digit, parses to (a, b) in call order |
| StructuredLists.LabelInjective | bench-structured.py:7-52 | the eight catalog labels are distinct |
| StructuredLists.StarSort | bench-structured.py:4-6 | `star_sort(n)` has max(n, 0) elements, all in [-2**31, 2**31] |
| StructuredLists.Reverse | bench-structured.py:11 | `L.reverse()` puts the old element n-1-k at position k |
| StructuredLists.BackslashSort | bench-structured.py:9-12 | `backslash_sort(n)` has max(n, 0) elements and element i is n-1-i |
| StructuredLists.SlashSort | bench-structured.py:15-17 | `slash_sort(n)` is 0, 1, ..., n-1 |
| StructuredLists.ExchangedPermutes | bench-structured.py:24-25 | one round of `three_sort` keeps the multiset of elements |
| StructuredLists.SwapRoundsPermutes | bench-structured.py:23-25 | any number of rounds of `three_sort` keeps the multiset of elements |
| StructuredLists.SwapRound | bench-structured.py:24-25 | one round draws a and b from [0, n-1], exchanges L[a] and L[b] and advances by two draws. The first draw raises exactly when n <= 0 |
| StructuredLists.ThreeSort | bench-structured.py:20-26 | `three_sort(n)` raises `randint(0, n-1)`'s error exactly when n <= 0. Otherwise it is `range(n)` after three rounds of exchanges, each drawn from the state after random.seed(n) |
| StructuredLists.PlusSort | bench-structured.py:29-32 | `plus_sort(n)` raises exactly when n <= 0. Otherwise it has n + 10 elements: `range(n)`, then ten values of [0, n-1] |
| StructuredLists.OverwritesInRange | bench-structured.py:38-39 | every element after any number of overwrite rounds on `range(n)` lies in [0, n-1] |
| StructuredLists.OverwritesDisplace | bench-structured.py:38-39 | after r overwrite rounds on `range(n)`, at most r positions differ from their index |
| StructuredLists.PercentSort | bench-structured.py:35-40 | `percent_sort(n)` runs n // 100 rounds that draw the value, then the index. It has max(n, 0) elements, all in [0, n-1], and at most n // 100 differ from their index. For n < 100 it is `range(n)` |
| StructuredLists.BucketCounts | bench-structured.py:45 | the buckets have 4 * (n // 4) elements: each of 0..3 occurs n // 4 times and no other value occurs |
| StructuredLists.TildeSort | bench-structured.py:43-47 | `tilde_sort(n)` is the shuffle of the buckets. It has 4 * (n // 4) elements, each of 0..3 occurs exactly n // 4 times, and nothing else occurs |
| StructuredLists.EqualSort | bench-structured.py:50-51 | `equal_sort(n)` is max(n, 0) zeros |
| StructuredLists.Generate | bench-structured.py:68-73 | `func(n)` for a catalog entry raises exactly for `3sort` and `+sort` with n <= 0. Otherwise it returns a list of the entry's length, and that list is the one the entry's own generator builds. The randomised ones draw after `random.seed(n)`: the three swap rounds for `3sort`, the overwrites for `%sort`, the shuffled buckets for `~sort`. `\sort` gives the descending range and `=sort` all zeros |
| StructuredBench.SumOverOk | bench-structured.py:69-77 | the size loop's total succeeds exactly when every measurement does, and is then the sum of the measured durations |
| StructuredBench.SumOverFailureSticks | bench-structured.py:70-77 | once a measurement fails, later sizes do not change the outcome: the first failure escapes |
| StructuredBench.TimeSize | bench-structured.py:71-77 | one size adds its parsed duration to the running total. It fails if `func(n)` raises or the capture does not match `TOT` |
| StructuredBench.TimeEntry | bench-structured.py:69-77 | the size loop computes the entry's total for the iteration. It fails with `range`'s error for step 0, or with the first failing measurement |
| StructuredBench.LabelsOfCatalog | bench-structured.py:62 | every catalog label is a key of `times`, and distinct entries have distinct keys |
| StructuredBench.RecordedElsewhere | bench-structured.py:78 | appending under one label leaves every other entry's list unchanged |
| StructuredBench.RecordedAppend | bench-structured.py:78 | appending an iteration's total extends the entry's list by one element, that total |
| StructuredBench.TimeIteration | bench-structured.py:68-78 | one iteration keeps the key set. It succeeds exactly when every entry's total does, and then appends each entry's total to its own list. On failure the error is that of the first failing entry in catalog order |
| StructuredBench.RunBenchmark | bench-structured.py:61-81 | `times` has exactly the catalog labels as keys. Each list has one element per iteration, and element k is the sum over `range(start, end, step)` of the durations parsed in iteration k. The run fails exactly when some measurement fails, and then with the error of the first failing (iteration, entry) pair in loop order |
| ShapeLists.LabelInjective | bench.py:7-31 | the six catalog labels are distinct |
| ShapeLists.Truncate | bench.py:11 | `int(v)` truncates toward zero |
| ShapeLists.SmallInt | bench.py:11 | `int(2**31*x - 2**30)` for x in [0, 1) lies in [-2**30, 2**30) |
| ShapeLists.FloatList | bench.py:4-6 | `float_list(n)` has max(n, 0) floats in [0, 1) |
| ShapeLists.SmallIntList | bench.py:9-11 | `small_int_list(n)` has max(n, 0) ints in [-2**30, 2**30) |
| ShapeLists.IntList | bench.py:14-16 | `int_list(n)` is `small_int_list(n)` and then 2**64. It has max(n, 0) + 1 elements, and only the last one exceeds the signed 64-bit range |
| ShapeLists.LatinStringList | bench.py:19-21 | `latin_string_list(n)` is the text of max(n, 0) draws of `random()` |
| ShapeLists.StringList | bench.py:24-26 | `string_list(n)` is `latin_string_list(n)` and then `"\uffff"`, max(n, 0) + 1 elements |
| ShapeLists.HeterogeneousList | bench.py:29-30 | `heterogeneous_list(n)` is `float_list(n)` and then the int 0, max(n, 0) + 1 elements |
| ShapeLists.Generate | bench.py:57-58 | `func(n)` for a catalog entry has the entry's length: n, plus one for the lists with a sentinel |
| ShapeLists.Tuplify | bench.py:34-35 | `tuplify(L)` has the length of L and only one-element tuples |
| ShapeLists.TuplifyRoundTrip | bench.py:34-35 | unboxing every tuple of `tuplify(L)` gives L back, so element i is `(L[i],)` |
| ShapeBench.SumOverOk | bench.py:53-63 | both running totals succeed exactly when every capture parses. They are then the sum of the first numbers and the sum of the second numbers |
| ShapeBench.SumOverFailureSticks | bench.py:54-63 | once a capture fails to parse, later sizes do not change the outcome |
| ShapeBench.TimeSize | bench.py:55-63 | one size builds `func(n)` twice and adds the scalar duration and the tuple duration to their running totals. It fails if the capture does not match |
| ShapeBench.TimeEntry | bench.py:53-63 | the size loop computes the entry's pair of totals. It fails with `range`'s error for step 0, or with the first failing parse |
| ShapeBench.LabelsOfCatalog | bench.py:45-46 | every catalog label is a key of both maps, and distinct entries have distinct keys |
| ShapeBench.RecordedElsewhere | bench.py:64-65 | appending under one label leaves every other entry's lists in both maps unchanged |
| ShapeBench.RecordedAppend | bench.py:64-65 | appending an iteration's totals extends the entry's list in each map by one element |
| ShapeBench.TimeIteration | bench.py:52-65 | one iteration keeps both key sets. It succeeds exactly when every entry's totals do, and then appends them to the entry's lists. On failure the error is that of the first failing entry in catalog order |
| ShapeBench.RunBenchmark | bench.py:44-68 | both maps have exactly the catalog labels as keys, and each list has one element per iteration. Element k of a `scalar_times` (`tuple_times`) list is the sum of the first (second) numbers parsed in iteration k. The run fails exactly when some parse fails, and then with the error of the first failing (iteration, entry) pair in loop order |

## Left out

- The `.sort()` calls and `stdout_redirector`, `io.BytesIO` and the UTF-8 decode are not modelled. A `Capture` parameter gives the text printed for (iteration, entry, n), so the durations are inputs.
- `Capture` is keyed by the catalog entry rather than by the label string. The labels are proved distinct, so the two are interchangeable.
- The internals of `random` are not modelled. An `Oracle` gives each draw from the seed, its index and its bound. `random()` is one draw of k / 2**53, where CPython takes two 32-bit words.
- The float formatting of `str(random())` is a `Format` parameter, so the characters of `latin_string_list` are not modelled.
- The progress `print`s, `pickle.dump` to `sys.argv[1]` and the constants in `main` are I/O and persistence, and are not modelled.
- Only ASCII digits are taken for `\d`. Python 3 also accepts other Unicode decimal digits there.
- Instrumentation.ParseSortTimes: its own contract gives only the necessary condition (the text starts with `SORT TIME: `). The exact condition for success is stated by ParseSortTimesAccepts, and the values parsed are stated by ParseSortTimesNumerals.
- `three_sort` and `percent_sort` mutate a local Python list. They are modelled as loops that reassign a local sequence, because no other reference to the list exists while they run.
