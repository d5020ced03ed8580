/** Reading the durations the instrumented sort prints.

    Both harnesses call re.match on the captured text: the pattern is anchored
    at the start of the text, `(\d+)` takes the longest run of digits there,
    anything after the match is ignored, and a text that does not match gives
    None, whose .groups() raises; there is no fallback value. Only ASCII
    digits are recognised here (Python 3's `\d` also accepts other Unicode
    decimal digits). */
module Instrumentation {
  import opened Results

  predicate IsDigit(c: char)
  {
    '0' <= c <= '9'
  }

  predicate AllDigits(s: string)
  {
    forall i :: 0 <= i < |s| ==> IsDigit(s[i])
  }

  /** Length of the longest run of digits at the start of s: what the greedy `\d+` consumes. */
  function DigitRun(s: string): (k: nat)
    ensures k <= |s| && AllDigits(s[..k])
    ensures k < |s| ==> !IsDigit(s[k])
  {
    if s != [] && IsDigit(s[0]) then
      var k := 1 + DigitRun(s[1..]);
      assert s[..k] == [s[0]] + s[1..][..k - 1];
      k
    else
      0
  }

  /** int(d) for a string of decimal digits. */
  function DecimalValue(d: string): nat
    requires AllDigits(d)
  {
    if d == [] then 0 else 10 * DecimalValue(d[..|d| - 1]) + (d[|d| - 1] as int - '0' as int)
  }

  function DigitChar(v: nat): (c: char)
    requires v < 10
    ensures IsDigit(c) && c as int - '0' as int == v
  {
    ('0' as int + v) as char
  }

  /** str(v): the decimal numeral of v, without leading zeros. */
  function Decimal(v: nat): (d: string)
    ensures 1 <= |d| && AllDigits(d)
    ensures DecimalValue(d) == v
    ensures |d| > 1 ==> d[0] != '0'
  {
    if v < 10 then [DigitChar(v)]
    else
      var d := Decimal(v / 10) + [DigitChar(v % 10)];
      assert d[..|d| - 1] == Decimal(v / 10);
      d
  }

  /** Outcome of matching `tag(\d+)` at the start of a text. */
  datatype Field = Absent | Found(value: nat, end: nat)

  /** re.match(tag + r'(\d+)', text): on success the number the digits spell
      and the index just past the last of them. */
  function Scan(tag: string, text: string): (m: Field)
    ensures m.Found? ==> |tag| < m.end <= |text|
  {
    if |tag| < |text| && text[..|tag|] == tag && IsDigit(text[|tag|]) then
      var k := DigitRun(text[|tag|..]);
      assert text[|tag|..][..k] == text[|tag|..|tag| + k];
      Found(DecimalValue(text[|tag|..|tag| + k]), |tag| + k)
    else
      Absent
  }

  /** The match succeeds exactly when the text starts with the tag and a
      digit; it then takes the longest run of digits, so the next character,
      if any, is not a digit, and reads their decimal value. */
  lemma ScanMatches(tag: string, text: string)
    ensures Scan(tag, text).Found? <==> |tag| < |text| && text[..|tag|] == tag && IsDigit(text[|tag|])
    ensures Scan(tag, text).Found? ==> AllDigits(text[|tag|..Scan(tag, text).end])
    ensures Scan(tag, text).Found? ==> Scan(tag, text).value == DecimalValue(text[|tag|..Scan(tag, text).end])
    ensures Scan(tag, text).Found? && Scan(tag, text).end < |text| ==> !IsDigit(text[Scan(tag, text).end])
  {
    if Scan(tag, text).Found? {
      var k := DigitRun(text[|tag|..]);
      assert text[|tag|..][..k] == text[|tag|..|tag| + k];
    }
  }

  /** The line the structural harness's sort prints: `TOT <ticks>`. */
  const TotTag := "TOT "

  /** The line the element-shape harness's sort prints, once per call. */
  const SortTimeTag := "SORT TIME: "

  /** What the two-value pattern expects between the two numbers. */
  const NextSortTimeTag := "\nSORT TIME: "

  /** re.match('TOT (\d+)', text).groups() followed by int(): the duration,
      or NoMatch. */
  function ParseTot(text: string): (r: Result<nat>)
    ensures r.Ok? <==> |text| > |TotTag| && text[..|TotTag|] == TotTag && IsDigit(text[|TotTag|])
    ensures r.Err? ==> r.error == NoMatch
  {
    match Scan(TotTag, text)
    case Absent => Err(NoMatch)
    case Found(v, _) => Ok(v)
  }

  /** re.match('SORT TIME: (\d+)\nSORT TIME: (\d+)', text).groups() followed
      by int() on each group: the scalar sort's duration, then the tuple
      sort's, or NoMatch. */
  function ParseSortTimes(text: string): (r: Result<(nat, nat)>)
    ensures r.Ok? ==> |text| > |SortTimeTag| && text[..|SortTimeTag|] == SortTimeTag
    ensures r.Err? ==> r.error == NoMatch
  {
    match Scan(SortTimeTag, text)
    case Absent => Err(NoMatch)
    case Found(first, end) =>
      match Scan(NextSortTimeTag, text[end..])
      case Absent => Err(NoMatch)
      case Found(second, _) => Ok((first, second))
  }

  /** The greedy digit run stops exactly after a numeral followed by a non-digit. */
  lemma {:induction false} DigitRunOfNumeral(d: string, rest: string)
    requires AllDigits(d)
    requires rest == [] || !IsDigit(rest[0])
    ensures DigitRun(d + rest) == |d|
    decreases |d|
  {
    if d != [] {
      assert (d + rest)[1..] == d[1..] + rest;
      DigitRunOfNumeral(d[1..], rest);
    } else {
      assert d + rest == rest;
    }
  }

  /** Matching a tag followed by a numeral reads that numeral back, whatever
      non-digit text follows it. */
  lemma ScanNumeral(tag: string, v: nat, rest: string)
    requires rest == [] || !IsDigit(rest[0])
    ensures Scan(tag, tag + Decimal(v) + rest) == Found(v, |tag| + |Decimal(v)|)
  {
    var d := Decimal(v);
    var text := tag + d + rest;
    assert text[..|tag|] == tag;
    assert text[|tag|] == d[0];
    assert text[|tag|..] == d + rest;
    DigitRunOfNumeral(d, rest);
    assert text[|tag|..|tag| + |d|] == d;
  }

  /** Round trip: the line `TOT <v>` parses back to v, and whatever the sort
      prints after the number (a newline, further lines) is ignored. */
  lemma ParseTotNumeral(v: nat, rest: string)
    requires rest == [] || !IsDigit(rest[0])
    ensures ParseTot(TotTag + Decimal(v) + rest) == Ok(v)
  {
    ScanNumeral(TotTag, v, rest);
  }

  /** The second number is read from where the first one ends. */
  lemma ParseSortTimesSplit(text: string, a: nat, end: nat, b: nat)
    requires Scan(SortTimeTag, text) == Found(a, end)
    requires Scan(NextSortTimeTag, text[end..]).Found? && Scan(NextSortTimeTag, text[end..]).value == b
    ensures ParseSortTimes(text) == Ok((a, b))
  {
  }

  lemma Regroup(p: string, q: string, r: string, s: string, t: string)
    ensures p + q + r + s + t == p + q + (r + s + t)
  {
    assert r + s + t == r + (s + t);
  }

  /** Round trip: two `SORT TIME` lines written in call order parse back to
      the two durations in that order; text after the second number is
      ignored. */
  lemma ParseSortTimesNumerals(a: nat, b: nat, rest: string)
    requires rest == [] || !IsDigit(rest[0])
    ensures ParseSortTimes(SortTimeTag + Decimal(a) + NextSortTimeTag + Decimal(b) + rest) == Ok((a, b))
  {
    var tail := NextSortTimeTag + Decimal(b) + rest;
    var text := SortTimeTag + Decimal(a) + tail;
    Regroup(SortTimeTag, Decimal(a), NextSortTimeTag, Decimal(b), rest);
    var end := |SortTimeTag| + |Decimal(a)|;
    assert NextSortTimeTag[0] == '\n';
    ScanNumeral(SortTimeTag, a, tail);
    assert text[end..] == tail;
    ScanNumeral(NextSortTimeTag, b, rest);
    ParseSortTimesSplit(text, a, end, b);
  }

  /** The two-value pattern matches exactly when the text starts with
      `SORT TIME: ` and a digit and, right after the longest run of digits
      there, `\nSORT TIME: ` and a digit follow. */
  lemma ParseSortTimesAccepts(text: string)
    ensures ParseSortTimes(text).Ok? <==>
              |SortTimeTag| < |text| && text[..|SortTimeTag|] == SortTimeTag && IsDigit(text[|SortTimeTag|]) &&
              (var end := |SortTimeTag| + DigitRun(text[|SortTimeTag|..]);
               |NextSortTimeTag| < |text| - end && text[end..end + |NextSortTimeTag|] == NextSortTimeTag &&
               IsDigit(text[end + |NextSortTimeTag|]))
  {
    ScanMatches(SortTimeTag, text);
    var first := Scan(SortTimeTag, text);
    if first.Found? {
      var end := first.end;
      assert end == |SortTimeTag| + DigitRun(text[|SortTimeTag|..]);
      ScanMatches(NextSortTimeTag, text[end..]);
      if |NextSortTimeTag| < |text| - end {
        assert text[end..][..|NextSortTimeTag|] == text[end..end + |NextSortTimeTag|];
        assert text[end..][|NextSortTimeTag|] == text[end + |NextSortTimeTag|];
      }
    }
  }

  /** A first line whose number is not followed by a second `SORT TIME` line
      (nothing more, a lone newline, another tag) is a parse failure: there is
      no fallback for the missing duration. */
  lemma ParseSortTimesRejects(a: nat, rest: string)
    requires rest == [] || !IsDigit(rest[0])
    requires !(|NextSortTimeTag| < |rest| && rest[..|NextSortTimeTag|] == NextSortTimeTag && IsDigit(rest[|NextSortTimeTag|]))
    ensures ParseSortTimes(SortTimeTag + Decimal(a) + rest) == Err(NoMatch)
  {
    var text := SortTimeTag + Decimal(a) + rest;
    ScanNumeral(SortTimeTag, a, rest);
    assert text[|SortTimeTag| + |Decimal(a)|..] == rest;
    ScanMatches(NextSortTimeTag, rest);
  }

  /** A text that does not start with the tag is a parse failure, never a zero duration. */
  lemma ParseTotRejects(text: string)
    requires |text| < |TotTag| + 1 || text[..|TotTag|] != TotTag
    ensures ParseTot(text) == Err(NoMatch)
  {
  }
}
