/** Row normalisation of one event worksheet (`load_event_results` after the
    fetch): keep (Name, Position) from each row, coerce Position to a number,
    drop the rows where that fails, strip names and sort by Position. */
module Results {
  import opened Wrappers
  import opened Sorting
  import opened Filtering

  /** One scored result: a player's name and finishing position. */
  datatype ResultRow = ResultRow(name: string, position: int)

  // ---------------------------------------------------------------- names

  /** The ASCII whitespace this model strips from names. */
  predicate IsWhitespace(c: char) {
    c == ' ' || c == '\t' || c == '\n' || c == '\r' || c == '\U{B}' || c == '\U{C}'
  }

  /** `s` neither starts nor ends with whitespace. */
  predicate IsStripped(s: string) {
    s == [] || (!IsWhitespace(s[0]) && !IsWhitespace(s[|s| - 1]))
  }

  /** Drops leading whitespace. */
  function TrimStart(s: string): string {
    if |s| > 0 && IsWhitespace(s[0]) then TrimStart(s[1..]) else s
  }

  /** Drops trailing whitespace. */
  function TrimEnd(s: string): string {
    if |s| > 0 && IsWhitespace(s[|s| - 1]) then TrimEnd(s[..|s| - 1]) else s
  }

  /** `TrimStart` keeps a suffix that does not start with whitespace, after a run of whitespace. */
  lemma {:induction false} TrimStartSuffix(s: string)
    ensures |TrimStart(s)| <= |s| && TrimStart(s) == s[|s| - |TrimStart(s)|..]
    ensures TrimStart(s) == [] || !IsWhitespace(TrimStart(s)[0])
    ensures forall k :: 0 <= k < |s| - |TrimStart(s)| ==> IsWhitespace(s[k])
  {
    if |s| > 0 && IsWhitespace(s[0]) {
      TrimStartSuffix(s[1..]);
      assert forall k :: 1 <= k < |s| ==> s[k] == s[1..][k - 1];
    }
  }

  /** `TrimEnd` keeps a prefix that does not end with whitespace, before a run of whitespace. */
  lemma {:induction false} TrimEndPrefix(s: string)
    ensures |TrimEnd(s)| <= |s| && TrimEnd(s) == s[..|TrimEnd(s)|]
    ensures TrimEnd(s) == [] || !IsWhitespace(TrimEnd(s)[|TrimEnd(s)| - 1])
    ensures forall k :: |TrimEnd(s)| <= k < |s| ==> IsWhitespace(s[k])
  {
    if |s| > 0 && IsWhitespace(s[|s| - 1]) {
      TrimEndPrefix(s[..|s| - 1]);
    }
  }

  /** `r` is `s[i..j]` and everything of `s` outside that slice is whitespace. */
  predicate TrimmedSlice(s: string, r: string, i: int, j: int) {
    && 0 <= i <= j <= |s|
    && r == s[i..j]
    && (forall k :: 0 <= k < i ==> IsWhitespace(s[k]))
    && (forall k :: j <= k < |s| ==> IsWhitespace(s[k]))
  }

  /** `str.strip()`: drops leading and trailing whitespace. */
  function Strip(s: string): (r: string)
    ensures |r| <= |s|
    ensures IsStripped(r)
  {
    var t := TrimStart(s);
    TrimStartSuffix(s);
    TrimEndPrefix(t);
    assert TrimEnd(t) != [] ==> TrimEnd(t)[0] == t[0];
    TrimEnd(t)
  }

  /** What is left after stripping is the part of `s` between its leading
      and trailing whitespace, and it neither starts nor ends with whitespace. */
  lemma StripTrims(s: string)
    ensures IsStripped(Strip(s))
    ensures exists i, j :: TrimmedSlice(s, Strip(s), i, j)
  {
    var t := TrimStart(s);
    var r := TrimEnd(t);
    TrimStartSuffix(s);
    TrimEndPrefix(t);
    var i := |s| - |t|;
    var j := i + |r|;
    assert r == s[i..j] by {
      assert t == s[i..] && r == t[..|r|];
    }
    assert forall k :: j <= k < |s| ==> IsWhitespace(s[k]) by {
      forall k | j <= k < |s|
        ensures IsWhitespace(s[k])
      {
        assert s[k] == t[k - i];
      }
    }
    assert TrimmedSlice(s, r, i, j);
  }

  /** Stripping twice is stripping once, so the second `.strip()` in the
      aggregation loop leaves normalised names unchanged. */
  lemma StripIdempotent(s: string)
    ensures Strip(Strip(s)) == Strip(s)
  {
    var r := Strip(s);
    StripTrims(s);
    assert TrimStart(r) == r;
    assert TrimEnd(r) == r;
  }

  // ---------------------------------------------------------------- numbers

  predicate IsDigit(c: char) {
    '0' <= c <= '9'
  }

  predicate AllDigits(s: string) {
    forall k :: 0 <= k < |s| ==> IsDigit(s[k])
  }

  function DigitValue(c: char): (d: nat)
    requires IsDigit(c)
    ensures d <= 9
  {
    c as int - '0' as int
  }

  function DigitChar(d: nat): (c: char)
    requires d <= 9
    ensures IsDigit(c) && DigitValue(c) == d
  {
    ('0' as int + d) as char
  }

  /** The value of a decimal digit string, most significant digit first. */
  function DigitsValue(s: string): nat
    requires AllDigits(s)
  {
    if s == [] then 0 else DigitsValue(s[..|s| - 1]) * 10 + DigitValue(s[|s| - 1])
  }

  /** The decimal numeral of `n`, without leading zeros. */
  function Numeral(n: nat): (s: string)
    ensures |s| > 0 && AllDigits(s)
  {
    if n < 10 then [DigitChar(n)] else Numeral(n / 10) + [DigitChar(n % 10)]
  }

  /** How an integer is written in a worksheet cell: an optional minus sign and its numeral. */
  function Render(n: int): string {
    if n < 0 then "-" + Numeral(-n) else Numeral(n)
  }

  /** `s` is an optionally signed, non-empty run of decimal digits. */
  predicate IsIntegerText(s: string) {
    || (|s| > 0 && AllDigits(s))
    || (|s| > 1 && (s[0] == '-' || s[0] == '+') && AllDigits(s[1..]))
  }

  /** `pd.to_numeric(cell, errors="coerce")` followed by the cast to int,
      restricted to integer text: anything else coerces to no value. */
  function ParseInteger(s: string): (r: Option<int>)
    ensures r.Some? <==> IsIntegerText(s)
    ensures r.Some? && s[0] == '-' ==> r.value <= 0
    ensures r.Some? && s[0] != '-' ==> r.value >= 0
  {
    if |s| > 0 && AllDigits(s) then Some(DigitsValue(s))
    else if |s| > 1 && (s[0] == '-' || s[0] == '+') && AllDigits(s[1..]) then
      var magnitude: int := DigitsValue(s[1..]);
      Some(if s[0] == '-' then -magnitude else magnitude)
    else None
  }

  /** Reading back a numeral gives the number that was written. */
  lemma {:induction false} NumeralValue(n: nat)
    ensures DigitsValue(Numeral(n)) == n
  {
    if n >= 10 {
      var s := Numeral(n);
      assert s[..|s| - 1] == Numeral(n / 10);
      NumeralValue(n / 10);
    }
  }

  /** Every integer written into a Position cell coerces back to itself. */
  lemma ParseRender(n: int)
    ensures ParseInteger(Render(n)) == Some(n)
  {
    if n < 0 {
      NumeralValue(-n);
      var s := Render(n);
      assert s[1..] == Numeral(-n);
    } else {
      NumeralValue(n);
    }
  }

  /** A single digit coerces to its own value. */
  lemma ParseDigit(c: char)
    requires IsDigit(c)
    ensures ParseInteger([c]) == Some(c as int - '0' as int)
  {
    assert AllDigits([c]) && [c][..0] == [];
    assert DigitsValue([c]) == DigitValue(c);
  }

  /** Writing one more digit shifts the value a decimal place: "12" followed
      by '3' coerces to 12 * 10 + 3. With `ParseDigit` this fixes the value of
      every unsigned digit string. */
  lemma ParseAppendDigit(t: string, c: char)
    requires |t| > 0 && AllDigits(t) && IsDigit(c)
    ensures ParseInteger(t + [c]) == Some(ParseInteger(t).value * 10 + (c as int - '0' as int))
  {
    assert (t + [c])[..|t|] == t;
  }

  /** A leading zero does not change the value of a digit string. */
  lemma {:induction false} LeadingZeroValue(t: string)
    requires AllDigits(t)
    ensures AllDigits("0" + t) && DigitsValue("0" + t) == DigitsValue(t)
  {
    if t != [] {
      var u := t[..|t| - 1];
      LeadingZeroValue(u);
      assert ("0" + t)[..|t|] == "0" + u;
    }
  }

  /** Leading zeros are ignored: "007" coerces as "07" and "7" do. */
  lemma ParseLeadingZero(t: string)
    requires |t| > 0 && AllDigits(t)
    ensures ParseInteger("0" + t) == ParseInteger(t)
  {
    LeadingZeroValue(t);
  }

  /** A plus sign is ignored: "+5" coerces as "5" does. */
  lemma ParsePlusSign(t: string)
    requires |t| > 0 && AllDigits(t)
    ensures ParseInteger("+" + t) == ParseInteger(t)
  {
    assert ("+" + t)[1..] == t;
  }

  /** A minus sign negates: "-07" coerces to the negation of "07". */
  lemma ParseMinusSign(t: string)
    requires |t| > 0 && AllDigits(t)
    ensures ParseInteger("-" + t) == Some(-ParseInteger(t).value)
  {
    assert ("-" + t)[1..] == t;
  }

  // ---------------------------------------------------------------- rows

  /** One worksheet row as `[row[:2]]` → (Name, Position), or None when the
      Position cell is missing or does not coerce to a number. */
  function CoerceRow(row: seq<string>): (r: Option<ResultRow>)
    ensures r.Some? <==> |row| >= 2 && IsIntegerText(row[1])
    ensures r.Some? ==> IsStripped(r.value.name) && |r.value.name| <= |row[0]|
  {
    if |row| >= 2 then
      match ParseInteger(row[1])
      case Some(p) => Some(ResultRow(Strip(row[0]), p))
      case None => None
    else None
  }

  /** The rows that survive coercion, in worksheet order (the `dropna` step). */
  function ValidRows(data: seq<seq<string>>): (r: seq<ResultRow>)
    ensures |r| <= |data|
    ensures forall x :: x in r <==> CoercesTo(data, x)
    ensures forall x :: multiset(r)[x] == |Producing(CoerceRow, data, x)|
  {
    FilterMapMembers(CoerceRow, data);
    assert forall x :: multiset(FilterMap(CoerceRow, data))[x] == |Producing(CoerceRow, data, x)| by {
      forall x {
        FilterMapCounts(CoerceRow, data, x);
      }
    }
    FilterMap(CoerceRow, data)
  }

  /** Some row of `data` coerces to `x`. */
  predicate CoercesTo(data: seq<seq<string>>, x: ResultRow) {
    exists k :: 0 <= k < |data| && CoerceRow(data[k]) == Some(x)
  }

  /** Sort key for the ascending sort on Position. */
  function PositionKey(x: ResultRow): int {
    x.position
  }

  /** The frame built from `[row[:2] for row in data]` with two named columns
      cannot be built when no row has two cells: pandas raises, and the
      aggregation treats that event as not loaded. */
  predicate TooNarrow(data: seq<seq<string>>) {
    data != [] && forall k :: 0 <= k < |data| ==> |data[k]| < 2
  }

  /** `load_event_results` after the fetch: None when building the frame raises,
      otherwise the coerced rows with stripped names, sorted by Position. */
  function LoadEventResults(data: seq<seq<string>>): (r: Option<seq<ResultRow>>)
    ensures data == [] ==> r == Some([])
    ensures r.None? <==> TooNarrow(data)
    ensures r.Some? ==> SortedBy(r.value, PositionKey)
    ensures r.Some? ==> multiset(r.value) == multiset(ValidRows(data))
    ensures r.Some? ==> forall x :: x in r.value <==> CoercesTo(data, x)
    ensures r.Some? ==> forall x :: x in r.value ==> IsStripped(x.name)
  {
    if data == [] then Some([])
    else if TooNarrow(data) then None
    else
      var valid := ValidRows(data);
      var sorted := SortBy(valid, PositionKey);
      ReorderedRows(data, sorted);
      Some(sorted)
  }

  /** Any reordering of the surviving rows holds exactly the rows that
      coerce, and every name in it is stripped. */
  lemma ReorderedRows(data: seq<seq<string>>, rows: seq<ResultRow>)
    requires multiset(rows) == multiset(ValidRows(data))
    ensures forall x :: x in rows <==> CoercesTo(data, x)
    ensures forall x :: x in rows ==> IsStripped(x.name)
  {
    var valid := ValidRows(data);
    forall x
      ensures x in rows <==> x in valid
    {
      assert x in rows <==> x in multiset(rows);
    }
    forall x | x in rows
      ensures IsStripped(x.name)
    {
      var k :| 0 <= k < |data| && CoerceRow(data[k]) == Some(x);
      StripTrims(data[k][0]);
    }
  }

  /** A header row, whose Position cell reads "Position", is dropped. */
  lemma HeaderRowDropped(name: string, rest: seq<string>)
    ensures CoerceRow([name, "Position"] + rest) == None
  {
    assert !IsDigit('P');
  }

  /** A row is kept exactly when it has a Position cell holding integer text;
      it keeps its stripped name and the coerced position. */
  lemma {:induction false} RowKept(data: seq<seq<string>>, k: nat)
    requires k < |data| && |data[k]| >= 2 && IsIntegerText(data[k][1])
    ensures ResultRow(Strip(data[k][0]), ParseInteger(data[k][1]).value) in LoadEventResults(data).value
  {
    assert CoerceRow(data[k]) == Some(ResultRow(Strip(data[k][0]), ParseInteger(data[k][1]).value));
  }
}
