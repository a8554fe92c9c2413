/** The post-processing rules of the OCR processor: amount and date fields read from
    recognised text, business-name normalisation, the nearest standard GST slab, the line-item
    section scan, the data-quality score and validation verdict, and the CSV export. */
module OcrProcessor {
  import opened Maybe
  import opened JsString

  // ---------------------------------------------------------------------------
  // parseAmount
  // ---------------------------------------------------------------------------

  predicate IsCurrencyMark(c: char) { c == '₹' || c == '$' || c == ',' }

  /** `replace(/[₹$,]/g, '')`. */
  function StripCurrency(s: string): (r: string)
    ensures forall i :: 0 <= i < |r| ==> !IsCurrencyMark(r[i])
  {
    if s == [] then []
    else (if IsCurrencyMark(s[0]) then [] else [s[0]]) + StripCurrency(s[1..])
  }

  /** `parseAmount`: null for a missing or empty string, otherwise `parseFloat` of the text
      without currency marks, with NaN reported as null. */
  function ParseAmount(amount: Option<string>): (r: Option<real>)
    ensures amount.None? || amount.value == "" ==> r.None?
  {
    if amount.None? || amount.value == "" then None
    else ParseFloat(StripCurrency(amount.value))
  }

  predicate AmountChar(c: char) { IsDigit(c) || IsCurrencyMark(c) }

  lemma {:induction false} StripCurrencyDigits(s: string)
    requires forall i :: 0 <= i < |s| ==> AmountChar(s[i])
    ensures AllDigits(StripCurrency(s))
    ensures (exists i :: 0 <= i < |s| && IsDigit(s[i])) ==> StripCurrency(s) != []
  {
    if s != [] {
      StripCurrencyDigits(s[1..]);
      if !IsDigit(s[0]) && exists i :: 0 <= i < |s| && IsDigit(s[i]) {
        var i :| 0 <= i < |s| && IsDigit(s[i]);
        assert s[1..][i - 1] == s[i];
      }
    }
  }

  /** Text made of digits, currency marks and thousands separators reads as the digits. */
  lemma AmountOfDigits(s: string)
    requires forall i :: 0 <= i < |s| ==> AmountChar(s[i])
    requires exists i :: 0 <= i < |s| && IsDigit(s[i])
    ensures AllDigits(StripCurrency(s)) && ParseAmount(Some(s)) == Some(DigitsValue(StripCurrency(s)) as real)
  {
    StripCurrencyDigits(s);
    ParseFloatOfDigits(StripCurrency(s), []);
    assert StripCurrency(s) + [] == StripCurrency(s);
  }

  /** Text that starts with a letter is not a number: NaN, reported as null. */
  lemma AmountOfWord(s: string)
    requires s != [] && IsLetter(s[0])
    ensures ParseAmount(Some(s)) == None
  {
    assert StripCurrency(s) == [s[0]] + StripCurrency(s[1..]);
    ParseFloatOfWord(StripCurrency(s));
  }

  // ---------------------------------------------------------------------------
  // parseDate: the three regular expressions, matched leftmost-first with greedy groups
  // ---------------------------------------------------------------------------

  /** `(\d{lo1,hi1})[\/\-](\d{lo2,hi2})[\/\-](\d{lo3,hi3})`, unanchored. */
  datatype DateFormat = DateFormat(lo1: nat, hi1: nat, lo2: nat, hi2: nat, lo3: nat, hi3: nat)

  /** DD/MM/YYYY, DD/MM/YY and YYYY/MM/DD, in the order they are tried. */
  const SourceFormats: seq<DateFormat> :=
    [DateFormat(1, 2, 1, 2, 4, 4), DateFormat(1, 2, 1, 2, 2, 2), DateFormat(4, 4, 1, 2, 1, 2)]

  datatype DateMatch = DateMatch(g1: string, g2: string, g3: string)

  predicate DigitsAt(s: string, i: nat, n: nat) {
    i + n <= |s| && AllDigits(s[i..i + n])
  }

  predicate SepAt(s: string, i: nat) {
    i < |s| && (s[i] == '/' || s[i] == '-')
  }

  /** The longest digit run at `j` with a length in `lo..n`. */
  function Greedy(s: string, j: nat, lo: nat, n: nat): (r: Option<nat>)
    ensures r.Some? ==> lo <= r.value <= n && DigitsAt(s, j, r.value)
    decreases n
  {
    if n < lo then None
    else if DigitsAt(s, j, n) then Some(n)
    else if n == lo then None
    else Greedy(s, j, lo, n - 1)
  }

  /** What any match shows about the text: all groups are digits, the first is followed by a
      separator and the third follows one. */
  ghost predicate Groups(s: string, m: DateMatch) {
    && AllDigits(m.g1) && AllDigits(m.g2) && AllDigits(m.g3)
    && (exists i: nat :: OccursAt(s, m.g1, i) && SepAt(s, i + |m.g1|))
    && (exists k: nat :: 1 <= k && SepAt(s, k - 1) && OccursAt(s, m.g3, k))
  }

  /** The first and third groups' lengths are within the format's bounds. */
  predicate GroupsFit(f: DateFormat, m: DateMatch) {
    f.lo1 <= |m.g1| <= f.hi1 && f.lo3 <= |m.g3| <= f.hi3
  }

  /** Three digit runs of lengths `l1`, `l2`, `l3` at `i`, with separators between them. */
  lemma GroupsAt(s: string, i: nat, l1: nat, l2: nat, l3: nat)
    requires DigitsAt(s, i, l1) && SepAt(s, i + l1)
    requires DigitsAt(s, i + l1 + 1, l2) && SepAt(s, i + l1 + 1 + l2) && DigitsAt(s, i + l1 + l2 + 2, l3)
    ensures Groups(s, DateMatch(s[i..i + l1], s[i + l1 + 1..i + l1 + 1 + l2], s[i + l1 + l2 + 2..i + l1 + l2 + 2 + l3]))
  {
    var j := i + l1 + l2 + 2;
    assert OccursAt(s, s[j..j + l3], j) && SepAt(s, j - 1);
    assert OccursAt(s, s[i..i + l1], i);
  }

  /** With the first group of length `l1` fixed, try the second from length `l2` down. */
  function TrySecond(s: string, i: nat, f: DateFormat, l1: nat, l2: nat): (r: Option<DateMatch>)
    requires DigitsAt(s, i, l1) && SepAt(s, i + l1)
    ensures r.Some? ==> Groups(s, r.value) && f.lo3 <= |r.value.g3| <= f.hi3 && r.value.g1 == s[i..i + l1]
    decreases l2
  {
    if l2 < f.lo2 then None
    else if DigitsAt(s, i + l1 + 1, l2) && SepAt(s, i + l1 + 1 + l2) then
      var j := i + l1 + l2 + 2;
      match Greedy(s, j, f.lo3, f.hi3)
      case Some(l3) =>
        GroupsAt(s, i, l1, l2, l3);
        Some(DateMatch(s[i..i + l1], s[i + l1 + 1..i + l1 + 1 + l2], s[j..j + l3]))
      case None => if l2 == f.lo2 then None else TrySecond(s, i, f, l1, l2 - 1)
    else if l2 == f.lo2 then None
    else TrySecond(s, i, f, l1, l2 - 1)
  }

  /** Try the first group from length `l1` down. */
  function TryFirst(s: string, i: nat, f: DateFormat, l1: nat): (r: Option<DateMatch>)
    requires l1 <= f.hi1
    ensures r.Some? ==> Groups(s, r.value) && GroupsFit(f, r.value)
    decreases l1
  {
    if l1 < f.lo1 then None
    else
      var here := if DigitsAt(s, i, l1) && SepAt(s, i + l1) then TrySecond(s, i, f, l1, f.hi2) else None;
      assert here.Some? ==> |here.value.g1| == l1;
      if here.Some? then here
      else if l1 == f.lo1 then None
      else TryFirst(s, i, f, l1 - 1)
  }

  function MatchAt(s: string, i: nat, f: DateFormat): (r: Option<DateMatch>)
    ensures r.Some? ==> Groups(s, r.value) && GroupsFit(f, r.value)
  {
    TryFirst(s, i, f, f.hi1)
  }

  /** `s.match(format)`: the match at the leftmost position where there is one. */
  function Search(s: string, f: DateFormat, i: nat): (r: Option<DateMatch>)
    ensures r.Some? ==> Groups(s, r.value) && GroupsFit(f, r.value)
    decreases |s| + 1 - i
  {
    if i > |s| then None
    else if MatchAt(s, i, f).Some? then MatchAt(s, i, f)
    else Search(s, f, i + 1)
  }

  /** The calendar fields handed to `new Date(year, month, day)`; `month` counts from 0. */
  datatype DateFields = DateFields(year: int, month: int, day: int)

  /** A four-digit first group is read year-month-day; otherwise day-month-year, with a
      year below 100 moved into the 2000s. */
  function Fields(m: DateMatch): DateFields
    requires AllDigits(m.g1) && AllDigits(m.g2) && AllDigits(m.g3)
  {
    if |m.g1| == 4 then
      DateFields(DigitsValue(m.g1), DigitsValue(m.g2) - 1, DigitsValue(m.g3))
    else
      var year := DigitsValue(m.g3);
      DateFields(if year < 100 then year + 2000 else year, DigitsValue(m.g2) - 1, DigitsValue(m.g1))
  }

  /** The fields of the first format, in order, that matches anywhere in `s`. */
  function FirstFormatMatch(s: string, formats: seq<DateFormat>): Option<DateFields> {
    if formats == [] then None
    else match Search(s, formats[0], 0)
      case Some(m) => Some(Fields(m))
      case None => FirstFormatMatch(s, formats[1..])
  }

  /** `parseDate` up to the `Date` object: the formats are tried in order and the first match
      decides. */
  method ParseDate(dateStr: string) returns (r: Option<DateFields>)
    ensures r == FirstFormatMatch(dateStr, SourceFormats)
  {
    var k := 0;
    while k < |SourceFormats|
      invariant 0 <= k <= |SourceFormats|
      invariant FirstFormatMatch(dateStr, SourceFormats[k..]) == FirstFormatMatch(dateStr, SourceFormats)
    {
      var found := Search(dateStr, SourceFormats[k], 0);
      if found.Some? {
        return Some(Fields(found.value));
      }
      assert SourceFormats[k..][1..] == SourceFormats[k + 1..];
      k := k + 1;
    }
    return None;
  }

  /** DD/MM/YYYY, DD/MM/YY, YYYY/MM/DD: the order the code tries. */
  function DateOf(s: string): Option<DateFields> {
    FirstFormatMatch(s, SourceFormats)
  }

  lemma DigitsAtShorter(s: string, k: nat, n: nat, m: nat)
    requires DigitsAt(s, k, m) && n <= m
    ensures DigitsAt(s, k, n)
  {
    var short, long := s[k..k + n], s[k..k + m];
    assert forall t :: 0 <= t < n ==> short[t] == long[t];
  }

  /** A run of `n` digits is worth less than 10^n. */
  lemma {:induction false} DigitsValueBound(d: string)
    requires AllDigits(d)
    ensures DigitsValue(d) < Pow10(|d|)
  {
    if d != [] {
      DigitsValueBound(d[..|d| - 1]);
    }
  }

  /** No match when no digit run of the third group's least length follows a separator. */
  lemma NoMatchByLastGroup(s: string, f: DateFormat)
    requires forall k: nat :: 1 <= k && SepAt(s, k - 1) ==> !DigitsAt(s, k, f.lo3)
    ensures Search(s, f, 0) == None
  {
    var r := Search(s, f, 0);
    if r.Some? {
      var k: nat :| 1 <= k && SepAt(s, k - 1) && OccursAt(s, r.value.g3, k);
      assert s[k..k + |r.value.g3|] == r.value.g3;
      DigitsAtShorter(s, k, f.lo3, |r.value.g3|);
      assert false;
    }
  }

  /** No match for a fixed-length first group when no such digit run is followed by a
      separator. */
  lemma NoMatchByFirstGroup(s: string, f: DateFormat)
    requires f.lo1 == f.hi1
    requires forall i: nat :: DigitsAt(s, i, f.lo1) ==> !SepAt(s, i + f.lo1)
    ensures Search(s, f, 0) == None
  {
    var r := Search(s, f, 0);
    if r.Some? {
      var i: nat :| OccursAt(s, r.value.g1, i) && SepAt(s, i + |r.value.g1|);
      assert s[i..i + |r.value.g1|] == r.value.g1;
      assert DigitsAt(s, i, f.lo1);
      assert false;
    }
  }

  /** Every position other than `a` and `b` holds a digit. */
  predicate DigitsBut(s: string, a: nat, b: nat) {
    forall p :: 0 <= p < |s| && p != a && p != b ==> IsDigit(s[p])
  }

  /** Text shaped DD/MM/YYYY (or DD/MM/YY), with `/` or `-` as separators. */
  predicate DayFirstText(s: string, yearLength: nat) {
    |s| == 6 + yearLength && SepAt(s, 2) && SepAt(s, 5) && DigitsBut(s, 2, 5)
  }

  /** Text shaped YYYY-MM-DD, with `/` or `-` as separators. */
  predicate YearFirstText(s: string) {
    |s| == 10 && SepAt(s, 4) && SepAt(s, 7) && DigitsBut(s, 4, 7)
  }

  lemma DigitsIn(s: string, i: nat, n: nat, a: nat, b: nat)
    requires DigitsBut(s, a, b) && i + n <= |s|
    requires !(i <= a < i + n) && !(i <= b < i + n)
    ensures DigitsAt(s, i, n)
  {
    var w := s[i..i + n];
    assert forall t :: 0 <= t < n ==> w[t] == s[i + t];
  }

  /** A format with groups of at most 2, 2 and exactly the year's length matches DD/MM/YYYY
      at the start, with the three parts as groups. */
  lemma DayFirstMatch(s: string, f: DateFormat)
    requires DayFirstText(s, f.hi3)
    requires f.lo1 <= f.hi1 == 2 && f.lo2 <= f.hi2 == 2 && f.lo3 <= f.hi3
    ensures Search(s, f, 0) == Some(DateMatch(s[..2], s[3..5], s[6..]))
  {
    DigitsIn(s, 0, 2, 2, 5);
    DigitsIn(s, 3, 2, 2, 5);
    DigitsIn(s, 6, f.hi3, 2, 5);
    assert Greedy(s, 6, f.lo3, f.hi3) == Some(f.hi3);
    assert s[6..6 + f.hi3] == s[6..];
    assert TrySecond(s, 0, f, 2, 2) == Some(DateMatch(s[..2], s[3..5], s[6..]));
    assert MatchAt(s, 0, f) == Some(DateMatch(s[..2], s[3..5], s[6..]));
  }

  /** DD/MM/YYYY is read day-month-year, the month counted from 0. */
  lemma DayFirstDate(s: string)
    requires DayFirstText(s, 4)
    ensures AllDigits(s[..2]) && AllDigits(s[3..5]) && AllDigits(s[6..])
    ensures var year := DigitsValue(s[6..]);
      DateOf(s) == Some(DateFields(if year < 100 then year + 2000 else year, DigitsValue(s[3..5]) - 1, DigitsValue(s[..2])))
  {
    DayFirstMatch(s, SourceFormats[0]);
  }

  /** In DD/MM/YY no four digits follow a separator, so the four-digit-year format fails. */
  lemma ShortYearNoLongMatch(s: string)
    requires DayFirstText(s, 2)
    ensures Search(s, SourceFormats[0], 0) == None
  {
    forall k: nat | 1 <= k && SepAt(s, k - 1) ensures !DigitsAt(s, k, 4) {
      if k + 4 <= |s| {
        assert k - 1 == 2;
        var w := s[k..k + 4];
        assert w[2] == s[5];
      }
    }
    NoMatchByLastGroup(s, SourceFormats[0]);
  }

  /** DD/MM/YY is read with the year moved into the 2000s. */
  lemma TwoDigitYearDate(s: string)
    requires DayFirstText(s, 2)
    ensures AllDigits(s[..2]) && AllDigits(s[3..5]) && AllDigits(s[6..])
    ensures DateOf(s) == Some(DateFields(DigitsValue(s[6..]) + 2000, DigitsValue(s[3..5]) - 1, DigitsValue(s[..2])))
  {
    ShortYearNoLongMatch(s);
    DayFirstMatch(s, SourceFormats[1]);
    assert SourceFormats[1..][0] == SourceFormats[1];
    assert DateOf(s) == FirstFormatMatch(s, SourceFormats[1..]);
    DigitsValueBound(s[6..]);
  }

  /** In YYYY-MM-DD no four digits follow a separator either. */
  lemma YearFirstNoLongMatch(s: string)
    requires YearFirstText(s)
    ensures Search(s, SourceFormats[0], 0) == None
  {
    forall k: nat | 1 <= k && SepAt(s, k - 1) ensures !DigitsAt(s, k, 4) {
      if k + 4 <= |s| {
        assert k - 1 == 4;
        var w := s[k..k + 4];
        assert w[2] == s[7];
      }
    }
    NoMatchByLastGroup(s, SourceFormats[0]);
  }

  /** The DD/MM/YY format finds nothing at the first two positions of YYYY-MM-DD ... */
  lemma YearFirstNoEarlyShortMatch(s: string)
    requires YearFirstText(s)
    ensures MatchAt(s, 0, SourceFormats[1]) == None && MatchAt(s, 1, SourceFormats[1]) == None
  {
    assert !SepAt(s, 1) && !SepAt(s, 2) && !SepAt(s, 3);
  }

  /** ... and matches at the third, taking the year's last two digits as the day. */
  lemma YearFirstLateShortMatch(s: string)
    requires YearFirstText(s)
    ensures MatchAt(s, 2, SourceFormats[1]) == Some(DateMatch(s[2..4], s[5..7], s[8..]))
  {
    var f := SourceFormats[1];
    DigitsIn(s, 2, 2, 4, 7);
    DigitsIn(s, 5, 2, 4, 7);
    DigitsIn(s, 8, 2, 4, 7);
    assert Greedy(s, 8, 2, 2) == Some(2);
    assert s[8..10] == s[8..];
    assert TrySecond(s, 2, f, 2, 2) == Some(DateMatch(s[2..4], s[5..7], s[8..]));
  }

  /** YYYY-MM-DD is misread: the DD/MM/YY format matches its last eight characters, so the
      year's last two digits become the day and the day becomes a year in the 2000s. */
  lemma YearFirstMisread(s: string)
    requires YearFirstText(s)
    ensures AllDigits(s[2..4]) && AllDigits(s[5..7]) && AllDigits(s[8..])
    ensures DateOf(s) == Some(DateFields(DigitsValue(s[8..]) + 2000, DigitsValue(s[5..7]) - 1, DigitsValue(s[2..4])))
  {
    var f := SourceFormats[1];
    YearFirstNoLongMatch(s);
    YearFirstNoEarlyShortMatch(s);
    YearFirstLateShortMatch(s);
    assert Search(s, f, 0) == Search(s, f, 2);
    assert SourceFormats[1..][0] == f;
    assert DateOf(s) == FirstFormatMatch(s, SourceFormats[1..]);
    DigitsValueBound(s[8..]);
  }

  lemma IsoDateShape(s: string)
    requires s == "2024-01-15"
    ensures YearFirstText(s)
    ensures DigitsValue(s[8..]) == 15 && DigitsValue(s[5..7]) == 1 && DigitsValue(s[2..4]) == 24
  {
    var day, month, year := s[8..], s[5..7], s[2..4];
    assert day[..1] == [day[0]] && month[..1] == [month[0]] && year[..1] == [year[0]];
    assert DigitsValue(day[..1]) == 1 && DigitsValue(month[..1]) == 0 && DigitsValue(year[..1]) == 2;
  }

  /** The text that shows it: 15 January 2024 is read as 24 January 2015. */
  lemma IsoDateMisread()
    ensures DateOf("2024-01-15") == Some(DateFields(2015, 0, 24))
  {
    var s := "2024-01-15";
    IsoDateShape(s);
    YearFirstMisread(s);
  }

  /** The intended order: the year-first format is tried before the day-first ones. */
  const FixedFormats: seq<DateFormat> := [SourceFormats[2], SourceFormats[0], SourceFormats[1]]

  function FixedDateOf(s: string): Option<DateFields> {
    FirstFormatMatch(s, FixedFormats)
  }

  /** With the fixed order YYYY-MM-DD is read year-month-day. */
  lemma FixedYearFirstDate(s: string)
    requires YearFirstText(s)
    ensures AllDigits(s[..4]) && AllDigits(s[5..7]) && AllDigits(s[8..])
    ensures FixedDateOf(s) == Some(DateFields(DigitsValue(s[..4]), DigitsValue(s[5..7]) - 1, DigitsValue(s[8..])))
  {
    var f := FixedFormats[0];
    DigitsIn(s, 0, 4, 4, 7);
    DigitsIn(s, 5, 2, 4, 7);
    DigitsIn(s, 8, 2, 4, 7);
    assert Greedy(s, 8, 1, 2) == Some(2);
    assert s[8..10] == s[8..];
    assert TrySecond(s, 0, f, 4, 2) == Some(DateMatch(s[..4], s[5..7], s[8..]));
    assert MatchAt(s, 0, f) == Some(DateMatch(s[..4], s[5..7], s[8..]));
  }

  /** In DD/MM/YYYY no four digits are followed by a separator. */
  lemma DayFirstNoYearFirstMatch(s: string)
    requires DayFirstText(s, 4)
    ensures Search(s, FixedFormats[0], 0) == None
  {
    forall i: nat | i < 6 ensures !DigitsAt(s, i, 4) {
      var w := s[i..i + 4];
      if i <= 2 {
        assert w[2 - i] == s[2];
      } else {
        assert w[5 - i] == s[5];
      }
    }
    NoMatchByFirstGroup(s, FixedFormats[0]);
  }

  /** The fixed order still reads DD/MM/YYYY day-month-year, as the code does. */
  lemma FixedDayFirstDate(s: string)
    requires DayFirstText(s, 4)
    ensures FixedDateOf(s) == DateOf(s)
  {
    DayFirstNoYearFirstMatch(s);
    DayFirstMatch(s, SourceFormats[0]);
    assert FixedFormats[1..][0] == SourceFormats[0];
    assert FirstFormatMatch(s, FixedFormats) == FirstFormatMatch(s, FixedFormats[1..]);
  }

  // ---------------------------------------------------------------------------
  // cleanBusinessName
  // ---------------------------------------------------------------------------

  /** The class `[a-zA-Z0-9\s&.,\-]`. */
  predicate NameChar(c: char) {
    IsLetter(c) || IsDigit(c) || IsSpace(c) || c == '&' || c == '.' || c == ',' || c == '-'
  }

  predicate AllNameChars(s: string) { forall i :: 0 <= i < |s| ==> NameChar(s[i]) }

  /** `replace(/[^a-zA-Z0-9\s&.,\-]/g, '')`. */
  function KeepNameChars(s: string): (r: string)
    ensures AllNameChars(r)
  {
    if s == [] then []
    else (if NameChar(s[0]) then [s[0]] else []) + KeepNameChars(s[1..])
  }

  /** Every white-space character is a plain space, and none follows another. */
  predicate SingleSpaced(s: string) {
    forall i :: 0 <= i < |s| && IsSpace(s[i]) ==> s[i] == ' ' && (i + 1 < |s| ==> !IsSpace(s[i + 1]))
  }

  /** `replace(/\s+/g, ' ')`: every run of white space becomes one space. */
  function CollapseSpaces(s: string): string
    decreases |s|
  {
    if s == [] then []
    else if IsSpace(s[0]) then " " + CollapseSpaces(TrimStart(s))
    else [s[0]] + CollapseSpaces(s[1..])
  }

  /** One character in front of a single-spaced text keeps it single-spaced, unless two spaces meet. */
  lemma SingleSpacedCons(x: char, c: string)
    requires SingleSpaced(c)
    requires IsSpace(x) ==> x == ' ' && (c == [] || !IsSpace(c[0]))
    ensures SingleSpaced([x] + c)
  {
    var r := [x] + c;
    forall i | 0 <= i < |r| && IsSpace(r[i]) ensures r[i] == ' ' && (i + 1 < |r| ==> !IsSpace(r[i + 1])) {
      if i > 0 {
        assert r[i] == c[i - 1];
      }
    }
  }

  /** The collapsed text is single-spaced and starts as the input does. */
  lemma {:induction false} CollapseSpacesShape(s: string)
    ensures SingleSpaced(CollapseSpaces(s))
    ensures s != [] && !IsSpace(s[0]) ==> CollapseSpaces(s) != [] && CollapseSpaces(s)[0] == s[0]
    decreases |s|
  {
    if s != [] && IsSpace(s[0]) {
      var rest := TrimStart(s);
      CollapseSpacesShape(rest);
      SingleSpacedCons(' ', CollapseSpaces(rest));
    } else if s != [] {
      CollapseSpacesShape(s[1..]);
      SingleSpacedCons(s[0], CollapseSpaces(s[1..]));
    }
  }

  /** Collapsing adds no character outside the kept class. */
  lemma {:induction false} CollapseSpacesChars(s: string)
    requires AllNameChars(s)
    ensures AllNameChars(CollapseSpaces(s))
    decreases |s|
  {
    if s != [] {
      var rest := if IsSpace(s[0]) then TrimStart(s) else s[1..];
      assert forall i :: 0 <= i < |rest| ==> rest[i] == s[|s| - |rest| + i];
      CollapseSpacesChars(rest);
    }
  }

  /** `word.charAt(0).toUpperCase() + word.slice(1).toLowerCase()`. */
  function Capitalize(w: string): string {
    if w == [] then [] else [UpperChar(w[0])] + ToLower(w[1..])
  }

  function CapitalizeAll(ws: seq<string>): (r: seq<string>)
    ensures |r| == |ws| && forall k :: 0 <= k < |ws| ==> r[k] == Capitalize(ws[k])
  {
    seq(|ws|, k requires 0 <= k < |ws| => Capitalize(ws[k]))
  }

  /** `cleanBusinessName`. */
  function CleanBusinessName(name: string): string {
    Join(CapitalizeAll(Split(Trim(CollapseSpaces(KeepNameChars(name))), ' ')), " ")
  }

  /** A non-empty run of kept characters without white space. */
  predicate PlainWord(w: string) {
    w != [] && forall i :: 0 <= i < |w| ==> NameChar(w[i]) && !IsSpace(w[i])
  }

  /** Capital (or non-letter) first, no capitals after. */
  predicate Capitalized(w: string) {
    w != [] && !IsLower(w[0]) && NoUpper(w[1..])
  }

  /** A cleaned name: empty, or space-separated plain, capitalised words. */
  predicate CleanName(s: string) {
    s == [] || forall k :: 0 <= k < |Split(s, ' ')| ==> PlainWord(Split(s, ' ')[k]) && Capitalized(Split(s, ' ')[k])
  }

  lemma {:induction false} SingleSpacedPart(s: string, r: string, k: nat)
    requires SingleSpaced(s) && OccursAt(s, r, k)
    ensures SingleSpaced(r)
  {
    assert forall i :: 0 <= i < |r| ==> r[i] == s[k + i];
  }

  lemma {:induction false} NameCharsPart(s: string, r: string, k: nat)
    requires AllNameChars(s) && OccursAt(s, r, k)
    ensures AllNameChars(r)
  {
    assert forall i :: 0 <= i < |r| ==> r[i] == s[k + i];
  }

  /** The text `split(' ')` sees: single-spaced, with no space at either end. */
  predicate Spaced(t: string) {
    t != [] && SingleSpaced(t) && AllNameChars(t) && !IsSpace(t[0]) && !IsSpace(t[|t| - 1])
  }

  /** Splitting such a text gives plain words only. */
  lemma {:induction false} SplitPlainWords(t: string)
    requires Spaced(t)
    ensures forall k :: 0 <= k < |Split(t, ' ')| ==> PlainWord(Split(t, ' ')[k])
    decreases |t|
  {
    match IndexOf(t, [' '])
    case None =>
      forall i | 0 <= i < |t| ensures !IsSpace(t[i]) {
        assert !OccursAt(t, [' '], i);
        assert t[i..i + 1] == [t[i]];
      }
    case Some(p) =>
      assert t[p..p + 1] == [' '];
      var head, tail := t[..p], t[p + 1..];
      forall i | 0 <= i < p ensures !IsSpace(head[i]) {
        assert !OccursAt(t, [' '], i);
        assert t[i..i + 1] == [t[i]];
      }
      assert p + 1 < |t|;
      assert Spaced(tail) by {
        SingleSpacedPart(t, tail, p + 1);
        assert tail[0] == t[p + 1];
      }
      SplitPlainWords(tail);
      assert Split(t, ' ') == [head] + Split(tail, ' ');
  }

  lemma CapitalizePlain(w: string)
    requires PlainWord(w)
    ensures PlainWord(Capitalize(w)) && Capitalized(Capitalize(w))
  {
    var c := Capitalize(w);
    assert c[1..] == ToLower(w[1..]);
  }

  /** What `trim` leaves of the filtered, collapsed text is empty or `Spaced`. */
  lemma TrimmedCollapsed(name: string)
    ensures var t := Trim(CollapseSpaces(KeepNameChars(name))); t == [] || Spaced(t)
  {
    var c := CollapseSpaces(KeepNameChars(name));
    var t := Trim(c);
    CollapseSpacesShape(KeepNameChars(name));
    CollapseSpacesChars(KeepNameChars(name));
    var k :| OccursAt(c, t, k);
    SingleSpacedPart(c, t, k);
    NameCharsPart(c, t, k);
  }

  /** Capitalising plain words and joining them with spaces gives a cleaned name. */
  lemma CapitalizedWordsClean(ws: seq<string>)
    requires |ws| >= 1 && forall k :: 0 <= k < |ws| ==> PlainWord(ws[k])
    ensures CleanName(Join(CapitalizeAll(ws), " "))
  {
    var caps := CapitalizeAll(ws);
    forall i | 0 <= i < |caps| ensures PlainWord(caps[i]) && Capitalized(caps[i]) && Free(caps[i], ' ') {
      CapitalizePlain(ws[i]);
    }
    SplitJoin(caps, ' ');
  }

  lemma SplitEmpty()
    ensures Split([], ' ') == [[]]
  {
    assert IndexOf([], [' ']) == None;
  }

  /** Capitalising the words of a trimmed, single-spaced text gives a cleaned name. */
  lemma CleanOfSpaced(t: string)
    requires t == [] || Spaced(t)
    ensures CleanName(Join(CapitalizeAll(Split(t, ' ')), " "))
  {
    if t == [] {
      SplitEmpty();
      assert CapitalizeAll([[]]) == [[]];
    } else {
      SplitPlainWords(t);
      CapitalizedWordsClean(Split(t, ' '));
    }
  }

  /** The result of `cleanBusinessName` is always a cleaned name. */
  lemma CleanBusinessNameIsClean(name: string)
    ensures CleanName(CleanBusinessName(name))
  {
    TrimmedCollapsed(name);
    CleanOfSpaced(Trim(CollapseSpaces(KeepNameChars(name))));
  }

  /** The characters, spacing and ends of a cleaned name. */
  lemma {:induction false} JoinPlainWords(ws: seq<string>)
    requires |ws| >= 1 && forall k :: 0 <= k < |ws| ==> PlainWord(ws[k])
    ensures Spaced(Join(ws, " "))
    ensures Join(ws, " ")[0] == ws[0][0]
    decreases |ws|
  {
    if |ws| > 1 {
      JoinPlainWords(ws[1..]);
      var w, rest := ws[0], Join(ws[1..], " ");
      var j := Join(ws, " ");
      assert j == w + " " + rest;
      forall i | 0 <= i < |j| && IsSpace(j[i]) ensures j[i] == ' ' && (i + 1 < |j| ==> !IsSpace(j[i + 1])) {
        if i == |w| {
          assert j[i + 1] == rest[0];
        } else if i > |w| {
          assert j[i] == rest[i - |w| - 1];
        }
      }
      assert AllNameChars(j) by {
        forall i | 0 <= i < |j| ensures NameChar(j[i]) {
          if i < |w| { assert j[i] == w[i]; }
          else if i > |w| { assert j[i] == rest[i - |w| - 1]; }
        }
      }
      assert j[|j| - 1] == rest[|rest| - 1];
    }
  }

  /** A cleaned name has no space at either end and no two spaces in a row. */
  lemma CleanNameSpacing(s: string)
    requires CleanName(s) && s != []
    ensures Spaced(s)
  {
    JoinPlainWords(Split(s, ' '));
  }

  lemma {:induction false} KeepAllNameChars(s: string)
    requires AllNameChars(s)
    ensures KeepNameChars(s) == s
  {
    if s != [] {
      KeepAllNameChars(s[1..]);
    }
  }

  /** After a lone space, `TrimStart` drops just that space. */
  lemma TrimStartOneSpace(s: string)
    requires |s| >= 1 && IsSpace(s[0]) && (|s| == 1 || !IsSpace(s[1]))
    ensures TrimStart(s) == s[1..]
  {
    var rest := s[1..];
    assert rest == [] || !IsSpace(rest[0]);
  }

  lemma SingleSpacedDrop(s: string, n: nat)
    requires SingleSpaced(s) && n <= |s|
    ensures SingleSpaced(s[n..])
  {
    var r := s[n..];
    assert forall i :: 0 <= i < |r| ==> r[i] == s[n + i];
  }

  lemma {:induction false} CollapseSingleSpaced(s: string)
    requires SingleSpaced(s) && (s == [] || !IsSpace(s[0]))
    ensures CollapseSpaces(s) == s
    decreases |s|
  {
    if |s| >= 2 && IsSpace(s[1]) {
      var tail, rest := s[1..], s[2..];
      assert tail[0] == ' ' && (|tail| > 1 ==> !IsSpace(tail[1]));
      TrimStartOneSpace(tail);
      assert tail[1..] == rest;
      SingleSpacedDrop(s, 2);
      CollapseSingleSpaced(rest);
      assert s == [s[0]] + (" " + rest);
    } else if s != [] {
      var tail := s[1..];
      SingleSpacedDrop(s, 1);
      CollapseSingleSpaced(tail);
      assert s == [s[0]] + tail;
    }
  }

  lemma CapitalizeCapitalized(w: string)
    requires Capitalized(w)
    ensures Capitalize(w) == w
  {
    LowerOfNoUpper(w[1..]);
  }

  /** A cleaned name is left as it is. */
  lemma CleanNameFixed(s: string)
    requires CleanName(s)
    ensures CleanBusinessName(s) == s
  {
    if s == [] {
      SplitEmpty();
    } else {
      CleanNameSpacing(s);
      KeepAllNameChars(s);
      CollapseSingleSpaced(s);
      TrimNoSpaceEnds(s);
      var ws := Split(s, ' ');
      forall k | 0 <= k < |ws| ensures Capitalize(ws[k]) == ws[k] {
        CapitalizeCapitalized(ws[k]);
      }
      assert CapitalizeAll(ws) == ws;
    }
  }

  /** Cleaning twice is cleaning once. */
  lemma CleanBusinessNameIdempotent(name: string)
    ensures CleanBusinessName(CleanBusinessName(name)) == CleanBusinessName(name)
  {
    CleanBusinessNameIsClean(name);
    CleanNameFixed(CleanBusinessName(name));
  }

  // ---------------------------------------------------------------------------
  // postProcessExtractedData: rounding the GST rate and snapping it to a slab
  // ---------------------------------------------------------------------------

  function Abs(x: int): nat { if x < 0 then -x else x }

  /** `Math.round`: the nearest integer, halves rounded up. */
  function Round(x: real): (n: int)
    ensures n as real - 0.5 <= x < n as real + 0.5
  {
    (x + 0.5).Floor
  }

  /** The standard GST slabs, in the order the source lists them. */
  const StandardRates: seq<int> := [0, 5, 12, 18, 28]

  /** `rates.reduce((prev, curr) => |curr - r| < |prev - r| ? curr : prev)`, by position:
      starting from the first slab, a later one replaces the current pick only when it is
      strictly nearer, so the pick is the first of the nearest. */
  function NearestAt(rates: seq<int>, r: int): (k: nat)
    requires |rates| > 0
    ensures k < |rates|
    ensures forall j :: 0 <= j < |rates| ==> Abs(rates[k] - r) <= Abs(rates[j] - r)
    ensures forall j :: 0 <= j < k ==> Abs(rates[j] - r) > Abs(rates[k] - r)
  {
    if |rates| == 1 then 0
    else
      var init := rates[..|rates| - 1];
      var k := NearestAt(init, r);
      assert forall j :: 0 <= j < |init| ==> rates[j] == init[j];
      var last := |rates| - 1;
      if Abs(rates[last] - r) < Abs(rates[k] - r) then last else k
  }

  function Nearest(rates: seq<int>, r: int): (c: int)
    requires |rates| > 0
    ensures c in rates
    ensures forall j :: 0 <= j < |rates| ==> Abs(c - r) <= Abs(rates[j] - r)
  {
    rates[NearestAt(rates, r)]
  }

  /** The slab a rounded rate is snapped to. */
  function SnapRate(r: int): (c: int)
    ensures c in StandardRates
  {
    Nearest(StandardRates, r)
  }

  /** The pick is nearest among the slabs, and of equally near slabs it is the smaller. */
  lemma SnapRateNearest(r: int, x: int)
    requires x in StandardRates
    ensures Abs(SnapRate(r) - r) <= Abs(x - r)
    ensures Abs(SnapRate(r) - r) == Abs(x - r) ==> SnapRate(r) <= x
  {
    var k := NearestAt(StandardRates, r);
    var ix :| 0 <= ix < |StandardRates| && StandardRates[ix] == x;
    if Abs(StandardRates[k] - r) == Abs(x - r) {
      assert k <= ix;
    }
  }

  /** A standard slab snaps to itself. */
  lemma SnapRateStandard(r: int)
    requires r in StandardRates
    ensures SnapRate(r) == r
  {
    SnapRateNearest(r, r);
  }

  /** 15 is as near to 12 as to 18, and the tie goes to 12; 23 goes to 18, not 28. */
  lemma SnapRateTies()
    ensures SnapRate(15) == 12 && SnapRate(23) == 18
  {
    SnapRateNearest(15, 12);
    SnapRateNearest(23, 18);
  }

  /** `Math.round((gstAmount / subtotal) * 100)`, snapped. */
  function GstRateOf(gstAmount: real, subtotal: real): (rate: int)
    requires subtotal > 0.0
    ensures rate in StandardRates
    ensures forall x :: x in StandardRates ==> Abs(rate - Round(gstAmount / subtotal * 100.0)) <= Abs(x - Round(gstAmount / subtotal * 100.0))
  {
    var r := Round(gstAmount / subtotal * 100.0);
    assert forall x :: x in StandardRates ==> exists j :: 0 <= j < |StandardRates| && StandardRates[j] == x;
    SnapRate(r)
  }

  /** An 18% tax on a subtotal is read back as the 18% slab. */
  lemma GstRateOfExact(subtotal: real)
    requires subtotal > 0.0
    ensures GstRateOf(subtotal * 0.18, subtotal) == 18
  {
    assert subtotal * 0.18 / subtotal * 100.0 == 18.0;
    assert Round(18.0) == 18;
    SnapRateStandard(18);
  }

  // ---------------------------------------------------------------------------
  // The extracted record
  // ---------------------------------------------------------------------------

  /** A number field as JavaScript sees it: `None` is null or NaN. */
  predicate NumTruthy(x: Option<real>) { x.Some? && x.value != 0.0 }

  /** A text field: `None` is null or undefined, and the empty string is falsy too. */
  predicate TextTruthy(s: Option<string>) { s.Some? && s.value != [] }

  /** `a || b` on numbers. */
  function NumOr(a: Option<real>, b: Option<real>): (r: Option<real>)
    ensures NumTruthy(a) ==> r == a
    ensures !NumTruthy(a) ==> r == b
  {
    if NumTruthy(a) then a else b
  }

  /** One parsed line of the items section. */
  datatype LineItem = LineItem(description: string, quantity: Option<real>, unitPrice: Option<real>, total: Option<real>)

  /** The value of a `vendorInfo` or `customerInfo` object. */
  datatype PartyInfo = PartyInfo(name: Option<string>, address: Option<string>, contact: Option<string>)

  /** The value of an extracted-data object, as the score, validation and export read it. */
  datatype InvoiceData = InvoiceData(
    invoiceNumber: Option<string>, date: Option<string>, totalAmount: Option<real>,
    gstin: Option<string>, gstAmount: Option<real>, subtotal: Option<real>, gstRate: Option<int>,
    items: seq<LineItem>, vendor: PartyInfo, customer: PartyInfo)

  /** `vendorInfo` and `customerInfo`: objects of their own, which a shallow copy shares. */
  class Party {
    var name: Option<string>
    var address: Option<string>
    var contact: Option<string>

    /** The empty object `{}`. */
    constructor()
      ensures name == None && address == None && contact == None
    {
      name, address, contact := None, None, None;
    }

    function Info(): PartyInfo
      reads this
    {
      PartyInfo(name, address, contact)
    }
  }

  /** The extracted-data object that the extraction steps fill in place. */
  class Invoice {
    var invoiceNumber: Option<string>
    var date: Option<string>
    var totalAmount: Option<real>
    var gstin: Option<string>
    var gstAmount: Option<real>
    var subtotal: Option<real>
    var gstRate: Option<int>
    var items: seq<LineItem>
    var vendorInfo: Party
    var customerInfo: Party

    /** The record `extractInvoiceData` starts from: every field null, no items, and two
        fresh, empty party objects. */
    constructor()
      ensures Data() == InvoiceData(None, None, None, None, None, None, None, [],
                                    PartyInfo(None, None, None), PartyInfo(None, None, None))
      ensures fresh(vendorInfo) && fresh(customerInfo) && vendorInfo != customerInfo
    {
      invoiceNumber, date, totalAmount, gstin, gstAmount, subtotal, gstRate := None, None, None, None, None, None, None;
      items := [];
      vendorInfo := new Party();
      customerInfo := new Party();
    }

    /** `{ ...data }`: the same field values, and the same party objects. */
    constructor Copy(from: Invoice)
      ensures Data() == from.Data()
      ensures vendorInfo == from.vendorInfo && customerInfo == from.customerInfo
    {
      invoiceNumber, date, totalAmount, gstin := from.invoiceNumber, from.date, from.totalAmount, from.gstin;
      gstAmount, subtotal, gstRate, items := from.gstAmount, from.subtotal, from.gstRate, from.items;
      vendorInfo, customerInfo := from.vendorInfo, from.customerInfo;
    }

    function Data(): InvoiceData
      reads this, vendorInfo, customerInfo
    {
      InvoiceData(invoiceNumber, date, totalAmount, gstin, gstAmount, subtotal, gstRate, items,
                  vendorInfo.Info(), customerInfo.Info())
    }

    /** Nothing but the items and the subtotal has changed since the old state. */
    twostate predicate OnlyItemsChanged()
      reads this
    {
      && invoiceNumber == old(invoiceNumber) && date == old(date) && totalAmount == old(totalAmount)
      && gstin == old(gstin) && gstAmount == old(gstAmount) && gstRate == old(gstRate)
      && vendorInfo == old(vendorInfo) && customerInfo == old(customerInfo)
    }

    /** `extractLineItems`: split `text` into lines and trim each, scan them, appending what
        `parse` (standing for `parseLineItem`) makes of each line inside the items section;
        then, when items were found and no subtotal was, the subtotal is the sum of the item
        totals. */
    method ExtractLineItems(text: string, parse: string -> Option<LineItem>)
      modifies this
      ensures items == old(items) + ScanItems(TrimAll(Split(text, '\n')), false, parse)
      ensures subtotal == if |items| > 0 && !NumTruthy(old(subtotal)) then Some(SumTotals(items)) else old(subtotal)
      ensures OnlyItemsChanged()
    {
      var lines := TrimAll(Split(text, '\n'));
      var found := CollectItems(lines, parse);
      items := items + found;
      FillSubtotal();
    }

    /** When there are items and no subtotal, the subtotal is the sum of the item totals. */
    method FillSubtotal()
      modifies this
      ensures subtotal == if |items| > 0 && !NumTruthy(old(subtotal)) then Some(SumTotals(items)) else old(subtotal)
      ensures items == old(items) && OnlyItemsChanged()
    {
      if |items| > 0 && !NumTruthy(subtotal) {
        subtotal := Some(SumTotals(items));
      }
    }
  }

  /** The loop of `extractLineItems` over the trimmed lines: the items it pushes, in order. */
  method CollectItems(lines: seq<string>, parse: string -> Option<LineItem>) returns (found: seq<LineItem>)
    ensures found == ScanItems(lines, false, parse)
  {
    found := [];
    var inItemsSection := false;
    var i := 0;
    assert lines[i..] == lines;
    while i < |lines|
      invariant 0 <= i <= |lines|
      invariant ScanItems(lines, false, parse) == found + ScanItems(lines[i..], inItemsSection, parse)
    {
      var line := lines[i];
      var lowerLine := ToLower(line);
      if MentionsAny(lowerLine, HeaderWords) {
        ScanStepHeader(lines, i, inItemsSection, parse);
        inItemsSection := true;
        i := i + 1;
        continue;
      }
      if inItemsSection && MentionsAny(lowerLine, EndWords) {
        ScanStepEnd(lines, i, parse);
        break;
      }
      ScanStepLine(lines, i, inItemsSection, parse);
      ghost var rest := ScanItems(lines[i + 1..], inItemsSection, parse);
      if inItemsSection && line != [] {
        var item := parse(line);
        if item.Some? {
          assert found + ([item.value] + rest) == (found + [item.value]) + rest;
          found := found + [item.value];
        } else {
          assert [] + rest == rest;
        }
      } else {
        assert [] + rest == rest;
      }
      i := i + 1;
    }
    assert i == |lines| ==> lines[i..] == [];
  }

  // ---------------------------------------------------------------------------
  // parseLineItem: building an item from the groups of a matched pattern
  // ---------------------------------------------------------------------------

  /** The capture groups of the first of the three line patterns that matched: the
      description, the first number, and the second and third numbers, which only the
      quantity-and-price patterns have. */
  datatype ItemMatch = ItemMatch(description: string, first: string, second: Option<string>, third: Option<string>)

  /** `replace(/,/g, '')`. */
  function DropCommas(s: string): (r: string)
    ensures Free(r, ',')
    ensures Free(s, ',') ==> r == s
  {
    if s == [] then [] else (if s[0] == ',' then [] else [s[0]]) + DropCommas(s[1..])
  }

  /** `parseFloat(group?.replace(/,/g, ''))`: NaN for a missing group. */
  function GroupNumber(g: Option<string>): Option<real> {
    if g.None? then None else ParseFloat(DropCommas(g.value))
  }

  /** The fill-in step: a missing unit price is the total over the quantity, and then a
      missing total is the quantity times the unit price. Present values are kept. */
  function FillIn(item: LineItem): (r: LineItem)
    ensures r.description == item.description && r.quantity == item.quantity
    ensures NumTruthy(item.unitPrice) ==> r.unitPrice == item.unitPrice
    ensures NumTruthy(item.total) ==> r.total == item.total
    ensures !NumTruthy(item.quantity) ==> r == item
  {
    var q, u, t := item.quantity, item.unitPrice, item.total;
    if !NumTruthy(u) && NumTruthy(q) && NumTruthy(t) then
      item.(unitPrice := Some(t.value / q.value))
    else if !NumTruthy(t) && NumTruthy(q) && NumTruthy(u) then
      item.(total := Some(q.value * u.value))
    else item
  }

  /** The item's numbers agree: total = quantity × unit price. */
  predicate Consistent(item: LineItem) {
    && item.quantity.Some? && item.unitPrice.Some? && item.total.Some?
    && item.total.value == item.quantity.value * item.unitPrice.value
  }

  /** With a quantity and exactly one of unit price and total, the filled-in item has both,
      and they agree: total = quantity × unit price. */
  lemma FillInConsistent(item: LineItem)
    requires NumTruthy(item.quantity) && NumTruthy(item.unitPrice) != NumTruthy(item.total)
    ensures NumTruthy(FillIn(item).unitPrice) && NumTruthy(FillIn(item).total) && Consistent(FillIn(item))
  {
    var q := item.quantity.value;
    if NumTruthy(item.total) {
      var t := item.total.value;
      assert t / q * q == t;
    }
  }

  /** `parseLineItem` once a pattern has matched: the trimmed description, the first number
      or 1 as the quantity, the second (else the first) as the unit price, the third (else the
      first) as the total, then the fill-in step. */
  function ParseLineItem(m: ItemMatch): (r: LineItem)
    ensures r.description == Trim(m.description)
    ensures NumTruthy(r.quantity)
  {
    var first := GroupNumber(Some(m.first));
    FillIn(LineItem(Trim(m.description), NumOr(first, Some(1.0)),
                    NumOr(GroupNumber(m.second), first), NumOr(GroupNumber(m.third), first)))
  }

  /** A group of plain digits reads as their value. */
  lemma GroupNumberOfDigits(d: string)
    requires d != [] && AllDigits(d)
    ensures GroupNumber(Some(d)) == Some(DigitsValue(d) as real)
  {
    assert Free(d, ',') by {
      forall i | 0 <= i < |d| ensures d[i] != ',' { assert IsDigit(d[i]); }
    }
    ParseFloatOfDigits(d, []);
    assert d + [] == d;
  }

  /** The description-and-amount pattern has no quantity group, yet the amount lands in the
      quantity too: a line ending in an amount `d` reads as `d` units at `d` each, totalling `d`. */
  lemma AmountOnlyLineQuantity(description: string, d: string)
    requires d != [] && AllDigits(d) && DigitsValue(d) > 0
    ensures var v := DigitsValue(d) as real; var r := ParseLineItem(ItemMatch(description, d, None, None));
      r.quantity == Some(v) && r.unitPrice == Some(v) && r.total == Some(v)
  {
    GroupNumberOfDigits(d);
  }

  /** `v` units at `v` each do not total `v` unless `v` is 1. */
  lemma SameAmountInconsistent(r: LineItem, v: real)
    requires v > 1.0 && r.quantity == Some(v) && r.unitPrice == Some(v) && r.total == Some(v)
    ensures !Consistent(r)
  {
    var q, u, s := r.quantity.value, r.unitPrice.value, r.total.value;
    assert q == v && u == v && s == v;
    assert v * v - v == v * (v - 1.0);
    assert v * (v - 1.0) > 0.0;
    assert q * u == v * v;
    assert v * v > v;
    assert s != q * u;
  }

  /** So for any amount other than 1 the item contradicts itself. */
  lemma AmountOnlyLineInconsistent(description: string, d: string)
    requires d != [] && AllDigits(d) && DigitsValue(d) > 1
    ensures !Consistent(ParseLineItem(ItemMatch(description, d, None, None)))
  {
    AmountOnlyLineQuantity(description, d);
    SameAmountInconsistent(ParseLineItem(ItemMatch(description, d, None, None)), DigitsValue(d) as real);
  }

  /** As evidently intended: a match without a quantity group is one unit at the amount. */
  function FixedParseLineItem(m: ItemMatch): (r: LineItem)
    ensures r.description == Trim(m.description)
    ensures NumTruthy(r.quantity)
  {
    var first := GroupNumber(Some(m.first));
    if m.second.None? && m.third.None? then
      FillIn(LineItem(Trim(m.description), Some(1.0), first, first))
    else
      ParseLineItem(m)
  }

  /** The corrected item always satisfies total = quantity × unit price when the amount-only
      pattern matched a usable amount. */
  lemma FixedAmountOnlyLine(description: string, amount: string)
    requires NumTruthy(GroupNumber(Some(amount)))
    ensures var r := FixedParseLineItem(ItemMatch(description, amount, None, None));
      r.quantity == Some(1.0) && r.unitPrice == r.total == GroupNumber(Some(amount)) && Consistent(r)
  {
  }

  /** The quantity-and-price patterns are read the same way by both. */
  lemma FixedParseLineItemKeepsFullMatches(m: ItemMatch)
    requires m.second.Some? || m.third.Some?
    ensures FixedParseLineItem(m) == ParseLineItem(m)
  {
  }

  // ---------------------------------------------------------------------------
  // postProcessExtractedData: the invoice number
  // ---------------------------------------------------------------------------

  predicate InvoiceNumberChar(c: char) { IsWordChar(c) || c == '-' }

  /** `replace(/[^\w\-]/g, '')`. */
  function KeepInvoiceChars(s: string): (r: string)
    ensures forall i :: 0 <= i < |r| ==> InvoiceNumberChar(r[i])
    ensures (forall i :: 0 <= i < |s| ==> InvoiceNumberChar(s[i])) ==> r == s
  {
    if s == [] then [] else (if InvoiceNumberChar(s[0]) then [s[0]] else []) + KeepInvoiceChars(s[1..])
  }

  /** `.replace(/[^\w\-]/g, '').toUpperCase()`. */
  function CleanInvoiceNumber(s: string): (r: string)
    ensures forall i :: 0 <= i < |r| ==> InvoiceNumberChar(r[i]) && !IsLower(r[i])
  {
    ToUpper(KeepInvoiceChars(s))
  }

  /** Cleaning an invoice number twice is cleaning it once. */
  lemma CleanInvoiceNumberIdempotent(s: string)
    ensures CleanInvoiceNumber(CleanInvoiceNumber(s)) == CleanInvoiceNumber(s)
  {
    var c := CleanInvoiceNumber(s);
    assert KeepInvoiceChars(c) == c;
    assert forall i :: 0 <= i < |c| ==> UpperChar(c[i]) == c[i];
  }

  // ---------------------------------------------------------------------------
  // extractLineItems: the items-section scan
  // ---------------------------------------------------------------------------

  /** A line naming a column of the items table opens the section. */
  const HeaderWords: seq<string> := ["description", "item", "particulars", "qty", "quantity", "rate", "amount"]

  /** A line naming a total closes it. */
  const EndWords: seq<string> := ["subtotal", "total", "gst", "tax", "grand total"]

  predicate MentionsAny(line: string, words: seq<string>) {
    exists k :: 0 <= k < |words| && Includes(line, words[k])
  }

  /** Whether a trimmed line opens the items section. */
  predicate IsHeader(line: string) { MentionsAny(ToLower(line), HeaderWords) }

  /** Whether a trimmed line closes it. */
  predicate IsEnd(line: string) { MentionsAny(ToLower(line), EndWords) }

  /** Every line trimmed, as the scan sees them. */
  function TrimAll(lines: seq<string>): (r: seq<string>)
  {
    seq(|lines|, k requires 0 <= k < |lines| => Trim(lines[k]))
  }

  /** The items the scan collects from the trimmed `lines`, given whether it is inside the
      section: a header line (checked first) enters the section, an end line inside it stops
      the scan, and any other non-blank line inside it is handed to the line parser. */
  function ScanItems(lines: seq<string>, inSection: bool, parse: string -> Option<LineItem>): (items: seq<LineItem>)
    ensures |items| <= |lines|
  {
    if lines == [] then []
    else if IsHeader(lines[0]) then ScanItems(lines[1..], true, parse)
    else if inSection && IsEnd(lines[0]) then []
    else
      var here := if inSection && lines[0] != [] then parse(lines[0]) else None;
      (if here.Some? then [here.value] else []) + ScanItems(lines[1..], inSection, parse)
  }

  lemma ScanStepHeader(lines: seq<string>, i: nat, inSection: bool, parse: string -> Option<LineItem>)
    requires i < |lines| && IsHeader(lines[i])
    ensures ScanItems(lines[i..], inSection, parse) == ScanItems(lines[i + 1..], true, parse)
  {
    assert lines[i..][0] == lines[i] && lines[i..][1..] == lines[i + 1..];
  }

  lemma ScanStepEnd(lines: seq<string>, i: nat, parse: string -> Option<LineItem>)
    requires i < |lines| && !IsHeader(lines[i]) && IsEnd(lines[i])
    ensures ScanItems(lines[i..], true, parse) == []
  {
    assert lines[i..][0] == lines[i];
  }

  lemma ScanStepLine(lines: seq<string>, i: nat, inSection: bool, parse: string -> Option<LineItem>)
    requires i < |lines| && !IsHeader(lines[i]) && !(inSection && IsEnd(lines[i]))
    ensures var line := lines[i];
      ScanItems(lines[i..], inSection, parse)
      == (if inSection && line != [] && parse(line).Some? then [parse(line).value] else []) + ScanItems(lines[i + 1..], inSection, parse)
  {
    assert lines[i..][0] == lines[i] && lines[i..][1..] == lines[i + 1..];
  }

  /** `(sum, item) => sum + (item.total || 0)`, folded from 0. */
  function SumTotals(items: seq<LineItem>): real {
    if items == [] then 0.0
    else SumTotals(items[..|items| - 1]) + items[|items| - 1].total.GetOr(0.0)
  }

  lemma {:induction false} SumTotalsAppend(a: seq<LineItem>, b: seq<LineItem>)
    ensures SumTotals(a + b) == SumTotals(a) + SumTotals(b)
    decreases |b|
  {
    if b == [] {
      assert a + b == a;
    } else {
      assert (a + b)[..|a + b| - 1] == a + b[..|b| - 1];
      SumTotalsAppend(a, b[..|b| - 1]);
    }
  }

  /** Lines before the first header line contribute nothing. */
  lemma {:induction false} ScanSkipsPreamble(pre: seq<string>, rest: seq<string>, parse: string -> Option<LineItem>)
    requires forall k :: 0 <= k < |pre| ==> !IsHeader(pre[k])
    ensures ScanItems(pre + rest, false, parse) == ScanItems(rest, false, parse)
    decreases |pre|
  {
    if pre == [] {
      assert pre + rest == rest;
    } else {
      var lines := pre + rest;
      assert lines[0] == pre[0] && lines[1..] == pre[1..] + rest;
      assert ScanItems(lines, false, parse) == [] + ScanItems(lines[1..], false, parse);
      ScanSkipsPreamble(pre[1..], rest, parse);
    }
  }

  /** Text without a header line yields no items. */
  lemma {:induction false} ScanWithoutHeader(lines: seq<string>, parse: string -> Option<LineItem>)
    requires forall k :: 0 <= k < |lines| ==> !IsHeader(lines[k])
    ensures ScanItems(lines, false, parse) == []
    decreases |lines|
  {
    if lines != [] {
      var rest := lines[1..];
      assert forall k :: 0 <= k < |rest| ==> rest[k] == lines[k + 1];
      ScanWithoutHeader(rest, parse);
      assert ScanItems(lines, false, parse) == [] + ScanItems(rest, false, parse);
    }
  }

  /** A header line is never an item or an end, even when it also names a total: the scan
      carries on inside the section. */
  lemma ScanHeaderReenters(line: string, rest: seq<string>, inSection: bool, parse: string -> Option<LineItem>)
    requires IsHeader(line)
    ensures ScanItems([line] + rest, inSection, parse) == ScanItems(rest, true, parse)
  {
    assert ([line] + rest)[1..] == rest;
  }

  /** So a "Total Amount" line inside the section does not end it, because "amount" is a
      header word. */
  lemma ScanTotalAmountIsHeader(line: string)
    requires Includes(ToLower(line), "amount")
    ensures IsHeader(line)
  {
    assert HeaderWords[6] == "amount";
  }

  /** Inside the section, an end line that is not a header line stops the scan there. */
  lemma ScanEndStops(line: string, rest: seq<string>, parse: string -> Option<LineItem>)
    requires !IsHeader(line) && IsEnd(line)
    ensures ScanItems([line] + rest, true, parse) == []
  {
  }

  /** What the line parser makes of each of `lines`. */
  function Parses(lines: seq<string>, parse: string -> Option<LineItem>): (r: seq<Option<LineItem>>)
    ensures |r| == |lines| && forall k :: 0 <= k < |lines| ==> r[k] == parse(lines[k])
  {
    seq(|lines|, k requires 0 <= k < |lines| => parse(lines[k]))
  }

  /** Every item of `r` is the parse of one of `lines`. */
  ghost predicate FromLines(r: seq<LineItem>, lines: seq<string>, parse: string -> Option<LineItem>) {
    forall i :: 0 <= i < |r| ==> Some(r[i]) in Parses(lines, parse)
  }

  lemma FromLinesCons(head: seq<LineItem>, tail: seq<LineItem>, lines: seq<string>, parse: string -> Option<LineItem>)
    requires lines != [] && FromLines(tail, lines[1..], parse)
    requires head == [] || (|head| == 1 && parse(lines[0]) == Some(head[0]))
    ensures FromLines(head + tail, lines, parse)
  {
    var r := head + tail;
    var all := Parses(lines, parse);
    var rest := Parses(lines[1..], parse);
    forall i | 0 <= i < |r| ensures Some(r[i]) in all {
      if i < |head| {
        assert all[0] == Some(r[i]);
      } else {
        assert r[i] == tail[i - |head|];
        var k :| 0 <= k < |rest| && rest[k] == Some(tail[i - |head|]);
        assert lines[1..][k] == lines[k + 1];
        assert all[k + 1] == Some(r[i]);
      }
    }
  }

  /** Every collected item is the parse of some line. */
  lemma {:induction false} ScanItemsFromLines(lines: seq<string>, inSection: bool, parse: string -> Option<LineItem>)
    ensures FromLines(ScanItems(lines, inSection, parse), lines, parse)
    decreases |lines|
  {
    if lines == [] {
    } else if IsHeader(lines[0]) {
      ScanItemsFromLines(lines[1..], true, parse);
      FromLinesCons([], ScanItems(lines[1..], true, parse), lines, parse);
      assert ScanItems(lines, inSection, parse) == [] + ScanItems(lines[1..], true, parse);
    } else if inSection && IsEnd(lines[0]) {
    } else {
      var here := if inSection && lines[0] != [] then parse(lines[0]) else None;
      var head := if here.Some? then [here.value] else [];
      ScanItemsFromLines(lines[1..], inSection, parse);
      FromLinesCons(head, ScanItems(lines[1..], inSection, parse), lines, parse);
    }
  }
}
