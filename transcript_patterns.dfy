/** The regular expressions the voice front ends run over a transcript, each written out as
    a hand-made matcher with JavaScript's leftmost, greedy `String.prototype.match`
    semantics (first match only, the whole match `[0]`):
    `/\d+/`, `/\d+(\.\d{1,2})?/`, `/INV-\d+/i` and `/invoice\s+(\w+)/i`. */
module TranscriptPatterns {
  import opened Maybe
  import opened JsString

  datatype CharClass = Digits | Spaces | WordChars

  predicate InClass(c: char, k: CharClass) {
    match k
    case Digits => IsDigit(c)
    case Spaces => IsSpace(c)
    case WordChars => IsWordChar(c)
  }

  /** The end of the maximal run of characters of class `k` that starts at `i`. */
  function RunEnd(s: string, i: nat, k: CharClass): (j: nat)
    requires i <= |s|
    ensures i <= j <= |s|
    ensures forall m :: i <= m < j ==> InClass(s[m], k)
    ensures j < |s| ==> !InClass(s[j], k)
    decreases |s| - i
  {
    if i < |s| && InClass(s[i], k) then RunEnd(s, i + 1, k) else i
  }

  datatype Pattern =
    | DigitRun     // /\d+/
    | Amount       // /\d+(\.\d{1,2})?/
    | InvoiceCode  // /INV-\d+/i
    | InvoiceWord  // /invoice\s+(\w+)/i

  /** The pattern matches at position `i` of `s`. */
  predicate StartsAt(p: Pattern, s: string, i: nat) {
    match p
    case DigitRun => DigitAt(s, i)
    case Amount => DigitAt(s, i)
    case InvoiceCode => InvoiceCodeAt(s, i)
    case InvoiceWord => InvoiceWordAt(s, i)
  }

  predicate DigitAt(s: string, i: nat) { i < |s| && IsDigit(s[i]) }

  /** The letters of the `i` patterns are compared after ASCII lower-casing, which for these
      letters is the case-insensitive comparison of a non-Unicode regular expression. */
  predicate InvoiceCodeAt(s: string, i: nat) {
    i + 5 <= |s| && ToLower(s[i..i + 4]) == "inv-" && IsDigit(s[i + 4])
  }

  predicate InvoiceWordAt(s: string, i: nat) {
    && i + 7 <= |s| && ToLower(s[i..i + 7]) == "invoice"
    && var w := RunEnd(s, i + 7, Spaces);
       i + 7 < w < |s| && IsWordChar(s[w])
  }

  /** The end of the greedy match that starts at `i`. */
  function MatchEnd(p: Pattern, s: string, i: nat): (e: nat)
    requires StartsAt(p, s, i)
    ensures i < e <= |s|
  {
    match p
    case DigitRun => RunEnd(s, i, Digits)
    case Amount => AmountEnd(s, i)
    case InvoiceCode => RunEnd(s, i + 4, Digits)
    case InvoiceWord => RunEnd(s, RunEnd(s, i + 7, Spaces), WordChars)
  }

  /** `\d+` then, when a point and a digit follow, the point and one or two digits. */
  function AmountEnd(s: string, i: nat): (e: nat)
    requires DigitAt(s, i)
    ensures i < e <= |s|
  {
    var j := RunEnd(s, i, Digits);
    if j + 1 < |s| && s[j] == '.' && IsDigit(s[j + 1]) then
      (if j + 2 < |s| && IsDigit(s[j + 2]) then j + 3 else j + 2)
    else j
  }

  /** The leftmost position at or after `from` where the pattern matches. */
  function FirstStart(p: Pattern, s: string, from: nat): (r: Option<nat>)
    ensures r.Some? ==> from <= r.value && StartsAt(p, s, r.value)
    ensures r.Some? ==> forall q :: from <= q < r.value ==> !StartsAt(p, s, q)
    ensures r.None? ==> forall q :: from <= q ==> !StartsAt(p, s, q)
    decreases |s| - from
  {
    if from >= |s| then None
    else if StartsAt(p, s, from) then Some(from)
    else FirstStart(p, s, from + 1)
  }

  /** The leftmost match at or after `from` is at `q` when it matches there and nowhere
      between. */
  lemma {:induction false} FirstStartAt(p: Pattern, s: string, from: nat, q: nat)
    requires from <= q && StartsAt(p, s, q)
    requires forall k :: from <= k < q ==> !StartsAt(p, s, k)
    ensures FirstStart(p, s, from) == Some(q)
    decreases q - from
  {
    if from < q {
      FirstStartAt(p, s, from + 1, q);
    }
  }

  /** `s.match(pattern)?.[0]`: the text of the leftmost match, or null. */
  function Match(p: Pattern, s: string): (m: Option<string>)
    ensures m.None? <==> FirstStart(p, s, 0).None?
    ensures m.Some? ==> var q := FirstStart(p, s, 0).value; m.value == s[q..MatchEnd(p, s, q)]
  {
    match FirstStart(p, s, 0)
    case None => None
    case Some(q) => Some(s[q..MatchEnd(p, s, q)])
  }

  /** The matched text is never empty. */
  lemma MatchNonEmpty(p: Pattern, s: string)
    ensures Match(p, s).Some? ==> Match(p, s).value != []
  {
  }

  /** A digit-run match is all digits, and so is the integer part of an amount match;
      an amount match adds at most a point and two digits. */
  lemma AmountMatchShape(s: string)
    requires Match(Amount, s).Some?
    ensures var m := Match(Amount, s).value;
      var q := FirstStart(Amount, s, 0).value;
      var j := RunEnd(s, q, Digits);
      && m[..j - q] == s[q..j] && AllDigits(s[q..j]) && j - q <= |m| <= j - q + 3
      && (|m| > j - q ==> m[j - q] == '.' && AllDigits(m[j - q + 1..]))
  {
  }

  /** The amount in a transcript: `parseFloat` of the amount match. */
  function AmountIn(s: string): (r: Option<real>)
    ensures r.None? <==> Match(Amount, s).None?
    ensures r.Some? ==> r.value >= 0.0
  {
    match Match(Amount, s)
    case None => None
    case Some(m) =>
      var q := FirstStart(Amount, s, 0).value;
      assert m[0] == s[q];
      ParseFloatOfUnsigned(m);
      UnsignedDecimalOfDigit(m, 0);
      ParseFloat(m)
  }

  /** An amount match always parses, to a value that is never negative. */
  lemma AmountInOfMatch(s: string)
    requires Match(Amount, s).Some?
    ensures AmountIn(s).Some? && AmountIn(s).value >= 0.0
  {
    var m := Match(Amount, s).value;
    var q := FirstStart(Amount, s, 0).value;
    assert m[0] == s[q];
    ParseFloatOfUnsigned(m);
    UnsignedDecimalOfDigit(m, 0);
  }

  /** An amount is never negative. */
  lemma AmountInNonNegative(s: string)
    ensures AmountIn(s).Some? ==> AmountIn(s).value >= 0.0
  {
    if Match(Amount, s).Some? {
      AmountInOfMatch(s);
    }
  }

  /** Without any digit there is no amount. */
  lemma AmountInNone(s: string)
    requires forall q :: 0 <= q < |s| ==> !IsDigit(s[q])
    ensures AmountIn(s).None?
  {
  }

  /** Without a point and a digit after the first run of digits, the amount is the value of
      that run. */
  lemma AmountInWhole(s: string)
    requires Match(Amount, s).Some?
    ensures var q := FirstStart(Amount, s, 0).value;
      var j := RunEnd(s, q, Digits);
      !(j + 1 < |s| && s[j] == '.' && IsDigit(s[j + 1])) ==>
        AmountIn(s) == Some(DigitsValue(s[q..j]) as real)
  {
    var q := FirstStart(Amount, s, 0).value;
    var j := RunEnd(s, q, Digits);
    AmountMatchWhole(s);
    DigitRunDigits(s, q);
    ParseFloatOfRun(s[q..j]);
  }

  lemma DigitRunDigits(s: string, q: nat)
    requires q <= |s|
    ensures AllDigits(s[q..RunEnd(s, q, Digits)])
  {
    var j := RunEnd(s, q, Digits);
    forall k | 0 <= k < j - q ensures IsDigit(s[q..j][k]) {
      assert InClass(s[q + k], Digits);
    }
  }

  lemma ParseFloatOfRun(m: string)
    requires m != [] && AllDigits(m)
    ensures ParseFloat(m) == Some(DigitsValue(m) as real)
  {
    ParseFloatOfDigits(m, []);
    assert m + [] == m;
  }

  /** Without a point and a digit after the first run of digits, the amount match is that
      run. */
  lemma AmountMatchWhole(s: string)
    requires Match(Amount, s).Some?
    ensures var q := FirstStart(Amount, s, 0).value;
      var j := RunEnd(s, q, Digits);
      !(j + 1 < |s| && s[j] == '.' && IsDigit(s[j + 1])) ==> Match(Amount, s).value == s[q..j]
  {
  }
}
