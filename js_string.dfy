/** The JavaScript string and number built-ins the application relies on, written out
    as Dafny functions: white space and `trim`, ASCII case mapping, `includes`/`indexOf`,
    `replace` with a string pattern, `split`/`join`, `parseFloat`/`parseInt` on decimal
    text, and the conversion of a number to text. */
module JsString {
  import opened Maybe

  // ---------------------------------------------------------------------------
  // Character classes
  // ---------------------------------------------------------------------------

  /** The WhiteSpace and LineTerminator code points: the set `\s`, `trim` and
      `parseFloat` skip. */
  predicate IsSpace(c: char) {
    || c == ' ' || c == '\t' || c == '\n' || c == '\r' || c == '\U{0B}' || c == '\U{0C}'
    || c == '\U{A0}' || c == '\U{1680}' || ('\U{2000}' <= c <= '\U{200A}')
    || c == '\U{2028}' || c == '\U{2029}' || c == '\U{202F}' || c == '\U{205F}'
    || c == '\U{3000}' || c == '\U{FEFF}'
  }

  predicate IsDigit(c: char) { '0' <= c <= '9' }
  predicate IsUpper(c: char) { 'A' <= c <= 'Z' }
  predicate IsLower(c: char) { 'a' <= c <= 'z' }
  predicate IsLetter(c: char) { IsUpper(c) || IsLower(c) }

  /** The regular-expression class `\w`. */
  predicate IsWordChar(c: char) { IsLetter(c) || IsDigit(c) || c == '_' }

  predicate AllDigits(s: string) { forall i :: 0 <= i < |s| ==> IsDigit(s[i]) }

  function DigitValue(c: char): (d: nat)
    requires IsDigit(c)
    ensures d < 10
  {
    c as int - '0' as int
  }

  function DigitChar(d: nat): (c: char)
    requires d < 10
    ensures IsDigit(c) && DigitValue(c) == d
  {
    ('0' as int + d) as char
  }

  // ---------------------------------------------------------------------------
  // Case mapping (ASCII letters only)
  // ---------------------------------------------------------------------------

  function LowerChar(c: char): (r: char)
    ensures IsUpper(c) ==> IsLower(r)
    ensures !IsUpper(c) ==> r == c
  {
    if IsUpper(c) then (c as int + 32) as char else c
  }

  function UpperChar(c: char): (r: char)
    ensures IsLower(c) ==> IsUpper(r)
    ensures !IsLower(c) ==> r == c
  {
    if IsLower(c) then (c as int - 32) as char else c
  }

  /** `String.prototype.toLowerCase`, on the ASCII letters. */
  function ToLower(s: string): (r: string)
    ensures |r| == |s|
    ensures forall i :: 0 <= i < |s| ==> r[i] == LowerChar(s[i])
  {
    seq(|s|, i requires 0 <= i < |s| => LowerChar(s[i]))
  }

  /** `String.prototype.toUpperCase`, on the ASCII letters. */
  function ToUpper(s: string): (r: string)
    ensures |r| == |s|
    ensures forall i :: 0 <= i < |s| ==> r[i] == UpperChar(s[i])
  {
    seq(|s|, i requires 0 <= i < |s| => UpperChar(s[i]))
  }

  predicate NoUpper(s: string) { forall i :: 0 <= i < |s| ==> !IsUpper(s[i]) }

  lemma LowerOfNoUpper(s: string)
    requires NoUpper(s)
    ensures ToLower(s) == s
  {
  }

  lemma ToLowerAppend(a: string, b: string)
    ensures ToLower(a + b) == ToLower(a) + ToLower(b)
  {
  }

  // ---------------------------------------------------------------------------
  // trim
  // ---------------------------------------------------------------------------

  function TrimStart(s: string): (r: string)
    ensures |r| <= |s| && r == s[|s| - |r|..]
    ensures r == [] || !IsSpace(r[0])
    ensures forall i :: 0 <= i < |s| - |r| ==> IsSpace(s[i])
  {
    if s != [] && IsSpace(s[0]) then TrimStart(s[1..]) else s
  }

  function TrimEnd(s: string): (r: string)
    ensures |r| <= |s| && r == s[..|r|]
    ensures r == [] || !IsSpace(r[|r| - 1])
    ensures forall i :: |r| <= i < |s| ==> IsSpace(s[i])
  {
    if s != [] && IsSpace(s[|s| - 1]) then TrimEnd(s[..|s| - 1]) else s
  }

  /** `String.prototype.trim`: no white space at either end, and only white space removed. */
  function Trim(s: string): (r: string)
    ensures r == [] || (!IsSpace(r[0]) && !IsSpace(r[|r| - 1]))
    ensures exists k :: OccursAt(s, r, k)
  {
    var t := TrimStart(s);
    var r := TrimEnd(t);
    assert r == s[|s| - |t|..|s| - |t| + |r|];
    assert OccursAt(s, r, |s| - |t|);
    r
  }

  lemma TrimNoSpaceEnds(s: string)
    requires s == [] || (!IsSpace(s[0]) && !IsSpace(s[|s| - 1]))
    ensures Trim(s) == s
  {
  }

  /** One trailing blank after a trimmed word is all `trim` removes. */
  lemma TrimTrailingSpace(s: string)
    requires s != [] && !IsSpace(s[0]) && !IsSpace(s[|s| - 1])
    ensures Trim(s + " ") == s
  {
    assert TrimStart(s + " ") == s + " ";
    assert (s + " ")[..|s|] == s;
  }

  // ---------------------------------------------------------------------------
  // includes / indexOf
  // ---------------------------------------------------------------------------

  predicate OccursAt(s: string, sub: string, i: int) {
    0 <= i && i + |sub| <= |s| && s[i..i + |sub|] == sub
  }

  /** `s.indexOf(sub, from)`: the least position at or after `from` where `sub` occurs. */
  function IndexOfFrom(s: string, sub: string, from: nat): (r: Option<nat>)
    decreases |s| - from
    ensures r.Some? ==> from <= r.value && OccursAt(s, sub, r.value)
    ensures r.Some? ==> forall j :: from <= j < r.value ==> !OccursAt(s, sub, j)
    ensures r.None? ==> forall j :: from <= j ==> !OccursAt(s, sub, j)
  {
    if from + |sub| > |s| then None
    else if s[from..from + |sub|] == sub then Some(from)
    else IndexOfFrom(s, sub, from + 1)
  }

  function IndexOf(s: string, sub: string): Option<nat> {
    IndexOfFrom(s, sub, 0)
  }

  /** The first occurrence is the one `indexOf` reports. */
  lemma IndexOfFirst(s: string, sub: string, p: nat)
    requires OccursAt(s, sub, p)
    requires forall j :: 0 <= j < p ==> !OccursAt(s, sub, j)
    ensures IndexOf(s, sub) == Some(p)
  {
  }

  /** `String.prototype.includes`. */
  predicate Includes(s: string, sub: string) {
    IndexOf(s, sub).Some?
  }

  lemma IncludesIff(s: string, sub: string)
    ensures Includes(s, sub) <==> exists i :: OccursAt(s, sub, i)
  {
    if !Includes(s, sub) {
      forall i ensures !OccursAt(s, sub, i) {
        if 0 <= i {
          assert 0 <= i;
        }
      }
    }
  }

  lemma IncludesAt(s: string, sub: string, i: int)
    requires OccursAt(s, sub, i)
    ensures Includes(s, sub)
  {
    IncludesIff(s, sub);
  }

  lemma IncludesSelfPart(a: string, sub: string, b: string)
    ensures Includes(a + sub + b, sub)
  {
    assert (a + sub + b)[|a|..|a| + |sub|] == sub;
    IncludesAt(a + sub + b, sub, |a|);
  }

  // ---------------------------------------------------------------------------
  // replace(string, string)
  // ---------------------------------------------------------------------------

  /** GetSubstitution for a string pattern (no capture groups): `$$`, `$&`, `` $` `` and
      `$'` are expanded, every other `$` stays literal. */
  function Substitution(template: string, matched: string, before: string, after: string): string
  {
    if |template| >= 2 && template[0] == '$' && template[1] == '$' then
      "$" + Substitution(template[2..], matched, before, after)
    else if |template| >= 2 && template[0] == '$' && template[1] == '&' then
      matched + Substitution(template[2..], matched, before, after)
    else if |template| >= 2 && template[0] == '$' && template[1] == '`' then
      before + Substitution(template[2..], matched, before, after)
    else if |template| >= 2 && template[0] == '$' && template[1] == '\'' then
      after + Substitution(template[2..], matched, before, after)
    else if template == [] then
      []
    else
      [template[0]] + Substitution(template[1..], matched, before, after)
  }

  lemma SubstitutionPlain(template: string, matched: string, before: string, after: string)
    requires '$' !in template
    ensures Substitution(template, matched, before, after) == template
  {
    if template != [] {
      SubstitutionPlain(template[1..], matched, before, after);
    }
  }

  /** `s.replace(pattern, replacement)` with a string pattern: only the first occurrence. */
  function ReplaceFirst(s: string, pattern: string, replacement: string): (r: string)
    ensures IndexOf(s, pattern).None? ==> r == s
  {
    match IndexOf(s, pattern)
    case None => s
    case Some(p) =>
      var before, after := s[..p], s[p + |pattern|..];
      before + Substitution(replacement, pattern, before, after) + after
  }

  lemma ReplaceFirstPlain(s: string, pattern: string, replacement: string)
    requires '$' !in replacement
    ensures IndexOf(s, pattern).Some? ==>
      var p := IndexOf(s, pattern).value;
      ReplaceFirst(s, pattern, replacement) == s[..p] + replacement + s[p + |pattern|..]
  {
    SubstitutionPlain(replacement, pattern, [], []);
    if IndexOf(s, pattern).Some? {
      var p := IndexOf(s, pattern).value;
      SubstitutionPlain(replacement, pattern, s[..p], s[p + |pattern|..]);
    }
  }

  // ---------------------------------------------------------------------------
  // split / join
  // ---------------------------------------------------------------------------

  function Join(parts: seq<string>, sep: string): string {
    if |parts| == 0 then []
    else if |parts| == 1 then parts[0]
    else parts[0] + sep + Join(parts[1..], sep)
  }

  predicate Free(s: string, c: char) { forall i :: 0 <= i < |s| ==> s[i] != c }

  /** `s.split(sep)` with a one-character separator: every piece, empty ones included. */
  function Split(s: string, sep: char): (r: seq<string>)
    ensures |r| >= 1
    ensures forall k :: 0 <= k < |r| ==> Free(r[k], sep)
    ensures Join(r, [sep]) == s
  {
    match IndexOf(s, [sep])
    case None =>
      assert forall i :: 0 <= i < |s| ==> !OccursAt(s, [sep], i);
      assert Free(s, sep) by {
        forall i | 0 <= i < |s| ensures s[i] != sep {
          assert !OccursAt(s, [sep], i);
          assert s[i..i + 1] == [s[i]];
        }
      }
      [s]
    case Some(p) =>
      assert s[p..p + 1] == [sep];
      assert Free(s[..p], sep) by {
        forall i | 0 <= i < p ensures s[i] != sep {
          assert !OccursAt(s, [sep], i);
          assert s[i..i + 1] == [s[i]];
        }
      }
      var rest := Split(s[p + 1..], sep);
      assert s == s[..p] + [sep] + s[p + 1..];
      [s[..p]] + rest
  }

  lemma {:induction false} SplitJoin(parts: seq<string>, sep: char)
    requires |parts| >= 1
    requires forall k :: 0 <= k < |parts| ==> Free(parts[k], sep)
    ensures Split(Join(parts, [sep]), sep) == parts
  {
    var s := Join(parts, [sep]);
    var p0 := parts[0];
    if |parts| == 1 {
      assert s == p0;
      assert IndexOf(s, [sep]).None? by {
        forall j | 0 <= j ensures !OccursAt(s, [sep], j) {
          if j < |s| {
            assert s[j..j + 1] == [s[j]];
          }
        }
      }
    } else {
      var tail := Join(parts[1..], [sep]);
      assert s == p0 + [sep] + tail;
      assert OccursAt(s, [sep], |p0|);
      forall j | 0 <= j < |p0| ensures !OccursAt(s, [sep], j) {
        assert s[j] == p0[j];
        assert s[j..j + 1] == [s[j]];
      }
      assert IndexOf(s, [sep]) == Some(|p0|);
      assert s[..|p0|] == p0;
      assert s[|p0| + 1..] == tail;
      SplitJoin(parts[1..], sep);
    }
  }

  // ---------------------------------------------------------------------------
  // decimal digits: parseInt / parseFloat
  // ---------------------------------------------------------------------------

  /** The value of a run of decimal digits, as `parseInt` gives it. */
  function DigitsValue(d: string): (v: nat)
    requires AllDigits(d)
  {
    if d == [] then 0 else DigitsValue(d[..|d| - 1]) * 10 + DigitValue(d[|d| - 1])
  }

  function Pow10(e: nat): (p: nat)
    ensures p >= 1
  {
    if e == 0 then 1 else 10 * Pow10(e - 1)
  }

  /** The end of the maximal run of digits that starts at `i`. */
  function DigitRunEnd(s: string, i: nat): (j: nat)
    requires i <= |s|
    decreases |s| - i
    ensures i <= j <= |s|
    ensures AllDigits(s[i..j])
    ensures j == |s| || !IsDigit(s[j])
  {
    if i < |s| && IsDigit(s[i]) then DigitRunEnd(s, i + 1) else i
  }

  lemma {:induction false} DigitRunEndAt(s: string, i: nat, j: nat)
    requires i <= j <= |s| && AllDigits(s[i..j]) && (j == |s| || !IsDigit(s[j]))
    ensures DigitRunEnd(s, i) == j
    decreases j - i
  {
    if i < j {
      assert IsDigit(s[i..j][0]);
      assert s[i + 1..j] == s[i..j][1..];
      DigitRunEndAt(s, i + 1, j);
    }
  }

  /** The value of the digits after a decimal point: `0.d1d2...`. */
  function FractionValue(d: string): (v: real)
    requires AllDigits(d)
  {
    if d == [] then 0.0 else (DigitValue(d[0]) as real + FractionValue(d[1..])) / 10.0
  }

  lemma {:induction false} FractionValueBounds(d: string)
    requires AllDigits(d)
    ensures 0.0 <= FractionValue(d) <= 1.0
  {
    if d != [] {
      FractionValueBounds(d[1..]);
    }
  }

  /** The optional exponent part `[eE][+-]?digits` at `i`: its end and signed value, or
      `(i, 0)` when there is no complete exponent there. */
  function ExponentPart(s: string, i: nat): (r: (nat, int))
    requires i <= |s|
    ensures i <= r.0 <= |s|
  {
    if i < |s| && (s[i] == 'e' || s[i] == 'E') then
      var signed := i + 1 < |s| && (s[i + 1] == '+' || s[i + 1] == '-');
      var start := if signed then i + 2 else i + 1;
      var end := DigitRunEnd(s, start);
      if end == start then (i, 0)
      else
        var v := DigitsValue(s[start..end]);
        var e: int := if signed && s[i + 1] == '-' then -(v as int) else v as int;
        (end, e)
    else (i, 0)
  }

  function Scale(m: real, e: int): real {
    if e >= 0 then m * Pow10(e) as real else m / Pow10(-e) as real
  }

  /** An unsigned decimal literal at `i`: digits, an optional point with digits, an optional
      exponent; at least one digit in the mantissa. */
  function UnsignedDecimal(t: string, i: nat): Option<real>
    requires i <= |t|
  {
    var j := DigitRunEnd(t, i);
    var hasPoint := j < |t| && t[j] == '.';
    var k := if hasPoint then DigitRunEnd(t, j + 1) else j;
    if j == i && k <= j + 1 then None
    else
      var mantissa := DigitsValue(t[i..j]) as real
        + (if hasPoint then FractionValue(t[j + 1..k]) else 0.0);
      Some(Scale(mantissa, ExponentPart(t, k).1))
  }

  /** `parseFloat`: leading white space skipped, then the longest prefix that reads as a
      signed decimal literal; `None` (NaN) when no such prefix exists. */
  function ParseFloat(s: string): Option<real> {
    var t := TrimStart(s);
    var signed := |t| > 0 && (t[0] == '+' || t[0] == '-');
    match UnsignedDecimal(t, if signed then 1 else 0)
    case None => None
    case Some(magnitude) => Some(if signed && t[0] == '-' then -magnitude else magnitude)
  }

  lemma UnsignedDecimalOfDigits(t: string, n: nat)
    requires 0 < n <= |t| && AllDigits(t[..n])
    requires n == |t| || (!IsDigit(t[n]) && t[n] != '.' && t[n] != 'e' && t[n] != 'E')
    ensures UnsignedDecimal(t, 0) == Some(DigitsValue(t[..n]) as real)
  {
    assert t[0..n] == t[..n];
    DigitRunEndAt(t, 0, n);
    assert ExponentPart(t, n) == (n, 0);
    var m := DigitsValue(t[0..n]) as real + 0.0;
    assert Pow10(0) == 1;
    assert Scale(m, 0) == m;
  }

  /** A run of digits followed by something that cannot continue a number parses to the
      run's value. */
  lemma ParseFloatOfDigits(d: string, rest: string)
    requires d != [] && AllDigits(d)
    requires rest == [] || (!IsDigit(rest[0]) && rest[0] != '.' && rest[0] != 'e' && rest[0] != 'E')
    ensures ParseFloat(d + rest) == Some(DigitsValue(d) as real)
  {
    var t := d + rest;
    assert t[..|d|] == d;
    assert |d| < |t| ==> t[|d|] == rest[0];
    UnsignedDecimalOfDigits(t, |d|);
    ParseFloatOfUnsigned(t);
  }

  /** Without leading space or sign, `parseFloat` reads an unsigned literal from the start. */
  lemma ParseFloatOfUnsigned(t: string)
    requires t != [] && IsDigit(t[0])
    ensures ParseFloat(t) == UnsignedDecimal(t, 0)
  {
    TrimStartOfNonSpace(t);
    assert !(t[0] == '+' || t[0] == '-');
    match UnsignedDecimal(t, 0)
    case None =>
    case Some(magnitude) =>
  }

  lemma TrimStartOfNonSpace(s: string)
    requires s == [] || !IsSpace(s[0])
    ensures TrimStart(s) == s
  {
  }

  /** An unsigned literal that starts with a digit is read, and is never negative. */
  lemma UnsignedDecimalOfDigit(t: string, i: nat)
    requires i < |t| && IsDigit(t[i])
    ensures UnsignedDecimal(t, i).Some? && UnsignedDecimal(t, i).value >= 0.0
  {
    var j := DigitRunEnd(t, i);
    var hasPoint := j < |t| && t[j] == '.';
    var k := if hasPoint then DigitRunEnd(t, j + 1) else j;
    var f := if hasPoint then FractionValue(t[j + 1..k]) else 0.0;
    if hasPoint {
      FractionValueBounds(t[j + 1..k]);
    }
    var m := DigitsValue(t[i..j]) as real + f;
    var e := ExponentPart(t, k).1;
    ScaleNonNegative(m, e);
    assert UnsignedDecimal(t, i) == Some(Scale(m, e));
  }

  lemma ScaleNonNegative(m: real, e: int)
    requires m >= 0.0
    ensures Scale(m, e) >= 0.0
  {
    var p := (if e >= 0 then Pow10(e) else Pow10(-e)) as real;
    assert p >= 1.0;
    if e >= 0 {
      assert Scale(m, e) == m * p;
    } else {
      assert Scale(m, e) == m / p;
    }
  }

  /** A text that starts with a letter is not a number. */
  lemma ParseFloatOfWord(s: string)
    requires s != [] && IsLetter(s[0])
    ensures ParseFloat(s) == None
  {
    TrimStartOfNonSpace(s);
    assert !(s[0] == '+' || s[0] == '-');
    assert DigitRunEnd(s, 0) == 0;
  }

  // ---------------------------------------------------------------------------
  // number to text
  // ---------------------------------------------------------------------------

  /** Decimal digits of a natural number, without leading zeros. */
  function NatToString(n: nat): (s: string)
    ensures |s| >= 1 && AllDigits(s)
    ensures |s| > 1 ==> s[0] != '0'
  {
    if n < 10 then [DigitChar(n)] else NatToString(n / 10) + [DigitChar(n % 10)]
  }

  lemma {:induction false} NatToStringValue(n: nat)
    ensures DigitsValue(NatToString(n)) == n
  {
    if n >= 10 {
      var s := NatToString(n);
      assert s[..|s| - 1] == NatToString(n / 10);
      NatToStringValue(n / 10);
    }
  }

  function IntToString(i: int): string {
    if i < 0 then "-" + NatToString(-i) else NatToString(i)
  }

  /** Up to `budget` digits of a fraction in [0, 1), trailing zeros dropped. */
  function FractionDigits(f: real, budget: nat): (r: string)
    requires 0.0 <= f < 1.0
    ensures AllDigits(r)
    decreases budget
  {
    if f == 0.0 || budget == 0 then []
    else
      var scaled := f * 10.0;
      var d := scaled.Floor;
      assert 0 <= d < 10;
      [DigitChar(d)] + FractionDigits(scaled - d as real, budget - 1)
  }

  /** A decimal text for a number: the sign, the integer part and at most twenty fraction
      digits, never in exponent form. It agrees with JavaScript's `String(x)` on integers
      below 10^21 and on fractions whose shortest round-trip form it reproduces; it does not
      choose the shortest round-trip digits or switch to exponent form as JavaScript does. */
  function NumberToString(x: real): (r: string)
    ensures forall i :: 0 <= i < |r| ==> IsDigit(r[i]) || r[i] == '-' || r[i] == '.'
  {
    var a := if x < 0.0 then -x else x;
    var whole := a.Floor;
    var frac := FractionDigits(a - whole as real, 20);
    (if x < 0.0 then "-" else "") + NatToString(whole) + (if frac == [] then "" else "." + frac)
  }

  lemma NumberToStringOfNat(n: nat)
    ensures NumberToString(n as real) == NatToString(n)
  {
  }
}
