/** The `numberTo*Words` family of the language translator: a non-negative integer spelt
    in the Indian grouping (crore = 10^7, lakh = 10^5, thousand, hundred) in English,
    Hindi, Tamil, Telugu or Bengali.

    The five spellers peel the same groups off in the same order and differ only in
    their words, in how a hundreds digit is written, and in whether "and" precedes the
    last two digits.  The model therefore separates the decomposition, a sequence of
    word-free `Token`s, from its rendering in one language's `Vocabulary`. */
module NumberWords {
  import opened Maybe
  import opened JsString

  // ---------------------------------------------------------------------------
  // The decomposition
  // ---------------------------------------------------------------------------

  datatype Token =
    | One(d: nat)         // `ones[d]`, the digits 1..9
    | Teen(d: nat)        // `teens[d]`, the numbers 10 + d for d in 0..9
    | Ten(d: nat)         // `tens[d]`, the multiples 10 * d for d in 2..9
    | Hundred             // the hundred word following a count
    | BareHundred         // the word for exactly one hundred, written alone
    | HundredsOf(d: nat)  // `ones[d]` with the hundreds suffix attached, d in 2..9
    | Thousand
    | Lakh
    | Crore
    | And

  /** How a hundreds digit h is written: `Counted` spells h recursively and adds the
      hundred word (English, Hindi); `BareOne` writes a single hundred as a bare word and
      otherwise `ones[h]` and the hundred word (Tamil, Telugu); `Suffixed` writes a single
      hundred as a bare word and otherwise `ones[h]` with a suffix (Bengali). */
  datatype HundredsForm = Counted | BareOne | Suffixed

  datatype Form = Form(hundreds: HundredsForm, useAnd: bool)

  /** The speller's groups, largest first: `Math.floor(num / 10000000)` crore, then the
      remainder `num %= 10000000` handed on; `earlier` records whether words precede. */
  function Tokens(f: Form, n: nat): seq<Token>
    requires n > 0
    decreases n, 4
  {
    if n >= 10000000 then Tokens(f, n / 10000000) + [Crore] + LakhPart(f, n % 10000000, true)
    else LakhPart(f, n, false)
  }

  function LakhPart(f: Form, m: nat, earlier: bool): seq<Token>
    requires m < 10000000
    decreases m, 3
  {
    if m >= 100000 then Tokens(f, m / 100000) + [Lakh] + ThousandPart(f, m % 100000, true)
    else ThousandPart(f, m, earlier)
  }

  function ThousandPart(f: Form, m: nat, earlier: bool): seq<Token>
    requires m < 100000
    decreases m, 2
  {
    if m >= 1000 then Tokens(f, m / 1000) + [Thousand] + HundredPart(f, m % 1000, true)
    else HundredPart(f, m, earlier)
  }

  function HundredPart(f: Form, m: nat, earlier: bool): seq<Token>
    requires m < 1000
    decreases m, 1
  {
    if m >= 100 then HundredsTokens(f, m / 100) + TensPart(f, m % 100, true)
    else TensPart(f, m, earlier)
  }

  function HundredsTokens(f: Form, h: nat): seq<Token>
    requires 1 <= h <= 9
    decreases h, 5
  {
    match f.hundreds
    case Counted => Tokens(f, h) + [Hundred]
    case BareOne => if h == 1 then [BareHundred] else [One(h), Hundred]
    case Suffixed => if h == 1 then [BareHundred] else [HundredsOf(h)]
  }

  /** The last two digits, after "and" when the form uses it and words precede. */
  function TensPart(f: Form, m: nat, earlier: bool): seq<Token>
    requires m < 100
  {
    if m == 0 then []
    else (if earlier && f.useAnd then [And] else []) + SmallTokens(m)
  }

  function SmallTokens(m: nat): seq<Token>
    requires 0 < m < 100
  {
    if m < 10 then [One(m)]
    else if m < 20 then [Teen(m - 10)]
    else [Ten(m / 10)] + (if m % 10 > 0 then [One(m % 10)] else [])
  }

  // ---------------------------------------------------------------------------
  // Reading a decomposition back
  // ---------------------------------------------------------------------------

  function TokenValue(t: Token): nat {
    match t
    case One(d) => d
    case Teen(d) => 10 + d
    case Ten(d) => 10 * d
    case BareHundred => 100
    case HundredsOf(d) => 100 * d
    case _ => 0
  }

  function Sum(ts: seq<Token>): nat {
    if ts == [] then 0 else TokenValue(ts[0]) + Sum(ts[1..])
  }

  function LastIndexOf(ts: seq<Token>, t: Token): (r: Option<nat>)
    ensures r.Some? ==> r.value < |ts| && ts[r.value] == t
  {
    if ts == [] then None
    else if ts[|ts| - 1] == t then Some(|ts| - 1)
    else LastIndexOf(ts[..|ts| - 1], t)
  }

  /** What a token sequence reads as, independently of how it was produced: the part
      before the last crore counts crores, then likewise for lakh, thousand and hundred,
      and the words that remain are added up. */
  function Value(ts: seq<Token>): nat
    decreases |ts|, 3
  {
    match LastIndexOf(ts, Crore)
    case Some(i) => Value(ts[..i]) * 10000000 + Value(ts[i + 1..])
    case None => LakhValue(ts)
  }

  function LakhValue(ts: seq<Token>): nat
    decreases |ts|, 2
  {
    match LastIndexOf(ts, Lakh)
    case Some(i) => Value(ts[..i]) * 100000 + Value(ts[i + 1..])
    case None => ThousandValue(ts)
  }

  function ThousandValue(ts: seq<Token>): nat
    decreases |ts|, 1
  {
    match LastIndexOf(ts, Thousand)
    case Some(i) => Value(ts[..i]) * 1000 + Value(ts[i + 1..])
    case None => HundredValue(ts)
  }

  function HundredValue(ts: seq<Token>): nat
    decreases |ts|, 0
  {
    match LastIndexOf(ts, Hundred)
    case Some(i) => Value(ts[..i]) * 100 + Value(ts[i + 1..])
    case None => Sum(ts)
  }

  lemma {:induction false} SumAppend(a: seq<Token>, b: seq<Token>)
    ensures Sum(a + b) == Sum(a) + Sum(b)
  {
    if a == [] {
      assert a + b == b;
    } else {
      assert (a + b)[1..] == a[1..] + b;
      SumAppend(a[1..], b);
    }
  }

  lemma {:induction false} LastIndexAbsent(ts: seq<Token>, t: Token)
    requires t !in ts
    ensures LastIndexOf(ts, t) == None
  {
    if ts != [] {
      assert forall x :: x in ts[..|ts| - 1] ==> x in ts;
      LastIndexAbsent(ts[..|ts| - 1], t);
    }
  }

  lemma {:induction false} LastIndexAt(a: seq<Token>, t: Token, b: seq<Token>)
    requires t !in b
    ensures LastIndexOf(a + [t] + b, t) == Some(|a|)
    decreases |b|
  {
    var ts := a + [t] + b;
    if b != [] {
      var b' := b[..|b| - 1];
      assert ts[|ts| - 1] == b[|b| - 1];
      assert ts[..|ts| - 1] == a + [t] + b';
      assert forall x :: x in b' ==> x in b;
      LastIndexAt(a, t, b');
    }
  }

  predicate UnitFree(ts: seq<Token>) {
    Crore !in ts && Lakh !in ts && Thousand !in ts && Hundred !in ts
  }

  lemma ValueOfUnitFree(ts: seq<Token>)
    requires UnitFree(ts)
    ensures Value(ts) == Sum(ts)
  {
    LastIndexAbsent(ts, Crore);
    LastIndexAbsent(ts, Lakh);
    LastIndexAbsent(ts, Thousand);
    LastIndexAbsent(ts, Hundred);
    assert Value(ts) == LakhValue(ts) == ThousandValue(ts) == HundredValue(ts);
  }

  lemma ValueAtCrore(a: seq<Token>, b: seq<Token>)
    requires Crore !in b
    ensures Value(a + [Crore] + b) == Value(a) * 10000000 + Value(b)
  {
    var ts := a + [Crore] + b;
    LastIndexAt(a, Crore, b);
    assert ts[..|a|] == a && ts[|a| + 1..] == b;
  }

  lemma ValueAtLakh(a: seq<Token>, b: seq<Token>)
    requires Crore !in a && Crore !in b && Lakh !in b
    ensures Value(a + [Lakh] + b) == Value(a) * 100000 + Value(b)
  {
    var ts := a + [Lakh] + b;
    LastIndexAbsent(ts, Crore);
    LastIndexAt(a, Lakh, b);
    assert ts[..|a|] == a && ts[|a| + 1..] == b;
  }

  lemma ValueAtThousand(a: seq<Token>, b: seq<Token>)
    requires Crore !in a && Crore !in b && Lakh !in a && Lakh !in b && Thousand !in b
    ensures Value(a + [Thousand] + b) == Value(a) * 1000 + Value(b)
  {
    var ts := a + [Thousand] + b;
    LastIndexAbsent(ts, Crore);
    LastIndexAbsent(ts, Lakh);
    LastIndexAt(a, Thousand, b);
    assert ts[..|a|] == a && ts[|a| + 1..] == b;
    assert Value(ts) == LakhValue(ts) == ThousandValue(ts);
  }

  lemma ValueAtHundred(a: seq<Token>, b: seq<Token>)
    requires Crore !in a && Crore !in b && Lakh !in a && Lakh !in b
    requires Thousand !in a && Thousand !in b && Hundred !in b
    ensures Value(a + [Hundred] + b) == Value(a) * 100 + Value(b)
  {
    var ts := a + [Hundred] + b;
    LastIndexAbsent(ts, Crore);
    LastIndexAbsent(ts, Lakh);
    LastIndexAbsent(ts, Thousand);
    LastIndexAt(a, Hundred, b);
    assert ts[..|a|] == a && ts[|a| + 1..] == b;
    assert Value(ts) == LakhValue(ts) == ThousandValue(ts) == HundredValue(ts);
  }

  /** Which unit words a part below m can contain. */
  predicate Bounded(ts: seq<Token>, m: nat) {
    && (m < 10000000 ==> Crore !in ts)
    && (m < 100000 ==> Lakh !in ts)
    && (m < 1000 ==> Thousand !in ts)
    && (m < 100 ==> Hundred !in ts)
  }

  /** The tokens a form can produce, with their digits in range. */
  predicate TokenFits(f: Form, t: Token) {
    match t
    case One(d) => 1 <= d <= 9
    case Teen(d) => d <= 9
    case Ten(d) => 2 <= d <= 9
    case Hundred => f.hundreds != Suffixed
    case BareHundred => f.hundreds != Counted
    case HundredsOf(d) => f.hundreds == Suffixed && 2 <= d <= 9
    case And => f.useAnd
    case _ => true
  }

  predicate Fits(f: Form, ts: seq<Token>) {
    forall i :: 0 <= i < |ts| ==> TokenFits(f, ts[i])
  }

  lemma SmallReadBack(f: Form, m: nat)
    requires 0 < m < 100
    ensures var ts := SmallTokens(m);
      Sum(ts) == m && UnitFree(ts) && And !in ts && Fits(f, ts)
  {
    if m >= 20 && m % 10 > 0 {
      assert Sum([One(m % 10)]) == m % 10;
      SumAppend([Ten(m / 10)], [One(m % 10)]);
    }
  }

  lemma TensPartReadBack(f: Form, m: nat, earlier: bool)
    requires m < 100
    ensures var ts := TensPart(f, m, earlier);
      Value(ts) == m && Bounded(ts, m) && UnitFree(ts) && Fits(f, ts)
  {
    var ts := TensPart(f, m, earlier);
    if m > 0 {
      var lead := if earlier && f.useAnd then [And] else [];
      var small := SmallTokens(m);
      SmallReadBack(f, m);
      SumAppend(lead, small);
      assert ts == lead + small && Sum(lead) == 0;
      forall i | 0 <= i < |ts|
        ensures TokenFits(f, ts[i])
      {
        if i >= |lead| {
          assert ts[i] == small[i - |lead|];
        }
      }
      assert forall x :: x in ts ==> x in lead || x in small;
    }
    ValueOfUnitFree(ts);
  }

  lemma {:induction false} HundredsReadBack(f: Form, h: nat, tail: seq<Token>)
    requires 1 <= h <= 9 && UnitFree(tail)
    ensures var ts := HundredsTokens(f, h) + tail;
      && Value(ts) == 100 * h + Value(tail)
      && Crore !in ts && Lakh !in ts && Thousand !in ts
      && Fits(f, HundredsTokens(f, h))
    decreases h, 5
  {
    ValueOfUnitFree(tail);
    match f.hundreds
    case Counted =>
      var count := Tokens(f, h);
      TokensReadBack(f, h);
      ValueAtHundred(count, tail);
      assert HundredsTokens(f, h) + tail == count + [Hundred] + tail;
    case BareOne =>
      if h == 1 {
        SumAppend([BareHundred], tail);
        ValueOfUnitFree([BareHundred] + tail);
      } else {
        ValueOfUnitFree([One(h)]);
        ValueAtHundred([One(h)], tail);
        assert HundredsTokens(f, h) + tail == [One(h)] + [Hundred] + tail;
      }
    case Suffixed =>
      var lead := HundredsTokens(f, h);
      SumAppend(lead, tail);
      ValueOfUnitFree(lead + tail);
  }

  lemma {:induction false} HundredPartReadBack(f: Form, m: nat, earlier: bool)
    requires m < 1000
    ensures var ts := HundredPart(f, m, earlier);
      Value(ts) == m && Bounded(ts, m) && Fits(f, ts)
    decreases m, 1
  {
    if m >= 100 {
      TensPartReadBack(f, m % 100, true);
      HundredsReadBack(f, m / 100, TensPart(f, m % 100, true));
    } else {
      TensPartReadBack(f, m, earlier);
    }
  }

  lemma FitsJoin(f: Form, a: seq<Token>, u: Token, b: seq<Token>)
    requires Fits(f, a) && TokenFits(f, u) && Fits(f, b)
    ensures Fits(f, a + [u] + b)
  {
    var ts := a + [u] + b;
    forall i | 0 <= i < |ts|
      ensures TokenFits(f, ts[i])
    {
      if i < |a| {
        assert ts[i] == a[i];
      } else if i > |a| {
        assert ts[i] == b[i - |a| - 1];
      }
    }
  }

  lemma ThousandJoin(f: Form, a: seq<Token>, b: seq<Token>, q: nat, r: nat)
    requires 0 < q < 100 && r < 1000
    requires Value(a) == q && Bounded(a, q) && Fits(f, a)
    requires Value(b) == r && Bounded(b, r) && Fits(f, b)
    ensures var ts := a + [Thousand] + b;
      Value(ts) == 1000 * q + r && Bounded(ts, 1000 * q + r) && Fits(f, ts)
  {
    ValueAtThousand(a, b);
    var ts := a + [Thousand] + b;
    assert forall x :: x in ts ==> x in a || x == Thousand || x in b;
    FitsJoin(f, a, Thousand, b);
  }

  lemma LakhJoin(f: Form, a: seq<Token>, b: seq<Token>, q: nat, r: nat)
    requires 0 < q < 100 && r < 100000
    requires Value(a) == q && Bounded(a, q) && Fits(f, a)
    requires Value(b) == r && Bounded(b, r) && Fits(f, b)
    ensures var ts := a + [Lakh] + b;
      Value(ts) == 100000 * q + r && Bounded(ts, 100000 * q + r) && Fits(f, ts)
  {
    ValueAtLakh(a, b);
    var ts := a + [Lakh] + b;
    assert forall x :: x in ts ==> x in a || x == Lakh || x in b;
    FitsJoin(f, a, Lakh, b);
  }

  lemma CroreJoin(f: Form, a: seq<Token>, b: seq<Token>, q: nat, r: nat)
    requires 0 < q && r < 10000000
    requires Value(a) == q && Fits(f, a)
    requires Value(b) == r && Bounded(b, r) && Fits(f, b)
    ensures var ts := a + [Crore] + b;
      Value(ts) == 10000000 * q + r && Fits(f, ts)
  {
    ValueAtCrore(a, b);
    FitsJoin(f, a, Crore, b);
  }

  lemma {:induction false} ThousandPartReadBack(f: Form, m: nat, earlier: bool)
    requires m < 100000
    ensures var ts := ThousandPart(f, m, earlier);
      Value(ts) == m && Bounded(ts, m) && Fits(f, ts)
    decreases m, 2
  {
    if m >= 1000 {
      TokensReadBack(f, m / 1000);
      HundredPartReadBack(f, m % 1000, true);
      ThousandJoin(f, Tokens(f, m / 1000), HundredPart(f, m % 1000, true), m / 1000, m % 1000);
    } else {
      HundredPartReadBack(f, m, earlier);
    }
  }

  lemma {:induction false} LakhPartReadBack(f: Form, m: nat, earlier: bool)
    requires m < 10000000
    ensures var ts := LakhPart(f, m, earlier);
      Value(ts) == m && Bounded(ts, m) && Fits(f, ts)
    decreases m, 3
  {
    if m >= 100000 {
      TokensReadBack(f, m / 100000);
      ThousandPartReadBack(f, m % 100000, true);
      LakhJoin(f, Tokens(f, m / 100000), ThousandPart(f, m % 100000, true), m / 100000, m % 100000);
    } else {
      ThousandPartReadBack(f, m, earlier);
    }
  }

  /** The decomposition is faithful: its tokens read back as the number itself, for every
      form.  It also bounds which unit words occur and keeps every digit in range. */
  lemma {:induction false} TokensReadBack(f: Form, n: nat)
    requires n > 0
    ensures var ts := Tokens(f, n);
      Value(ts) == n && Bounded(ts, n) && Fits(f, ts) && ts != []
    decreases n, 4
  {
    if n >= 10000000 {
      TokensReadBack(f, n / 10000000);
      LakhPartReadBack(f, n % 10000000, true);
      CroreJoin(f, Tokens(f, n / 10000000), LakhPart(f, n % 10000000, true), n / 10000000, n % 10000000);
    } else {
      LakhPartReadBack(f, n, false);
    }
    assert Value([]) == 0;
  }

  // ---------------------------------------------------------------------------
  // "and", and a single hundred
  // ---------------------------------------------------------------------------

  function DropAnd(ts: seq<Token>): seq<Token> {
    if ts == [] then [] else (if ts[0] == And then [] else [ts[0]]) + DropAnd(ts[1..])
  }

  lemma {:induction false} DropAndAppend(a: seq<Token>, b: seq<Token>)
    ensures DropAnd(a + b) == DropAnd(a) + DropAnd(b)
  {
    if a != [] {
      assert (a + b)[1..] == a[1..] + b;
      DropAndAppend(a[1..], b);
    } else {
      assert a + b == b;
    }
  }

  lemma {:induction false} DropAndAbsent(ts: seq<Token>)
    requires And !in ts
    ensures DropAnd(ts) == ts
  {
    if ts != [] {
      assert forall x :: x in ts[1..] ==> x in ts;
      DropAndAbsent(ts[1..]);
    }
  }

  lemma DropAndGroup(a: seq<Token>, unit: Token, b: seq<Token>)
    requires unit != And
    ensures DropAnd(a + [unit] + b) == DropAnd(a) + [unit] + DropAnd(b)
  {
    DropAndAppend(a + [unit], b);
    DropAndAppend(a, [unit]);
    assert DropAnd([unit]) == [unit] + DropAnd([]);
  }

  function WithoutAnd(f: Form): Form { Form(f.hundreds, false) }

  lemma {:induction false} TensPartWithoutAnd(f: Form, m: nat, earlier: bool)
    requires m < 100
    ensures TensPart(WithoutAnd(f), m, earlier) == DropAnd(TensPart(f, m, earlier))
  {
    if m > 0 {
      var lead := if earlier && f.useAnd then [And] else [];
      DropAndAppend(lead, SmallTokens(m));
      DropAndAbsent(SmallTokens(m));
      assert DropAnd(lead) == [];
    }
  }

  lemma {:induction false} HundredsWithoutAnd(f: Form, h: nat)
    requires 1 <= h <= 9
    ensures HundredsTokens(WithoutAnd(f), h) == DropAnd(HundredsTokens(f, h))
    decreases h, 5
  {
    if f.hundreds == Counted {
      TokensWithoutAnd(f, h);
      DropAndAppend(Tokens(f, h), [Hundred]);
    } else {
      DropAndAbsent(HundredsTokens(f, h));
    }
  }

  lemma {:induction false} HundredPartWithoutAnd(f: Form, m: nat, earlier: bool)
    requires m < 1000
    ensures HundredPart(WithoutAnd(f), m, earlier) == DropAnd(HundredPart(f, m, earlier))
    decreases m, 1
  {
    if m >= 100 {
      HundredsWithoutAnd(f, m / 100);
      TensPartWithoutAnd(f, m % 100, true);
      DropAndAppend(HundredsTokens(f, m / 100), TensPart(f, m % 100, true));
    } else {
      TensPartWithoutAnd(f, m, earlier);
    }
  }

  lemma {:induction false} ThousandPartWithoutAnd(f: Form, m: nat, earlier: bool)
    requires m < 100000
    ensures ThousandPart(WithoutAnd(f), m, earlier) == DropAnd(ThousandPart(f, m, earlier))
    decreases m, 2
  {
    if m >= 1000 {
      TokensWithoutAnd(f, m / 1000);
      HundredPartWithoutAnd(f, m % 1000, true);
      DropAndGroup(Tokens(f, m / 1000), Thousand, HundredPart(f, m % 1000, true));
    } else {
      HundredPartWithoutAnd(f, m, earlier);
    }
  }

  lemma {:induction false} LakhPartWithoutAnd(f: Form, m: nat, earlier: bool)
    requires m < 10000000
    ensures LakhPart(WithoutAnd(f), m, earlier) == DropAnd(LakhPart(f, m, earlier))
    decreases m, 3
  {
    if m >= 100000 {
      TokensWithoutAnd(f, m / 100000);
      ThousandPartWithoutAnd(f, m % 100000, true);
      DropAndGroup(Tokens(f, m / 100000), Lakh, ThousandPart(f, m % 100000, true));
    } else {
      ThousandPartWithoutAnd(f, m, earlier);
    }
  }

  /** A form without "and" produces the same decomposition with every "and" removed:
      Hindi spells exactly the groups English does. */
  lemma {:induction false} TokensWithoutAnd(f: Form, n: nat)
    requires n > 0
    ensures Tokens(WithoutAnd(f), n) == DropAnd(Tokens(f, n))
    decreases n, 4
  {
    if n >= 10000000 {
      TokensWithoutAnd(f, n / 10000000);
      LakhPartWithoutAnd(f, n % 10000000, true);
      DropAndGroup(Tokens(f, n / 10000000), Crore, LakhPart(f, n % 10000000, true));
    } else {
      LakhPartWithoutAnd(f, n, false);
    }
  }

  /** Dropping the last three digits leaves the thousands as they were. */
  lemma DropLow3(m: nat)
    ensures (m - m % 1000) % 1000 == 0 && (m - m % 1000) / 1000 == m / 1000
  {
    var a, b := m / 1000, m % 1000;
    assert m - b == 1000 * a;
  }

  /** ... and the lakhs, with the remainder below a lakh losing the same three digits. */
  lemma DropLow5(m: nat)
    ensures (m - m % 1000) / 100000 == m / 100000
    ensures (m - m % 1000) % 100000 == m % 100000 - m % 100000 % 1000
    ensures m % 100000 % 1000 == m % 1000
  {
    var a, b := m / 1000, m % 1000;
    var c, d := a / 100, a % 100;
    assert m == 100000 * c + (1000 * d + b);
    assert m - b == 100000 * c + 1000 * d;
    assert m / 100000 == c && m % 100000 == 1000 * d + b;
    assert (m - b) / 100000 == c && (m - b) % 100000 == 1000 * d;
    assert (1000 * d + b) % 1000 == b;
  }

  /** ... and the crores likewise. */
  lemma DropLow7(m: nat)
    ensures (m - m % 1000) / 10000000 == m / 10000000
    ensures (m - m % 1000) % 10000000 == m % 10000000 - m % 10000000 % 1000
    ensures m % 10000000 % 1000 == m % 1000
  {
    var a, b := m / 1000, m % 1000;
    var c, d := a / 10000, a % 10000;
    assert m == 10000000 * c + (1000 * d + b);
    assert m - b == 10000000 * c + 1000 * d;
    assert m / 10000000 == c && m % 10000000 == 1000 * d + b;
    assert (m - b) / 10000000 == c && (m - b) % 10000000 == 1000 * d;
    assert (1000 * d + b) % 1000 == b;
  }

  lemma ThousandPartZero(f: Form, earlier: bool)
    ensures ThousandPart(f, 0, earlier) == []
  {
    assert HundredPart(f, 0, earlier) == TensPart(f, 0, earlier) == [];
  }

  lemma LakhPartZero(f: Form, earlier: bool)
    ensures LakhPart(f, 0, earlier) == []
  {
    ThousandPartZero(f, earlier);
  }

  /** Sequence bookkeeping for the lemmas below. */
  lemma Peel(t: seq<Token>, t': seq<Token>, h: seq<Token>, x: seq<Token>, x': seq<Token>, low: seq<Token>)
    requires t == h + x && t' == h + x' && x == x' + low
    ensures t == t' + low
  {
  }

  lemma {:induction false} ThousandPartLow(f: Form, m: nat, earlier: bool)
    requires m < 100000
    ensures ThousandPart(f, m, earlier) ==
      (if m >= 1000 then ThousandPart(f, m - m % 1000, earlier) else []) + HundredPart(f, m % 1000, earlier || m >= 1000)
  {
    if m >= 1000 {
      DropLow3(m);
      var h := Tokens(f, m / 1000) + [Thousand];
      assert ThousandPart(f, m - m % 1000, earlier) == h + HundredPart(f, 0, true);
      assert HundredPart(f, 0, true) == TensPart(f, 0, true) == [];
    }
  }

  lemma {:induction false} LakhPartLow(f: Form, m: nat, earlier: bool)
    requires m < 10000000
    ensures LakhPart(f, m, earlier) ==
      (if m >= 1000 then LakhPart(f, m - m % 1000, earlier) else []) + HundredPart(f, m % 1000, earlier || m >= 1000)
  {
    if m >= 100000 {
      var r := m % 100000;
      var r' := r - r % 1000;
      DropLow5(m);
      ThousandPartLow(f, r, true);
      if r < 1000 {
        ThousandPartZero(f, true);
      }
      Peel(LakhPart(f, m, earlier), LakhPart(f, m - m % 1000, earlier), Tokens(f, m / 100000) + [Lakh],
           ThousandPart(f, r, true), ThousandPart(f, r', true), HundredPart(f, m % 1000, true));
    } else {
      ThousandPartLow(f, m, earlier);
    }
  }

  /** The last three digits are spelt by the hundreds part, after everything above them. */
  lemma {:induction false} TokensLow(f: Form, n: nat)
    requires n > 0
    ensures Tokens(f, n) ==
      (if n >= 1000 then Tokens(f, n - n % 1000) else []) + HundredPart(f, n % 1000, n >= 1000)
  {
    if n >= 10000000 {
      var r := n % 10000000;
      var r' := r - r % 1000;
      DropLow7(n);
      LakhPartLow(f, r, true);
      if r < 1000 {
        LakhPartZero(f, true);
      }
      Peel(Tokens(f, n), Tokens(f, n - n % 1000), Tokens(f, n / 10000000) + [Crore],
           LakhPart(f, r, true), LakhPart(f, r', true), HundredPart(f, n % 1000, true));
    } else {
      LakhPartLow(f, n, false);
    }
  }

  /** Dropping the last two digits leaves the hundreds digit and every larger group. */
  lemma DropTensDigits(n: nat)
    ensures var n' := n - n % 100;
      && n' % 1000 == n % 1000 - n % 1000 % 100
      && n' - n' % 1000 == n - n % 1000
      && n % 1000 % 100 == n % 100
      && (n' >= 1000 <==> n >= 1000)
  {
    var a, b := n / 1000, n % 1000;
    assert n == 1000 * a + b;
    var c, d := b / 100, b % 100;
    assert b == 100 * c + d;
    assert n % 100 == d;
    assert n - n % 100 == 1000 * a + 100 * c;
  }

  /** Above the hundreds digit, the round hundreds left by dropping the last two digits. */
  lemma {:induction false} RoundHundreds(f: Form, n: nat)
    requires n >= 100
    ensures var x := n % 1000;
      Tokens(f, n - n % 100) ==
        (if n >= 1000 then Tokens(f, n - x) else []) + (if x >= 100 then HundredsTokens(f, x / 100) else [])
  {
    DropTensDigits(n);
    var x := n % 1000;
    TokensLow(f, n - n % 100);
    if x >= 100 {
      assert (x - x % 100) / 100 == x / 100;
      assert HundredPart(f, x - x % 100, n >= 1000) == HundredsTokens(f, x / 100);
    } else {
      assert HundredPart(f, x - x % 100, n >= 1000) == [];
    }
  }

  /** "and" comes right before the last two digits exactly when the form uses it: above
      99 the rest is spelt as the round hundreds it leaves; 105 is "one hundred and five". */
  lemma AndBeforeTens(f: Form, n: nat)
    requires n >= 100 && n % 100 != 0
    ensures Tokens(f, n) == Tokens(f, n - n % 100) + ((if f.useAnd then [And] else []) + SmallTokens(n % 100))
  {
    TokensLow(f, n);
    DropTensDigits(n);
    var x := n % 1000;
    var and := if f.useAnd then [And] else [];
    var high := if n >= 1000 then Tokens(f, n - x) else [];
    var hs := if x >= 100 then HundredsTokens(f, x / 100) else [];
    RoundHundreds(f, n);
    assert Tokens(f, n) == high + HundredPart(f, x, n >= 1000);
    TensAfterHundreds(f, x, n >= 1000);
    assert HundredPart(f, x, n >= 1000) == hs + (and + SmallTokens(n % 100));
    Regroup(Tokens(f, n), high, hs, and + SmallTokens(n % 100));
  }

  /** Below 100 nothing precedes the last two digits, so no "and": 5 is "five". */
  lemma TokensBelowHundred(f: Form, n: nat)
    requires 0 < n < 100
    ensures Tokens(f, n) == SmallTokens(n)
  {
    assert Tokens(f, n) == LakhPart(f, n, false) == ThousandPart(f, n, false) == HundredPart(f, n, false);
    assert HundredPart(f, n, false) == TensPart(f, n, false) == [] + SmallTokens(n);
  }

  lemma TensAfterHundreds(f: Form, x: nat, earlier: bool)
    requires x < 1000 && x % 100 != 0 && (x >= 100 || earlier)
    ensures HundredPart(f, x, earlier) ==
      (if x >= 100 then HundredsTokens(f, x / 100) else []) + ((if f.useAnd then [And] else []) + SmallTokens(x % 100))
  {
    if x < 100 {
      assert x % 100 == x;
    }
  }

  /** Tamil, Telugu and Bengali write a hundreds digit of 1 as their bare hundred word. */
  lemma BareHundredForOne(f: Form, n: nat)
    requires n > 0 && f.hundreds != Counted && (n % 1000) / 100 == 1
    ensures BareHundred in Tokens(f, n)
  {
    TokensLow(f, n);
    var high := if n >= 1000 then Tokens(f, n - n % 1000) else [];
    assert Tokens(f, n) == high + [BareHundred] + TensPart(f, (n % 1000) % 100, true);
  }

  /** English and Hindi count their hundreds instead, so never write the bare word. */
  lemma CountedHasNoBareHundred(f: Form, n: nat)
    requires n > 0 && f.hundreds == Counted
    ensures var ts := Tokens(f, n);
      forall i :: 0 <= i < |ts| ==> !ts[i].BareHundred? && !ts[i].HundredsOf?
  {
    TokensReadBack(f, n);
  }

  // ---------------------------------------------------------------------------
  // Rendering in one language
  // ---------------------------------------------------------------------------

  /** One speller's words.  `ones`, `teens` (called `special` in the Tamil, Telugu and
      Bengali spellers) and `tens` are indexed like the source arrays; the hundred words
      a form does not use are left empty. */
  datatype Vocabulary = Vocabulary(
    form: Form, zero: string,
    ones: seq<string>, teens: seq<string>, tens: seq<string>,
    hundred: string, bareHundred: string, hundredsSuffix: string,
    thousand: string, lakh: string, crore: string)

  function Pick(words: seq<string>, i: nat): string {
    if i < |words| then words[i] else ""
  }

  function Render(v: Vocabulary, t: Token): string {
    match t
    case One(d) => Pick(v.ones, d)
    case Teen(d) => Pick(v.teens, d)
    case Ten(d) => Pick(v.tens, d)
    case Hundred => v.hundred
    case BareHundred => v.bareHundred
    case HundredsOf(d) => Pick(v.ones, d) + v.hundredsSuffix
    case Thousand => v.thousand
    case Lakh => v.lakh
    case Crore => v.crore
    case And => "and"
  }

  function RenderAll(v: Vocabulary, ts: seq<Token>): (ws: seq<string>)
    ensures |ws| == |ts| && forall i :: 0 <= i < |ts| ==> ws[i] == Render(v, ts[i])
  {
    seq(|ts|, i requires 0 <= i < |ts| => Render(v, ts[i]))
  }

  lemma RenderAppend(v: Vocabulary, a: seq<Token>, b: seq<Token>)
    ensures RenderAll(v, a + b) == RenderAll(v, a) + RenderAll(v, b)
  {
  }

  /** What a speller returns for `num`: its zero word for 0, the empty string for a
      negative number (no branch applies and `''.trim()` is returned), and otherwise the
      words of the decomposition separated by single blanks. */
  function Words(v: Vocabulary, n: int): string {
    if n == 0 then v.zero
    else if n < 0 then ""
    else Join(RenderAll(v, Tokens(v.form, n)), " ")
  }

  predicate NoSpace(w: string) { forall i :: 0 <= i < |w| ==> !IsSpace(w[i]) }

  predicate Clean(w: string) { w != "" && NoSpace(w) }

  predicate AllClean(ws: seq<string>) { forall k :: 0 <= k < |ws| ==> Clean(ws[k]) }

  /** Printable ASCII and the Indic script blocks (Devanagari to Malayalam): none of
      them is white space. */
  predicate Printable(c: char) {
    '\U{21}' <= c <= '\U{7E}' || '\U{0900}' <= c <= '\U{0DFF}'
  }

  predicate AllPrintable(w: string) { forall i :: 0 <= i < |w| ==> Printable(w[i]) }

  predicate PrintableWord(w: string) { w != [] && AllPrintable(w) }

  lemma PrintableHasNoSpace(w: string)
    requires AllPrintable(w)
    ensures NoSpace(w)
  {
  }

  /** Every word a form can emit is non-empty and printable, so free of white space. */
  predicate WellFormed(v: Vocabulary) {
    && |v.ones| == 10 && |v.teens| == 10 && |v.tens| == 10
    && (forall d :: 1 <= d <= 9 ==> PrintableWord(v.ones[d]))
    && (forall d :: 0 <= d <= 9 ==> PrintableWord(v.teens[d]))
    && (forall d :: 2 <= d <= 9 ==> PrintableWord(v.tens[d]))
    && PrintableWord(v.zero) && PrintableWord(v.thousand) && PrintableWord(v.lakh) && PrintableWord(v.crore)
    && (v.form.hundreds != Suffixed ==> PrintableWord(v.hundred))
    && (v.form.hundreds != Counted ==> PrintableWord(v.bareHundred))
    && (v.form.hundreds == Suffixed ==> AllPrintable(v.hundredsSuffix))
  }

  lemma RenderClean(v: Vocabulary, ts: seq<Token>)
    requires WellFormed(v) && Fits(v.form, ts)
    ensures AllClean(RenderAll(v, ts))
  {
    forall k | 0 <= k < |ts|
      ensures Clean(Render(v, ts[k]))
    {
      var w := Render(v, ts[k]);
      if ts[k].HundredsOf? {
        var a, b := v.ones[ts[k].d], v.hundredsSuffix;
        assert forall i :: 0 <= i < |a + b| ==> (a + b)[i] == if i < |a| then a[i] else b[i - |a|];
        assert AllPrintable(w);
      }
      assert PrintableWord(w);
      PrintableHasNoSpace(w);
    }
  }

  /** Each word followed by one blank: how `words += ... + ' '` accumulates. */
  function Spaced(ws: seq<string>): string {
    if ws == [] then "" else ws[0] + " " + Spaced(ws[1..])
  }

  lemma {:induction false} SpacedAppend(a: seq<string>, b: seq<string>)
    ensures Spaced(a + b) == Spaced(a) + Spaced(b)
  {
    if a == [] {
      assert a + b == b;
    } else {
      assert (a + b)[1..] == a[1..] + b;
      SpacedAppend(a[1..], b);
    }
  }

  lemma {:induction false} JoinThenBlank(ws: seq<string>)
    requires ws != []
    ensures Join(ws, " ") + " " == Spaced(ws)
  {
    if |ws| > 1 {
      JoinThenBlank(ws[1..]);
    }
  }

  lemma {:induction false} SpacedThenJoin(a: seq<string>, b: seq<string>)
    requires b != []
    ensures Spaced(a) + Join(b, " ") == Join(a + b, " ")
  {
    if a == [] {
      assert a + b == b;
    } else {
      assert (a + b)[1..] == a[1..] + b;
      SpacedThenJoin(a[1..], b);
    }
  }

  predicate NoDoubleSpace(s: string) {
    forall i :: 0 <= i < |s| - 1 ==> s[i] == ' ' ==> s[i + 1] != ' '
  }

  /** Clean words joined by single blanks: nothing for `trim` to remove, and no two
      blanks in a row. */
  lemma {:induction false} JoinOfClean(ws: seq<string>)
    requires ws != [] && AllClean(ws)
    ensures var s := Join(ws, " ");
      s != [] && !IsSpace(s[0]) && !IsSpace(s[|s| - 1]) && NoDoubleSpace(s)
  {
    var w := ws[0];
    assert Clean(w);
    if |ws| > 1 {
      var r := Join(ws[1..], " ");
      JoinOfClean(ws[1..]);
      var s := w + " " + r;
      forall i | 0 <= i < |s| - 1
        ensures s[i] == ' ' ==> s[i + 1] != ' '
      {
        if i < |w| {
          assert s[i] == w[i];
        } else if i == |w| {
          assert s[i + 1] == r[0];
        } else {
          assert s[i] == r[i - |w| - 1] && s[i + 1] == r[i - |w|];
        }
      }
    }
  }

  /** `words += W(q) + ' unit '` extends the accumulated words by one group. */
  lemma AppendGroup(v: Vocabulary, acc: seq<Token>, group: seq<Token>, unit: Token)
    requires group != []
    ensures Spaced(RenderAll(v, acc + group + [unit])) ==
      Spaced(RenderAll(v, acc)) + Join(RenderAll(v, group), " ") + " " + Render(v, unit) + " "
  {
    RenderAppend(v, acc + group, [unit]);
    RenderAppend(v, acc, group);
    assert RenderAll(v, [unit]) == [Render(v, unit)];
    SpacedAppend(RenderAll(v, acc) + RenderAll(v, group), [Render(v, unit)]);
    SpacedAppend(RenderAll(v, acc), RenderAll(v, group));
    JoinThenBlank(RenderAll(v, group));
  }

  lemma SpelledGroup(v: Vocabulary, q: nat)
    requires q > 0
    ensures Tokens(v.form, q) != [] && Words(v, q) == Join(RenderAll(v, Tokens(v.form, q)), " ")
  {
    TokensReadBack(v.form, q);
  }

  lemma AppendWords(v: Vocabulary, acc: seq<Token>, extra: seq<Token>)
    ensures Spaced(RenderAll(v, acc + extra)) == Spaced(RenderAll(v, acc)) + Spaced(RenderAll(v, extra))
  {
    assert RenderAll(v, acc + extra) == RenderAll(v, acc) + RenderAll(v, extra);
    SpacedAppend(RenderAll(v, acc), RenderAll(v, extra));
  }

  /** The closing `words.trim()`. */
  lemma FinishSpelling(v: Vocabulary, ts: seq<Token>, acc: seq<Token>, tail: seq<Token>, pre: string)
    requires WellFormed(v) && ts != [] && Fits(v.form, ts)
    requires ts == acc + tail
    requires pre == Spaced(RenderAll(v, acc)) + Join(RenderAll(v, tail), " ")
    ensures Trim(pre) == Join(RenderAll(v, ts), " ")
  {
    RenderClean(v, ts);
    var ws := RenderAll(v, ts);
    JoinOfClean(ws);
    RenderAppend(v, acc, tail);
    if tail == [] {
      assert acc == ts;
      TrimAfterLastGroup(ws, pre);
    } else {
      SpacedThenJoin(RenderAll(v, acc), RenderAll(v, tail));
      TrimNoSpaceEnds(pre);
    }
  }

  /** When the number ends in a group word, the blank after it is all `trim` removes. */
  lemma TrimAfterLastGroup(ws: seq<string>, pre: string)
    requires ws != [] && pre == Spaced(ws) + Join([], " ")
    requires var s := Join(ws, " "); s != [] && !IsSpace(s[0]) && !IsSpace(s[|s| - 1])
    ensures Trim(pre) == Join(ws, " ")
  {
    JoinThenBlank(ws);
    assert pre == Join(ws, " ") + " ";
    TrimTrailingSpace(Join(ws, " "));
  }

  lemma HundredStep(f: Form, n: nat, earlier: bool)
    requires 100 <= n < 1000
    ensures HundredsTokens(f, n / 100) != []
    ensures HundredPart(f, n, earlier) == HundredsTokens(f, n / 100) + TensPart(f, n % 100, true)
  {
  }

  /** One `words += W(q) + ' unit '` step: the decomposition still to spell loses the
      group, and the words gain it. */
  lemma PeelGroup(v: Vocabulary, ts: seq<Token>, acc: seq<Token>, q: nat, unit: Token, rest: seq<Token>,
                  w: string, pre: string)
    requires q > 0 && w == Words(v, q) && pre == Spaced(RenderAll(v, acc))
    requires ts == acc + (Tokens(v.form, q) + [unit] + rest)
    ensures ts == acc + Tokens(v.form, q) + [unit] + rest
    ensures pre + w + " " + Render(v, unit) + " " == Spaced(RenderAll(v, acc + Tokens(v.form, q) + [unit]))
  {
    SpelledGroup(v, q);
    AppendGroup(v, acc, Tokens(v.form, q), unit);
  }

  lemma Regroup(ts: seq<Token>, acc: seq<Token>, a: seq<Token>, b: seq<Token>)
    requires ts == acc + (a + b)
    ensures ts == (acc + a) + b
  {
  }

  /** English and Hindi write a hundreds digit as `W(hundreds) + ' hundred '`. */
  lemma CountedHundreds(v: Vocabulary, h: nat)
    requires 1 <= h <= 9 && v.form.hundreds == Counted
    ensures Spaced(RenderAll(v, HundredsTokens(v.form, h))) == Words(v, h) + " " + v.hundred + " "
  {
    SpelledGroup(v, h);
    AppendGroup(v, [], Tokens(v.form, h), Hundred);
    assert [] + Tokens(v.form, h) + [Hundred] == HundredsTokens(v.form, h);
    assert RenderAll(v, []) == [];
  }

  lemma TokensFacts(f: Form, n: nat)
    requires n > 0
    ensures Tokens(f, n) != [] && Fits(f, Tokens(f, n))
  {
    TokensReadBack(f, n);
  }

  /** The speller shared by `numberToEnglishWords`, `numberToHindiWords`,
      `numberToTamilWords`, `numberToTeluguWords` and `numberToBengaliWords`: it peels
      the crores off `num`, appending to `words`, and `SpellLakhs`, `SpellThousands`
      and `SpellHundreds` go on with the lower groups in turn. */
  method SpellOut(v: Vocabulary, num: int) returns (words: string)
    requires WellFormed(v)
    ensures words == Words(v, num)
    decreases if num < 0 then 0 else num, 3
  {
    if num == 0 {
      return v.zero;
    }
    var f := v.form;
    words := "";
    var n := num;
    ghost var acc: seq<Token> := [];
    if n >= 10000000 {
      var w := SpellOut(v, n / 10000000);
      PeelGroup(v, Tokens(f, num), acc, n / 10000000, Crore, LakhPart(f, n % 10000000, true), w, words);
      words := words + w + " " + v.crore + " ";
      acc := acc + Tokens(f, n / 10000000) + [Crore];
      n := n % 10000000;
    }
    words := SpellLakhs(v, num, n, words, acc);
  }

  /** The speller once `num` is below a crore: the lakhs, then `SpellThousands`. */
  method SpellLakhs(v: Vocabulary, ghost num: int, n: int, pre: string, ghost acc: seq<Token>)
    returns (words: string)
    requires WellFormed(v) && num != 0 && n <= num && n < 10000000
    requires num > 0 ==> 0 <= n && Tokens(v.form, num) == acc + LakhPart(v.form, n, acc != [])
    requires num < 0 ==> acc == []
    requires pre == Spaced(RenderAll(v, acc))
    ensures words == Words(v, num)
    decreases if num < 0 then 0 else num, 2
  {
    var f := v.form;
    words := pre;
    var n := n;
    ghost var acc := acc;
    if n >= 100000 {
      var w := SpellOut(v, n / 100000);
      PeelGroup(v, Tokens(f, num), acc, n / 100000, Lakh, ThousandPart(f, n % 100000, true), w, words);
      words := words + w + " " + v.lakh + " ";
      acc := acc + Tokens(f, n / 100000) + [Lakh];
      n := n % 100000;
    }
    words := SpellThousands(v, num, n, words, acc);
  }

  /** The speller once `num` is below a lakh: the thousands, then `SpellHundreds`. */
  method SpellThousands(v: Vocabulary, ghost num: int, n: int, pre: string, ghost acc: seq<Token>)
    returns (words: string)
    requires WellFormed(v) && num != 0 && n <= num && n < 100000
    requires num > 0 ==> 0 <= n && Tokens(v.form, num) == acc + ThousandPart(v.form, n, acc != [])
    requires num < 0 ==> acc == []
    requires pre == Spaced(RenderAll(v, acc))
    ensures words == Words(v, num)
    decreases if num < 0 then 0 else num, 1
  {
    var f := v.form;
    words := pre;
    var n := n;
    ghost var acc := acc;
    if n >= 1000 {
      var w := SpellOut(v, n / 1000);
      PeelGroup(v, Tokens(f, num), acc, n / 1000, Thousand, HundredPart(f, n % 1000, true), w, words);
      words := words + w + " " + v.thousand + " ";
      acc := acc + Tokens(f, n / 1000) + [Thousand];
      n := n % 1000;
    }
    words := SpellHundreds(v, num, n, words, acc);
  }

  /** The rest of the speller once `num` is below 1000: the hundreds digit, the last
      two digits (after "and" in English when words precede) and `words.trim()`.
      `acc` is the decomposition spelt so far into `pre`. */
  method SpellHundreds(v: Vocabulary, ghost num: int, n: int, pre: string, ghost acc: seq<Token>)
    returns (words: string)
    requires WellFormed(v) && num != 0 && n <= num && n < 1000
    requires num > 0 ==> 0 <= n && Tokens(v.form, num) == acc + HundredPart(v.form, n, acc != [])
    requires num < 0 ==> acc == []
    requires pre == Spaced(RenderAll(v, acc))
    ensures words == Words(v, num)
    decreases if num < 0 then 0 else num, 0
  {
    var f := v.form;
    words := pre;
    var n := n;
    ghost var acc := acc;
    if n >= 100 {
      var h := n / 100;
      HundredStep(f, n, acc != []);
      var part: string;
      if f.hundreds == Counted {
        var w := SpellOut(v, h);
        CountedHundreds(v, h);
        part := w + " " + v.hundred + " ";
      } else {
        part := HundredsWords(v, h);
      }
      AppendWords(v, acc, HundredsTokens(f, h));
      if num > 0 {
        Regroup(Tokens(f, num), acc, HundredsTokens(f, h), TensPart(f, n % 100, true));
      }
      words := words + part;
      acc := acc + HundredsTokens(f, h);
      n := n % 100;
    } else {
      assert num > 0 ==> HundredPart(f, n, acc != []) == TensPart(f, n, acc != []);
    }
    assert num > 0 ==> 0 <= n < 100 && Tokens(f, num) == acc + TensPart(f, n, acc != []);
    assert words != "" <==> acc != [];
    if n > 0 {
      var part := TensWords(v, n, words != "");
      words := words + part;
    }
    if num > 0 {
      TokensFacts(f, num);
      FinishSpelling(v, Tokens(f, num), acc, TensPart(f, n, acc != []), words);
    }
    words := Trim(words);
  }

  lemma SpacedOne(a: string)
    ensures Spaced([a]) == a + " "
  {
    assert [a][1..] == [];
  }

  lemma SpacedTwo(a: string, b: string)
    ensures Spaced([a, b]) == a + " " + b + " "
  {
    assert [a, b][1..] == [b];
    SpacedOne(b);
  }

  /** The hundreds digit in the Tamil, Telugu and Bengali spellers, which do not recurse:
      a single hundred is the bare word, otherwise `ones[hundreds]` and the hundred word
      or suffix. */
  method HundredsWords(v: Vocabulary, h: nat) returns (part: string)
    requires WellFormed(v) && 1 <= h <= 9 && v.form.hundreds != Counted
    ensures part == Spaced(RenderAll(v, HundredsTokens(v.form, h)))
  {
    ghost var ws := RenderAll(v, HundredsTokens(v.form, h));
    if h == 1 {
      part := v.bareHundred + " ";
      assert ws == [v.bareHundred];
      SpacedOne(v.bareHundred);
    } else if v.form.hundreds == BareOne {
      part := v.ones[h] + " " + v.hundred + " ";
      assert ws == [v.ones[h], v.hundred];
      SpacedTwo(v.ones[h], v.hundred);
    } else {
      part := v.ones[h] + v.hundredsSuffix + " ";
      assert ws == [v.ones[h] + v.hundredsSuffix];
      SpacedOne(v.ones[h] + v.hundredsSuffix);
    }
  }

  /** The last two digits: "and " when the form uses it and words precede, then the
      digits. */
  method TensWords(v: Vocabulary, n: nat, earlier: bool) returns (part: string)
    requires WellFormed(v) && 0 < n < 100
    ensures part == Join(RenderAll(v, TensPart(v.form, n, earlier)), " ")
  {
    var digits := DigitsWords(v, n);
    ghost var lead: seq<string> := if v.form.useAnd && earlier then ["and"] else [];
    ghost var body := RenderAll(v, SmallTokens(n));
    RenderAppend(v, if v.form.useAnd && earlier then [And] else [], SmallTokens(n));
    assert RenderAll(v, TensPart(v.form, n, earlier)) == lead + body;
    part := "";
    if v.form.useAnd && earlier {
      part := part + "and ";
      assert (lead + body)[1..] == body;
    } else {
      assert lead + body == body;
    }
    part := part + digits;
  }

  /** `ones[num]`, `teens[num - 10]`, or `tens[...]` followed by `' ' + ones[num % 10]`. */
  method DigitsWords(v: Vocabulary, n: nat) returns (digits: string)
    requires WellFormed(v) && 0 < n < 100
    ensures RenderAll(v, SmallTokens(n)) != [] && digits == Join(RenderAll(v, SmallTokens(n)), " ")
  {
    ghost var body := RenderAll(v, SmallTokens(n));
    if n < 10 {
      digits := v.ones[n];
      assert body == [v.ones[n]];
    } else if n < 20 {
      digits := v.teens[n - 10];
      assert body == [v.teens[n - 10]];
    } else {
      digits := v.tens[n / 10];
      if n % 10 > 0 {
        digits := digits + " " + v.ones[n % 10];
        assert body == [v.tens[n / 10], v.ones[n % 10]];
        assert body[1..] == [v.ones[n % 10]];
      } else {
        assert body == [v.tens[n / 10]];
      }
    }
  }

  // ---------------------------------------------------------------------------
  // The five vocabularies
  // ---------------------------------------------------------------------------

  const English: Vocabulary := Vocabulary(
    Form(Counted, true), "zero",
    ["", "one", "two", "three", "four", "five", "six", "seven", "eight", "nine"],
    ["ten", "eleven", "twelve", "thirteen", "fourteen", "fifteen", "sixteen", "seventeen", "eighteen", "nineteen"],
    ["", "", "twenty", "thirty", "forty", "fifty", "sixty", "seventy", "eighty", "ninety"],
    "hundred", "", "",
    "thousand", "lakh", "crore")

  const Hindi: Vocabulary := Vocabulary(
    Form(Counted, false), "शून्य",
    ["", "एक", "दो", "तीन", "चार", "पाँच", "छह", "सात", "आठ", "नौ"],
    ["दस", "ग्यारह", "बारह", "तेरह", "चौदह", "पंद्रह", "सोलह", "सत्रह", "अट्ठारह", "उन्नीस"],
    ["", "", "बीस", "तीस", "चालीस", "पचास", "साठ", "सत्तर", "अस्सी", "नब्बे"],
    "सौ", "", "",
    "हज़ार", "लाख", "करोड़")

  const Tamil: Vocabulary := Vocabulary(
    Form(BareOne, false), "பூஜ்யம்",
    ["", "ஒன்று", "இரண்டு", "மூன்று", "நான்கு", "ஐந்து", "ஆறு", "ஏழு", "எட்டு", "ஒன்பது"],
    ["பத்து", "பதினொன்று", "பன்னிரண்டு", "பதிமூன்று", "பதினான்கு", "பதினைந்து", "பதினாறு", "பதினேழு", "பதினெட்டு", "பத்தொன்பது"],
    ["", "பத்து", "இருபது", "முப்பது", "நாற்பது", "ஐம்பது", "அறுபது", "எழுபது", "எண்பது", "தொண்ணூறு"],
    "நூறு", "நூறு", "",
    "ஆயிரம்", "இலட்சம்", "கோடி")

  const Telugu: Vocabulary := Vocabulary(
    Form(BareOne, false), "సున్నా",
    ["", "ఒకటి", "రెండు", "మూడు", "నాలుగు", "ఐదు", "ఆరు", "ఏడు", "ఎనిమిది", "తొమ్మిది"],
    ["పది", "పదకొండు", "పన్నెండు", "పదమూడు", "పద్నాలుగు", "పదిహేను", "పదహారు", "పదిహేడు", "పద్దెనిమిది", "పందొమ్మిది"],
    ["", "పది", "ఇరవై", "ముప్పై", "నలభై", "యాభై", "అరవై", "డెబ్బై", "ఎనభై", "తొంభై"],
    "వందల", "వంద", "",
    "వేయి", "లక్ష", "కోటి")

  const Bengali: Vocabulary := Vocabulary(
    Form(Suffixed, false), "শূন্য",
    ["", "এক", "দুই", "তিন", "চার", "পাঁচ", "ছয়", "সাত", "আট", "নয়"],
    ["দশ", "এগারো", "বারো", "তেরো", "চৌদ্দ", "পনেরো", "ষোল", "সতেরো", "আঠারো", "উনিশ"],
    ["", "দশ", "বিশ", "ত্রিশ", "চল্লিশ", "পঞ্চাশ", "ষাট", "সত্তর", "আশি", "নব্বই"],
    "", "একশ", "শ",
    "হাজার", "লক্ষ", "কোটি")


  // ---------------------------------------------------------------------------
  // Every vocabulary is well formed
  // ---------------------------------------------------------------------------

  lemma EnglishOnesPrintable()
    ensures |English.ones| == 10 && forall d :: 1 <= d <= 9 ==> PrintableWord(English.ones[d])
  {
  }

  lemma EnglishTeensPrintable()
    ensures |English.teens| == 10 && forall d :: 0 <= d <= 9 ==> PrintableWord(English.teens[d])
  {
  }

  lemma EnglishTensPrintable()
    ensures |English.tens| == 10 && forall d :: 2 <= d <= 9 ==> PrintableWord(English.tens[d])
  {
  }

  lemma EnglishWellFormed()
    ensures WellFormed(English)
  {
    EnglishOnesPrintable();
    EnglishTeensPrintable();
    EnglishTensPrintable();
  }

  lemma HindiOnesPrintable()
    ensures |Hindi.ones| == 10 && forall d :: 1 <= d <= 9 ==> PrintableWord(Hindi.ones[d])
  {
  }

  lemma HindiTeensPrintable()
    ensures |Hindi.teens| == 10 && forall d :: 0 <= d <= 9 ==> PrintableWord(Hindi.teens[d])
  {
  }

  lemma HindiTensPrintable()
    ensures |Hindi.tens| == 10 && forall d :: 2 <= d <= 9 ==> PrintableWord(Hindi.tens[d])
  {
  }

  lemma HindiWellFormed()
    ensures WellFormed(Hindi)
  {
    HindiOnesPrintable();
    HindiTeensPrintable();
    HindiTensPrintable();
  }

  lemma TamilOnesPrintable()
    ensures |Tamil.ones| == 10 && forall d :: 1 <= d <= 9 ==> PrintableWord(Tamil.ones[d])
  {
  }

  lemma TamilTeensPrintable()
    ensures |Tamil.teens| == 10 && forall d :: 0 <= d <= 9 ==> PrintableWord(Tamil.teens[d])
  {
  }

  lemma TamilTensPrintable()
    ensures |Tamil.tens| == 10 && forall d :: 2 <= d <= 9 ==> PrintableWord(Tamil.tens[d])
  {
  }

  lemma TamilWellFormed()
    ensures WellFormed(Tamil)
  {
    TamilOnesPrintable();
    TamilTeensPrintable();
    TamilTensPrintable();
  }

  lemma TeluguOnesPrintable()
    ensures |Telugu.ones| == 10 && forall d :: 1 <= d <= 9 ==> PrintableWord(Telugu.ones[d])
  {
  }

  lemma TeluguTeensPrintable()
    ensures |Telugu.teens| == 10 && forall d :: 0 <= d <= 9 ==> PrintableWord(Telugu.teens[d])
  {
  }

  lemma TeluguTensPrintable()
    ensures |Telugu.tens| == 10 && forall d :: 2 <= d <= 9 ==> PrintableWord(Telugu.tens[d])
  {
  }

  lemma TeluguWellFormed()
    ensures WellFormed(Telugu)
  {
    TeluguOnesPrintable();
    TeluguTeensPrintable();
    TeluguTensPrintable();
  }

  lemma BengaliOnesPrintable()
    ensures |Bengali.ones| == 10 && forall d :: 1 <= d <= 9 ==> PrintableWord(Bengali.ones[d])
  {
  }

  lemma BengaliTeensPrintable()
    ensures |Bengali.teens| == 10 && forall d :: 0 <= d <= 9 ==> PrintableWord(Bengali.teens[d])
  {
  }

  lemma BengaliTensPrintable()
    ensures |Bengali.tens| == 10 && forall d :: 2 <= d <= 9 ==> PrintableWord(Bengali.tens[d])
  {
  }

  lemma BengaliWellFormed()
    ensures WellFormed(Bengali)
  {
    BengaliOnesPrintable();
    BengaliTeensPrintable();
    BengaliTensPrintable();
  }

  // ---------------------------------------------------------------------------
  // What the spellers promise
  // ---------------------------------------------------------------------------

  /** `words.trim()` leaves single blanks between words and none at either end. */
  lemma WordsTrimmed(v: Vocabulary, n: nat)
    requires WellFormed(v) && n > 0
    ensures var s := Words(v, n);
      s != [] && !IsSpace(s[0]) && !IsSpace(s[|s| - 1]) && NoDoubleSpace(s) && Trim(s) == s
  {
    TokensFacts(v.form, n);
    RenderClean(v, Tokens(v.form, n));
    JoinOfClean(RenderAll(v, Tokens(v.form, n)));
    TrimNoSpaceEnds(Words(v, n));
  }

  lemma JoinAppend(a: seq<string>, b: seq<string>)
    requires a != [] && b != []
    ensures Join(a + b, " ") == Join(a, " ") + " " + Join(b, " ")
  {
    JoinThenBlank(a);
    SpacedThenJoin(a, b);
  }

  lemma JoinAround(high: seq<string>, lead: seq<string>, low: seq<string>, useAnd: bool)
    requires high != [] && low != [] && lead == (if useAnd then ["and"] else [])
    ensures Join(high + (lead + low), " ") == Join(high, " ") + (if useAnd then " and " else " ") + Join(low, " ")
  {
    if useAnd {
      JoinAppend(high, lead + low);
      JoinAppend(lead, low);
    } else {
      assert lead + low == low;
      JoinAppend(high, low);
    }
  }

  /** A number whose last two digits are not zero is spelt as its round hundreds, then
      "and" in English (a blank alone in the other languages), then the last two digits:
      105 is "one hundred" and "five" joined by " and ". */
  lemma WordsBeforeTens(v: Vocabulary, n: nat)
    requires n >= 100 && n % 100 != 0
    ensures Words(v, n) ==
      Words(v, n - n % 100) + (if v.form.useAnd then " and " else " ") + Words(v, n % 100)
  {
    var f := v.form;
    var r := n % 100;
    var and := if f.useAnd then [And] else [];
    var small := SmallTokens(r);
    TokensBeforeTens(f, n);
    var th := Tokens(f, n - r);
    RenderAppend(v, th, and + small);
    RenderAppend(v, and, small);
    JoinAround(RenderAll(v, th), RenderAll(v, and), RenderAll(v, small), f.useAnd);
  }

  lemma TokensBeforeTens(f: Form, n: nat)
    requires n >= 100 && n % 100 != 0
    ensures var r := n % 100;
      && Tokens(f, n) == Tokens(f, n - r) + ((if f.useAnd then [And] else []) + SmallTokens(r))
      && Tokens(f, r) == SmallTokens(r) && Tokens(f, n - r) != []
  {
    var r := n % 100;
    AndBeforeTens(f, n);
    TokensBelowHundred(f, r);
    TokensFacts(f, n - r);
  }

  /** Hindi spells exactly the English decomposition with each "and" removed. */
  lemma HindiIsEnglishWithoutAnd(n: nat)
    requires n > 0
    ensures Tokens(Hindi.form, n) == DropAnd(Tokens(English.form, n))
  {
    TokensWithoutAnd(English.form, n);
  }

  lemma EnglishZero()
    ensures Words(English, 0) == "zero"
  {
  }

  lemma EnglishHundredAndFive()
    ensures Words(English, 105) == "one hundred and five"
  {
    EnglishOneHundred();
    EnglishFive();
    var n := 105;
    assert n - n % 100 == 100 && n % 100 == 5;
    WordsBeforeTens(English, n);
    assert "one hundred" + " and " + "five" == "one hundred and five";
  }

  lemma EnglishFive()
    ensures Words(English, 5) == "five"
  {
    var n := 5;
    TokensBelowHundred(English.form, n);
    var ws := RenderAll(English, SmallTokens(n));
    assert SmallTokens(n) == [One(5)];
    assert |ws| == 1 && ws[0] == Pick(English.ones, 5) == "five";
    assert ws == ["five"];
  }

  lemma EnglishOneHundred()
    ensures Words(English, 100) == "one hundred"
  {
    assert Tokens(English.form, 100) == [One(1), Hundred];
  }

  /** Tamil, Telugu and Bengali write a hundreds digit of 1 as their bare hundred word
      ("நூறு", "వంద", "একশ") rather than a count. */
  lemma BareHundredWord(v: Vocabulary, n: nat)
    requires n > 0 && v.form.hundreds != Counted && (n % 1000) / 100 == 1
    ensures v.bareHundred in RenderAll(v, Tokens(v.form, n))
  {
    var ts := Tokens(v.form, n);
    BareHundredForOne(v.form, n);
    var i :| 0 <= i < |ts| && ts[i] == BareHundred;
    assert RenderAll(v, ts)[i] == v.bareHundred;
  }

}
