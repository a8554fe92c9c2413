/** The server's `processVoiceCommand` (`server.js`): the command is looked up, phrase by
    phrase, in the pattern table of its language, and the first phrase it contains decides
    the canned result that the response carries. */
module VoiceServer {
  import opened Maybe
  import opened JsString

  /** `{ type, amount?, response }`. */
  datatype PatternResult = PatternResult(kind: string, amount: Option<nat>, response: string)

  /** Phrases with their results, in the order `Object.entries` lists them. */
  type PatternTable = seq<(string, PatternResult)>

  const HindiPatterns: PatternTable := [
    ("बिक्री", PatternResult("sale", Some(5000), "5000 रुपये की बिक्री दर्ज हो गई")),
    ("खर्च", PatternResult("expense", Some(2000), "2000 रुपये का खर्च लिखा गया")),
    ("बैलेंस", PatternResult("balance", None, "आपका बैलेंस 75000 रुपये है")),
    ("जीएसटी", PatternResult("gst", Some(10000), "10000 रुपये पर 1800 रुपये जीएसटी लगेगा")),
    ("बिल", PatternResult("invoice", None, "बिल संख्या INV-001 बन गया"))
  ]

  const EnglishPatterns: PatternTable := [
    ("sale", PatternResult("sale", Some(5000), "Sale of 5000 rupees recorded")),
    ("expense", PatternResult("expense", Some(2000), "Expense of 2000 rupees recorded")),
    ("balance", PatternResult("balance", None, "Your balance is 75000 rupees")),
    ("gst", PatternResult("gst", Some(10000), "GST on 10000 rupees is 1800 rupees")),
    ("invoice", PatternResult("invoice", None, "Invoice number INV-001 created"))
  ]

  const Unknown := PatternResult("unknown", None, "Command not understood")

  const ServerActions := ["update_dashboard", "play_sound", "show_notification"]

  /** `patterns[language] || patterns.hi`. */
  function PatternsFor(language: string): (t: PatternTable)
    ensures t == EnglishPatterns || t == HindiPatterns
    ensures t == EnglishPatterns <==> language == "en"
  {
    if language == "hi" then HindiPatterns
    else if language == "en" then EnglishPatterns
    else HindiPatterns
  }

  /** The table's phrases differ, so it tells which table a language chose. */
  lemma TablesDiffer()
    ensures EnglishPatterns != HindiPatterns
  {
    assert EnglishPatterns[0].0[0] != HindiPatterns[0].0[0];
  }

  /** Pattern `i` of the table occurs in the lower-cased command. */
  predicate PatternHit(table: PatternTable, command: string, i: nat) {
    i < |table| && Includes(ToLower(command), ToLower(table[i].0))
  }

  /** `i` is the first pattern of the table that occurs in the command, or `None` when none
      does. */
  ghost predicate IsFirstPattern(table: PatternTable, command: string, i: Option<nat>) {
    match i
    case None => forall j: nat :: !PatternHit(table, command, j)
    case Some(k) => PatternHit(table, command, k) && forall j: nat :: j < k ==> !PatternHit(table, command, j)
  }

  function ResultOf(table: PatternTable, i: Option<nat>): PatternResult
    requires i.Some? ==> i.value < |table|
  {
    if i.None? then Unknown else table[i.value].1
  }

  /** The response: the result and what the request named; the timestamp is the clock's
      and is not modelled. */
  datatype ServerResponse = ServerResponse(
    success: bool, command: string, language: string, result: PatternResult, actions: seq<string>)

  /** `processVoiceCommand(command, language = 'hi')`. */
  method ProcessVoiceCommand(command: string, language: Option<string>) returns (r: ServerResponse)
    ensures var lang := language.GetOr("hi");
      && r.success && r.command == command && r.language == lang && r.actions == ServerActions
      && exists i :: IsFirstPattern(PatternsFor(lang), command, i) && r.result == ResultOf(PatternsFor(lang), i)
  {
    var lang := language.GetOr("hi");
    var langPatterns := PatternsFor(lang);
    var result := Unknown;
    var found: Option<nat> := None;
    var i := 0;
    while i < |langPatterns|
      invariant i <= |langPatterns|
      invariant found.None? && result == Unknown
      invariant forall j: nat :: j < i ==> !PatternHit(langPatterns, command, j)
    {
      if Includes(ToLower(command), ToLower(langPatterns[i].0)) {
        result := langPatterns[i].1;
        found := Some(i);
        break;
      }
      i := i + 1;
    }
    assert IsFirstPattern(langPatterns, command, found) && result == ResultOf(langPatterns, found);
    r := ServerResponse(true, command, lang, result, ServerActions);
  }

  /** The first pattern is determined by the table and the command. */
  lemma FirstPatternUnique(table: PatternTable, command: string, i1: Option<nat>, i2: Option<nat>)
    requires IsFirstPattern(table, command, i1) && IsFirstPattern(table, command, i2)
    ensures i1 == i2
  {
    if i1.Some? && i2.Some? {
      assert !(i1.value < i2.value) by {
        if i1.value < i2.value {
          assert false;
        }
      }
      assert !(i2.value < i1.value) by {
        if i2.value < i1.value {
          assert false;
        }
      }
    }
  }

  /** The result is the unknown one exactly when no phrase of the table occurs in the
      command; otherwise it is the result of a phrase that occurs. */
  lemma ResultOfFirst(table: PatternTable, command: string, i: Option<nat>)
    requires IsFirstPattern(table, command, i)
    requires forall k :: 0 <= k < |table| ==> table[k].1 != Unknown
    ensures ResultOf(table, i) == Unknown <==> forall k :: 0 <= k < |table| ==> !Includes(ToLower(command), ToLower(table[k].0))
    ensures ResultOf(table, i) != Unknown ==>
      exists k :: 0 <= k < |table| && Includes(ToLower(command), ToLower(table[k].0)) && ResultOf(table, i) == table[k].1
  {
    if i.None? {
      forall k | 0 <= k < |table| ensures !Includes(ToLower(command), ToLower(table[k].0)) {
        assert !PatternHit(table, command, k);
      }
    } else {
      assert PatternHit(table, command, i.value);
    }
  }

  /** No canned result of either table is the unknown one. */
  lemma TablesKnown()
    ensures forall k :: 0 <= k < |EnglishPatterns| ==> EnglishPatterns[k].1 != Unknown
    ensures forall k :: 0 <= k < |HindiPatterns| ==> HindiPatterns[k].1 != Unknown
  {
    forall k | 0 <= k < 5 ensures EnglishPatterns[k].1.kind[0] != 'u' && HindiPatterns[k].1.kind[0] != 'u' {
    }
  }

  /** An English command that mentions a sale, in any case, is recorded as the sale, however
      much else it mentions. */
  lemma EnglishSaleFirst(command: string, i: Option<nat>)
    requires IsFirstPattern(EnglishPatterns, command, i)
    requires Includes(ToLower(command), "sale")
    ensures ResultOf(EnglishPatterns, i).kind == "sale"
  {
    LowerOfNoUpper("sale");
    assert PatternHit(EnglishPatterns, command, 0);
    if i.Some? && i.value > 0 {
      assert false;
    }
  }
}
