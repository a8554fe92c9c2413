/** The language translator: translation tables as ordered key/value lists, the lookup chain
    current language -> English -> key, first-occurrence `{{param}}` substitution, reverse
    phrase lookup, voice-command matching, the supported-language list, imported and stored
    tables, and dispatch to the number spellers. */
module LanguageTranslator {
  import opened Maybe
  import opened JsString
  import NumberWords

  // ---------------------------------------------------------------------------
  // Tables: a JavaScript object's own entries, in key order
  // ---------------------------------------------------------------------------

  type Table = seq<(string, string)>

  function Keys(t: Table): seq<string> {
    seq(|t|, i requires 0 <= i < |t| => t[i].0)
  }

  predicate DistinctKeys(t: Table) {
    forall i, j :: 0 <= i < j < |t| ==> t[i].0 != t[j].0
  }

  /** `obj[k]`: the value of the last entry with key `k` (later assignments win). */
  function Lookup(t: Table, k: string): (r: Option<string>)
    ensures r.Some? <==> k in Keys(t)
  {
    if t == [] then None
    else
      assert Keys(t) == Keys(t[..|t| - 1]) + [t[|t| - 1].0];
      if t[|t| - 1].0 == k then Some(t[|t| - 1].1)
      else Lookup(t[..|t| - 1], k)
  }

  /** In a table whose keys are distinct, the lookup of an entry's key is that entry's value. */
  lemma {:induction false} LookupDistinct(t: Table, i: nat)
    requires DistinctKeys(t) && i < |t|
    ensures Lookup(t, t[i].0) == Some(t[i].1)
    decreases |t|
  {
    if i < |t| - 1 {
      LookupDistinct(t[..|t| - 1], i);
    }
  }

  /** Every entry whose key is `k` gets the value `v`; the keys stay as they were. */
  function Replace(t: Table, k: string, v: string): (r: Table)
    ensures Keys(r) == Keys(t)
  {
    if t == [] then []
    else
      var init := Replace(t[..|t| - 1], k, v);
      assert Keys(t) == Keys(t[..|t| - 1]) + [t[|t| - 1].0];
      assert Keys(init + [if t[|t| - 1].0 == k then (k, v) else t[|t| - 1]]) == Keys(init) + [t[|t| - 1].0];
      init + [if t[|t| - 1].0 == k then (k, v) else t[|t| - 1]]
  }

  /** `obj[k] = v`: an existing key keeps its place, a new key goes last. */
  function Assign(t: Table, k: string, v: string): Table {
    if k in Keys(t) then Replace(t, k, v) else t + [(k, v)]
  }

  lemma {:induction false} ReplaceLookup(t: Table, k: string, v: string, key: string)
    ensures Lookup(Replace(t, k, v), key) ==
      if key == k && k in Keys(t) then Some(v) else Lookup(t, key)
    decreases |t|
  {
    if t != [] {
      var init := t[..|t| - 1];
      assert Keys(t) == Keys(init) + [t[|t| - 1].0];
      ReplaceLookup(init, k, v, key);
      var r := Replace(t, k, v);
      assert r[..|r| - 1] == Replace(init, k, v);
    }
  }

  /** Assignment is seen by a lookup of that key and by no other. */
  lemma AssignLookup(t: Table, k: string, v: string, key: string)
    ensures Lookup(Assign(t, k, v), key) == if key == k then Some(v) else Lookup(t, key)
  {
    if k in Keys(t) {
      ReplaceLookup(t, k, v, key);
    } else {
      assert (t + [(k, v)])[..|t|] == t;
    }
  }

  /** Assignment keeps every existing key where it was. */
  lemma AssignKeepsKeys(t: Table, k: string, v: string)
    ensures |Assign(t, k, v)| >= |t| && Keys(Assign(t, k, v))[..|t|] == Keys(t)
  {
    if k !in Keys(t) {
      assert Keys(t + [(k, v)]) == Keys(t) + [k];
    }
  }

  /** `{...base, ...given}`: the entries of `base`, then every entry of `given` assigned in turn. */
  function Override(base: Table, given: Table): Table {
    if given == [] then base
    else Assign(Override(base, given[..|given| - 1]), given[|given| - 1].0, given[|given| - 1].1)
  }

  /** A key of `given` takes its value from `given`; any other key keeps the value in `base`. */
  lemma {:induction false} OverrideLookup(base: Table, given: Table, k: string)
    ensures Lookup(Override(base, given), k) ==
      if Lookup(given, k).Some? then Lookup(given, k) else Lookup(base, k)
    decreases |given|
  {
    if given != [] {
      var init := given[..|given| - 1];
      OverrideLookup(base, init, k);
      AssignLookup(Override(base, init), given[|given| - 1].0, given[|given| - 1].1, k);
    }
  }

  /** The merged table starts with the keys of `base`, in their order. */
  lemma {:induction false} OverrideKeepsOrder(base: Table, given: Table)
    ensures |Override(base, given)| >= |base|
    ensures Keys(Override(base, given))[..|base|] == Keys(base)
    decreases |given|
  {
    if given != [] {
      var init := given[..|given| - 1];
      OverrideKeepsOrder(base, init);
      var o := Override(base, init);
      AssignKeepsKeys(o, given[|given| - 1].0, given[|given| - 1].1);
      var r := Assign(o, given[|given| - 1].0, given[|given| - 1].1);
      assert Keys(r)[..|base|] == Keys(r)[..|o|][..|base|];
    }
  }

  /** The table stored for an imported language defines every English key. */
  lemma ImportDefinesEnglishKeys(english: Table, given: Table, k: string)
    requires k in Keys(english)
    ensures Lookup(Override(english, given), k).Some?
    ensures Lookup(given, k).Some? ==> Lookup(Override(english, given), k) == Lookup(given, k)
  {
    OverrideLookup(english, given, k);
  }

  // ---------------------------------------------------------------------------
  // Lookup chain and parameter substitution
  // ---------------------------------------------------------------------------

  /** `translations[lang] && translations[lang][key]`: a present, non-empty entry. */
  function Entry(tables: map<string, Table>, lang: string, key: string): (r: Option<string>)
    ensures r.Some? ==> lang in tables && Lookup(tables[lang], key) == r && r.value != ""
    ensures r.None? ==> lang !in tables || Lookup(tables[lang], key).None? || Lookup(tables[lang], key) == Some("")
  {
    if lang in tables && Lookup(tables[lang], key).Some? && Lookup(tables[lang], key).value != "" then
      Lookup(tables[lang], key)
    else None
  }

  function Placeholder(name: string): string {
    "{{" + name + "}}"
  }

  /** Each parameter in order replaces the first occurrence of its placeholder. */
  function Substitute(text: string, params: seq<(string, string)>): string
    decreases |params|
  {
    if params == [] then text
    else Substitute(ReplaceFirst(text, Placeholder(params[0].0), params[0].1), params[1..])
  }

  lemma PlaceholderStartsWithBraces(text: string, name: string)
    requires Includes(text, Placeholder(name))
    ensures Includes(text, "{{")
  {
    var p := IndexOf(text, Placeholder(name)).value;
    assert text[p..p + 2] == text[p..p + |Placeholder(name)|][..2];
    IncludesAt(text, "{{", p);
  }

  /** A text with no `{{` comes back unchanged whatever the parameters. */
  lemma {:induction false} SubstituteWithoutPlaceholders(text: string, params: seq<(string, string)>)
    requires !Includes(text, "{{")
    ensures Substitute(text, params) == text
    decreases |params|
  {
    if params != [] {
      if Includes(text, Placeholder(params[0].0)) {
        PlaceholderStartsWithBraces(text, params[0].0);
      }
      SubstituteWithoutPlaceholders(text, params[1..]);
    }
  }

  /** One parameter with a `$`-free value replaces its first placeholder and nothing else. */
  lemma SubstituteOne(text: string, name: string, value: string)
    requires '$' !in value
    ensures IndexOf(text, Placeholder(name)).None? ==> Substitute(text, [(name, value)]) == text
    ensures IndexOf(text, Placeholder(name)).Some? ==>
      var p := IndexOf(text, Placeholder(name)).value;
      Substitute(text, [(name, value)]) == text[..p] + value + text[p + |Placeholder(name)|..]
  {
    ReplaceFirstPlain(text, Placeholder(name), value);
  }

  /** A second occurrence of the same placeholder is left in place. */
  lemma SubstituteFirstOccurrenceOnly()
    ensures Substitute("{{n}} of {{n}}", [("n", "5")]) == "5 of {{n}}"
  {
    var text := "{{n}} of {{n}}";
    assert IndexOf(text, Placeholder("n")) == Some(0) by {
      assert OccursAt(text, Placeholder("n"), 0);
      IndexOfFirst(text, Placeholder("n"), 0);
    }
    assert text[5..] == " of {{n}}";
    SubstituteOne(text, "n", "5");
  }

  /** The `forEach` over the parameters. */
  method ApplyParams(text: string, params: seq<(string, string)>) returns (r: string)
    ensures r == Substitute(text, params)
  {
    r := text;
    var i := 0;
    while i < |params|
      invariant 0 <= i <= |params|
      invariant Substitute(r, params[i..]) == Substitute(text, params)
    {
      assert params[i..][1..] == params[i + 1..];
      r := ReplaceFirst(r, Placeholder(params[i].0), params[i].1);
      i := i + 1;
    }
  }

  // ---------------------------------------------------------------------------
  // Reverse phrase lookup and voice commands
  // ---------------------------------------------------------------------------

  /** The first position of an entry whose value is `text`. */
  function FirstWithValue(t: Table, text: string): (r: Option<nat>)
    ensures r.Some? ==> r.value < |t| && t[r.value].1 == text
    ensures r.Some? ==> forall j :: 0 <= j < r.value ==> t[j].1 != text
    ensures r.None? ==> forall j :: 0 <= j < |t| ==> t[j].1 != text
  {
    if t == [] then None
    else if t[0].1 == text then Some(0)
    else match FirstWithValue(t[1..], text)
      case None => None
      case Some(i) => Some(i + 1)
  }

  /** `translateKnownPhrase`: the first English key whose value is `text`, if that key is
      non-empty and the target table has a non-empty entry for it; otherwise `text`. */
  function KnownPhrase(tables: map<string, Table>, text: string, target: string): string
    requires "en" in tables
  {
    match FirstWithValue(tables["en"], text)
    case None => text
    case Some(i) =>
      var key := tables["en"][i].0;
      if key != "" && Entry(tables, target, key).Some? then Entry(tables, target, key).value else text
  }

  /** With distinct English keys, translating a known phrase into English gives it back. */
  lemma KnownPhraseToEnglish(tables: map<string, Table>, text: string)
    requires "en" in tables && DistinctKeys(tables["en"])
    ensures KnownPhrase(tables, text, "en") == text
  {
    var found := FirstWithValue(tables["en"], text);
    if found.Some? {
      LookupDistinct(tables["en"], found.value);
    }
  }

  /** The first entry whose command key occurs in `s`. */
  function FirstIncluded(s: string, table: seq<(string, Table)>): (r: Option<nat>)
    ensures r.Some? ==> r.value < |table| && Includes(s, table[r.value].0)
    ensures r.Some? ==> forall j :: 0 <= j < r.value ==> !Includes(s, table[j].0)
    ensures r.None? ==> forall j :: 0 <= j < |table| ==> !Includes(s, table[j].0)
  {
    if table == [] then None
    else if Includes(s, table[0].0) then Some(0)
    else match FirstIncluded(s, table[1..])
      case None => None
      case Some(i) => Some(i + 1)
  }

  /** The `for ... of` loop of `translateVoiceCommand`: the first entry whose key occurs in `s`. */
  method FindCommand(s: string, table: seq<(string, Table)>) returns (found: Option<nat>)
    ensures found == FirstIncluded(s, table)
  {
    var i := 0;
    while i < |table|
      invariant 0 <= i <= |table|
      invariant forall j :: 0 <= j < i ==> !Includes(s, table[j].0)
    {
      if Includes(s, table[i].0) {
        return Some(i);
      }
      i := i + 1;
    }
    return None;
  }

  /** `phrases[lang] || phrases['en']`. */
  function PhraseIn(phrases: Table, lang: string): string {
    match Lookup(phrases, lang)
    case Some(p) => if p != "" then p else Lookup(phrases, "en").GetOr("")
    case None => Lookup(phrases, "en").GetOr("")
  }

  /** The six voice commands with their phrases per language, in table order. */
  const VoiceCommands: seq<(string, Table)> := [
    ("create invoice", [("en", "create invoice"), ("hi", "इनवॉइस बनाएं"), ("ta", "விலைப்பட்டியல் உருவாக்கு"), ("te", "ఇన్వాయిస్ సృష్టించండి"), ("bn", "ইনভয়েস তৈরি করুন")]),
    ("add expense", [("en", "add expense"), ("hi", "खर्च जोड़ें"), ("ta", "செலவு சேர்க்க"), ("te", "ఖర్చు జోడించండి"), ("bn", "খরচ যোগ করুন")]),
    ("view reports", [("en", "view reports"), ("hi", "रिपोर्ट देखें"), ("ta", "அறிக்கைகள் காண்க"), ("te", "రిపోర్ట్లు వీక్షించండి"), ("bn", "রিপোর্ট দেখুন")]),
    ("calculate gst", [("en", "calculate gst"), ("hi", "जीएसटी कैलकुलेट करें"), ("ta", "ஜிஎஸ்டி கணக்கிடு"), ("te", "జీఎస్టీ లెక్కించండి"), ("bn", "জিএসটি গণনা করুন")]),
    ("search invoice", [("en", "search invoice"), ("hi", "इनवॉइस खोजें"), ("ta", "விலைப்பட்டியல் தேடு"), ("te", "ఇన్వాయిస్ శోధించండి"), ("bn", "ইনভয়েস অনুসন্ধান করুন")]),
    ("help", [("en", "help"), ("hi", "मदद"), ("ta", "உதவி"), ("te", "సహాయం"), ("bn", "সাহায্য")])
  ]

  /** `translateVoiceCommand` for a current language `lang`. */
  function VoiceCommand(command: string, lang: string): string {
    var lowered := Trim(ToLower(command));
    match FirstIncluded(lowered, VoiceCommands)
    case None => command
    case Some(i) => PhraseIn(VoiceCommands[i].1, lang)
  }

  const VoiceLanguages: seq<string> := ["en", "hi", "ta", "te", "bn"]

  /** Every command has a phrase for each of the five voice languages, English first and equal
      to the command key. */
  lemma VoicePhrases(i: nat)
    requires i < |VoiceCommands|
    ensures Keys(VoiceCommands[i].1) == VoiceLanguages
    ensures VoiceCommands[i].1[0] == ("en", VoiceCommands[i].0)
  {
    var ph := VoiceCommands[i].1;
    assert |ph| == 5;
    assert Keys(ph) == [ph[0].0, ph[1].0, ph[2].0, ph[3].0, ph[4].0];
  }

  /** The lookup of a key that only the first entry carries is that entry's value. */
  lemma {:induction false} LookupOnlyFirst(t: Table, k: string)
    requires t != [] && t[0].0 == k
    requires forall j :: 0 < j < |t| ==> t[j].0 != k
    ensures Lookup(t, k) == Some(t[0].1)
    decreases |t|
  {
    if |t| > 1 {
      LookupOnlyFirst(t[..|t| - 1], k);
    }
  }

  /** The English phrase of every command is its key. */
  lemma EnglishPhraseIsKey(i: nat)
    requires i < |VoiceCommands|
    ensures PhraseIn(VoiceCommands[i].1, "en") == VoiceCommands[i].0
  {
    var ph := VoiceCommands[i].1;
    VoicePhrases(i);
    forall j | 0 < j < |ph| ensures ph[j].0 != "en" {
      assert ph[j].0 == VoiceLanguages[j];
    }
    LookupOnlyFirst(ph, "en");
  }

  /** In English a recognised command comes back as its table key, whatever else was said. */
  lemma VoiceCommandInEnglish(command: string, i: nat)
    requires FirstIncluded(Trim(ToLower(command)), VoiceCommands) == Some(i)
    ensures VoiceCommand(command, "en") == VoiceCommands[i].0
  {
    EnglishPhraseIsKey(i);
  }

  /** A language without phrases of its own, such as Gujarati, gets the English phrase. */
  lemma VoiceCommandFallsBackToEnglish(command: string, lang: string)
    requires lang !in VoiceLanguages
    ensures VoiceCommand(command, lang) == VoiceCommand(command, "en")
  {
    var found := FirstIncluded(Trim(ToLower(command)), VoiceCommands);
    if found.Some? {
      VoicePhrases(found.value);
      assert Lookup(VoiceCommands[found.value].1, lang).None?;
    }
  }

  /** An utterance mentioning none of the commands is passed through untouched. */
  lemma VoiceCommandUnmatched(command: string, lang: string)
    requires forall i :: 0 <= i < |VoiceCommands| ==> !Includes(Trim(ToLower(command)), VoiceCommands[i].0)
    ensures VoiceCommand(command, lang) == command
  {
  }

  // ---------------------------------------------------------------------------
  // Languages
  // ---------------------------------------------------------------------------

  const DefaultLanguages: seq<string> := ["en", "hi", "ta", "te", "bn", "gu", "mr", "kn", "ml", "pa"]

  const RtlLanguages: seq<string> := ["ar", "he", "fa", "ur"]

  predicate NoDuplicates(s: seq<string>) {
    forall i, j :: 0 <= i < j < |s| ==> s[i] != s[j]
  }

  const LanguageNames: map<string, string> := map[
    "en" := "English", "hi" := "हिन्दी", "ta" := "தமிழ்", "te" := "తెలుగు", "bn" := "বাংলা",
    "gu" := "ગુજરાતી", "mr" := "मराठी", "kn" := "ಕನ್ನಡ", "ml" := "മലയാളം", "pa" := "ਪੰਜਾਬੀ"]

  /** `getLanguageName`: the native name of a built-in language, else the code itself. */
  function LanguageName(code: string): (name: string)
    ensures code in DefaultLanguages ==> name == LanguageNames[code] && name != code
    ensures code !in DefaultLanguages ==> name == code
  {
    if code in LanguageNames && LanguageNames[code] != "" then LanguageNames[code] else code
  }

  const SpeechCodes: map<string, string> := map[
    "en" := "en-IN", "hi" := "hi-IN", "ta" := "ta-IN", "te" := "te-IN", "bn" := "bn-IN",
    "gu" := "gu-IN", "mr" := "mr-IN", "kn" := "kn-IN", "ml" := "ml-IN", "pa" := "pa-IN"]

  /** `getSpeechLangCode`: the Indian regional tag of a built-in language, else "en-IN". */
  function SpeechLangCode(lang: string): (tag: string)
    ensures lang in DefaultLanguages ==> tag == lang + "-IN"
    ensures lang !in DefaultLanguages ==> tag == "en-IN"
  {
    if lang in SpeechCodes && SpeechCodes[lang] != "" then SpeechCodes[lang] else "en-IN"
  }

  /** No built-in language is written right to left. */
  lemma BuiltInLanguagesAreLeftToRight(t: Translator, language: string)
    requires (if language != "" then language else t.currentLanguage) in DefaultLanguages
    ensures !t.IsRtl(language)
  {
  }

  /** `translations[code] = value` for every entry of the parsed object, in order. */
  function AssignTables(tables: map<string, Table>, parsed: seq<(string, Table)>): (r: map<string, Table>)
    ensures r.Keys == tables.Keys + set i | 0 <= i < |parsed| :: parsed[i].0
  {
    if parsed == [] then tables
    else
      var init := parsed[..|parsed| - 1];
      assert (set i | 0 <= i < |parsed| :: parsed[i].0) ==
        (set i | 0 <= i < |init| :: init[i].0) + {parsed[|parsed| - 1].0};
      AssignTables(tables, init)[parsed[|parsed| - 1].0 := parsed[|parsed| - 1].1]
  }

  /** The supported list after pushing every parsed code not yet present, in order. */
  function AddLanguages(langs: seq<string>, parsed: seq<(string, Table)>): seq<string> {
    if parsed == [] then langs
    else
      var before := AddLanguages(langs, parsed[..|parsed| - 1]);
      if parsed[|parsed| - 1].0 in before then before else before + [parsed[|parsed| - 1].0]
  }

  /** The old list is kept as a prefix, every parsed code ends up listed, nothing else is added,
      and a list without duplicates stays without duplicates. */
  lemma {:induction false} AddLanguagesFacts(langs: seq<string>, parsed: seq<(string, Table)>)
    ensures var r := AddLanguages(langs, parsed);
      |r| >= |langs| && r[..|langs|] == langs &&
      (forall i :: 0 <= i < |parsed| ==> parsed[i].0 in r) &&
      (forall c :: c in r ==> c in langs || exists i :: 0 <= i < |parsed| && parsed[i].0 == c) &&
      (NoDuplicates(langs) ==> NoDuplicates(r))
    decreases |parsed|
  {
    if parsed != [] {
      var init := parsed[..|parsed| - 1];
      AddLanguagesFacts(langs, init);
      var before := AddLanguages(langs, init);
      var r := AddLanguages(langs, parsed);
      assert r[..|before|] == before;
      forall i | 0 <= i < |parsed| ensures parsed[i].0 in r {
        if i < |init| {
          assert init[i] == parsed[i];
        }
      }
      forall c | c in r ensures c in langs || exists i :: 0 <= i < |parsed| && parsed[i].0 == c {
        if c in before {
          if c !in langs {
            var i :| 0 <= i < |init| && init[i].0 == c;
            assert parsed[i].0 == c;
          }
        } else {
          assert parsed[|parsed| - 1].0 == c;
        }
      }
    }
  }

  // ---------------------------------------------------------------------------
  // The translator object
  // ---------------------------------------------------------------------------

  class Translator {
    var currentLanguage: string
    var supportedLanguages: seq<string>
    var translations: map<string, Table>

    /** English is always loaded, the current language is a supported one, and the supported
        list never repeats a code. */
    ghost predicate Valid()
      reads this
    {
      "en" in translations && currentLanguage in supportedLanguages && NoDuplicates(supportedLanguages)
    }

    /** The built-in tables are a parameter; `saved` is the stored preference ("" when none). */
    constructor (tables: map<string, Table>, saved: string)
      requires "en" in tables
      ensures Valid()
      ensures translations == tables && supportedLanguages == DefaultLanguages
      ensures currentLanguage == if saved in DefaultLanguages then saved else "en"
    {
      currentLanguage := "en";
      supportedLanguages := DefaultLanguages;
      translations := tables;
      new;
      var ok := SetLanguage(if saved != "" then saved else "en");
    }

    method SetLanguage(language: string) returns (ok: bool)
      modifies this
      ensures ok <==> language in old(supportedLanguages)
      ensures currentLanguage == if ok then language else old(currentLanguage)
      ensures supportedLanguages == old(supportedLanguages) && translations == old(translations)
      ensures old(Valid()) ==> Valid()
    {
      if language in supportedLanguages {
        currentLanguage := language;
        ok := true;
      } else {
        ok := false;
      }
    }

    /** `translate`: the current-language entry, else the English entry, else the key itself;
        placeholders are filled in either of the first two cases. */
    method Translate(key: string, params: seq<(string, string)>) returns (r: string)
      ensures Entry(translations, currentLanguage, key).Some? ==>
        r == Substitute(Entry(translations, currentLanguage, key).value, params)
      ensures Entry(translations, currentLanguage, key).None? && Entry(translations, "en", key).Some? ==>
        r == Substitute(Entry(translations, "en", key).value, params)
      ensures Entry(translations, currentLanguage, key).None? && Entry(translations, "en", key).None? ==>
        r == key
    {
      var current := Entry(translations, currentLanguage, key);
      if current.Some? {
        r := ApplyParams(current.value, params);
        return;
      }
      var english := Entry(translations, "en", key);
      if english.Some? {
        r := ApplyParams(english.value, params);
        return;
      }
      r := key;
    }

    /** `isKnownPhrase`: some English entry has exactly this value. */
    function IsKnownPhrase(text: string): (known: bool)
      reads this
      requires "en" in translations
      ensures known <==> exists i :: 0 <= i < |translations["en"]| && translations["en"][i].1 == text
    {
      FirstWithValue(translations["en"], text).Some?
    }

    method TranslateKnownPhrase(text: string, targetLang: string) returns (r: string)
      requires "en" in translations
      ensures r == KnownPhrase(translations, text, targetLang)
    {
      var english := translations["en"];
      var key: Option<string> := None;
      var i := 0;
      while i < |english|
        invariant 0 <= i <= |english|
        invariant key.None? && forall j :: 0 <= j < i ==> english[j].1 != text
      {
        if english[i].1 == text {
          key := Some(english[i].0);
          break;
        }
        i := i + 1;
      }
      if key.Some? && key.value != "" && targetLang in translations {
        var found := Lookup(translations[targetLang], key.value);
        if found.Some? && found.value != "" {
          r := found.value;
          return;
        }
      }
      r := text;
    }

    method TranslateVoiceCommand(command: string) returns (r: string)
      ensures r == VoiceCommand(command, currentLanguage)
    {
      var lowered := Trim(ToLower(command));
      var found := FindCommand(lowered, VoiceCommands);
      if found.Some? {
        r := PhraseIn(VoiceCommands[found.value].1, currentLanguage);
      } else {
        r := command;
      }
    }

    /** `translateNumberToWords`: `language` is "" when not given. */
    method TranslateNumberToWords(number: int, language: string) returns (words: string)
      ensures var lang := if language != "" then language else currentLanguage;
        (lang == "hi" ==> words == NumberWords.Words(NumberWords.Hindi, number)) &&
        (lang == "ta" ==> words == NumberWords.Words(NumberWords.Tamil, number)) &&
        (lang == "te" ==> words == NumberWords.Words(NumberWords.Telugu, number)) &&
        (lang == "bn" ==> words == NumberWords.Words(NumberWords.Bengali, number)) &&
        (lang !in ["hi", "ta", "te", "bn"] ==> words == NumberWords.Words(NumberWords.English, number))
    {
      var lang := if language != "" then language else currentLanguage;
      if lang == "hi" {
        words := NumberToHindiWords(number);
      } else if lang == "ta" {
        words := NumberToTamilWords(number);
      } else if lang == "te" {
        words := NumberToTeluguWords(number);
      } else if lang == "bn" {
        words := NumberToBengaliWords(number);
      } else {
        words := NumberToEnglishWords(number);
      }
    }

    method NumberToEnglishWords(num: int) returns (words: string)
      ensures words == NumberWords.Words(NumberWords.English, num)
    {
      NumberWords.EnglishWellFormed();
      words := NumberWords.SpellOut(NumberWords.English, num);
    }

    method NumberToHindiWords(num: int) returns (words: string)
      ensures words == NumberWords.Words(NumberWords.Hindi, num)
    {
      NumberWords.HindiWellFormed();
      words := NumberWords.SpellOut(NumberWords.Hindi, num);
    }

    method NumberToTamilWords(num: int) returns (words: string)
      ensures words == NumberWords.Words(NumberWords.Tamil, num)
    {
      NumberWords.TamilWellFormed();
      words := NumberWords.SpellOut(NumberWords.Tamil, num);
    }

    method NumberToTeluguWords(num: int) returns (words: string)
      ensures words == NumberWords.Words(NumberWords.Telugu, num)
    {
      NumberWords.TeluguWellFormed();
      words := NumberWords.SpellOut(NumberWords.Telugu, num);
    }

    method NumberToBengaliWords(num: int) returns (words: string)
      ensures words == NumberWords.Words(NumberWords.Bengali, num)
    {
      NumberWords.BengaliWellFormed();
      words := NumberWords.SpellOut(NumberWords.Bengali, num);
    }

    /** `importTranslations`: the code is listed once, and its table is English overridden by
        the given entries. */
    method ImportTranslations(code: string, given: Table)
      modifies this
      ensures supportedLanguages ==
        if code in old(supportedLanguages) then old(supportedLanguages) else old(supportedLanguages) + [code]
      ensures var base := if "en" in old(translations) then old(translations)["en"] else [];
        translations == old(translations)[code := Override(base, given)]
      ensures currentLanguage == old(currentLanguage)
      ensures old(Valid()) ==> Valid()
    {
      if code !in supportedLanguages {
        supportedLanguages := supportedLanguages + [code];
      }
      var base := if "en" in translations then translations["en"] else [];
      translations := translations[code := Override(base, given)];
    }

    /** `loadCustomTranslations` once the stored object has been parsed into `parsed`. */
    method LoadCustomTranslations(parsed: seq<(string, Table)>)
      modifies this
      ensures translations == AssignTables(old(translations), parsed)
      ensures supportedLanguages == AddLanguages(old(supportedLanguages), parsed)
      ensures currentLanguage == old(currentLanguage)
      ensures old(Valid()) ==> Valid()
    {
      translations := AssignTables(translations, parsed);
      var i := 0;
      while i < |parsed|
        invariant 0 <= i <= |parsed|
        invariant supportedLanguages == AddLanguages(old(supportedLanguages), parsed[..i])
        invariant currentLanguage == old(currentLanguage)
        invariant translations == AssignTables(old(translations), parsed)
      {
        assert parsed[..i + 1][..i] == parsed[..i];
        if parsed[i].0 !in supportedLanguages {
          supportedLanguages := supportedLanguages + [parsed[i].0];
        }
        i := i + 1;
      }
      assert parsed[..|parsed|] == parsed;
      AddLanguagesFacts(old(supportedLanguages), parsed);
    }

    /** `isRTL`: `language` is "" when not given. */
    function IsRtl(language: string): (rtl: bool)
      reads this
      ensures language != "" ==> (rtl <==> language in RtlLanguages)
      ensures language == "" ==> (rtl <==> currentLanguage in RtlLanguages)
    {
      var lang := if language != "" then language else currentLanguage;
      lang in RtlLanguages
    }
  }
}
