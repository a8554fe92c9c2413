/** The front-end application object (`app.js`, class `VoiceAccountingApp`): its
    configuration, merged over the defaults from the saved copy, the keyboard's language
    cycle, the theme toggle and the quick-action dispatch. */
module AccountingApp {
  import opened Maybe
  import opened JsString

  /** The JSON values a configuration entry can hold (arrays and nested objects are not
      modelled). */
  datatype Json = JBool(b: bool) | JNum(n: real) | JStr(s: string) | JNull

  /** A configuration object: its own keys and their values. `config.key` of a key it does
      not have is `undefined`, written `None` by `Get`. */
  type Config = map<string, Json>

  function Get(config: Config, key: string): Option<Json> {
    if key in config then Some(config[key]) else None
  }

  /** JavaScript truthiness of an entry (`NaN` is not modelled). */
  predicate Truthy(v: Option<Json>) {
    match v
    case None => false
    case Some(JBool(b)) => b
    case Some(JNum(n)) => n != 0.0
    case Some(JStr(s)) => s != ""
    case Some(JNull) => false
  }

  /** The constructor's `this.config`. */
  const DefaultConfig: Config := map[
    "voiceEnabled" := JBool(true),
    "currentLanguage" := JStr("hi"),
    "businessType" := JStr("retail"),
    "gstRegistered" := JBool(true),
    "theme" := JStr("light"),
    "currency" := JStr("\U{20B9}"),
    "decimalPlaces" := JNum(2.0),
    "dateFormat" := JStr("DD/MM/YYYY"),
    "timeFormat" := JStr("HH:mm"),
    "autoSave" := JBool(true),
    "notifications" := JBool(true),
    "soundEffects" := JBool(true),
    "voiceFeedback" := JBool(true)
  ]

  /** `{ ...config, ...saved }`: every saved key takes its saved value, every other key keeps
      its value, and no key is lost or invented. */
  function MergeConfig(config: Config, saved: Config): (r: Config)
    ensures r.Keys == config.Keys + saved.Keys
    ensures forall k :: k in saved ==> r[k] == saved[k]
    ensures forall k :: k in config && k !in saved ==> r[k] == config[k]
  {
    config + saved
  }

  // ---------------------------------------------------------------------------
  // the language cycle
  // ---------------------------------------------------------------------------

  const Languages: seq<string> := ["hi", "en", "ta", "te", "bn", "gu", "mr", "kn", "ml", "pa"]

  /** `Array.prototype.indexOf` with `===`: the first position of `x`, or -1. */
  function IndexIn(xs: seq<string>, x: string): (i: int)
    ensures -1 <= i < |xs|
    ensures i == -1 <==> x !in xs
    ensures 0 <= i ==> xs[i] == x && forall j :: 0 <= j < i ==> xs[j] != x
  {
    if xs == [] then -1
    else if xs[0] == x then 0
    else
      var i := IndexIn(xs[1..], x);
      if i == -1 then -1 else i + 1
  }

  /** `languages.indexOf(this.config.currentLanguage)`: only a string can be found. */
  function LanguageIndex(current: Option<Json>): (i: int)
    ensures -1 <= i < |Languages|
  {
    match current
    case Some(JStr(s)) => IndexIn(Languages, s)
    case _ => -1
  }

  /** The language `cycleLanguage` changes to. */
  /** Whatever the current value, the cycle lands on a listed language. */
  function NextLanguage(current: Option<Json>): (next: string)
    ensures next in Languages
  {
    Languages[(LanguageIndex(current) + 1) % |Languages|]
  }

  /** No language is listed twice. */
  lemma LanguagesDistinct()
    ensures forall i, j :: 0 <= i < |Languages| && 0 <= j < |Languages| && Languages[i] == Languages[j] ==> i == j
  {
    forall i, j | 0 <= i < j < |Languages| ensures Languages[i] != Languages[j] {
      assert Languages[i][0] != Languages[j][0] || Languages[i][1] != Languages[j][1];
    }
  }

  /** The listed language at `i` is found at `i`. */
  lemma IndexOfListed(i: nat)
    requires i < |Languages|
    ensures IndexIn(Languages, Languages[i]) == i
  {
    LanguagesDistinct();
    assert Languages[i] in Languages;
  }

  /** From the language at `i` the cycle moves to the one at `(i + 1) mod 10`, so `pa`
      wraps round to `hi`. */
  lemma NextLanguageOfListed(i: nat)
    requires i < |Languages|
    ensures NextLanguage(Some(JStr(Languages[i]))) == Languages[(i + 1) % 10]
  {
    IndexOfListed(i);
    assert LanguageIndex(Some(JStr(Languages[i]))) == i;
  }

  /** A language that is not listed, or a value that is not a string, cycles to `hi`. */
  lemma NextLanguageOfUnlisted(current: Option<Json>)
    requires !(current.Some? && current.value.JStr? && current.value.s in Languages)
    ensures NextLanguage(current) == "hi"
  {
  }

  /** `n` applications of `f`. */
  function Iterate(f: string -> string, x: string, n: nat): string {
    if n == 0 then x else f(Iterate(f, x, n - 1))
  }

  /** A step that moves every element of `xs` to the next one, round the end, moves the
      element at `i` by `n` places in `n` steps. */
  lemma {:induction false} IterateAround(f: string -> string, xs: seq<string>, i: nat, n: nat)
    requires |xs| == 10 && i < 10
    requires forall k :: 0 <= k < 10 ==> f(xs[k]) == xs[(k + 1) % 10]
    ensures Iterate(f, xs[i], n) == xs[(i + n) % 10]
  {
    if n == 0 {
      assert (i + n) % 10 == i;
    } else {
      IterateAround(f, xs, i, n - 1);
      ModSucc(i + n - 1);
    }
  }

  /** When the elements are distinct, the element at `i` comes back after ten steps and no
      fewer. */
  lemma IterateReturns(f: string -> string, xs: seq<string>, i: nat)
    requires |xs| == 10 && i < 10
    requires forall k :: 0 <= k < 10 ==> f(xs[k]) == xs[(k + 1) % 10]
    requires forall j, k :: 0 <= j < 10 && 0 <= k < 10 && xs[j] == xs[k] ==> j == k
    ensures Iterate(f, xs[i], 10) == xs[i]
    ensures forall n :: 0 < n < 10 ==> Iterate(f, xs[i], n) != xs[i]
  {
    IterateAround(f, xs, i, 10);
    forall n | 0 < n < 10 ensures Iterate(f, xs[i], n) != xs[i] {
      IterateAround(f, xs, i, n);
      assert (i + n) % 10 != i;
    }
  }

  lemma ModSucc(a: nat)
    ensures (a % 10 + 1) % 10 == (a + 1) % 10
  {
    var q, r := a / 10, a % 10;
    if r == 9 {
      assert a + 1 == 10 * (q + 1);
    } else {
      assert a + 1 == 10 * q + (r + 1);
    }
  }

  /** One press of the language key, from the language `s`. */
  function Press(s: string): string {
    NextLanguage(Some(JStr(s)))
  }

  /** `n` presses of the language key. */
  function Cycled(language: string, n: nat): string {
    Iterate(Press, language, n)
  }

  /** Each press moves a listed language to the next one in the list. */
  lemma PressMovesOn()
    ensures forall k :: 0 <= k < 10 ==> Press(Languages[k]) == Languages[(k + 1) % 10]
  {
    forall k | 0 <= k < 10 ensures Press(Languages[k]) == Languages[(k + 1) % 10] {
      NextLanguageOfListed(k);
    }
  }

  /** `n` presses from the language at `i` land `n` places further round the list. */
  lemma CycledIndex(i: nat, n: nat)
    requires i < |Languages|
    ensures Cycled(Languages[i], n) == Languages[(i + n) % 10]
  {
    PressMovesOn();
    IterateAround(Press, Languages, i, n);
  }

  /** Ten presses from a listed language come back to it, and no fewer do. */
  lemma CycleOfTen(language: string)
    requires language in Languages
    ensures Cycled(language, 10) == language
    ensures forall n :: 0 < n < 10 ==> Cycled(language, n) != language
  {
    var i := IndexIn(Languages, language);
    CycleOfTenAt(i);
  }

  /** The same, for the language at `i`. */
  lemma CycleOfTenAt(i: nat)
    requires i < 10
    ensures Cycled(Languages[i], 10) == Languages[i]
    ensures forall n :: 0 < n < 10 ==> Cycled(Languages[i], n) != Languages[i]
  {
    PressMovesOn();
    LanguagesDistinct();
    IterateReturns(Press, Languages, i);
  }

  /** `messages[language] || 'Language changed'`. */
  function LanguageMessage(language: string): (m: string)
    ensures language !in Languages ==> m == "Language changed"
  {
    match language
    case "hi" => "भाषा हिन्दी में बदल गई"
    case "en" => "Language changed to English"
    case "ta" => "மொழி தமிழாக மாற்றப்பட்டது"
    case "te" => "భాష తెలుగుగా మార్చబడింది"
    case "bn" => "ভাষা বাংলায় পরিবর্তন করা হয়েছে"
    case "gu" => "ભાષા ગુજરાતીમાં બદલાઈ ગઈ"
    case "mr" => "भाषा मराठीमध्ये बदलली"
    case "kn" => "ಭಾಷೆ ಕನ್ನಡಕ್ಕೆ ಬದಲಾಯಿತು"
    case "ml" => "ഭാഷ മലയാളമായി മാറ്റി"
    case "pa" => "ਭਾਸ਼ਾ ਪੰਜਾਬੀ ਵਿੱਚ ਬਦਲ ਗਈ"
    case _ => "Language changed"
  }

  // ---------------------------------------------------------------------------
  // the theme
  // ---------------------------------------------------------------------------

  /** `theme || (this.config.theme === 'light' ? 'dark' : 'light')`. */
  function ThemeAfterToggle(theme: Option<string>, current: Option<Json>): (r: string)
    ensures theme.Some? && theme.value != "" ==> r == theme.value
    ensures !(theme.Some? && theme.value != "") ==>
      (r == "light" || r == "dark") && (r == "dark" <==> current == Some(JStr("light")))
  {
    if theme.Some? && theme.value != "" then theme.value
    else if current == Some(JStr("light")) then "dark" else "light"
  }

  /** Toggling twice without an argument restores a `light` or `dark` theme; any other value
      ends up `dark`. */
  lemma ToggleTwice(current: Option<Json>)
    ensures var once := ThemeAfterToggle(None, current);
      var twice := ThemeAfterToggle(None, Some(JStr(once)));
      (current == Some(JStr("light")) || current == Some(JStr("dark"))) ==> Some(JStr(twice)) == current
    ensures var once := ThemeAfterToggle(None, current);
      var twice := ThemeAfterToggle(None, Some(JStr(once)));
      !(current == Some(JStr("light")) || current == Some(JStr("dark"))) ==> twice == "dark"
  {
    assert "light" != "dark" by { assert "light"[0] != "dark"[0]; }
  }

  // ---------------------------------------------------------------------------
  // quick actions
  // ---------------------------------------------------------------------------

  datatype QuickAction = QuickSale | QuickExpense | CheckBalance | CreateInvoice | CalculateGst | ViewReports

  const QuickActionNames: seq<string> :=
    ["quick_sale", "quick_expense", "check_balance", "create_invoice", "calculate_gst", "view_reports"]

  /** The handler `actions[action]` names, or `None` when there is none. */
  function QuickActionOf(action: string): (r: Option<QuickAction>)
    ensures r.None? <==> action !in QuickActionNames
  {
    match action
    case "quick_sale" => Some(QuickSale)
    case "quick_expense" => Some(QuickExpense)
    case "check_balance" => Some(CheckBalance)
    case "create_invoice" => Some(CreateInvoice)
    case "calculate_gst" => Some(CalculateGst)
    case "view_reports" => Some(ViewReports)
    case _ => None
  }

  /** Each handler has exactly one name. */
  lemma QuickActionNamesDistinct(a: string, b: string)
    requires QuickActionOf(a).Some? && QuickActionOf(a) == QuickActionOf(b)
    ensures a == b
  {
  }

  /** What `localStorage` holds under `voiceAccountingConfig`: nothing, text `JSON.parse`
      rejects, or a saved object. */
  datatype Stored = NoConfig | Corrupt | Saved(config: Config)

  class VoiceAccountingApp {
    var config: Config
    var stored: Stored
    /** `document.documentElement.lang`, as last assigned. */
    var documentLang: Option<Json>
    /** Whether the body carries the `dark-theme` class. */
    var darkTheme: bool
    /** What `speak` was asked to say, in order. */
    var spoken: seq<string>
    /** The notifications shown, in order; none is shown while the configuration's
        `notifications` setting is falsy. */
    var notifications: seq<string>
    /** The quick-action handlers run, in order. */
    var handled: seq<QuickAction>

    /** `new VoiceAccountingApp()` up to its first pause: the defaults, then `loadConfig`. */
    constructor(saved: Stored)
      ensures stored == saved
      ensures saved.Saved? ==> config == MergeConfig(DefaultConfig, saved.config)
      ensures !saved.Saved? ==> config == DefaultConfig
      ensures saved.Saved? ==> documentLang == Get(config, "currentLanguage") && darkTheme == (Get(config, "theme") == Some(JStr("dark")))
      ensures saved.Corrupt? ==> documentLang.None? && !darkTheme
      ensures saved.NoConfig? ==> documentLang == Some(JStr("hi")) && !darkTheme
      ensures spoken == [] && notifications == [] && handled == []
    {
      config := DefaultConfig;
      stored := saved;
      documentLang := None;
      darkTheme := false;
      spoken := [];
      notifications := [];
      handled := [];
      new;
      LoadConfig();
    }

    /** `loadConfig()`: the saved object is spread over the configuration; unreadable text
        throws before the language and theme are applied. */
    method LoadConfig()
      modifies this
      ensures stored == old(stored) && spoken == old(spoken) && notifications == old(notifications) && handled == old(handled)
      ensures stored.Saved? ==> config == MergeConfig(old(config), stored.config)
      ensures !stored.Saved? ==> config == old(config)
      ensures !stored.Corrupt? ==> documentLang == Get(config, "currentLanguage") && darkTheme == (Get(config, "theme") == Some(JStr("dark")))
      ensures stored.Corrupt? ==> documentLang == old(documentLang) && darkTheme == old(darkTheme)
    {
      if stored.Corrupt? {
        return;
      }
      if stored.Saved? {
        config := MergeConfig(config, stored.config);
      }
      documentLang := Get(config, "currentLanguage");
      darkTheme := Get(config, "theme") == Some(JStr("dark"));
    }

    /** `saveConfig()`. */
    method SaveConfig()
      modifies this
      ensures stored == Saved(config)
      ensures config == old(config) && documentLang == old(documentLang) && darkTheme == old(darkTheme)
      ensures spoken == old(spoken) && notifications == old(notifications) && handled == old(handled)
    {
      stored := Saved(config);
    }

    /** `showNotification(message)`: shown only while notifications are switched on. */
    method ShowNotification(message: string)
      modifies this
      ensures notifications == old(notifications) + (if Truthy(Get(config, "notifications")) then [message] else [])
      ensures config == old(config) && stored == old(stored) && documentLang == old(documentLang)
      ensures darkTheme == old(darkTheme) && spoken == old(spoken) && handled == old(handled)
    {
      if !Truthy(Get(config, "notifications")) {
        return;
      }
      notifications := notifications + [message];
    }

    /** `changeLanguage(language)`: set, applied, saved, spoken when voice feedback is on,
        and announced when notifications are on. */
    method ChangeLanguage(language: string)
      modifies this
      ensures config == old(config)["currentLanguage" := JStr(language)]
      ensures documentLang == Some(JStr(language)) && stored == Saved(config) && darkTheme == old(darkTheme)
      ensures spoken == old(spoken) + (if Truthy(Get(config, "voiceFeedback")) then [LanguageMessage(language)] else [])
      ensures notifications == old(notifications) +
        (if Truthy(Get(old(config), "notifications")) then ["Language changed to " + language] else [])
      ensures handled == old(handled)
    {
      config := config["currentLanguage" := JStr(language)];
      documentLang := Some(JStr(language));
      SaveConfig();
      if Truthy(Get(config, "voiceFeedback")) {
        spoken := spoken + [LanguageMessage(language)];
      }
      ShowNotification("Language changed to " + language);
    }

    /** `cycleLanguage()` (Ctrl+L). */
    method CycleLanguage()
      modifies this
      ensures config == old(config)["currentLanguage" := JStr(NextLanguage(Get(old(config), "currentLanguage")))]
      ensures Get(config, "currentLanguage") == Some(JStr(NextLanguage(Get(old(config), "currentLanguage"))))
      ensures documentLang == Get(config, "currentLanguage") && stored == Saved(config) && darkTheme == old(darkTheme)
      ensures spoken == old(spoken) +
        (if Truthy(Get(old(config), "voiceFeedback")) then [LanguageMessage(NextLanguage(Get(old(config), "currentLanguage")))] else [])
      ensures notifications == old(notifications) +
        (if Truthy(Get(old(config), "notifications")) then ["Language changed to " + NextLanguage(Get(old(config), "currentLanguage"))] else [])
      ensures handled == old(handled)
    {
      var languages := Languages;
      var currentIndex := LanguageIndex(Get(config, "currentLanguage"));
      var nextIndex := (currentIndex + 1) % |languages|;
      ChangeLanguage(languages[nextIndex]);
    }

    /** `toggleTheme(theme = null)`. */
    method ToggleTheme(theme: Option<string>)
      modifies this
      ensures config == old(config)["theme" := JStr(ThemeAfterToggle(theme, Get(old(config), "theme")))]
      ensures darkTheme == (ThemeAfterToggle(theme, Get(old(config), "theme")) == "dark")
      ensures stored == Saved(config) && documentLang == old(documentLang)
      ensures notifications == old(notifications) +
        (if Truthy(Get(old(config), "notifications")) then ["Theme changed to " + ThemeAfterToggle(theme, Get(old(config), "theme"))] else [])
      ensures spoken == old(spoken) && handled == old(handled)
    {
      var newTheme := if theme.Some? && theme.value != "" then theme.value
        else if Get(config, "theme") == Some(JStr("light")) then "dark" else "light";
      config := config["theme" := JStr(newTheme)];
      darkTheme := newTheme == "dark";
      SaveConfig();
      ShowNotification("Theme changed to " + newTheme);
    }

    /** `handleQuickAction(action)`: the named handler runs; an unknown action does nothing. */
    method HandleQuickAction(action: string)
      modifies this
      ensures handled == old(handled) + (match QuickActionOf(action) case Some(a) => [a] case None => [])
      ensures config == old(config) && stored == old(stored) && documentLang == old(documentLang)
      ensures darkTheme == old(darkTheme) && spoken == old(spoken) && notifications == old(notifications)
    {
      match QuickActionOf(action)
      case Some(a) => handled := handled + [a];
      case None =>
    }
  }
}
