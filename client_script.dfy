/** The browser front end (`script.js`): the voice command table and its extractors, the
    activity-time buckets, the search filter, the GST calculator's arithmetic and the page
    state that the theme and voice buttons flip. */
module ClientScript {
  import opened Maybe
  import opened JsString
  import opened PhraseTable
  import opened TranscriptPatterns

  // ---------------------------------------------------------------------------
  // voice commands
  // ---------------------------------------------------------------------------

  /** The `commands` object of `identifyVoiceCommand`, in insertion order. */
  const ClientCommands: Table := [
    ("create_invoice", ["create invoice", "new invoice", "make invoice"]),
    ("view_invoices", ["show invoices", "view invoices", "list invoices"]),
    ("add_expense", ["add expense", "record expense", "log expense"]),
    ("view_reports", ["show reports", "view reports", "see reports"]),
    ("calculate_gst", ["calculate gst", "gst calculation", "compute gst"]),
    ("search_invoice", ["find invoice", "search invoice", "lookup invoice"]),
    ("go_to_dashboard", ["go to dashboard", "show dashboard", "dashboard"]),
    ("open_settings", ["open settings", "show settings", "settings"]),
    ("help", ["help", "what can i do", "commands"])
  ]

  /** `{ type: command, keyword: keyword }`. */
  datatype VoiceCommand = VoiceCommand(kind: string, keyword: string)

  /** The command a first hit names. */
  function CommandOfHit(hit: Option<(nat, nat)>): (r: Option<VoiceCommand>)
    requires hit.Some? ==> hit.value.0 < |ClientCommands| && hit.value.1 < |ClientCommands[hit.value.0].1|
    ensures r.None? <==> hit.None?
  {
    match hit
    case None => None
    case Some((c, p)) => Some(VoiceCommand(ClientCommands[c].0, ClientCommands[c].1[p]))
  }

  /** `identifyVoiceCommand(transcript)`: the first command, in table order, with a keyword,
      in list order, that the transcript contains; the transcript is searched as given. */
  method IdentifyVoiceCommand(transcript: string) returns (r: Option<VoiceCommand>)
    ensures exists hit :: IsFirstHit(ClientCommands, transcript, hit) && r == CommandOfHit(hit)
  {
    var hit := FirstHit(ClientCommands, transcript);
    r := CommandOfHit(hit);
  }

  /** A command found is one of the table's, and its keyword occurs in the transcript; no
      command is found exactly when no keyword of the table occurs in it. */
  lemma IdentifiedCommand(transcript: string, hit: Option<(nat, nat)>)
    requires IsFirstHit(ClientCommands, transcript, hit)
    ensures var r := CommandOfHit(hit);
      && (r.Some? ==> Includes(transcript, r.value.keyword)
                      && exists c :: 0 <= c < |ClientCommands| && ClientCommands[c].0 == r.value.kind
                            && r.value.keyword in ClientCommands[c].1)
      && (r.None? <==> forall c, p :: 0 <= c < |ClientCommands| && 0 <= p < |ClientCommands[c].1| ==>
                            !Includes(transcript, ClientCommands[c].1[p]))
  {
    FirstHitNone(ClientCommands, transcript, hit);
    if hit.Some? {
      var (c, p) := hit.value;
      assert ClientCommands[c].1[p] in ClientCommands[c].1;
    }
  }

  /** `processVoiceCommand` lower-cases the transcript before the search, so the command
      found does not depend on the case the transcript was spoken in. */
  lemma IdentifyIgnoresCase(transcript: string)
    ensures ToLower(ToUpper(transcript)) == ToLower(transcript)
  {
    var a, b := ToLower(ToUpper(transcript)), ToLower(transcript);
    assert forall i :: 0 <= i < |a| ==> a[i] == b[i];
  }

  /** `extractInvoiceNumber`: the `INV-` code, else the whole `invoice <word>` match with its
      keyword, else the first run of digits, else null. */
  function InvoiceNumberIn(transcript: string): (r: Option<string>)
    ensures r.Some? ==> r.value != ""
  {
    MatchNonEmpty(InvoiceCode, transcript);
    MatchNonEmpty(InvoiceWord, transcript);
    MatchNonEmpty(DigitRun, transcript);
    match Match(InvoiceCode, transcript)
    case Some(code) => Some(code)
    case None =>
      match Match(InvoiceWord, transcript)
      case Some(m) => Some(m)
      case None => Match(DigitRun, transcript)
  }

  /** There is no invoice number exactly when the transcript holds no digit and no
      `invoice` followed by a word. */
  lemma InvoiceNumberNone(transcript: string)
    ensures InvoiceNumberIn(transcript).None? <==>
      (forall q :: 0 <= q < |transcript| ==> !IsDigit(transcript[q])) && Match(InvoiceWord, transcript).None?
  {
    var s := transcript;
    if forall q :: 0 <= q < |s| ==> !IsDigit(s[q]) {
      forall q | 0 <= q < |s| ensures !InvoiceCodeAt(s, q) {
        if q + 5 <= |s| {
          assert !IsDigit(s[q + 4]);
        }
      }
      assert forall q :: !DigitAt(s, q);
    } else {
      var q :| 0 <= q < |s| && IsDigit(s[q]);
      assert StartsAt(DigitRun, s, q);
    }
  }

  /** Without an `INV-` code, an `invoice <word>` match is returned whole: the number found
      starts with the keyword, in whatever case it was spoken. */
  lemma InvoiceNumberKeepsKeyword(transcript: string)
    requires Match(InvoiceCode, transcript).None? && Match(InvoiceWord, transcript).Some?
    ensures var r := InvoiceNumberIn(transcript).value; |r| > 8 && ToLower(r[..7]) == "invoice"
  {
    var s := transcript;
    var q := FirstStart(InvoiceWord, s, 0).value;
    var r := Match(InvoiceWord, s).value;
    assert InvoiceWordAt(s, q);
    assert r[..7] == s[q..q + 7];
  }

  /** With neither a code nor an `invoice` word, the number is the first run of digits. */
  lemma InvoiceNumberDigits(transcript: string)
    requires Match(InvoiceCode, transcript).None? && Match(InvoiceWord, transcript).None?
    requires InvoiceNumberIn(transcript).Some?
    ensures AllDigits(InvoiceNumberIn(transcript).value)
  {
    var q := FirstStart(DigitRun, transcript, 0).value;
    DigitRunDigits(transcript, q);
  }

  /** What `executeVoiceCommand` does; page loads, the notification and the invoice search
      itself are their effects outside the model. */
  datatype ClientAction =
    | Navigate(page: string)
    | CalculateGst(amount: real)
    | Warn(message: string)
    | SearchInvoice(number: string)
    | ShowHelp
    | NoAction

  const GstAmountWarning := "Please specify an amount for GST calculation"

  /** `executeVoiceCommand(command, originalTranscript)`. The amount is used only when it
      is truthy, so a spoken `0` asks for an amount. */
  function ExecuteVoiceCommand(command: VoiceCommand, originalTranscript: string): (a: ClientAction)
    ensures a.CalculateGst? ==> a.amount > 0.0 && AmountIn(originalTranscript) == Some(a.amount)
    ensures command.kind == "calculate_gst" ==>
      (a.Warn? <==> AmountIn(originalTranscript).None? || AmountIn(originalTranscript) == Some(0.0))
    ensures a.SearchInvoice? ==> InvoiceNumberIn(originalTranscript) == Some(a.number)
    ensures command.kind == "calculate_gst" && AmountIn(originalTranscript).Some? && AmountIn(originalTranscript).value != 0.0 ==>
      a == CalculateGst(AmountIn(originalTranscript).value)
    ensures command.kind == "search_invoice" ==>
      (a.SearchInvoice? <==> InvoiceNumberIn(originalTranscript).Some?) && (a.SearchInvoice? || a == NoAction)
    ensures a.CalculateGst? || a.Warn? ==> command.kind == "calculate_gst"
    ensures a.SearchInvoice? ==> command.kind == "search_invoice"
    ensures command.kind == "create_invoice" ==> a == Navigate("invoice.html")
    ensures command.kind == "view_invoices" ==> a == Navigate("invoices.html")
    ensures command.kind == "add_expense" ==> a == Navigate("expense.html")
    ensures command.kind == "view_reports" ==> a == Navigate("reports.html")
    ensures command.kind == "go_to_dashboard" ==> a == Navigate("dashboard.html")
    ensures command.kind == "open_settings" ==> a == Navigate("settings.html")
    ensures command.kind == "help" ==> a == ShowHelp
  {
    match command.kind
    case "create_invoice" => Navigate("invoice.html")
    case "view_invoices" => Navigate("invoices.html")
    case "add_expense" => Navigate("expense.html")
    case "view_reports" => Navigate("reports.html")
    case "calculate_gst" =>
      AmountInNonNegative(originalTranscript);
      (match AmountIn(originalTranscript)
       case Some(amount) => if amount != 0.0 then CalculateGst(amount) else Warn(GstAmountWarning)
       case None => Warn(GstAmountWarning))
    case "search_invoice" =>
      (match InvoiceNumberIn(originalTranscript)
       case Some(number) => if number != "" then SearchInvoice(number) else NoAction
       case None => NoAction)
    case "go_to_dashboard" => Navigate("dashboard.html")
    case "open_settings" => Navigate("settings.html")
    case "help" => ShowHelp
    case _ => NoAction
  }

  /** A kind the table does not name does nothing. */
  lemma ExecuteVoiceCommandUnlisted(command: VoiceCommand, originalTranscript: string)
    requires forall i :: 0 <= i < |ClientCommands| ==> ClientCommands[i].0 != command.kind
    ensures ExecuteVoiceCommand(command, originalTranscript) == NoAction
  {
    assert ClientCommands[0].0 != command.kind && ClientCommands[1].0 != command.kind && ClientCommands[2].0 != command.kind;
    assert ClientCommands[3].0 != command.kind && ClientCommands[4].0 != command.kind && ClientCommands[5].0 != command.kind;
    assert ClientCommands[6].0 != command.kind && ClientCommands[7].0 != command.kind && ClientCommands[8].0 != command.kind;
  }

  // ---------------------------------------------------------------------------
  // activity times
  // ---------------------------------------------------------------------------

  const MinuteMs := 60000
  const HourMs := 3600000
  const DayMs := 86400000

  /** `formatTime(timeString)`, given the milliseconds elapsed since the activity and the
      text `toLocaleDateString` gives for its date. `Math.floor` of a quotient by a positive
      constant is Dafny's integer division. */
  function FormatTime(elapsedMs: int, dateText: string): (r: string)
    ensures elapsedMs < MinuteMs ==> r == "Just now"
    ensures MinuteMs <= elapsedMs < HourMs ==>
      1 <= elapsedMs / MinuteMs < 60 && r == NatToString(elapsedMs / MinuteMs) + " minutes ago"
    ensures HourMs <= elapsedMs < DayMs ==>
      1 <= elapsedMs / HourMs < 24 && r == NatToString(elapsedMs / HourMs) + " hours ago"
    ensures DayMs <= elapsedMs < 7 * DayMs ==>
      1 <= elapsedMs / DayMs < 7 && r == NatToString(elapsedMs / DayMs) + " days ago"
    ensures 7 * DayMs <= elapsedMs ==> r == dateText
  {
    var diffMins := elapsedMs / MinuteMs;
    var diffHours := elapsedMs / HourMs;
    var diffDays := elapsedMs / DayMs;
    if diffMins < 1 then "Just now"
    else if diffMins < 60 then NatToString(diffMins) + " minutes ago"
    else if diffHours < 24 then NatToString(diffHours) + " hours ago"
    else if diffDays < 7 then NatToString(diffDays) + " days ago"
    else dateText
  }

  // ---------------------------------------------------------------------------
  // search
  // ---------------------------------------------------------------------------

  datatype SearchRecord = SearchRecord(id: string, kind: string, icon: string, title: string, description: string)

  /** The fixed results `performSearch` filters. */
  const SearchRecords: seq<SearchRecord> := [
    SearchRecord("INV-2023-001", "invoice", "fa-file-invoice-dollar", "Invoice INV-2023-001",
      "Tech Solutions Pvt Ltd - \U{20B9}442,500"),
    SearchRecord("EXP-2023-001", "expense", "fa-money-bill-wave", "Office Rent",
      "Property Management Ltd - \U{20B9}59,000")
  ]

  /** The filter's test: the lower-cased title or description contains the query. */
  predicate RecordMatches(r: SearchRecord, query: string) {
    Includes(ToLower(r.title), query) || Includes(ToLower(r.description), query)
  }

  /** `xs` is `ys` with some elements left out, the rest in their order. */
  predicate Subsequence<T(==)>(xs: seq<T>, ys: seq<T>)
    decreases |ys|
  {
    if xs == [] then true
    else if ys == [] then false
    else if xs[0] == ys[0] then Subsequence(xs[1..], ys[1..])
    else Subsequence(xs, ys[1..])
  }

  /** `records.filter(result => RecordMatches(result, query))`. */
  function FilterRecords(records: seq<SearchRecord>, query: string): (r: seq<SearchRecord>)
    ensures Subsequence(r, records)
    ensures forall x :: x in r <==> x in records && RecordMatches(x, query)
    ensures forall x :: multiset(r)[x] == if RecordMatches(x, query) then multiset(records)[x] else 0
  {
    if records == [] then []
    else
      var rest := FilterRecords(records[1..], query);
      assert forall x :: x in records <==> x == records[0] || x in records[1..];
      assert records == [records[0]] + records[1..];
      assert multiset(records) == multiset([records[0]]) + multiset(records[1..]);
      if RecordMatches(records[0], query) then [records[0]] + rest else rest
  }

  /** `performSearch(query)`. */
  function PerformSearch(query: string): (r: seq<SearchRecord>)
    ensures Subsequence(r, SearchRecords)
    ensures forall x :: x in r <==> x in SearchRecords && RecordMatches(x, query)
  {
    FilterRecords(SearchRecords, query)
  }

  /** `handleSearch`: the input is lower-cased and trimmed, and a query shorter than two
      characters clears the results instead of searching. */
  function HandleSearch(input: string): (r: Option<seq<SearchRecord>>)
    ensures r.None? <==> |Key(input)| < 2
    ensures r.Some? ==> forall x :: x in r.value <==> x in SearchRecords && RecordMatches(x, Key(input))
  {
    var query := Key(input);
    if |query| < 2 then None else Some(PerformSearch(query))
  }

  // ---------------------------------------------------------------------------
  // GST calculator
  // ---------------------------------------------------------------------------

  /** One line of the breakdown: the tax, its rate and its amount. */
  datatype GstLine = GstLine(tax: string, rate: real, amount: real)

  datatype GstCalculation =
    | InvalidAmount                 // the warning, nothing computed
    | NotANumber                    // an amount `parseFloat` cannot read passes the check
    | Calculated(amount: real, gst: real, total: real, breakdown: seq<GstLine>)

  function LinesTotal(lines: seq<GstLine>): real {
    if lines == [] then 0.0 else lines[0].amount + LinesTotal(lines[1..])
  }

  function RatesTotal(lines: seq<GstLine>): real {
    if lines == [] then 0.0 else lines[0].rate + RatesTotal(lines[1..])
  }

  /** `performGSTCalculation` on the amount field's text (`empty` when it is blank) as
      `parseFloat` reads it, the selected rate and the chosen method. */
  function GstOfInput(empty: bool, amount: Option<real>, rate: real, gstMethod: string): (c: GstCalculation)
    ensures c.InvalidAmount? <==> empty || (amount.Some? && amount.value <= 0.0)
    ensures c.NotANumber? <==> !empty && amount.None?
  {
    if empty || (amount.Some? && amount.value <= 0.0) then InvalidAmount
    else if amount.None? then NotANumber
    else
      var a := amount.value;
      var gst := (a * rate) / 100.0;
      Calculated(a, gst, a + gst,
        if gstMethod == "cgst_sgst" then [GstLine("CGST", rate / 2.0, gst / 2.0), GstLine("SGST", rate / 2.0, gst / 2.0)]
        else [GstLine("IGST", rate, gst)])
  }

  /** `performGSTCalculation()` reading the form's fields. */
  function PerformGstCalculation(amountText: string, rate: real, gstMethod: string): (c: GstCalculation)
    ensures amountText == "" ==> c.InvalidAmount?
    ensures amountText != "" && ParseFloat(amountText).None? ==> c.NotANumber?
  {
    GstOfInput(amountText == "", ParseFloat(amountText), rate, gstMethod)
  }

  /** A calculation is for a positive amount; its lines add up to the GST, their rates to
      the selected rate, and the total is the amount grown by the rate. */
  lemma GstBreakdownSums(empty: bool, amount: Option<real>, rate: real, gstMethod: string)
    requires GstOfInput(empty, amount, rate, gstMethod).Calculated?
    ensures var c := GstOfInput(empty, amount, rate, gstMethod);
      && c.amount > 0.0 && Some(c.amount) == amount
      && LinesTotal(c.breakdown) == c.gst && RatesTotal(c.breakdown) == rate
      && c.gst == c.amount * rate / 100.0 && c.total == c.amount * (1.0 + rate / 100.0)
  {
    var c := GstOfInput(empty, amount, rate, gstMethod);
    var b := c.breakdown;
    if gstMethod == "cgst_sgst" {
      assert b[1..] == [b[1]] && b[1..][1..] == [];
      assert LinesTotal(b[1..]) == b[1].amount && RatesTotal(b[1..]) == b[1].rate;
    } else {
      assert b[1..] == [];
    }
  }

  /** `cgst_sgst` gives two equal halves at half the rate, any other method one IGST line at
      the full rate. */
  lemma GstBreakdownShape(empty: bool, amount: Option<real>, rate: real, gstMethod: string)
    requires GstOfInput(empty, amount, rate, gstMethod).Calculated?
    ensures var c := GstOfInput(empty, amount, rate, gstMethod);
      if gstMethod == "cgst_sgst" then
        |c.breakdown| == 2 && c.breakdown[0].tax == "CGST" && c.breakdown[1].tax == "SGST"
        && c.breakdown[0].rate == c.breakdown[1].rate == rate / 2.0
        && c.breakdown[0].amount == c.breakdown[1].amount == c.gst / 2.0
      else
        c.breakdown == [GstLine("IGST", rate, c.gst)]
  {
  }

  /** `calculateGST(amount)`, the voice shortcut: always 18%. */
  function QuickGst(amount: real): (r: (real, real))
    ensures r.0 == 0.18 * amount && r.1 == 1.18 * amount
  {
    var gstAmount := (amount * 18.0) / 100.0;
    (gstAmount, amount + gstAmount)
  }

  /** The shortcut agrees with the calculator at its default 18% rate. */
  lemma QuickGstAgrees(amount: real, gstMethod: string)
    requires amount > 0.0
    ensures var c := GstOfInput(false, Some(amount), 18.0, gstMethod);
      c.Calculated? && (c.gst, c.total) == QuickGst(amount)
  {
  }

  // ---------------------------------------------------------------------------
  // page state
  // ---------------------------------------------------------------------------

  /** The theme `toggleTheme` moves to. */
  function ToggledTheme(theme: string): (r: string)
    ensures r == "light" || r == "dark"
    ensures r == "dark" <==> theme == "light"
  {
    if theme == "light" then "dark" else "light"
  }

  /** Toggling twice restores the theme exactly when it is `light` or `dark`; any other
      saved theme becomes `light`, then `dark`. */
  lemma ToggleThemeTwice(theme: string)
    ensures ToggledTheme(ToggledTheme(theme)) == theme <==> theme == "light" || theme == "dark"
    ensures ToggledTheme(ToggledTheme(theme)) == "dark" || ToggledTheme(ToggledTheme(theme)) == theme
  {
    assert "light" != "dark" by { assert "light"[0] != "dark"[0]; }
  }

  /** The fields of the global `state` the theme, language and voice controls update, and
      the `localStorage` entries `saveUserState` writes (`None` while unwritten). Whether
      `window.voiceRecognition` holds a recogniser is a flag, and the start and stop calls
      made on recognisers are counted. */
  class ClientState {
    var isVoiceActive: bool
    var currentTheme: string
    var currentLanguage: string
    var storedTheme: Option<string>
    var storedLanguage: Option<string>
    var recognitionStarts: nat
    var recognitionStops: nat
    var hasRecognizer: bool

    /** The initial `state`. */
    constructor()
      ensures !isVoiceActive && currentTheme == "light" && currentLanguage == "en"
      ensures storedTheme.None? && storedLanguage.None?
      ensures recognitionStarts == 0 && recognitionStops == 0 && !hasRecognizer
    {
      isVoiceActive := false;
      currentTheme := "light";
      currentLanguage := "en";
      storedTheme := None;
      storedLanguage := None;
      recognitionStarts := 0;
      recognitionStops := 0;
      hasRecognizer := false;
    }

    /** The stored preferences match the page. */
    predicate Saved()
      reads this
    {
      storedTheme == Some(currentTheme) && storedLanguage == Some(currentLanguage)
    }

    /** `saveUserState()`: the user record is not modelled. */
    method SaveUserState()
      modifies this
      ensures Saved()
      ensures isVoiceActive == old(isVoiceActive) && currentTheme == old(currentTheme)
      ensures currentLanguage == old(currentLanguage)
      ensures recognitionStarts == old(recognitionStarts) && recognitionStops == old(recognitionStops)
      ensures hasRecognizer == old(hasRecognizer)
    {
      storedTheme := Some(currentTheme);
      storedLanguage := Some(currentLanguage);
    }

    /** `setTheme(theme)`. */
    method SetTheme(theme: string)
      modifies this
      ensures currentTheme == theme && Saved()
      ensures isVoiceActive == old(isVoiceActive) && currentLanguage == old(currentLanguage)
      ensures recognitionStarts == old(recognitionStarts) && recognitionStops == old(recognitionStops)
      ensures hasRecognizer == old(hasRecognizer)
    {
      currentTheme := theme;
      SaveUserState();
    }

    /** `toggleTheme()`. */
    method ToggleTheme()
      modifies this
      ensures currentTheme == ToggledTheme(old(currentTheme)) && Saved()
      ensures isVoiceActive == old(isVoiceActive) && currentLanguage == old(currentLanguage)
      ensures recognitionStarts == old(recognitionStarts) && recognitionStops == old(recognitionStops)
      ensures hasRecognizer == old(hasRecognizer)
    {
      var newTheme := if currentTheme == "light" then "dark" else "light";
      SetTheme(newTheme);
    }

    /** `setLanguage(language)`: the page translation it triggers is not modelled. */
    method SetLanguage(language: string)
      modifies this
      ensures currentLanguage == language && Saved()
      ensures isVoiceActive == old(isVoiceActive) && currentTheme == old(currentTheme)
      ensures recognitionStarts == old(recognitionStarts) && recognitionStops == old(recognitionStops)
      ensures hasRecognizer == old(hasRecognizer)
    {
      currentLanguage := language;
      SaveUserState();
    }

    /** `startVoiceRecognition()`: `supported` says whether the browser offers a speech
        recogniser. Without one nothing is created or started; otherwise a new recogniser
        replaces `window.voiceRecognition` and is started. */
    method StartVoiceRecognition(supported: bool)
      modifies this
      ensures hasRecognizer == (old(hasRecognizer) || supported)
      ensures recognitionStarts == old(recognitionStarts) + (if supported then 1 else 0)
      ensures recognitionStops == old(recognitionStops) && isVoiceActive == old(isVoiceActive)
      ensures currentTheme == old(currentTheme) && currentLanguage == old(currentLanguage)
      ensures storedTheme == old(storedTheme) && storedLanguage == old(storedLanguage)
    {
      if !supported {
        return;
      }
      hasRecognizer := true;
      recognitionStarts := recognitionStarts + 1;
    }

    /** `stopVoiceRecognition()`: the recogniser, if there is one, is stopped and dropped. */
    method StopVoiceRecognition()
      modifies this
      ensures !hasRecognizer
      ensures recognitionStops == old(recognitionStops) + (if old(hasRecognizer) then 1 else 0)
      ensures recognitionStarts == old(recognitionStarts) && isVoiceActive == old(isVoiceActive)
      ensures currentTheme == old(currentTheme) && currentLanguage == old(currentLanguage)
      ensures storedTheme == old(storedTheme) && storedLanguage == old(storedLanguage)
    {
      if hasRecognizer {
        recognitionStops := recognitionStops + 1;
        hasRecognizer := false;
      }
    }

    /** `toggleVoiceControl()`: flips the flag, then starts a recogniser when it is now on
        and the browser supports one, and stops the current one, if any, when it is now off. */
    method ToggleVoiceControl(supported: bool)
      modifies this
      ensures isVoiceActive == !old(isVoiceActive)
      ensures isVoiceActive ==> hasRecognizer == (old(hasRecognizer) || supported)
      ensures isVoiceActive ==> recognitionStarts == old(recognitionStarts) + (if supported then 1 else 0)
      ensures isVoiceActive ==> recognitionStops == old(recognitionStops)
      ensures !isVoiceActive ==> !hasRecognizer && recognitionStarts == old(recognitionStarts)
      ensures !isVoiceActive ==> recognitionStops == old(recognitionStops) + (if old(hasRecognizer) then 1 else 0)
      ensures currentTheme == old(currentTheme) && currentLanguage == old(currentLanguage)
      ensures storedTheme == old(storedTheme) && storedLanguage == old(storedLanguage)
    {
      isVoiceActive := !isVoiceActive;
      if isVoiceActive {
        StartVoiceRecognition(supported);
      } else {
        StopVoiceRecognition();
      }
    }
  }
}
