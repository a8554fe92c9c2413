/** `VoiceCommandProcessor` of the voice front end: the command table, the search for the
    first command phrase in a transcript, the split of recognition results into final and
    interim text, the listening flag the recogniser's events keep, and the actions a
    command starts. */
module VoiceCommands {
  import opened Maybe
  import opened JsString
  import opened PhraseTable
  import opened TranscriptPatterns

  /** `loadCommands()`: command names with their phrases, in table order. */
  const DefaultCommands: Table := [
    ("createInvoice", ["create invoice", "make invoice", "new invoice"]),
    ("addExpense", ["add expense", "record expense", "log expense"]),
    ("viewReports", ["show reports", "view reports", "see reports"]),
    ("calculateGST", ["calculate gst", "gst calculation", "compute gst"]),
    ("searchInvoice", ["find invoice", "search invoice", "look for invoice"]),
    ("goToDashboard", ["go to dashboard", "show dashboard", "dashboard"]),
    ("help", ["help", "what can i do", "commands"])
  ]

  /** The object `identifyCommand` returns: `{ type, phrase, transcript }`. */
  datatype Command = Command(kind: string, phrase: string, transcript: string)

  /** The command for a hit of the table, carrying the transcript as it was given. */
  function CommandOf(table: Table, hit: Option<(nat, nat)>, transcript: string): (r: Option<Command>)
    requires hit.Some? ==> hit.value.0 < |table| && hit.value.1 < |table[hit.value.0].1|
    ensures r.Some? <==> hit.Some?
    ensures r.Some? ==> r.value.transcript == transcript
  {
    match hit
    case None => None
    case Some((c, p)) => Some(Command(table[c].0, table[c].1[p], transcript))
  }

  /** One entry of `event.results`: the first alternative's text and whether it is final. */
  datatype SpeechResult = SpeechResult(transcript: string, isFinal: bool)

  /** The results the loop visits: those from `resultIndex` on. */
  function Pending(results: seq<SpeechResult>, resultIndex: nat): seq<SpeechResult> {
    if resultIndex <= |results| then results[resultIndex..] else []
  }

  /** The texts of the final (or of the interim) results, concatenated in order. */
  function Collected(rs: seq<SpeechResult>, final: bool): string {
    if rs == [] then ""
    else
      var last := rs[|rs| - 1];
      Collected(rs[..|rs| - 1], final) + (if last.isFinal == final then last.transcript else "")
  }

  /** All the texts, concatenated in order. */
  function AllText(rs: seq<SpeechResult>): string {
    if rs == [] then "" else AllText(rs[..|rs| - 1]) + rs[|rs| - 1].transcript
  }

  /** Every result goes to exactly one of the two texts: their lengths add up to the length of
      all the text. */
  lemma {:induction false} CollectedPartition(rs: seq<SpeechResult>)
    ensures |Collected(rs, true)| + |Collected(rs, false)| == |AllText(rs)|
  {
    if rs != [] {
      CollectedPartition(rs[..|rs| - 1]);
    }
  }

  /** When every result is final, the final text is all the text and there is no interim
      text; when none is, the other way round. */
  lemma {:induction false} CollectedUniform(rs: seq<SpeechResult>, final: bool)
    requires forall k :: 0 <= k < |rs| ==> rs[k].isFinal == final
    ensures Collected(rs, final) == AllText(rs)
    ensures Collected(rs, !final) == ""
  {
    if rs != [] {
      CollectedUniform(rs[..|rs| - 1], final);
    }
  }

  /** Adding one result extends exactly one of the two texts. */
  lemma CollectedSnoc(rs: seq<SpeechResult>, r: SpeechResult)
    ensures Collected(rs + [r], r.isFinal) == Collected(rs, r.isFinal) + r.transcript
    ensures Collected(rs + [r], !r.isFinal) == Collected(rs, !r.isFinal)
  {
    assert (rs + [r])[..|rs|] == rs;
  }

  /** One more result of the event, taken in order. */
  lemma CollectedStep(results: seq<SpeechResult>, lo: nat, i: nat)
    requires lo <= i < |results|
    ensures Collected(results[lo..i + 1], results[i].isFinal) == Collected(results[lo..i], results[i].isFinal) + results[i].transcript
    ensures Collected(results[lo..i + 1], !results[i].isFinal) == Collected(results[lo..i], !results[i].isFinal)
  {
    assert results[lo..i + 1] == results[lo..i] + [results[i]];
    CollectedSnoc(results[lo..i], results[i]);
  }

  /** What a command does on the page (`executeCommand`); the server call and the feedback
      banner it also makes are not modelled. */
  datatype Action =
    | Navigate(page: string)
    | OpenExpenseModal
    | CalculateGst(amount: real)
    | SearchInvoice(number: string)
    | ShowMessage(message: string)
    | ShowHelp
    | NoAction

  const AmountPrompt := "Please specify an amount. For example: \"Calculate GST for 1000 rupees\""
  const InvoicePrompt := "Please specify an invoice number. For example: \"Search for invoice INV-001\""

  /** A match starts with a digit, so `parseFloat` always reads a number from it. */
  lemma ParseFloatOfMatch(s: string)
    requires Match(Amount, s).Some?
    ensures ParseFloat(Match(Amount, s).value).Some?
  {
    AmountInOfMatch(s);
  }

  /** `extractAmountAndCalculate`: the first amount in the transcript, or a prompt. */
  function AmountAction(transcript: string): (a: Action)
    ensures a.ShowMessage? <==> Match(Amount, transcript).None?
    ensures a.CalculateGst? ==> Some(a.amount) == AmountIn(transcript)
  {
    match Match(Amount, transcript)
    case None => ShowMessage(AmountPrompt)
    case Some(m) =>
      ParseFloatOfMatch(transcript);
      CalculateGst(ParseFloat(m).value)
  }

  /** The text `/INV-\d+/i || /invoice\s+(\w+)/i` matches first, or null. */
  function InvoiceMatch(transcript: string): Option<string> {
    match Match(InvoiceCode, transcript)
    case Some(code) => Some(code)
    case None => Match(InvoiceWord, transcript)
  }

  /** `extractInvoiceNumberAndSearch`: the match with its first `invoice ` removed, or a
      prompt. */
  function InvoiceAction(transcript: string): (a: Action)
    ensures a.ShowMessage? <==> InvoiceMatch(transcript).None?
  {
    match InvoiceMatch(transcript)
    case None => ShowMessage(InvoicePrompt)
    case Some(m) => SearchInvoice(ReplaceFirst(m, "invoice ", ""))
  }

  /** An `INV-` code is searched as it was spoken: it never holds `invoice `. */
  lemma InvoiceActionCode(transcript: string)
    requires Match(InvoiceCode, transcript).Some?
    ensures InvoiceAction(transcript) == SearchInvoice(Match(InvoiceCode, transcript).value)
  {
    var m := Match(InvoiceCode, transcript).value;
    CodeMatchShape(transcript);
    forall k | 0 <= k < |m| ensures !OccursAt(m, "invoice ", k) {
      if k + 8 <= |m| {
        if k <= 3 {
          assert m[k..k + 8][3 - k] == m[3];
        } else {
          assert m[k..k + 8][0] == m[k];
        }
      }
    }
    assert IndexOf(m, "invoice ").None?;
  }

  /** A code match is three letters, a `-` and digits. */
  lemma CodeMatchShape(s: string)
    requires Match(InvoiceCode, s).Some?
    ensures var m := Match(InvoiceCode, s).value;
      |m| >= 5 && m[3] == '-' && forall k :: 4 <= k < |m| ==> IsDigit(m[k])
  {
    var m := Match(InvoiceCode, s).value;
    var q := FirstStart(InvoiceCode, s, 0).value;
    assert m[3] == s[q + 3];
    assert ToLower(s[q..q + 4])[3] == '-';
    forall k | 4 <= k < |m| ensures IsDigit(m[k]) {
      assert m[k] == s[q + k];
      assert InClass(s[q + k], Digits);
    }
  }

  /** `"Find Invoice 7"`: the keyword matches case-insensitively but is removed only in lower
      case, so the search is for `Invoice 7` rather than `7`. */
  lemma InvoiceActionKeepsKeyword()
    ensures InvoiceAction("Find Invoice 7") == SearchInvoice("Invoice 7")
  {
    ExampleMatches();
    ExampleKeepsKeyword();
  }

  /** In the example the code pattern fails and the word pattern matches `Invoice 7`. */
  lemma ExampleMatches()
    ensures Match(InvoiceCode, "Find Invoice 7").None?
    ensures FirstStart(InvoiceWord, "Find Invoice 7", 0) == Some(5)
    ensures Match(InvoiceWord, "Find Invoice 7") == Some("Invoice 7")
  {
    NoCodeWithoutDash("Find Invoice 7");
    ExampleFirstStart();
    ExampleWordEnd();
    ExampleSlice();
  }

  lemma ExampleFirstStart()
    ensures FirstStart(InvoiceWord, "Find Invoice 7", 0) == Some(5)
  {
    ExampleWordAt();
    FirstStartAt(InvoiceWord, "Find Invoice 7", 0, 5);
  }

  lemma ExampleSlice()
    ensures "Find Invoice 7"[5..14] == "Invoice 7"
  {
  }

  lemma ExampleWordAt()
    ensures InvoiceWordAt("Find Invoice 7", 5)
    ensures forall q :: 0 <= q < 5 ==> !InvoiceWordAt("Find Invoice 7", q)
  {
    var s := "Find Invoice 7";
    assert ToLower(s[5..12]) == "invoice";
    assert RunEnd(s, 13, Spaces) == 13;
    assert RunEnd(s, 12, Spaces) == 13;
    forall q | 0 <= q < 5 ensures !InvoiceWordAt(s, q) {
      assert ToLower(s[q..q + 7])[0] == LowerChar(s[q]);
    }
  }

  lemma ExampleWordEnd()
    ensures RunEnd("Find Invoice 7", RunEnd("Find Invoice 7", 12, Spaces), WordChars) == 14
  {
    var s := "Find Invoice 7";
    assert RunEnd(s, 13, Spaces) == 13;
    assert RunEnd(s, 12, Spaces) == 13;
    assert RunEnd(s, 14, WordChars) == 14;
    assert RunEnd(s, 13, WordChars) == 14;
  }

  /** `Invoice 7` holds no lower-case `invoice `, so the replacement leaves it unchanged. */
  lemma ExampleKeepsKeyword()
    ensures IndexOf("Invoice 7", "invoice ").None?
  {
    var m := "Invoice 7";
    forall k | 0 <= k < |m| ensures !OccursAt(m, "invoice ", k) {
      if k + 8 <= |m| {
        assert m[k..k + 8][0] != 'i';
      }
    }
  }

  /** Without a `-` there is no `INV-` code. */
  lemma NoCodeWithoutDash(s: string)
    requires forall i :: 0 <= i < |s| ==> s[i] != '-'
    ensures Match(InvoiceCode, s).None?
  {
    forall q | 0 <= q < |s| ensures !InvoiceCodeAt(s, q) {
      if q + 5 <= |s| {
        assert ToLower(s[q..q + 4])[3] == LowerChar(s[q + 3]);
      }
    }
  }

  /** The `(\w+)` group of the `invoice` match: the word after the keyword and its spaces. */
  function InvoiceWordGroup(s: string): (r: Option<string>)
    ensures r.None? <==> Match(InvoiceWord, s).None?
  {
    match FirstStart(InvoiceWord, s, 0)
    case None => None
    case Some(q) =>
      var w := RunEnd(s, q + 7, Spaces);
      Some(s[w..RunEnd(s, w, WordChars)])
  }

  /** `extractInvoiceNumberAndSearch` as intended: the `INV-` code, or else the word after
      `invoice` however the keyword is written and however many spaces follow it. */
  function FixedInvoiceAction(transcript: string): (a: Action)
    ensures a.ShowMessage? <==> InvoiceMatch(transcript).None?
  {
    match Match(InvoiceCode, transcript)
    case Some(code) => SearchInvoice(code)
    case None =>
      match InvoiceWordGroup(transcript)
      case None => ShowMessage(InvoicePrompt)
      case Some(word) => SearchInvoice(word)
  }

  /** Without a code, the corrected search is for one non-empty word of `\w` characters. */
  lemma FixedInvoiceActionWord(transcript: string)
    requires Match(InvoiceCode, transcript).None? && Match(InvoiceWord, transcript).Some?
    ensures var a := FixedInvoiceAction(transcript);
      a.SearchInvoice? && a.number != [] && forall i :: 0 <= i < |a.number| ==> IsWordChar(a.number[i])
  {
    var s := transcript;
    var q := FirstStart(InvoiceWord, s, 0).value;
    var w := RunEnd(s, q + 7, Spaces);
    var e := RunEnd(s, w, WordChars);
    assert InvoiceWordAt(s, q);
    assert InClass(s[w], WordChars);
    forall i | 0 <= i < e - w ensures IsWordChar(s[w..e][i]) {
      assert InClass(s[w + i], WordChars);
    }
  }

  /** The two agree when the keyword is written in lower case with one space after it. */
  lemma FixedInvoiceActionAgrees(transcript: string)
    requires Match(InvoiceCode, transcript).None? && Match(InvoiceWord, transcript).Some?
    requires var m := Match(InvoiceWord, transcript).value; |m| > 8 && m[..8] == "invoice " && !IsSpace(m[8])
    ensures InvoiceAction(transcript) == FixedInvoiceAction(transcript)
  {
    var s := transcript;
    var m := Match(InvoiceWord, s).value;
    var q := FirstStart(InvoiceWord, s, 0).value;
    assert m[8] == s[q + 8];
    assert s[q + 7] == ' ';
    assert RunEnd(s, q + 8, Spaces) == q + 8;
    assert RunEnd(s, q + 7, Spaces) == q + 8;
    assert OccursAt(m, "invoice ", 0);
    IndexOfFirst(m, "invoice ", 0);
    ReplaceFirstPlain(m, "invoice ", "");
  }

  /** `"Find Invoice 7"` is a search for `7` once corrected. */
  lemma FixedInvoiceActionExample()
    ensures FixedInvoiceAction("Find Invoice 7") == SearchInvoice("7")
  {
    var s := "Find Invoice 7";
    ExampleMatches();
    ExampleWordEnd();
    assert s[13..14] == "7";
  }

  /** `executeCommand`'s switch: the page a navigation loads, the modal, the amount or
      invoice extractor run on the transcript as it was spoken, or the help modal; a kind the
      switch does not list does nothing. */
  function ActionOf(c: Command): (a: Action)
    ensures c.kind == "calculateGST" ==> a == AmountAction(c.transcript)
    ensures c.kind == "searchInvoice" ==> a == InvoiceAction(c.transcript)
    ensures a.CalculateGst? ==> c.kind == "calculateGST"
    ensures a.SearchInvoice? ==> c.kind == "searchInvoice"
    ensures a.ShowMessage? ==> c.kind == "calculateGST" || c.kind == "searchInvoice"
    ensures a.Navigate? ==> a.page == "invoice.html" || a.page == "reports.html" || a.page == "dashboard.html"
  {
    match c.kind
    case "createInvoice" => Navigate("invoice.html")
    case "addExpense" => OpenExpenseModal
    case "viewReports" => Navigate("reports.html")
    case "calculateGST" => AmountAction(c.transcript)
    case "searchInvoice" => InvoiceAction(c.transcript)
    case "goToDashboard" => Navigate("dashboard.html")
    case "help" => ShowHelp
    case _ => NoAction
  }

  /** The action of each command of the table, whatever phrase found it; every one of them
      does something. */
  lemma ActionOfTable(phrase: string, transcript: string)
    ensures ActionOf(Command(DefaultCommands[0].0, phrase, transcript)) == Navigate("invoice.html")
    ensures ActionOf(Command(DefaultCommands[1].0, phrase, transcript)) == OpenExpenseModal
    ensures ActionOf(Command(DefaultCommands[2].0, phrase, transcript)) == Navigate("reports.html")
    ensures ActionOf(Command(DefaultCommands[3].0, phrase, transcript)) == AmountAction(transcript)
    ensures ActionOf(Command(DefaultCommands[4].0, phrase, transcript)) == InvoiceAction(transcript)
    ensures ActionOf(Command(DefaultCommands[5].0, phrase, transcript)) == Navigate("dashboard.html")
    ensures ActionOf(Command(DefaultCommands[6].0, phrase, transcript)) == ShowHelp
    ensures forall c :: 0 <= c < |DefaultCommands| ==> ActionOf(Command(DefaultCommands[c].0, phrase, transcript)) != NoAction
  {
    forall c | 0 <= c < |DefaultCommands|
      ensures ActionOf(Command(DefaultCommands[c].0, phrase, transcript)) != NoAction
    {
      assert c in {0, 1, 2, 3, 4, 5, 6};
    }
  }

  /** A kind that names no command of the table does nothing. */
  lemma ActionOfUnlisted(c: Command)
    requires forall i :: 0 <= i < |DefaultCommands| ==> DefaultCommands[i].0 != c.kind
    ensures ActionOf(c) == NoAction
  {
    assert DefaultCommands[0].0 != c.kind && DefaultCommands[1].0 != c.kind && DefaultCommands[2].0 != c.kind;
    assert DefaultCommands[3].0 != c.kind && DefaultCommands[4].0 != c.kind && DefaultCommands[5].0 != c.kind;
    assert DefaultCommands[6].0 != c.kind;
  }

  /** Through the dispatch, "Find Invoice 7" searches for `Invoice 7`, keyword included. */
  lemma ActionOfKeepsKeyword()
    ensures ActionOf(Command("searchInvoice", "find invoice", "Find Invoice 7")) == SearchInvoice("Invoice 7")
  {
    InvoiceActionKeepsKeyword();
  }

  /** The dispatch with the corrected invoice extractor: the same for every other kind. */
  function FixedActionOf(c: Command): (a: Action)
    ensures c.kind != "searchInvoice" ==> a == ActionOf(c)
    ensures c.kind == "searchInvoice" ==> a == FixedInvoiceAction(c.transcript)
  {
    if c.kind == "searchInvoice" then FixedInvoiceAction(c.transcript) else ActionOf(c)
  }

  /** Once corrected, "Find Invoice 7" searches for `7` through the dispatch as well. */
  lemma FixedActionOfExample()
    ensures FixedActionOf(Command("searchInvoice", "find invoice", "Find Invoice 7")) == SearchInvoice("7")
  {
    FixedInvoiceActionExample();
  }

  /** The recogniser object as far as the processor uses it: its settings and the calls made
      on it. */
  class Recognition {
    var lang: string
    var continuous: bool
    var interimResults: bool
    var startCalls: nat
    var stopCalls: nat

    constructor()
      ensures lang == "" && !continuous && !interimResults && startCalls == 0 && stopCalls == 0
    {
      lang := "";
      continuous := false;
      interimResults := false;
      startCalls := 0;
      stopCalls := 0;
    }

    /** `recognition.start()`. */
    method Start()
      modifies this
      ensures startCalls == old(startCalls) + 1
      ensures lang == old(lang) && continuous == old(continuous)
      ensures interimResults == old(interimResults) && stopCalls == old(stopCalls)
    {
      startCalls := startCalls + 1;
    }

    /** `recognition.stop()`. */
    method Stop()
      modifies this
      ensures stopCalls == old(stopCalls) + 1
      ensures lang == old(lang) && continuous == old(continuous)
      ensures interimResults == old(interimResults) && startCalls == old(startCalls)
    {
      stopCalls := stopCalls + 1;
    }
  }

  class VoiceCommandProcessor {
    const commands: Table
    var recognition: Recognition?
    var isListening: bool
    var currentLanguage: string

    constructor()
      ensures commands == DefaultCommands && recognition == null
      ensures !isListening && currentLanguage == "en-IN"
    {
      commands := DefaultCommands;
      recognition := null;
      isListening := false;
      currentLanguage := "en-IN";
    }

    /** `initializeRecognition()`: `supported` says whether the browser offers a speech
        recogniser; when it does, a fresh one is made and configured. */
    method InitializeRecognition(supported: bool) returns (ok: bool)
      modifies this
      ensures ok == supported
      ensures ok ==> fresh(recognition) && recognition.lang == currentLanguage
      ensures ok ==> recognition.continuous && recognition.interimResults
      ensures ok ==> recognition.startCalls == 0 && recognition.stopCalls == 0
      ensures !ok ==> recognition == old(recognition)
      ensures isListening == old(isListening) && currentLanguage == old(currentLanguage)
    {
      if supported {
        var r := new Recognition();
        r.continuous := true;
        r.interimResults := true;
        r.lang := currentLanguage;
        recognition := r;
        return true;
      }
      return false;
    }

    /** `startListening()`: starts the recogniser only when there is one and it is not
        listening already. */
    method StartListening()
      modifies recognition
      ensures recognition != null && !isListening ==> recognition.startCalls == old(recognition.startCalls) + 1
      ensures recognition != null ==> recognition.stopCalls == old(recognition.stopCalls)
      ensures recognition != null && isListening ==> recognition.startCalls == old(recognition.startCalls)
      ensures recognition != null ==> recognition.lang == old(recognition.lang)
    {
      if recognition != null && !isListening {
        recognition.Start();
      }
    }

    /** `stopListening()`: stops the recogniser only while it is listening. */
    method StopListening()
      modifies recognition
      ensures recognition != null && isListening ==> recognition.stopCalls == old(recognition.stopCalls) + 1
      ensures recognition != null ==> recognition.startCalls == old(recognition.startCalls)
      ensures recognition != null && !isListening ==> recognition.stopCalls == old(recognition.stopCalls)
      ensures recognition != null ==> recognition.lang == old(recognition.lang)
    {
      if recognition != null && isListening {
        recognition.Stop();
      }
    }

    /** The recogniser's `onstart` event. */
    method OnStart()
      modifies this
      ensures isListening
      ensures recognition == old(recognition) && currentLanguage == old(currentLanguage)
    {
      isListening := true;
    }

    /** The recogniser's `onend` event. */
    method OnEnd()
      modifies this
      ensures !isListening
      ensures recognition == old(recognition) && currentLanguage == old(currentLanguage)
    {
      isListening := false;
    }

    /** `identifyCommand(transcript)`: the first phrase of the table, command by command and
        phrase by phrase, found in the lower-cased, trimmed transcript. */
    method IdentifyCommand(transcript: string) returns (r: Option<Command>)
      ensures exists hit :: IsFirstHit(commands, Key(transcript), hit) && r == CommandOf(commands, hit, transcript)
    {
      var hit := FirstHit(commands, Key(transcript));
      r := CommandOf(commands, hit, transcript);
    }

    /** `processSpeechResult(event)`: the final and interim texts of the results from
        `resultIndex` on; the interim text is shown when there is some, and the command of
        the final text, when there is final text and a command in it, is executed. */
    method ProcessSpeechResult(results: seq<SpeechResult>, resultIndex: nat)
      returns (interim: string, final: string, shown: Option<string>, executed: Option<Command>)
      ensures final == Collected(Pending(results, resultIndex), true)
      ensures interim == Collected(Pending(results, resultIndex), false)
      ensures shown == if interim != "" then Some(interim) else None
      ensures final == "" ==> executed.None?
      ensures final != "" ==> exists hit :: IsFirstHit(commands, Key(final), hit) && executed == CommandOf(commands, hit, final)
    {
      final, interim := "", "";
      var i := resultIndex;
      while i < |results|
        invariant resultIndex <= |results| ==> resultIndex <= i <= |results|
        invariant resultIndex <= |results| ==> final == Collected(results[resultIndex..i], true)
        invariant resultIndex <= |results| ==> interim == Collected(results[resultIndex..i], false)
        invariant resultIndex > |results| ==> i == resultIndex && final == "" && interim == ""
      {
        var r := results[i];
        CollectedStep(results, resultIndex, i);
        if r.isFinal {
          final := final + r.transcript;
        } else {
          interim := interim + r.transcript;
        }
        i := i + 1;
      }
      assert resultIndex <= |results| ==> results[resultIndex..i] == results[resultIndex..];
      shown := if interim != "" then Some(interim) else None;
      executed := None;
      if final != "" {
        executed := IdentifyCommand(final);
      }
    }

    /** `setLanguage(languageCode)`. */
    method SetLanguage(languageCode: string)
      modifies this, recognition
      ensures currentLanguage == languageCode && recognition == old(recognition)
      ensures recognition != null ==> recognition.lang == languageCode
      ensures recognition != null ==> recognition.startCalls == old(recognition.startCalls) && recognition.stopCalls == old(recognition.stopCalls)
      ensures isListening == old(isListening)
    {
      currentLanguage := languageCode;
      if recognition != null {
        recognition.lang := languageCode;
      }
    }

    /** `start()`: a fresh recogniser, started unless the processor still counts itself as
        listening. */
    method Start(supported: bool) returns (ok: bool)
      modifies this
      ensures ok == supported
      ensures ok ==> fresh(recognition) && recognition.lang == currentLanguage
      ensures ok ==> recognition.startCalls == (if isListening then 0 else 1) && recognition.stopCalls == 0
      ensures !ok ==> recognition == old(recognition)
      ensures isListening == old(isListening) && currentLanguage == old(currentLanguage)
    {
      ok := InitializeRecognition(supported);
      if ok {
        StartListening();
      }
    }

    /** `stop()`. */
    method Stop()
      modifies recognition
      ensures recognition != null && isListening ==> recognition.stopCalls == old(recognition.stopCalls) + 1
      ensures recognition != null ==> recognition.startCalls == old(recognition.startCalls)
      ensures recognition != null && !isListening ==> recognition.stopCalls == old(recognition.stopCalls)
    {
      StopListening();
    }

    /** `toggle()`: stops while listening, starts otherwise. */
    method Toggle(supported: bool)
      modifies this, recognition
      ensures old(isListening) ==> recognition == old(recognition)
      ensures old(isListening) && recognition != null ==> recognition.stopCalls == old(recognition.stopCalls) + 1
      ensures !old(isListening) && supported ==> fresh(recognition) && recognition.startCalls == 1
      ensures !old(isListening) && !supported ==> recognition == old(recognition)
      ensures isListening == old(isListening)
    {
      if isListening {
        Stop();
      } else {
        var _ := Start(supported);
      }
    }
  }
}
