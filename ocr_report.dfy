/** What the OCR processor reports about an extracted invoice record: the data quality score,
    the validation verdict, and the export to CSV (and the choice among export formats). */
module OcrReport {
  import opened Maybe
  import opened JsString
  import opened OcrProcessor

  // ---------------------------------------------------------------------------
  // calculateDataQualityScore
  // ---------------------------------------------------------------------------

  /** The weight a field adds when it is present. */
  function Weight(present: bool, w: nat): nat { if present then w else 0 }

  /** The score before the cap: 20 for the invoice number, 15 for the date, 20 for the total,
      15 for the vendor name, 20 for having items and 10 for the GSTIN. */
  function RawScore(d: InvoiceData): nat {
    Weight(TextTruthy(d.invoiceNumber), 20) + Weight(TextTruthy(d.date), 15)
    + Weight(NumTruthy(d.totalAmount), 20) + Weight(TextTruthy(d.vendor.name), 15)
    + Weight(|d.items| > 0, 20) + Weight(TextTruthy(d.gstin), 10)
  }

  /** `calculateDataQualityScore`: `Math.min(100, score)`. */
  function QualityScore(d: InvoiceData): (score: int)
    ensures 0 <= score <= 100
  {
    var s := RawScore(d);
    if s < 100 then s else 100
  }

  /** The weights add up to 100, so the cap never changes the sum. */
  lemma QualityScoreUncapped(d: InvoiceData)
    ensures QualityScore(d) == RawScore(d)
  {
  }

  /** The score is 100 exactly when all six fields are present. */
  lemma QualityScoreFull(d: InvoiceData)
    ensures QualityScore(d) == 100 <==>
      TextTruthy(d.invoiceNumber) && TextTruthy(d.date) && NumTruthy(d.totalAmount)
      && TextTruthy(d.vendor.name) && |d.items| > 0 && TextTruthy(d.gstin)
  {
  }

  /** The score is 0 exactly when none of them is. */
  lemma QualityScoreEmpty(d: InvoiceData)
    ensures QualityScore(d) == 0 <==>
      !TextTruthy(d.invoiceNumber) && !TextTruthy(d.date) && !NumTruthy(d.totalAmount)
      && !TextTruthy(d.vendor.name) && |d.items| == 0 && !TextTruthy(d.gstin)
  {
  }

  /** A GSTIN adds 10 points, whatever else is present. */
  lemma QualityScoreGstin(d: InvoiceData, gstin: string)
    requires gstin != []
    ensures QualityScore(d.(gstin := Some(gstin))) == QualityScore(d.(gstin := None)) + 10
  {
  }

  // ---------------------------------------------------------------------------
  // validateInvoiceData
  // ---------------------------------------------------------------------------

  /** The five checks, in the order they are made. */
  datatype Check = NumberCheck | DateCheck | TotalCheck | VendorCheck | ItemsCheck

  /** The message a failed check reports. */
  function Message(c: Check): string {
    match c
    case NumberCheck => "Invoice number not found"
    case DateCheck => "Invoice date not found"
    case TotalCheck => "Total amount not found"
    case VendorCheck => "Vendor information not found"
    case ItemsCheck => "No line items found"
  }

  /** Whether the check fails on `d`: its field is missing, or there are no items. */
  predicate Fails(d: InvoiceData, c: Check) {
    match c
    case NumberCheck => !TextTruthy(d.invoiceNumber)
    case DateCheck => !TextTruthy(d.date)
    case TotalCheck => !NumTruthy(d.totalAmount)
    case VendorCheck => !TextTruthy(d.vendor.name)
    case ItemsCheck => |d.items| == 0
  }

  /** The position of a check in the order they are made. */
  function Rank(c: Check): nat {
    match c
    case NumberCheck => 0
    case DateCheck => 1
    case TotalCheck => 2
    case VendorCheck => 3
    case ItemsCheck => 4
  }

  /** `if (!cond) errors.push(message)`. */
  function Run(d: InvoiceData, c: Check): seq<Check> { if Fails(d, c) then [c] else [] }

  /** The checks that fail, in order. */
  function FailedChecks(d: InvoiceData): seq<Check> {
    Run(d, NumberCheck) + Run(d, DateCheck) + Run(d, TotalCheck) + Run(d, VendorCheck) + Run(d, ItemsCheck)
  }

  /** The verdict object: `{ isValid, errors, score }`. */
  datatype Validation = Validation(isValid: bool, errors: seq<string>, score: int)

  /** `validateInvoiceData`. */
  function Validate(d: InvoiceData): (v: Validation)
    ensures v.score == QualityScore(d)
  {
    var failed := FailedChecks(d);
    var errors := seq(|failed|, k requires 0 <= k < |failed| => Message(failed[k]));
    Validation(|errors| == 0, errors, QualityScore(d))
  }

  /** The record is valid exactly when the five checked fields are present. */
  lemma ValidateValidIff(d: InvoiceData)
    ensures Validate(d).isValid <==>
      TextTruthy(d.invoiceNumber) && TextTruthy(d.date) && NumTruthy(d.totalAmount)
      && TextTruthy(d.vendor.name) && |d.items| > 0
  {
  }

  /** Different checks report different messages. */
  lemma MessageInjective(a: Check, b: Check)
    requires Message(a) == Message(b)
    ensures a == b
  {
    var ma, mb := Message(a), Message(b);
    assert ma[0] == mb[0] && ma[8] == mb[8];
  }

  /** A check is reported exactly when it fails, and in the order the checks are made. */
  lemma FailedChecksIff(d: InvoiceData, c: Check)
    ensures c in FailedChecks(d) <==> Fails(d, c)
  {
  }

  lemma {:induction false} FailedChecksOrdered(d: InvoiceData)
    ensures var f := FailedChecks(d);
      forall i, j :: 0 <= i < j < |f| ==> Rank(f[i]) < Rank(f[j])
  {
    var r1, r2, r3, r4, r5 := Run(d, NumberCheck), Run(d, DateCheck), Run(d, TotalCheck), Run(d, VendorCheck), Run(d, ItemsCheck);
    RankedAppend(r1, 0, r2, 1);
    RankedAppend(r1 + r2, 1, r3, 2);
    RankedAppend(r1 + r2 + r3, 2, r4, 3);
    RankedAppend(r1 + r2 + r3 + r4, 3, r5, 4);
  }

  /** Ranks strictly increasing along `s`, and all at most `top`. */
  predicate Ranked(s: seq<Check>, top: nat) {
    && (forall i, j :: 0 <= i < j < |s| ==> Rank(s[i]) < Rank(s[j]))
    && (forall i :: 0 <= i < |s| ==> Rank(s[i]) <= top)
  }

  lemma RankedAppend(a: seq<Check>, top: nat, b: seq<Check>, next: nat)
    requires Ranked(a, top)
    requires |b| <= 1 && top < next
    requires forall i :: 0 <= i < |b| ==> Rank(b[i]) == next
    ensures Ranked(a + b, next)
  {
  }

  /** Each message is reported exactly when its check fails; the messages come in the order
      of the checks, so none is reported twice. */
  lemma ValidateErrors(d: InvoiceData, c: Check)
    ensures Message(c) in Validate(d).errors <==> Fails(d, c)
    ensures var e := Validate(d).errors;
      forall i, j :: 0 <= i < j < |e| ==> e[i] != e[j]
  {
    var f := FailedChecks(d);
    var e := Validate(d).errors;
    FailedChecksIff(d, c);
    FailedChecksOrdered(d);
    if Message(c) in e {
      var k :| 0 <= k < |e| && e[k] == Message(c);
      MessageInjective(f[k], c);
    }
    if Fails(d, c) {
      var k :| 0 <= k < |f| && f[k] == c;
      assert e[k] == Message(c);
    }
    forall i, j | 0 <= i < j < |e| ensures e[i] != e[j] {
      if e[i] == e[j] {
        MessageInjective(f[i], f[j]);
      }
    }
  }

  /** A GSTIN never produces an error: it only changes the score. */
  lemma ValidateIgnoresGstin(d: InvoiceData, gstin: Option<string>)
    ensures Validate(d.(gstin := gstin)).isValid == Validate(d).isValid
    ensures Validate(d.(gstin := gstin)).errors == Validate(d).errors
  {
  }

  /** A valid record scores at least 90: only the GSTIN's 10 points can be missing. */
  lemma ValidImpliesScore(d: InvoiceData)
    requires Validate(d).isValid
    ensures Validate(d).score >= 90
  {
    ValidateValidIff(d);
  }

  // ---------------------------------------------------------------------------
  // convertToCSV
  // ---------------------------------------------------------------------------

  /** `${value}` of a number field written only when truthy. */
  function NumberCell(x: Option<real>): string {
    if NumTruthy(x) then NumberToString(x.value) else ""
  }

  /** A label-and-value row when the value is present. */
  function TextRow(field: string, value: Option<string>): seq<seq<string>> {
    if TextTruthy(value) then [[field, value.value]] else []
  }

  function NumberRow(field: string, value: Option<real>): seq<seq<string>> {
    if NumTruthy(value) then [[field, NumberToString(value.value)]] else []
  }

  /** The rows before the items: the `Field`/`Value` header, then each present field of the
      invoice, the vendor (name, address, contact) and the customer (name, address). */
  function InfoRows(d: InvoiceData): seq<seq<string>> {
    [["Field", "Value"]]
    + TextRow("Invoice Number", d.invoiceNumber) + TextRow("Date", d.date)
    + NumberRow("Total Amount", d.totalAmount) + TextRow("GSTIN", d.gstin)
    + NumberRow("GST Amount", d.gstAmount) + NumberRow("Subtotal", d.subtotal)
    + TextRow("Vendor Name", d.vendor.name) + TextRow("Vendor Address", d.vendor.address)
    + TextRow("Vendor Contact", d.vendor.contact)
    + TextRow("Customer Name", d.customer.name) + TextRow("Customer Address", d.customer.address)
  }

  /** The empty row, the `Line Items` title and the column header. */
  const ItemsHeader: seq<seq<string>> := [[], ["Line Items"], ["Description", "Quantity", "Unit Price", "Total"]]

  /** `[item.description || '', item.quantity || '', item.unitPrice || '', item.total || '']`. */
  function ItemRow(item: LineItem): seq<string> {
    [item.description, NumberCell(item.quantity), NumberCell(item.unitPrice), NumberCell(item.total)]
  }

  /** The rows of `items`, one per item in order. */
  function ItemRows(items: seq<LineItem>): (rows: seq<seq<string>>)
    ensures |rows| == |items| && forall k :: 0 <= k < |items| ==> rows[k] == ItemRow(items[k])
  {
    seq(|items|, k requires 0 <= k < |items| => ItemRow(items[k]))
  }

  /** `` `"${cell}"` ``: the quotes are added, and nothing inside is escaped. */
  function Quote(cell: string): string { "\"" + cell + "\"" }

  /** `row.map(cell => `"${cell}"`).join(',')`. */
  function CsvLine(row: seq<string>): string {
    Join(seq(|row|, i requires 0 <= i < |row| => Quote(row[i])), ",")
  }

  /** The lines of the CSV text, one per row. */
  function CsvLines(rows: seq<seq<string>>): (lines: seq<string>)
    ensures |lines| == |rows| && forall k :: 0 <= k < |rows| ==> lines[k] == CsvLine(rows[k])
  {
    seq(|rows|, k requires 0 <= k < |rows| => CsvLine(rows[k]))
  }

  /** `rows.map(...).join('\n')`. */
  function CsvText(rows: seq<seq<string>>): string {
    Join(CsvLines(rows), "\n")
  }

  /** `convertToCSV(data)`: the info rows, the items header, then one row per item, pushed in
      that order and joined. */
  method ConvertToCsv(d: InvoiceData) returns (csv: string)
    ensures csv == CsvText(InfoRows(d) + ItemsHeader + ItemRows(d.items))
  {
    var rows := InfoRows(d) + ItemsHeader;
    ghost var head := rows;
    var i := 0;
    while i < |d.items|
      invariant 0 <= i <= |d.items|
      invariant rows == head + ItemRows(d.items[..i])
    {
      assert ItemRows(d.items[..i + 1]) == ItemRows(d.items[..i]) + [ItemRow(d.items[i])];
      rows := rows + [ItemRow(d.items[i])];
      i := i + 1;
    }
    assert d.items[..i] == d.items;
    csv := CsvText(rows);
  }

  /** Joining at least two lines puts the first one, then the separator, in front. */
  lemma JoinFirst(lines: seq<string>, sep: string)
    requires |lines| >= 2
    ensures Join(lines, sep) == lines[0] + sep + Join(lines[1..], sep)
  {
  }

  /** The CSV text opens with the `"Field","Value"` line. */
  lemma CsvFirstLine(d: InvoiceData)
    ensures var csv := CsvText(InfoRows(d) + ItemsHeader + ItemRows(d.items));
      |csv| > 16 && csv[..16] == "\"Field\",\"Value\"\n"
  {
    var rows := InfoRows(d) + ItemsHeader + ItemRows(d.items);
    var lines := CsvLines(rows);
    assert rows[0] == ["Field", "Value"];
    CsvLineCons(["Field", "Value"]);
    CsvLineCons(["Value"]);
    assert ["Field", "Value"][1..] == ["Value"];
    assert lines[0] == "\"Field\",\"Value\"";
    JoinFirst(lines, "\n");
  }

  /** A line is the first quoted cell, then a comma and the line of the others. */
  lemma CsvLineCons(row: seq<string>)
    requires |row| >= 1
    ensures |row| == 1 ==> CsvLine(row) == Quote(row[0])
    ensures |row| >= 2 ==> CsvLine(row) == Quote(row[0]) + "," + CsvLine(row[1..])
  {
    var quoted := seq(|row|, i requires 0 <= i < |row| => Quote(row[i]));
    if |row| >= 2 {
      var tail := row[1..];
      assert quoted[1..] == seq(|tail|, i requires 0 <= i < |tail| => Quote(tail[i]));
    }
  }

  /** A number's text has no line break. */
  lemma NumberToStringFree(x: real)
    ensures Free(NumberToString(x), '\n')
  {
  }

  /** No text field of the record, of its vendor or customer, or of an item's description
      holds a line break. */
  predicate NoLineBreaks(d: InvoiceData) {
    && (d.invoiceNumber.Some? ==> Free(d.invoiceNumber.value, '\n'))
    && (d.date.Some? ==> Free(d.date.value, '\n'))
    && (d.gstin.Some? ==> Free(d.gstin.value, '\n'))
    && PartyFree(d.vendor) && PartyFree(d.customer)
    && forall k :: 0 <= k < |d.items| ==> Free(d.items[k].description, '\n')
  }

  predicate PartyFree(p: PartyInfo) {
    && (p.name.Some? ==> Free(p.name.value, '\n'))
    && (p.address.Some? ==> Free(p.address.value, '\n'))
    && (p.contact.Some? ==> Free(p.contact.value, '\n'))
  }

  predicate RowFree(row: seq<string>) { forall i :: 0 <= i < |row| ==> Free(row[i], '\n') }

  lemma {:induction false} JoinFree(parts: seq<string>, sep: string, c: char)
    requires Free(sep, c) && forall k :: 0 <= k < |parts| ==> Free(parts[k], c)
    ensures Free(Join(parts, sep), c)
    decreases |parts|
  {
    if |parts| >= 2 {
      JoinFree(parts[1..], sep, c);
    }
  }

  lemma CsvLineFree(row: seq<string>)
    requires RowFree(row)
    ensures Free(CsvLine(row), '\n')
  {
    var quoted := seq(|row|, i requires 0 <= i < |row| => Quote(row[i]));
    forall k | 0 <= k < |quoted| ensures Free(quoted[k], '\n') {
      assert quoted[k] == "\"" + row[k] + "\"";
    }
    JoinFree(quoted, ",", '\n');
  }

  predicate RowsFree(rows: seq<seq<string>>) { forall k :: 0 <= k < |rows| ==> RowFree(rows[k]) }

  lemma RowsFreeAppend(a: seq<seq<string>>, b: seq<seq<string>>)
    requires RowsFree(a) && RowsFree(b)
    ensures RowsFree(a + b)
  {
  }

  lemma TextRowFree(field: string, value: Option<string>)
    requires Free(field, '\n') && (value.Some? ==> Free(value.value, '\n'))
    ensures RowsFree(TextRow(field, value))
  {
  }

  lemma NumberRowFree(field: string, value: Option<real>)
    requires Free(field, '\n')
    ensures RowsFree(NumberRow(field, value))
  {
    if NumTruthy(value) {
      NumberToStringFree(value.value);
    }
  }

  lemma InfoRowsFree(d: InvoiceData)
    requires NoLineBreaks(d)
    ensures RowsFree(InfoRows(d))
  {
    var r0: seq<seq<string>> := [["Field", "Value"]];
    var r1, r2 := TextRow("Invoice Number", d.invoiceNumber), TextRow("Date", d.date);
    var r3, r4 := NumberRow("Total Amount", d.totalAmount), TextRow("GSTIN", d.gstin);
    var r5, r6 := NumberRow("GST Amount", d.gstAmount), NumberRow("Subtotal", d.subtotal);
    var r7, r8 := TextRow("Vendor Name", d.vendor.name), TextRow("Vendor Address", d.vendor.address);
    var r9 := TextRow("Vendor Contact", d.vendor.contact);
    var r10, r11 := TextRow("Customer Name", d.customer.name), TextRow("Customer Address", d.customer.address);
    TextRowFree("Invoice Number", d.invoiceNumber);
    TextRowFree("Date", d.date);
    NumberRowFree("Total Amount", d.totalAmount);
    TextRowFree("GSTIN", d.gstin);
    NumberRowFree("GST Amount", d.gstAmount);
    NumberRowFree("Subtotal", d.subtotal);
    TextRowFree("Vendor Name", d.vendor.name);
    TextRowFree("Vendor Address", d.vendor.address);
    TextRowFree("Vendor Contact", d.vendor.contact);
    TextRowFree("Customer Name", d.customer.name);
    TextRowFree("Customer Address", d.customer.address);
    RowsFreeAppend(r0, r1);
    RowsFreeAppend(r0 + r1, r2);
    RowsFreeAppend(r0 + r1 + r2, r3);
    RowsFreeAppend(r0 + r1 + r2 + r3, r4);
    RowsFreeAppend(r0 + r1 + r2 + r3 + r4, r5);
    RowsFreeAppend(r0 + r1 + r2 + r3 + r4 + r5, r6);
    RowsFreeAppend(r0 + r1 + r2 + r3 + r4 + r5 + r6, r7);
    RowsFreeAppend(r0 + r1 + r2 + r3 + r4 + r5 + r6 + r7, r8);
    RowsFreeAppend(r0 + r1 + r2 + r3 + r4 + r5 + r6 + r7 + r8, r9);
    RowsFreeAppend(r0 + r1 + r2 + r3 + r4 + r5 + r6 + r7 + r8 + r9, r10);
    RowsFreeAppend(r0 + r1 + r2 + r3 + r4 + r5 + r6 + r7 + r8 + r9 + r10, r11);
  }

  lemma ItemRowsFree(items: seq<LineItem>)
    requires forall k :: 0 <= k < |items| ==> Free(items[k].description, '\n')
    ensures RowsFree(ItemRows(items))
  {
    forall k | 0 <= k < |items| ensures RowFree(ItemRow(items[k])) {
      var it := items[k];
      NumberToStringFree(it.quantity.GetOr(0.0));
      NumberToStringFree(it.unitPrice.GetOr(0.0));
      NumberToStringFree(it.total.GetOr(0.0));
    }
  }

  lemma CsvRowsFree(d: InvoiceData)
    requires NoLineBreaks(d)
    ensures RowsFree(InfoRows(d) + ItemsHeader + ItemRows(d.items))
  {
    InfoRowsFree(d);
    ItemRowsFree(d.items);
    assert RowsFree(ItemsHeader);
    RowsFreeAppend(InfoRows(d), ItemsHeader);
    RowsFreeAppend(InfoRows(d) + ItemsHeader, ItemRows(d.items));
  }

  lemma CsvLinesFree(rows: seq<seq<string>>)
    requires RowsFree(rows)
    ensures forall k :: 0 <= k < |rows| ==> Free(CsvLines(rows)[k], '\n')
  {
    forall k | 0 <= k < |rows| ensures Free(CsvLines(rows)[k], '\n') {
      CsvLineFree(rows[k]);
    }
  }

  /** Without line breaks in the fields, splitting the CSV text at line breaks gives back one
      line per row. */
  lemma CsvSplitLines(d: InvoiceData)
    requires NoLineBreaks(d)
    ensures var rows := InfoRows(d) + ItemsHeader + ItemRows(d.items);
      Split(CsvText(rows), '\n') == CsvLines(rows)
  {
    var rows := InfoRows(d) + ItemsHeader + ItemRows(d.items);
    CsvRowsFree(d);
    CsvLinesFree(rows);
    SplitJoin(CsvLines(rows), '\n');
  }

  /** ... and the item rows come right after the column header, one line per item in order. */
  lemma CsvItemLines(d: InvoiceData)
    requires NoLineBreaks(d)
    ensures var lines := Split(CsvText(InfoRows(d) + ItemsHeader + ItemRows(d.items)), '\n');
      var start := |InfoRows(d)| + 3;
      && |lines| == start + |d.items|
      && lines[start - 1] == CsvLine(["Description", "Quantity", "Unit Price", "Total"])
      && forall k :: 0 <= k < |d.items| ==> lines[start + k] == CsvLine(ItemRow(d.items[k]))
  {
    var info := InfoRows(d);
    var rows := info + ItemsHeader + ItemRows(d.items);
    CsvSplitLines(d);
    assert rows[|info| + 2] == ItemsHeader[2];
    forall k | 0 <= k < |d.items| ensures rows[|info| + 3 + k] == ItemRow(d.items[k]) {
    }
  }

  /** Removing the quotes `Quote` added. */
  function Unquote(cell: string): string {
    if |cell| >= 2 then cell[1..|cell| - 1] else cell
  }

  /** Without commas in its cells, a non-empty row is read back from its line by splitting at
      the commas and removing the quotes. */
  lemma CsvLineCells(row: seq<string>)
    requires |row| >= 1 && forall i :: 0 <= i < |row| ==> Free(row[i], ',')
    ensures var pieces := Split(CsvLine(row), ',');
      |pieces| == |row| && forall i :: 0 <= i < |row| ==> Unquote(pieces[i]) == row[i]
  {
    var quoted := seq(|row|, i requires 0 <= i < |row| => Quote(row[i]));
    forall k | 0 <= k < |quoted| ensures Free(quoted[k], ',') {
      assert quoted[k] == "\"" + row[k] + "\"";
    }
    SplitJoin(quoted, ',');
    assert forall i :: 0 <= i < |row| ==> Unquote(quoted[i]) == row[i];
  }

  // ---------------------------------------------------------------------------
  // exportData
  // ---------------------------------------------------------------------------

  /** What `exportData` returns: the JSON and HTML texts are not modelled, so those results
      carry the record they render. */
  datatype Exported = JsonOf(data: InvoiceData) | CsvOf(text: string) | HtmlOf(data: InvoiceData)

  /** `exportData(data, format = 'json')`: the format is compared lower-cased; any other
      format throws `Unsupported format: <format>`. `None` is an omitted format. */
  function ExportData(d: InvoiceData, format: Option<string>): (r: Result<Exported>)
    ensures r.Err? ==> r.message == "Unsupported format: " + format.GetOr("json")
  {
    var f := format.GetOr("json");
    var lf := ToLower(f);
    if lf == "json" then Ok(JsonOf(d))
    else if lf == "csv" then Ok(CsvOf(CsvText(InfoRows(d) + ItemsHeader + ItemRows(d.items))))
    else if lf == "html" then Ok(HtmlOf(d))
    else Err("Unsupported format: " + f)
  }

  /** The format is accepted exactly when its lower-case form is one of the three, and then
      the result is the one for the lower-case form. */
  lemma ExportCaseInsensitive(d: InvoiceData, f: string)
    ensures ExportData(d, Some(f)).Ok? <==> ToLower(f) in ["json", "csv", "html"]
    ensures ExportData(d, Some(f)).Ok? ==> ExportData(d, Some(f)) == ExportData(d, Some(ToLower(f)))
  {
    LowerOfNoUpper(ToLower(f));
  }

  /** Without a format, the export is JSON; "CSV" is the CSV text. */
  lemma ExportDefaults(d: InvoiceData)
    ensures ExportData(d, None) == Ok(JsonOf(d))
    ensures ExportData(d, Some("CSV")) == Ok(CsvOf(CsvText(InfoRows(d) + ItemsHeader + ItemRows(d.items))))
  {
    assert ToLower("json") == "json";
    assert ToLower("CSV") == "csv";
  }

  /** "xml" is refused. */
  lemma ExportRefuses(d: InvoiceData)
    ensures ExportData(d, Some("xml")) == Err("Unsupported format: xml")
  {
    assert ToLower("xml") == "xml";
  }
}
