/** `postProcessExtractedData` of the OCR processor: the cleaning pass over an extracted
    invoice record, on a shallow copy that shares the party objects with its input. */
module OcrPostProcess {
  import opened Maybe
  import opened JsString
  import opened OcrProcessor

  /** The invoice number after the pass: a truthy one loses every character outside
      `[\w\-]` and is upper-cased. */
  function CleanedNumber(n: Option<string>): (r: Option<string>)
    ensures TextTruthy(n) ==> r.Some? && forall i :: 0 <= i < |r.value| ==> InvoiceNumberChar(r.value[i]) && !IsLower(r.value[i])
    ensures !TextTruthy(n) ==> r == n
  {
    if TextTruthy(n) then Some(CleanInvoiceNumber(n.value)) else n
  }

  /** The date after the pass: a truthy one is read and written back by the host, and
      becomes null when the host cannot read it. */
  function CheckedDate(date: Option<string>, isoDay: string -> Option<string>): (r: Option<string>)
    ensures !TextTruthy(date) ==> r == date
  {
    if TextTruthy(date) then isoDay(date.value) else date
  }

  /** The gst amount after the pass: `total - subtotal` when none was found and both are. */
  function DerivedGst(gstAmount: Option<real>, subtotal: Option<real>, totalAmount: Option<real>): (g: Option<real>)
    ensures NumTruthy(gstAmount) ==> g == gstAmount
    ensures !NumTruthy(gstAmount) && NumTruthy(subtotal) && NumTruthy(totalAmount)
            ==> g.Some? && g.value + subtotal.value == totalAmount.value
    ensures !(NumTruthy(subtotal) && NumTruthy(totalAmount)) ==> g == gstAmount
  {
    if !NumTruthy(gstAmount) && NumTruthy(subtotal) && NumTruthy(totalAmount)
    then Some(totalAmount.value - subtotal.value)
    else gstAmount
  }

  /** The rate after the pass: with a truthy gst amount and a positive subtotal, the standard
      slab nearest to the rounded percentage; otherwise the rate as it was. */
  function DerivedRate(gstAmount: Option<real>, subtotal: Option<real>, gstRate: Option<int>): (r: Option<int>)
    ensures NumTruthy(gstAmount) && subtotal.Some? && subtotal.value > 0.0 ==> r.Some? && r.value in StandardRates
    ensures !(NumTruthy(gstAmount) && subtotal.Some? && subtotal.value > 0.0) ==> r == gstRate
  {
    if NumTruthy(gstAmount) && NumTruthy(subtotal) && subtotal.value > 0.0
    then Some(GstRateOf(gstAmount.value, subtotal.value))
    else gstRate
  }

  /** A vendor or customer name after the pass: a truthy one is cleaned. */
  function CleanedName(name: Option<string>): Option<string> {
    if TextTruthy(name) then Some(CleanBusinessName(name.value)) else name
  }

  function CleanParty(p: PartyInfo): PartyInfo {
    p.(name := CleanedName(p.name))
  }

  /** A name cleaned twice is cleaned once. */
  lemma CleanedNameIdempotent(name: Option<string>)
    ensures CleanedName(CleanedName(name)) == CleanedName(name)
  {
    if TextTruthy(name) {
      CleanBusinessNameIdempotent(name.value);
    }
  }

  /** The record value `postProcessExtractedData` returns for the record value `d`.
      `isoDay` stands for `new Date(date)` followed by `toISOString().split('T')[0]`,
      with `None` for a date the host cannot read. */
  function PostProcessed(d: InvoiceData, isoDay: string -> Option<string>): (r: InvoiceData)
    ensures r.totalAmount == d.totalAmount && r.subtotal == d.subtotal && r.gstin == d.gstin
    ensures r.items == d.items
    ensures r.gstRate == d.gstRate || (r.gstRate.Some? && r.gstRate.value in StandardRates)
  {
    var gst := DerivedGst(d.gstAmount, d.subtotal, d.totalAmount);
    d.(invoiceNumber := CleanedNumber(d.invoiceNumber),
       date := CheckedDate(d.date, isoDay),
       gstAmount := gst,
       gstRate := DerivedRate(gst, d.subtotal, d.gstRate),
       vendor := CleanParty(d.vendor),
       customer := CleanParty(d.customer))
  }

  /** Truthy vendor and customer names come out clean: single-spaced capitalised words of
      the kept characters; addresses and contacts are left alone. */
  lemma PostProcessedNames(d: InvoiceData, isoDay: string -> Option<string>)
    ensures var r := PostProcessed(d, isoDay);
      && (TextTruthy(d.vendor.name) ==> r.vendor.name.Some? && CleanName(r.vendor.name.value))
      && (TextTruthy(d.customer.name) ==> r.customer.name.Some? && CleanName(r.customer.name.value))
      && r.vendor.address == d.vendor.address && r.vendor.contact == d.vendor.contact
      && r.customer.address == d.customer.address && r.customer.contact == d.customer.contact
  {
    if TextTruthy(d.vendor.name) {
      CleanBusinessNameIsClean(d.vendor.name.value);
    }
    if TextTruthy(d.customer.name) {
      CleanBusinessNameIsClean(d.customer.name.value);
    }
  }

  /** A subtotal of 1000 and a total of 1180 with no gst amount give a gst amount of 180 and
      the 18% slab. */
  lemma PostProcessedDerivesRate(d: InvoiceData, isoDay: string -> Option<string>)
    requires d.subtotal == Some(1000.0) && d.totalAmount == Some(1180.0) && d.gstAmount == None
    ensures PostProcessed(d, isoDay).gstAmount == Some(180.0)
    ensures PostProcessed(d, isoDay).gstRate == Some(18)
  {
    assert 180.0 / 1000.0 * 100.0 == 18.0;
    assert Round(18.0) == 18;
    SnapRateStandard(18);
  }

  /** A derived gst amount that is negative (a total below the subtotal) still snaps to a
      slab: the 0% one. */
  lemma PostProcessedNegativeGst(d: InvoiceData, isoDay: string -> Option<string>)
    requires d.subtotal.Some? && d.subtotal.value > 0.0
    requires d.totalAmount.Some? && 0.0 < d.totalAmount.value < d.subtotal.value
    requires !NumTruthy(d.gstAmount)
    ensures PostProcessed(d, isoDay).gstRate == Some(0)
  {
    var g := DerivedGst(d.gstAmount, d.subtotal, d.totalAmount);
    assert g == Some(d.totalAmount.value - d.subtotal.value);
    var x := g.value / d.subtotal.value * 100.0;
    NegativeShare(g.value, d.subtotal.value);
    RoundNonPositive(x);
    SnapRateNonPositive(Round(x));
    assert GstRateOf(g.value, d.subtotal.value) == 0;
  }

  lemma NegativeShare(g: real, s: real)
    requires s > 0.0 && -s < g < 0.0
    ensures g / s * 100.0 < 0.0
  {
    assert g / s < 0.0;
  }

  lemma RoundNonPositive(x: real)
    requires x < 0.0
    ensures Round(x) <= 0
  {
  }

  /** Any percentage at or below zero snaps to the 0% slab. */
  lemma SnapRateNonPositive(pct: int)
    requires pct <= 0
    ensures SnapRate(pct) == 0
  {
    SnapRateNearest(pct, 0);
    var c := SnapRate(pct);
    assert c in StandardRates;
    assert Abs(c - pct) <= Abs(0 - pct);
  }

  /** The pass is idempotent, given that reading back a date it wrote gives that date. */
  lemma PostProcessedIdempotent(d: InvoiceData, isoDay: string -> Option<string>)
    requires forall x :: isoDay(x).Some? ==> isoDay(isoDay(x).value) == isoDay(x)
    ensures PostProcessed(PostProcessed(d, isoDay), isoDay) == PostProcessed(d, isoDay)
  {
    var r := PostProcessed(d, isoDay);
    if TextTruthy(d.invoiceNumber) {
      CleanInvoiceNumberIdempotent(d.invoiceNumber.value);
    }
    CleanedNameIdempotent(d.vendor.name);
    CleanedNameIdempotent(d.customer.name);
    assert DerivedGst(r.gstAmount, r.subtotal, r.totalAmount) == r.gstAmount;
  }

  /** `postProcessExtractedData(data)`: `{ ...data }` is a fresh record sharing `data`'s party
      objects, so cleaning the names on the copy cleans them on `data` too; `data`'s own
      fields stay as they were. Each `if (field) field = ...` step is one of the functions
      above. */
  method PostProcess(data: Invoice, isoDay: string -> Option<string>) returns (processed: Invoice)
    modifies data.vendorInfo, data.customerInfo
    ensures fresh(processed)
    ensures processed.vendorInfo == data.vendorInfo && processed.customerInfo == data.customerInfo
    ensures processed.Data() == PostProcessed(old(data.Data()), isoDay)
    ensures unchanged(data)
  {
    processed := new Invoice.Copy(data);
    processed.invoiceNumber := CleanedNumber(processed.invoiceNumber);
    processed.date := CheckedDate(processed.date, isoDay);
    processed.gstAmount := DerivedGst(processed.gstAmount, processed.subtotal, processed.totalAmount);
    processed.gstRate := DerivedRate(processed.gstAmount, processed.subtotal, processed.gstRate);
    CleanNames(processed.vendorInfo, processed.customerInfo);
  }

  /** The last two steps of the pass, on the party objects, which may be one object. */
  method CleanNames(vendor: Party, customer: Party)
    modifies vendor, customer
    ensures vendor.Info() == CleanParty(old(vendor.Info()))
    ensures customer.Info() == CleanParty(old(customer.Info()))
  {
    ghost var name := vendor.name;
    vendor.name := CleanedName(vendor.name);
    customer.name := CleanedName(customer.name);
    if vendor == customer {
      CleanedNameIdempotent(name);
    }
  }
}
