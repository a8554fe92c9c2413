/** The GST calculator (voice-accounting-system/gst-calculator.js): tax on one amount,
    the reverse calculation from a tax-inclusive total, tax on a list of line items,
    transaction summaries with per-rate buckets, the quarterly return netting, GSTIN
    validation and the GSTR-1 B2B/B2C split. Money is exact rational arithmetic. */
module GstCalculator {
  import opened Maybe
  import opened JsString

  // ---------------------------------------------------------------------------
  // Rates and calculation methods
  // ---------------------------------------------------------------------------

  /** A rate as a caller passes it: a number, a text such as "18%", or a missing value. */
  datatype RateInput = NumberRate(n: real) | TextRate(s: string) | NoRate

  /** parseGSTRate: a number is kept, a text loses its first '%' and is parsed (18 when it
      does not parse), anything else is 18. */
  function ParseGstRate(r: RateInput): real {
    match r
    case TextRate(s) => ParseFloat(ReplaceFirst(s, "%", "")).GetOr(18.0)
    case NumberRate(n) => n
    case NoRate => 18.0
  }

  /** A number is taken as it is, and a missing rate is 18. */
  lemma ParseGstRateNonText(r: RateInput)
    ensures r.NumberRate? ==> ParseGstRate(r) == r.n
    ensures r.NoRate? ==> ParseGstRate(r) == 18.0
  {
  }

  /** A rate written as digits and a percent sign reads as that number. */
  lemma ParseGstRatePercentText(n: nat)
    ensures ParseGstRate(TextRate(NatToString(n) + "%")) == n as real
  {
    var d := NatToString(n);
    var s := d + "%";
    assert OccursAt(s, "%", |d|);
    forall j | 0 <= j < |d| ensures !OccursAt(s, "%", j) {
      assert s[j..j + 1][0] == d[j];
    }
    IndexOfFirst(s, "%", |d|);
    assert s[..|d|] == d && s[|d| + 1..] == [];
    assert ReplaceFirst(s, "%", "") == d;
    ParseFloatOfDigits(d, []);
    assert d + [] == d;
    NatToStringValue(n);
  }

  /** A text that does not start with a number falls back to 18. */
  lemma ParseGstRateFallback(s: string)
    requires s != [] && IsLetter(s[0])
    ensures ParseGstRate(TextRate(s)) == 18.0
  {
    var r := ReplaceFirst(s, "%", "");
    if IndexOf(s, "%").Some? {
      var p := IndexOf(s, "%").value;
      assert p != 0 by {
        assert s[p..p + 1][0] == s[p];
      }
      assert r[0] == s[0];
    }
    ParseFloatOfWord(r);
  }

  /** JavaScript falsiness of a rate value (`0`, `""`, `undefined`). */
  predicate Falsy(r: RateInput) {
    r == NumberRate(0.0) || r == TextRate("") || r == NoRate
  }

  /** The rate an item or transaction is taxed at: `parseGSTRate(gstRate || 18)`. */
  function ItemRate(r: RateInput): real {
    ParseGstRate(if Falsy(r) then NumberRate(18.0) else r)
  }

  datatype ComponentRate = ComponentRate(name: string, rate: real)
  datatype CalculationMethod = CalculationMethod(name: string, description: string, components: seq<ComponentRate>)

  /** The table `calculationMethods`: component rates are fixed, not derived from the rate. */
  function LookupMethod(key: string): Option<CalculationMethod> {
    if key == "cgst_sgst" then
      Some(CalculationMethod("CGST + SGST", "For intra-state transactions",
        [ComponentRate("CGST", 9.0), ComponentRate("SGST", 9.0)]))
    else if key == "igst" then
      Some(CalculationMethod("IGST", "For inter-state transactions", [ComponentRate("IGST", 18.0)]))
    else None
  }

  function RateTotal(cs: seq<ComponentRate>): real {
    if cs == [] then 0.0 else RateTotal(cs[..|cs| - 1]) + cs[|cs| - 1].rate
  }

  /** Both methods' component rates add up to 18. */
  lemma MethodRatesTotal18(key: string)
    requires LookupMethod(key).Some?
    ensures RateTotal(LookupMethod(key).value.components) == 18.0
  {
    var cs := LookupMethod(key).value.components;
    if key == "cgst_sgst" {
      assert cs[..1] == [ComponentRate("CGST", 9.0)];
      assert cs[..1][..0] == [];
    } else {
      assert cs[..0] == [];
    }
  }

  /** The share `part / whole` of a tax. */
  function Portion(tax: real, part: real, whole: real): real
    requires whole != 0.0
  {
    tax * part / whole
  }

  /** Sharing a tax in proportion to two rates adds up to sharing it by their sum. */
  lemma PortionAdd(tax: real, a: real, b: real, whole: real)
    requires whole != 0.0
    ensures Portion(tax, a, whole) + Portion(tax, b, whole) == Portion(tax, a + b, whole)
  {
    assert tax * (a + b) == tax * a + tax * b;
  }

  lemma PortionAddTax(a: real, b: real, part: real, whole: real)
    requires whole != 0.0
    ensures Portion(a, part, whole) + Portion(b, part, whole) == Portion(a + b, part, whole)
  {
    assert (a + b) * part == a * part + b * part;
  }

  lemma DivOfProduct(x: real, a: real, b: real)
    requires b != 0.0 && x == a * b
    ensures x / b == a
  {
  }

  // ---------------------------------------------------------------------------
  // calculate / reverseCalculate
  // ---------------------------------------------------------------------------

  /** One output component; `amount` is `None` where JavaScript computes NaN (0 / 0). */
  datatype TaxComponent = TaxComponent(name: string, rate: real, amount: Option<real>)
  datatype Breakdown = Breakdown(subtotal: real, gst: real, total: real)
  datatype Calculation = Calculation(
    originalAmount: real, gstRate: real, gstAmount: real, totalAmount: real,
    methodName: string, components: seq<TaxComponent>, breakdown: Breakdown)

  /** `gstAmount * componentRate / rate`; NaN (None) when the rate is 0. */
  function ComponentAmount(gst: real, componentRate: real, rate: real): Option<real> {
    if rate == 0.0 then None else Some(Portion(gst, componentRate, rate))
  }

  function SplitComponents(cs: seq<ComponentRate>, gst: real, rate: real): (r: seq<TaxComponent>)
    ensures |r| == |cs|
    ensures forall i :: 0 <= i < |cs| ==> r[i] == TaxComponent(cs[i].name, cs[i].rate, ComponentAmount(gst, cs[i].rate, rate))
  {
    seq(|cs|, i requires 0 <= i < |cs| =>
      TaxComponent(cs[i].name, cs[i].rate, ComponentAmount(gst, cs[i].rate, rate)))
  }

  /** calculate(amount, gstRate, methodKey): the rate is parsed once, then the tax worked out
      at that number. */
  function Calculate(amount: real, gstRate: RateInput, methodKey: string): (r: Result<Calculation>)
    ensures amount <= 0.0 ==> r == Err("Amount must be greater than zero")
    ensures amount > 0.0 && LookupMethod(methodKey).None? ==> r == Err("Invalid calculation method")
    ensures r.Ok? <==> amount > 0.0 && LookupMethod(methodKey).Some?
    ensures r.Ok? ==>
      var c := r.value;
      var rate := ParseGstRate(gstRate);
      && c.originalAmount == amount && c.gstRate == rate
      && c.totalAmount == amount * (100.0 + rate) / 100.0
      && c.totalAmount - c.gstAmount == amount
      && c.methodName == LookupMethod(methodKey).value.name
      && c.breakdown == Breakdown(amount, c.gstAmount, c.totalAmount)
      && c.components == SplitComponents(LookupMethod(methodKey).value.components, c.gstAmount, rate)
  {
    CalculateAt(amount, ParseGstRate(gstRate), methodKey)
  }

  /** The body of `calculate` once the rate is a number. */
  function CalculateAt(amount: real, rate: real, methodKey: string): (r: Result<Calculation>)
    ensures r.Ok? <==> amount > 0.0 && LookupMethod(methodKey).Some?
    ensures r.Ok? ==>
      var c := r.value;
      && c.originalAmount == amount && c.gstRate == rate
      && c.totalAmount == amount * (100.0 + rate) / 100.0
      && c.totalAmount - c.gstAmount == amount
      && c.methodName == LookupMethod(methodKey).value.name
      && c.breakdown == Breakdown(amount, c.gstAmount, c.totalAmount)
      && c.components == SplitComponents(LookupMethod(methodKey).value.components, c.gstAmount, rate)
  {
    if amount <= 0.0 then Err("Amount must be greater than zero")
    else
      match LookupMethod(methodKey)
      case None => Err("Invalid calculation method")
      case Some(m) =>
        var gstAmount := (amount * rate) / 100.0;
        var totalAmount := amount + gstAmount;
        Ok(Calculation(amount, rate, gstAmount, totalAmount, m.name,
          SplitComponents(m.components, gstAmount, rate),
          Breakdown(amount, gstAmount, totalAmount)))
  }

  function ComponentSum(cs: seq<TaxComponent>): Option<real> {
    if cs == [] then Some(0.0)
    else
      match (ComponentSum(cs[..|cs| - 1]), cs[|cs| - 1].amount)
      case (Some(a), Some(b)) => Some(a + b)
      case _ => None
  }

  lemma {:induction false} SplitComponentsSum(cs: seq<ComponentRate>, gst: real, rate: real)
    requires rate != 0.0
    ensures ComponentSum(SplitComponents(cs, gst, rate)) == Some(Portion(gst, RateTotal(cs), rate))
  {
    if cs != [] {
      var n := |cs| - 1;
      assert SplitComponents(cs, gst, rate)[..n] == SplitComponents(cs[..n], gst, rate);
      SplitComponentsSum(cs[..n], gst, rate);
      PortionAdd(gst, RateTotal(cs[..n]), cs[n].rate, rate);
    }
  }

  /** The components of `calculate` add up to `gstAmount * 18 / rate`: they equal the tax
      exactly when the rate is 18, whatever the method. */
  lemma CalculateComponentsSum(amount: real, gstRate: RateInput, methodKey: string)
    requires Calculate(amount, gstRate, methodKey).Ok?
    requires ParseGstRate(gstRate) != 0.0
    ensures var c := Calculate(amount, gstRate, methodKey).value;
      ComponentSum(c.components) == Some(Portion(c.gstAmount, 18.0, c.gstRate))
      && (ComponentSum(c.components) == Some(c.gstAmount) <==> c.gstRate == 18.0)
  {
    ComponentsSumAt(amount, ParseGstRate(gstRate), methodKey);
  }

  lemma ComponentsSumAt(amount: real, rate: real, methodKey: string)
    requires CalculateAt(amount, rate, methodKey).Ok? && rate != 0.0
    ensures var c := CalculateAt(amount, rate, methodKey).value;
      ComponentSum(c.components) == Some(Portion(c.gstAmount, 18.0, rate))
      && (ComponentSum(c.components) == Some(c.gstAmount) <==> rate == 18.0)
  {
    var c := CalculateAt(amount, rate, methodKey).value;
    var m := LookupMethod(methodKey).value;
    MethodRatesTotal18(methodKey);
    SplitComponentsSum(m.components, c.gstAmount, rate);
    assert c.gstAmount == amount * rate / 100.0;
    assert c.gstAmount != 0.0;
    PortionWhole(c.gstAmount, 18.0, rate);
  }

  /** A non-zero tax is its own share exactly when the part is the whole. */
  lemma PortionWhole(tax: real, part: real, whole: real)
    requires whole != 0.0 && tax != 0.0
    ensures Portion(tax, part, whole) == tax <==> part == whole
  {
    if Portion(tax, part, whole) == tax {
      assert tax * part == tax * whole;
    }
  }

  /** At a 0% rate every component is NaN, since the source divides by the rate. */
  lemma CalculateZeroRateComponents(amount: real, gstRate: RateInput, methodKey: string)
    requires Calculate(amount, gstRate, methodKey).Ok?
    requires ParseGstRate(gstRate) == 0.0
    ensures var c := Calculate(amount, gstRate, methodKey).value;
      c.gstAmount == 0.0 && |c.components| > 0
      && forall i :: 0 <= i < |c.components| ==> c.components[i].amount.None?
  {
    ZeroRateComponents(amount, methodKey);
  }

  lemma ZeroRateComponents(amount: real, methodKey: string)
    requires CalculateAt(amount, 0.0, methodKey).Ok?
    ensures var c := CalculateAt(amount, 0.0, methodKey).value;
      c.gstAmount == 0.0 && |c.components| > 0
      && forall i :: 0 <= i < |c.components| ==> c.components[i].amount.None?
  {
  }

  /** The worked example: 10000 at 18% intra-state is 900 CGST + 900 SGST. */
  lemma CalculateExample()
    ensures Calculate(10000.0, NumberRate(18.0), "cgst_sgst") == Ok(Calculation(
      10000.0, 18.0, 1800.0, 11800.0, "CGST + SGST",
      [TaxComponent("CGST", 9.0, Some(900.0)), TaxComponent("SGST", 9.0, Some(900.0))],
      Breakdown(10000.0, 1800.0, 11800.0)))
  {
    var c := Calculate(10000.0, NumberRate(18.0), "cgst_sgst").value;
    assert c.components[0] == TaxComponent("CGST", 9.0, Some(900.0));
    assert c.components[1] == TaxComponent("SGST", 9.0, Some(900.0));
    assert c.components == [TaxComponent("CGST", 9.0, Some(900.0)), TaxComponent("SGST", 9.0, Some(900.0))];
  }

  /** reverseCalculate: the base is `total * 100 / (100 + rate)`, then calculate on it. */
  function ReverseCalculate(totalAmount: real, gstRate: RateInput, methodKey: string): (r: Result<Calculation>)
    requires ParseGstRate(gstRate) != -100.0
    ensures r.Ok? ==> r.value.totalAmount == totalAmount
    ensures r.Ok? <==> totalAmount * 100.0 / (100.0 + ParseGstRate(gstRate)) > 0.0
                       && LookupMethod(methodKey).Some?
  {
    var rate := ParseGstRate(gstRate);
    var baseAmount := (totalAmount * 100.0) / (100.0 + rate);
    ReverseTotal(totalAmount, rate, methodKey);
    Calculate(baseAmount, gstRate, methodKey)
  }

  /** Calculating on the recovered base gives back the total it was recovered from. */
  lemma ReverseTotal(totalAmount: real, rate: real, methodKey: string)
    requires rate != -100.0
    ensures var r := CalculateAt((totalAmount * 100.0) / (100.0 + rate), rate, methodKey);
      r.Ok? ==> r.value.totalAmount == totalAmount
  {
    var baseAmount := (totalAmount * 100.0) / (100.0 + rate);
    var r := CalculateAt(baseAmount, rate, methodKey);
    if r.Ok? {
      assert r.value.totalAmount == baseAmount * (100.0 + rate) / 100.0;
      assert baseAmount * (100.0 + rate) == totalAmount * 100.0;
    }
  }

  /** Round trip: reversing the total of a calculation recovers the original amount. */
  lemma ReverseOfCalculate(amount: real, gstRate: RateInput, methodKey: string)
    requires Calculate(amount, gstRate, methodKey).Ok?
    requires ParseGstRate(gstRate) != -100.0
    ensures var c := Calculate(amount, gstRate, methodKey).value;
      ReverseCalculate(c.totalAmount, gstRate, methodKey) == Ok(c)
  {
    ReverseBase(amount, ParseGstRate(gstRate), methodKey);
  }

  /** The base recovered from a calculation's total is the amount it started from. */
  lemma ReverseBase(amount: real, rate: real, methodKey: string)
    requires CalculateAt(amount, rate, methodKey).Ok?
    requires rate != -100.0
    ensures CalculateAt(amount, rate, methodKey).value.totalAmount * 100.0 / (100.0 + rate) == amount
  {
    var c := CalculateAt(amount, rate, methodKey).value;
    assert c.totalAmount * 100.0 == amount * (100.0 + rate);
    DivOfProduct(c.totalAmount * 100.0, amount, 100.0 + rate);
  }

  // ---------------------------------------------------------------------------
  // calculateForItems
  // ---------------------------------------------------------------------------

  datatype Item = Item(description: string, amount: real, gstRate: RateInput)
  datatype ItemDetail = ItemDetail(description: string, amount: real, gstRate: real, gstAmount: real, totalAmount: real)
  datatype ItemsSummary = ItemsSummary(subtotal: real, gst: real, total: real)
  /** `averageGstRate` is `None` where the source divides by a zero subtotal (NaN or Infinity). */
  datatype ItemsBreakdown = ItemsBreakdown(itemCount: nat, averageGstRate: Option<real>)
  datatype ItemsCalculation = ItemsCalculation(
    items: seq<ItemDetail>, summary: ItemsSummary, methodName: string,
    components: seq<TaxComponent>, breakdown: ItemsBreakdown)

  /** One item's detail: its own rate (a falsy rate counts as 18), tax and total. */
  function DetailOf(item: Item): ItemDetail {
    var rate := ItemRate(item.gstRate);
    var gst := Portion(item.amount, rate, 100.0);
    ItemDetail(item.description, item.amount, rate, gst, item.amount + gst)
  }

  /** The item details, in input order. */
  function Details(items: seq<Item>): seq<ItemDetail> {
    if items == [] then [] else Details(items[..|items| - 1]) + [DetailOf(items[|items| - 1])]
  }

  /** The details keep the input's length and order, one per item. */
  lemma {:induction false} DetailsInOrder(items: seq<Item>)
    ensures |Details(items)| == |items|
    ensures forall i :: 0 <= i < |items| ==> Details(items)[i] == DetailOf(items[i])
  {
    if items != [] {
      var n := |items| - 1;
      DetailsInOrder(items[..n]);
      assert forall i :: 0 <= i < n ==> items[..n][i] == items[i];
    }
  }

  function SumAmounts(items: seq<Item>): real {
    if items == [] then 0.0 else SumAmounts(items[..|items| - 1]) + items[|items| - 1].amount
  }

  function SumItemGst(items: seq<Item>): real {
    if items == [] then 0.0 else SumItemGst(items[..|items| - 1]) + DetailOf(items[|items| - 1]).gstAmount
  }

  /** The components of the multi-item result: `totalGST * componentRate / 18`. */
  function ItemsComponents(cs: seq<ComponentRate>, totalGst: real): (r: seq<TaxComponent>)
    ensures |r| == |cs|
    ensures forall i :: 0 <= i < |cs| ==> r[i] == TaxComponent(cs[i].name, cs[i].rate, Some(Portion(totalGst, cs[i].rate, 18.0)))
  {
    seq(|cs|, i requires 0 <= i < |cs| => TaxComponent(cs[i].name, cs[i].rate, Some(Portion(totalGst, cs[i].rate, 18.0))))
  }

  /** calculateForItems: the loop over the items, then the components of the method. An
      unknown method is the TypeError the source raises on `undefined.components`. */
  method CalculateForItems(items: seq<Item>, methodKey: string) returns (r: Result<ItemsCalculation>)
    ensures r.Err? <==> LookupMethod(methodKey).None?
    ensures r.Ok? ==>
      var c := r.value;
      && c.items == Details(items)
      && c.summary == ItemsSummary(SumAmounts(items), SumItemGst(items), SumAmounts(items) + SumItemGst(items))
      && c.methodName == LookupMethod(methodKey).value.name
      && c.components == ItemsComponents(LookupMethod(methodKey).value.components, c.summary.gst)
      && c.breakdown.itemCount == |items|
      && c.breakdown.averageGstRate ==
           (if c.summary.subtotal == 0.0 then None else Some(c.summary.gst / c.summary.subtotal * 100.0))
  {
    var subtotal := 0.0;
    var totalGst := 0.0;
    var itemDetails: seq<ItemDetail> := [];
    var k := 0;
    while k < |items|
      invariant 0 <= k <= |items|
      invariant subtotal == SumAmounts(items[..k])
      invariant totalGst == SumItemGst(items[..k])
      invariant itemDetails == Details(items[..k])
    {
      var item := items[k];
      var rate := ParseGstRate(if Falsy(item.gstRate) then NumberRate(18.0) else item.gstRate);
      var itemGst := Portion(item.amount, rate, 100.0);
      var itemTotal := item.amount + itemGst;
      assert items[..k + 1][..k] == items[..k];
      subtotal := subtotal + item.amount;
      totalGst := totalGst + itemGst;
      itemDetails := itemDetails + [ItemDetail(item.description, item.amount, rate, itemGst, itemTotal)];
      k := k + 1;
    }
    assert items[..k] == items;
    assert subtotal == SumAmounts(items) && totalGst == SumItemGst(items);
    var totalAmount := subtotal + totalGst;
    match LookupMethod(methodKey)
    case None =>
      r := Err("TypeError: Cannot read properties of undefined (reading 'components')");
    case Some(m) =>
      var components := ItemsComponents(m.components, totalGst);
      var average := if subtotal == 0.0 then None else Some(totalGst / subtotal * 100.0);
      var summary := ItemsSummary(subtotal, totalGst, totalAmount);
      assert summary == ItemsSummary(SumAmounts(items), SumItemGst(items), SumAmounts(items) + SumItemGst(items));
      r := Ok(ItemsCalculation(itemDetails, summary, m.name, components, ItemsBreakdown(|items|, average)));
  }

  lemma {:induction false} ItemsComponentsSum(cs: seq<ComponentRate>, totalGst: real)
    ensures ComponentSum(ItemsComponents(cs, totalGst)) == Some(Portion(totalGst, RateTotal(cs), 18.0))
  {
    if cs != [] {
      var n := |cs| - 1;
      assert ItemsComponents(cs, totalGst)[..n] == ItemsComponents(cs[..n], totalGst);
      ItemsComponentsSum(cs[..n], totalGst);
      PortionAdd(totalGst, RateTotal(cs[..n]), cs[n].rate, 18.0);
    }
  }

  /** Because the multi-item components divide by 18 and the fixed component rates add up
      to 18, they always sum to the total tax, whatever rates the items carry. */
  lemma ItemsComponentsAddUp(cs: seq<ComponentRate>, totalGst: real, methodKey: string)
    requires LookupMethod(methodKey).Some? && cs == LookupMethod(methodKey).value.components
    ensures ComponentSum(ItemsComponents(cs, totalGst)) == Some(totalGst)
  {
    MethodRatesTotal18(methodKey);
    ItemsComponentsSum(cs, totalGst);
    assert Portion(totalGst, 18.0, 18.0) == totalGst;
  }

  /** When every item carries the same effective rate, the tax is that rate of the subtotal. */
  lemma {:induction false} UniformRateGst(items: seq<Item>, rate: real)
    requires forall i :: 0 <= i < |items| ==> ItemRate(items[i].gstRate) == rate
    ensures SumItemGst(items) == Portion(SumAmounts(items), rate, 100.0)
  {
    if items != [] {
      var n := |items| - 1;
      UniformRateGst(items[..n], rate);
      PortionAddTax(SumAmounts(items[..n]), items[n].amount, rate, 100.0);
    }
  }

  /** ... so the average rate reported is that rate (when the subtotal is not zero). */
  lemma UniformRateAverage(items: seq<Item>, rate: real)
    requires forall i :: 0 <= i < |items| ==> ItemRate(items[i].gstRate) == rate
    requires SumAmounts(items) != 0.0
    ensures SumItemGst(items) / SumAmounts(items) * 100.0 == rate
  {
    UniformRateGst(items, rate);
    var subtotal := SumAmounts(items);
    assert Portion(subtotal, rate, 100.0) / subtotal == rate / 100.0;
  }

  // ---------------------------------------------------------------------------
  // getGSTRateForCategory / validateGSTIN
  // ---------------------------------------------------------------------------

  /** getGSTRateForCategory: food and books map to 0, which is falsy, so they fall through
      to the default 18 like an unknown category. */
  function CategoryRate(category: string): (r: real)
    ensures r == 5.0 || r == 18.0 || r == 28.0
    ensures r == 5.0 <==> ToLower(category) == "clothing"
    ensures r == 28.0 <==> ToLower(category) == "luxury"
  {
    var key := ToLower(category);
    var table: real :=
      if key == "food" || key == "books" then 0.0
      else if key == "clothing" then 5.0
      else if key == "electronics" || key == "services" then 18.0
      else if key == "luxury" then 28.0
      else if key == "default" then 18.0
      else 0.0;
    if table != 0.0 then table else 18.0
  }

  /** One position of the GSTIN pattern. */
  datatype CharClass = Digit | Upper | NonZeroDigitOrUpper | Literal(c: char) | DigitOrUpper

  predicate InClass(c: char, k: CharClass) {
    match k
    case Digit => IsDigit(c)
    case Upper => IsUpper(c)
    case NonZeroDigitOrUpper => ('1' <= c <= '9') || IsUpper(c)
    case Literal(l) => c == l
    case DigitOrUpper => IsDigit(c) || IsUpper(c)
  }

  /** `^[0-9]{2}[A-Z]{5}[0-9]{4}[A-Z]{1}[1-9A-Z]{1}Z[0-9A-Z]{1}$` as a sequence of classes. */
  const GstinPattern: seq<CharClass> :=
    [Digit, Digit, Upper, Upper, Upper, Upper, Upper, Digit, Digit, Digit, Digit,
     Upper, NonZeroDigitOrUpper, Literal('Z'), DigitOrUpper]

  /** An anchored match of a fixed-width pattern, one character per class. */
  predicate MatchesAnchored(s: string, pattern: seq<CharClass>) {
    if pattern == [] then s == []
    else s != [] && InClass(s[0], pattern[0]) && MatchesAnchored(s[1..], pattern[1..])
  }

  /** validateGSTIN. */
  predicate ValidateGstin(gstin: string): (ok: bool)
    ensures ok ==> |gstin| == 15
  {
    MatchesAnchoredIff(gstin, GstinPattern);
    MatchesAnchored(gstin, GstinPattern)
  }

  lemma {:induction false} MatchesAnchoredIff(s: string, pattern: seq<CharClass>)
    ensures MatchesAnchored(s, pattern) <==>
      |s| == |pattern| && forall i :: 0 <= i < |s| ==> InClass(s[i], pattern[i])
  {
    if pattern != [] && s != [] {
      MatchesAnchoredIff(s[1..], pattern[1..]);
      if |s| == |pattern| && forall i :: 0 <= i < |s| ==> InClass(s[i], pattern[i]) {
        forall i | 0 <= i < |s| - 1 ensures InClass(s[1..][i], pattern[1..][i]) {
          assert InClass(s[i + 1], pattern[i + 1]);
        }
      }
      if MatchesAnchored(s, pattern) {
        forall i | 0 <= i < |s| ensures InClass(s[i], pattern[i]) {
          if i > 0 {
            assert InClass(s[1..][i - 1], pattern[1..][i - 1]);
          }
        }
      }
    }
  }

  /** The GSTIN layout position by position: 2 digits, 5 capitals, 4 digits, a capital,
      a character from [1-9A-Z], the letter Z and a character from [0-9A-Z]. */
  lemma ValidateGstinLayout(g: string)
    ensures ValidateGstin(g) <==>
      && |g| == 15
      && (forall i :: 0 <= i < 2 ==> IsDigit(g[i]))
      && (forall i :: 2 <= i < 7 ==> IsUpper(g[i]))
      && (forall i :: 7 <= i < 11 ==> IsDigit(g[i]))
      && IsUpper(g[11])
      && (('1' <= g[12] <= '9') || IsUpper(g[12]))
      && g[13] == 'Z'
      && (IsDigit(g[14]) || IsUpper(g[14]))
  {
    MatchesAnchoredIff(g, GstinPattern);
    LayoutByClasses(g, GstinPattern);
  }

  /** The positions' classes, read off a pattern laid out as the GSTIN's. */
  lemma LayoutByClasses(g: string, p: seq<CharClass>)
    requires p == GstinPattern
    ensures (|g| == |p| && forall i :: 0 <= i < |g| ==> InClass(g[i], p[i])) <==>
      && |g| == 15
      && (forall i :: 0 <= i < 2 ==> IsDigit(g[i]))
      && (forall i :: 2 <= i < 7 ==> IsUpper(g[i]))
      && (forall i :: 7 <= i < 11 ==> IsDigit(g[i]))
      && IsUpper(g[11])
      && (('1' <= g[12] <= '9') || IsUpper(g[12]))
      && g[13] == 'Z'
      && (IsDigit(g[14]) || IsUpper(g[14]))
  {
    assert |p| == 15;
    assert forall i :: 0 <= i < 2 ==> p[i] == Digit;
    assert forall i :: 2 <= i < 7 ==> p[i] == Upper;
    assert forall i :: 7 <= i < 11 ==> p[i] == Digit;
    assert p[11] == Upper && p[12] == NonZeroDigitOrUpper && p[13] == Literal('Z') && p[14] == DigitOrUpper;
  }

  lemma ValidGstinExample()
    ensures ValidateGstin("27AAAAA0000A1Z5")
  {
    var g := "27AAAAA0000A1Z5";
    assert |g| == |GstinPattern|;
    forall i | 0 <= i < |g| ensures InClass(g[i], GstinPattern[i]) {
      if i == 0 {} else if i == 1 {} else if i == 2 {} else if i == 3 {} else if i == 4 {}
      else if i == 5 {} else if i == 6 {} else if i == 7 {} else if i == 8 {} else if i == 9 {}
      else if i == 10 {} else if i == 11 {} else if i == 12 {} else if i == 13 {} else {}
    }
    MatchesAnchoredIff(g, GstinPattern);
  }

  lemma InvalidGstinExamples()
    ensures !ValidateGstin("27aaaaa0000a1z5")
    ensures !ValidateGstin("invalid")
  {
    MatchesAnchoredIff("27aaaaa0000a1z5", GstinPattern);
    assert !InClass("27aaaaa0000a1z5"[2], GstinPattern[2]);
    MatchesAnchoredIff("invalid", GstinPattern);
  }

  // ---------------------------------------------------------------------------
  // summarizeTransactions
  // ---------------------------------------------------------------------------

  datatype Transaction = Transaction(amount: Option<real>, gstAmount: Option<real>, gstRate: RateInput)
  /** One entry of `rateSummary`; the entries are kept in insertion order, as a JavaScript
      object keeps its keys. */
  datatype RateBucket = RateBucket(key: string, count: nat, amount: real, gst: real)
  datatype TransactionSummary = TransactionSummary(
    totalAmount: real, totalGst: real, totalWithGst: real,
    rateSummary: seq<RateBucket>, averageGstRate: real)

  /** `transaction.amount || 0` and `transaction.gstAmount || 0`. */
  function AmountOf(t: Transaction): real { t.amount.GetOr(0.0) }
  function GstOf(t: Transaction): real { t.gstAmount.GetOr(0.0) }

  /** The bucket key: the raw rate (18 when falsy) as text, followed by '%'. */
  function RateKey(r: RateInput): string {
    (if Falsy(r) then "18"
     else match r
       case NumberRate(n) => NumberToString(n)
       case TextRate(s) => s
       case NoRate => "18") + "%"
  }

  function FindBucket(buckets: seq<RateBucket>, key: string): (r: Option<nat>)
    ensures r.Some? ==> r.value < |buckets| && buckets[r.value].key == key
    ensures r.None? ==> forall i :: 0 <= i < |buckets| ==> buckets[i].key != key
  {
    if buckets == [] then None
    else if buckets[|buckets| - 1].key == key then Some(|buckets| - 1)
    else FindBucket(buckets[..|buckets| - 1], key)
  }

  /** What one transaction does to `rateSummary`: create the bucket of its key if absent,
      then count the transaction in it. */
  function AddToBuckets(buckets: seq<RateBucket>, key: string, amount: real, gst: real): seq<RateBucket> {
    match FindBucket(buckets, key)
    case Some(i) =>
      buckets[i := RateBucket(key, buckets[i].count + 1, buckets[i].amount + amount, buckets[i].gst + gst)]
    case None =>
      buckets + [RateBucket(key, 1, amount, gst)]
  }

  function AddTransaction(buckets: seq<RateBucket>, t: Transaction): seq<RateBucket> {
    AddToBuckets(buckets, RateKey(t.gstRate), AmountOf(t), GstOf(t))
  }

  function Buckets(ts: seq<Transaction>): seq<RateBucket> {
    if ts == [] then [] else AddTransaction(Buckets(ts[..|ts| - 1]), ts[|ts| - 1])
  }

  function TotalAmount(ts: seq<Transaction>): real {
    if ts == [] then 0.0 else TotalAmount(ts[..|ts| - 1]) + AmountOf(ts[|ts| - 1])
  }

  function TotalGst(ts: seq<Transaction>): real {
    if ts == [] then 0.0 else TotalGst(ts[..|ts| - 1]) + GstOf(ts[|ts| - 1])
  }

  /** The summary the loop of summarizeTransactions builds. */
  function Summary(ts: seq<Transaction>): TransactionSummary {
    var amount, gst := TotalAmount(ts), TotalGst(ts);
    TransactionSummary(amount, gst, amount + gst, Buckets(ts),
      if amount > 0.0 then (gst / amount) * 100.0 else 0.0)
  }

  /** The bucket step of summarizeTransactions: a zero bucket is created for a new key,
      then the transaction is counted into the bucket of its key. */
  method Tally(rateSummary: seq<RateBucket>, rateKey: string, amount: real, gstAmount: real)
    returns (r: seq<RateBucket>)
    ensures r == AddToBuckets(rateSummary, rateKey, amount, gstAmount)
  {
    r := rateSummary;
    var found := FindBucket(r, rateKey);
    var i: nat;
    if found.None? {
      r := r + [RateBucket(rateKey, 0, 0.0, 0.0)];
      i := |r| - 1;
    } else {
      i := found.value;
    }
    var b := r[i];
    r := r[i := RateBucket(rateKey, b.count + 1, b.amount + amount, b.gst + gstAmount)];
    if found.None? {
      UpdateLast(rateSummary, RateBucket(rateKey, 0, 0.0, 0.0), RateBucket(rateKey, 1, amount, gstAmount));
    }
  }

  /** summarizeTransactions. */
  method SummarizeTransactions(transactions: seq<Transaction>) returns (r: TransactionSummary)
    ensures r == Summary(transactions)
  {
    var totalAmount := 0.0;
    var totalGst := 0.0;
    var rateSummary: seq<RateBucket> := [];
    var k := 0;
    while k < |transactions|
      invariant 0 <= k <= |transactions|
      invariant totalAmount == TotalAmount(transactions[..k])
      invariant totalGst == TotalGst(transactions[..k])
      invariant rateSummary == Buckets(transactions[..k])
    {
      var t := transactions[k];
      SummaryStep(transactions, k);
      var amount := AmountOf(t);
      var gstAmount := GstOf(t);
      totalAmount := totalAmount + amount;
      totalGst := totalGst + gstAmount;
      rateSummary := Tally(rateSummary, RateKey(t.gstRate), amount, gstAmount);
      k := k + 1;
    }
    assert transactions[..k] == transactions;
    r := TransactionSummary(totalAmount, totalGst, totalAmount + totalGst, rateSummary,
      if totalAmount > 0.0 then (totalGst / totalAmount) * 100.0 else 0.0);
  }

  /** What one more transaction adds to the running totals and buckets. */
  lemma SummaryStep(ts: seq<Transaction>, k: nat)
    requires k < |ts|
    ensures TotalAmount(ts[..k + 1]) == TotalAmount(ts[..k]) + AmountOf(ts[k])
    ensures TotalGst(ts[..k + 1]) == TotalGst(ts[..k]) + GstOf(ts[k])
    ensures Buckets(ts[..k + 1]) == AddTransaction(Buckets(ts[..k]), ts[k])
  {
    assert ts[..k + 1][..k] == ts[..k];
  }

  lemma UpdateLast<T>(s: seq<T>, x: T, y: T)
    ensures (s + [x])[|s| := y] == s + [y]
  {
  }

  function CountSum(bs: seq<RateBucket>): nat {
    if bs == [] then 0 else CountSum(bs[..|bs| - 1]) + bs[|bs| - 1].count
  }

  function AmountSum(bs: seq<RateBucket>): real {
    if bs == [] then 0.0 else AmountSum(bs[..|bs| - 1]) + bs[|bs| - 1].amount
  }

  function BucketGstSum(bs: seq<RateBucket>): real {
    if bs == [] then 0.0 else BucketGstSum(bs[..|bs| - 1]) + bs[|bs| - 1].gst
  }

  /** Updating one bucket changes each column's sum by the difference at that bucket. */
  lemma {:induction false} SumsAfterUpdate(bs: seq<RateBucket>, i: nat, b: RateBucket)
    requires i < |bs|
    ensures CountSum(bs[i := b]) == CountSum(bs) - bs[i].count + b.count
    ensures AmountSum(bs[i := b]) == AmountSum(bs) - bs[i].amount + b.amount
    ensures BucketGstSum(bs[i := b]) == BucketGstSum(bs) - bs[i].gst + b.gst
  {
    var n := |bs| - 1;
    if i < n {
      assert bs[i := b][..n] == bs[..n][i := b];
      SumsAfterUpdate(bs[..n], i, b);
    } else {
      assert bs[i := b][..n] == bs[..n];
    }
  }

  lemma AddToBucketsSums(bs: seq<RateBucket>, key: string, amount: real, gst: real)
    ensures CountSum(AddToBuckets(bs, key, amount, gst)) == CountSum(bs) + 1
    ensures AmountSum(AddToBuckets(bs, key, amount, gst)) == AmountSum(bs) + amount
    ensures BucketGstSum(AddToBuckets(bs, key, amount, gst)) == BucketGstSum(bs) + gst
  {
    match FindBucket(bs, key)
    case Some(i) =>
      SumsAfterUpdate(bs, i, RateBucket(key, bs[i].count + 1, bs[i].amount + amount, bs[i].gst + gst));
    case None =>
      var r := bs + [RateBucket(key, 1, amount, gst)];
      assert r[..|r| - 1] == bs;
  }

  /** The buckets account for every transaction: their counts add up to the number of
      transactions, their amounts to totalAmount and their taxes to totalGST. */
  lemma {:induction false} BucketsAccountForAll(ts: seq<Transaction>)
    ensures CountSum(Buckets(ts)) == |ts|
    ensures AmountSum(Buckets(ts)) == TotalAmount(ts)
    ensures BucketGstSum(Buckets(ts)) == TotalGst(ts)
  {
    if ts != [] {
      var n := |ts| - 1;
      BucketsAccountForAll(ts[..n]);
      AddToBucketsSums(Buckets(ts[..n]), RateKey(ts[n].gstRate), AmountOf(ts[n]), GstOf(ts[n]));
    }
  }

  predicate DistinctKeys(bs: seq<RateBucket>) {
    forall i, j :: 0 <= i < j < |bs| ==> bs[i].key != bs[j].key
  }

  function KeyCount(ts: seq<Transaction>, key: string): nat {
    if ts == [] then 0
    else KeyCount(ts[..|ts| - 1], key) + (if RateKey(ts[|ts| - 1].gstRate) == key then 1 else 0)
  }

  /** Buckets have distinct keys, there is a bucket exactly for the keys that occur, and each
      bucket counts exactly the transactions with its key. */
  lemma {:induction false} BucketsByKey(ts: seq<Transaction>)
    ensures DistinctKeys(Buckets(ts))
    ensures forall i :: 0 <= i < |Buckets(ts)| ==> Buckets(ts)[i].count == KeyCount(ts, Buckets(ts)[i].key)
    ensures forall key :: KeyCount(ts, key) > 0 <==> FindBucket(Buckets(ts), key).Some?
  {
    if ts != [] {
      var n := |ts| - 1;
      BucketsByKey(ts[..n]);
      var bs := Buckets(ts[..n]);
      var key := RateKey(ts[n].gstRate);
      var r := Buckets(ts);
      assert r == AddToBuckets(bs, key, AmountOf(ts[n]), GstOf(ts[n]));
      var found := FindBucket(bs, key);
      // the bucket of the new transaction sits at p; every other bucket is unchanged
      var p: nat := if found.Some? then found.value else |bs|;
      assert p < |r| && r[p].key == key;
      assert forall j :: 0 <= j < |bs| ==> r[j].key == bs[j].key;
      assert forall j :: 0 <= j < |r| && j != p ==> j < |bs| && r[j] == bs[j];
      forall i, j | 0 <= i < j < |r| ensures r[i].key != r[j].key {
        if j == |bs| {
          assert bs[i].key != key;
        }
      }
      forall i | 0 <= i < |r| ensures r[i].count == KeyCount(ts, r[i].key) {
        if i == p {
          if found.None? {
            assert KeyCount(ts[..n], key) == 0;
          }
        } else {
          assert r[i].key != key;
        }
      }
      forall k ensures KeyCount(ts, k) > 0 <==> FindBucket(r, k).Some? {
        if k != key {
          if KeyCount(ts[..n], k) > 0 {
            var j := FindBucket(bs, k).value;
            assert r[j].key == k;
          }
          if FindBucket(r, k).Some? {
            var j := FindBucket(r, k).value;
            assert j != p && bs[j].key == k;
          }
        }
      }
    }
  }

  /** No sales means no average rate: the source guards this division. */
  lemma SummaryAverageGuard(ts: seq<Transaction>)
    ensures TotalAmount(ts) <= 0.0 ==> Summary(ts).averageGstRate == 0.0
    ensures Summary(ts).totalWithGst == Summary(ts).totalAmount + Summary(ts).totalGst
  {
  }

  // ---------------------------------------------------------------------------
  // calculateQuarterlyReturn
  // ---------------------------------------------------------------------------

  datatype TaxSummary = TaxSummary(outputTax: real, inputTax: real, netTaxLiability: real, inputTaxCredit: real, payable: real)
  datatype DocumentCounts = DocumentCounts(salesCount: nat, purchaseCount: nat, expenseCount: nat)
  datatype QuarterlyReturn = QuarterlyReturn(
    period: string, sales: TransactionSummary, purchases: TransactionSummary,
    expenses: TransactionSummary, taxSummary: TaxSummary, documents: DocumentCounts)

  function Max0(x: real): real { if x > 0.0 then x else 0.0 }

  /** The netting of output tax against input tax: liability and credit are never negative,
      at most one is positive, and their difference is output minus input. */
  function Netting(outputTax: real, inputTax: real): (t: TaxSummary)
    ensures t.outputTax == outputTax && t.inputTax == inputTax
    ensures t.netTaxLiability >= 0.0 && t.inputTaxCredit >= 0.0
    ensures t.netTaxLiability == 0.0 || t.inputTaxCredit == 0.0
    ensures t.netTaxLiability - t.inputTaxCredit == outputTax - inputTax
    ensures t.payable == t.netTaxLiability
  {
    var net := outputTax - inputTax;
    TaxSummary(outputTax, inputTax, Max0(net), Max0(inputTax - outputTax), Max0(net))
  }

  /** The worked example: 18000 output tax against 5000 + 4000 input tax. */
  lemma NettingExample()
    ensures Netting(18000.0, 5000.0 + 4000.0) == TaxSummary(18000.0, 9000.0, 9000.0, 0.0, 9000.0)
  {
  }

  /** calculateQuarterlyReturn; the period (today's date in the source) is a parameter. */
  method CalculateQuarterlyReturn(period: string, sales: seq<Transaction>, purchases: seq<Transaction>, expenses: seq<Transaction>)
    returns (r: QuarterlyReturn)
    ensures r.period == period
    ensures r.sales == Summary(sales) && r.purchases == Summary(purchases) && r.expenses == Summary(expenses)
    ensures r.taxSummary == Netting(TotalGst(sales), TotalGst(purchases) + TotalGst(expenses))
    ensures r.documents == DocumentCounts(|sales|, |purchases|, |expenses|)
  {
    var salesSummary := SummarizeTransactions(sales);
    var purchaseSummary := SummarizeTransactions(purchases);
    var expenseSummary := SummarizeTransactions(expenses);
    var outputTax := salesSummary.totalGst;
    var inputTax := purchaseSummary.totalGst + expenseSummary.totalGst;
    var netTaxLiability := outputTax - inputTax;
    r := QuarterlyReturn(period, salesSummary, purchaseSummary, expenseSummary,
      TaxSummary(outputTax, inputTax, Max0(netTaxLiability), Max0(inputTax - outputTax), Max0(netTaxLiability)),
      DocumentCounts(|sales|, |purchases|, |expenses|));
  }

  // ---------------------------------------------------------------------------
  // generateGSTR1Data
  // ---------------------------------------------------------------------------

  datatype InvoiceItem = InvoiceItem(description: string, quantity: real, unitPrice: real, amount: real, gstRate: real, gstAmount: real)
  datatype Invoice = Invoice(
    invoiceNumber: string, date: string, customerGstin: Option<string>,
    subtotal: real, gstAmount: Option<real>, totalAmount: real, items: seq<InvoiceItem>)
  datatype Gstr1Item = Gstr1Item(description: string, quantity: real, rate: real, amount: real, gstRate: real, gstAmount: real)
  datatype InvoiceData = InvoiceData(
    invoiceNumber: string, date: string, customerGstin: Option<string>,
    taxableValue: real, taxAmount: real, totalAmount: real, items: seq<Gstr1Item>)
  datatype Gstr1Data = Gstr1Data(
    b2b: seq<InvoiceData>, b2cs: seq<InvoiceData>, exports: seq<InvoiceData>,
    totalTaxableValue: real, totalTaxLiability: real)

  function Gstr1ItemOf(i: InvoiceItem): Gstr1Item {
    Gstr1Item(i.description, i.quantity, i.unitPrice, i.amount, i.gstRate, i.gstAmount)
  }

  function InvoiceDataOf(inv: Invoice): InvoiceData {
    InvoiceData(inv.invoiceNumber, inv.date, inv.customerGstin, inv.subtotal, inv.gstAmount.GetOr(0.0),
      inv.totalAmount, seq(|inv.items|, k requires 0 <= k < |inv.items| => Gstr1ItemOf(inv.items[k])))
  }

  /** B2B: the invoice carries a non-empty customer GSTIN that validates. */
  predicate IsB2B(inv: Invoice) {
    inv.customerGstin.Some? && inv.customerGstin.value != "" && ValidateGstin(inv.customerGstin.value)
  }

  /** The invoices of one category, converted, in input order. */
  function Category(invs: seq<Invoice>, b2b: bool): seq<InvoiceData> {
    if invs == [] then []
    else
      var last := invs[|invs| - 1];
      Category(invs[..|invs| - 1], b2b) + (if IsB2B(last) == b2b then [InvoiceDataOf(last)] else [])
  }

  function TaxableValue(invs: seq<Invoice>): real {
    if invs == [] then 0.0 else TaxableValue(invs[..|invs| - 1]) + invs[|invs| - 1].subtotal
  }

  function TaxLiability(invs: seq<Invoice>): real {
    if invs == [] then 0.0 else TaxLiability(invs[..|invs| - 1]) + invs[|invs| - 1].gstAmount.GetOr(0.0)
  }

  /** generateGSTR1Data. */
  method GenerateGstr1Data(invoices: seq<Invoice>) returns (r: Gstr1Data)
    ensures r.b2b == Category(invoices, true) && r.b2cs == Category(invoices, false)
    ensures r.exports == []
    ensures r.totalTaxableValue == TaxableValue(invoices) && r.totalTaxLiability == TaxLiability(invoices)
  {
    var b2b: seq<InvoiceData> := [];
    var b2cs: seq<InvoiceData> := [];
    var totalTaxableValue := 0.0;
    var totalTaxLiability := 0.0;
    var k := 0;
    while k < |invoices|
      invariant 0 <= k <= |invoices|
      invariant b2b == Category(invoices[..k], true) && b2cs == Category(invoices[..k], false)
      invariant totalTaxableValue == TaxableValue(invoices[..k])
      invariant totalTaxLiability == TaxLiability(invoices[..k])
    {
      var invoice := invoices[k];
      assert invoices[..k + 1][..k] == invoices[..k];
      var invoiceData := InvoiceDataOf(invoice);
      if invoice.customerGstin.Some? && invoice.customerGstin.value != "" && ValidateGstin(invoice.customerGstin.value) {
        b2b := b2b + [invoiceData];
      } else {
        b2cs := b2cs + [invoiceData];
      }
      totalTaxableValue := totalTaxableValue + invoice.subtotal;
      totalTaxLiability := totalTaxLiability + invoice.gstAmount.GetOr(0.0);
      k := k + 1;
    }
    assert invoices[..k] == invoices;
    r := Gstr1Data(b2b, b2cs, [], totalTaxableValue, totalTaxLiability);
  }

  /** Every invoice lands in exactly one of b2b and b2cs, so the two lists together are as
      long as the input. */
  lemma {:induction false} CategoriesPartition(invs: seq<Invoice>)
    ensures |Category(invs, true)| + |Category(invs, false)| == |invs|
  {
    if invs != [] {
      CategoriesPartition(invs[..|invs| - 1]);
    }
  }

  /** An invoice is listed under b2b when its GSTIN validates and under b2cs otherwise. */
  lemma {:induction false} CategoryMembership(invs: seq<Invoice>, inv: Invoice)
    requires inv in invs
    ensures IsB2B(inv) ==> InvoiceDataOf(inv) in Category(invs, true)
    ensures !IsB2B(inv) ==> InvoiceDataOf(inv) in Category(invs, false)
  {
    var n := |invs| - 1;
    if invs[n] != inv {
      assert inv in invs[..n];
      CategoryMembership(invs[..n], inv);
    }
  }
}
