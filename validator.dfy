/**
 * The rule engine of invoice_qc/validator.py: one invoice checked against
 * completeness, currency, business and anomaly rules plus batch-wide
 * duplicate detection, and the batch fold with its summary counts.
 */
module Validator {
  import opened Optional
  import opened Strings
  import opened Schemas

  /** `approx_equal` from utils; its tolerance is not part of this model, so it stays abstract. */
  type ApproxEqual = (real, real) -> bool

  /** The duplicate-detection key (invoice number, invoice date, seller name). */
  datatype DuplicateKey = DuplicateKey(invoiceNumber: string, invoiceDate: string, sellerName: string)

  /** Python truthiness of an optional string: present and non-empty. */
  predicate Truthy(s: Option<string>) {
    s.Some? && s.value != ""
  }

  datatype RequiredField =
    | InvoiceNumberField | InvoiceDateField | SellerNameField | BuyerNameField
    | NetTotalField | TaxAmountField | GrossTotalField
  {
    function Name(): string {
      match this
      case InvoiceNumberField => "invoice_number"
      case InvoiceDateField => "invoice_date"
      case SellerNameField => "seller_name"
      case BuyerNameField => "buyer_name"
      case NetTotalField => "net_total"
      case TaxAmountField => "tax_amount"
      case GrossTotalField => "gross_total"
    }

    /** Position in the order in which the completeness checks run. */
    function Rank(): nat {
      match this
      case InvoiceNumberField => 0
      case InvoiceDateField => 1
      case SellerNameField => 2
      case BuyerNameField => 3
      case NetTotalField => 4
      case TaxAmountField => 5
      case GrossTotalField => 6
    }
  }

  const REQUIRED_FIELDS: seq<RequiredField> := [
    InvoiceNumberField, InvoiceDateField, SellerNameField, BuyerNameField,
    NetTotalField, TaxAmountField, GrossTotalField]

  datatype AmountField = NetTotal | TaxAmount | GrossTotal {
    function Name(): string {
      match this
      case NetTotal => "net_total"
      case TaxAmount => "tax_amount"
      case GrossTotal => "gross_total"
    }
  }

  const AMOUNT_FIELDS: seq<AmountField> := [NetTotal, TaxAmount, GrossTotal]

  function Amount(inv: Invoice, f: AmountField): Option<real> {
    match f
    case NetTotal => inv.netTotal
    case TaxAmount => inv.taxAmount
    case GrossTotal => inv.grossTotal
  }

  /** A string field is missing when None or empty; an amount only when None. */
  predicate Missing(inv: Invoice, f: RequiredField) {
    match f
    case InvoiceNumberField => !Truthy(inv.invoiceNumber)
    case InvoiceDateField => !Truthy(inv.invoiceDate)
    case SellerNameField => !Truthy(inv.sellerName)
    case BuyerNameField => !Truthy(inv.buyerName)
    case NetTotalField => inv.netTotal.None?
    case TaxAmountField => inv.taxAmount.None?
    case GrossTotalField => inv.grossTotal.None?
  }

  predicate Negative(inv: Invoice, f: AmountField) {
    Amount(inv, f).Some? && Amount(inv, f).value < 0.0
  }

  // ------------------------------------------------------------ error codes

  /** Every code starts with its category's first letter: m, f, b, a or d. */
  predicate StartsWith(e: string, c: char) {
    e != [] && e[0] == c
  }

  function MissingFieldCode(f: RequiredField): string { "missing_field: " + f.Name() }

  const UNSUPPORTED_CURRENCY := "format_error: unsupported_currency"
  const BUSINESS_RULE_FAILED := "business_rule_failed: "
  const NET_TOTAL_MISMATCH := BUSINESS_RULE_FAILED + "net_total_mismatch_line_items"
  const TOTALS_MISMATCH := BUSINESS_RULE_FAILED + "totals_mismatch"

  function NegativeCode(f: AmountField): string { "anomaly: " + f.Name() + "_negative" }

  const DUPLICATE_INVOICE := "duplicate_invoice"

  lemma {:induction false} MissingFieldCodeInjective(f: RequiredField, g: RequiredField)
    ensures MissingFieldCode(f) == MissingFieldCode(g) ==> f == g
  {
    if MissingFieldCode(f) == MissingFieldCode(g) {
      assert f.Name() == MissingFieldCode(f)[15..] == MissingFieldCode(g)[15..] == g.Name();
    }
  }

  lemma {:induction false} NegativeCodeInjective(f: AmountField, g: AmountField)
    ensures NegativeCode(f) == NegativeCode(g) ==> f == g
  {
    if NegativeCode(f) == NegativeCode(g) {
      assert |f.Name()| == |g.Name()|;
      assert f.Name() == NegativeCode(f)[9..9 + |f.Name()|] == NegativeCode(g)[9..9 + |g.Name()|] == g.Name();
    }
  }

  // ------------------------------------------------------------------ rules

  /** Strictly increasing in check order. */
  predicate Ranked(fields: seq<RequiredField>) {
    forall i, j :: 0 <= i < j < |fields| ==> fields[i].Rank() < fields[j].Rank()
  }

  /** The missing required fields among `fields`, in the order given. */
  function MissingAmong(inv: Invoice, fields: seq<RequiredField>): seq<RequiredField> {
    if fields == [] then []
    else (if Missing(inv, fields[0]) then [fields[0]] else []) + MissingAmong(inv, fields[1..])
  }

  /** `MissingAmong` keeps exactly the missing fields and keeps them in order. */
  lemma {:induction false} MissingAmongExactly(inv: Invoice, fields: seq<RequiredField>)
    ensures forall f :: f in MissingAmong(inv, fields) <==> f in fields && Missing(inv, f)
    ensures Ranked(fields) ==> Ranked(MissingAmong(inv, fields))
  {
    if fields != [] {
      MissingAmongExactly(inv, fields[1..]);
      var r := MissingAmong(inv, fields);
      var rest := MissingAmong(inv, fields[1..]);
      if Ranked(fields) {
        assert Ranked(fields[1..]);
        forall j | 0 <= j < |rest|
          ensures fields[0].Rank() < rest[j].Rank()
        {
          assert rest[j] in fields[1..];
          var i :| 0 <= i < |fields[1..]| && fields[1..][i] == rest[j];
          assert fields[i + 1] == rest[j];
        }
      }
    }
  }

  function MissingCodes(fields: seq<RequiredField>): (r: seq<string>)
    ensures |r| == |fields|
  {
    if fields == [] then [] else [MissingFieldCode(fields[0])] + MissingCodes(fields[1..])
  }

  /** `MissingCodes` gives the code of each field, position by position. */
  lemma {:induction false} MissingCodesAt(fields: seq<RequiredField>)
    ensures forall i :: 0 <= i < |fields| ==> MissingCodes(fields)[i] == MissingFieldCode(fields[i])
  {
    if fields != [] {
      MissingCodesAt(fields[1..]);
    }
  }

  /** The code one completeness check adds: none when the field is present. */
  function CodeIfMissing(inv: Invoice, f: RequiredField): seq<string> {
    if Missing(inv, f) then [MissingFieldCode(f)] else []
  }

  /** Rule 1: the seven completeness checks, in order. */
  function CompletenessErrors(inv: Invoice): seq<string> {
    CodeIfMissing(inv, InvoiceNumberField) + CodeIfMissing(inv, InvoiceDateField) +
    CodeIfMissing(inv, SellerNameField) + CodeIfMissing(inv, BuyerNameField) +
    CodeIfMissing(inv, NetTotalField) + CodeIfMissing(inv, TaxAmountField) +
    CodeIfMissing(inv, GrossTotalField)
  }

  predicate UnsupportedCurrency(inv: Invoice) {
    Truthy(inv.currency) && Upper(inv.currency.value) !in {"EUR", "USD", "INR"}
  }

  /** Rule 2: the currency check. */
  function FormatErrors(inv: Invoice): (r: seq<string>)
  {
    if UnsupportedCurrency(inv) then [UNSUPPORTED_CURRENCY] else []
  }

  /** `sum(li.line_total for li in items if li.line_total is not None)`. */
  function SumLineTotals(items: seq<LineItem>): real {
    if items == [] then 0.0
    else SumLineTotals(items[..|items| - 1]) + items[|items| - 1].lineTotal.GetOr(0.0)
  }

  predicate LineItemsMismatch(inv: Invoice, approx: ApproxEqual) {
    inv.lineItems != [] && inv.netTotal.Some? &&
    SumLineTotals(inv.lineItems) != 0.0 && !approx(SumLineTotals(inv.lineItems), inv.netTotal.value)
  }

  predicate TotalsMismatch(inv: Invoice, approx: ApproxEqual) {
    inv.netTotal.Some? && inv.taxAmount.Some? && inv.grossTotal.Some? &&
    !approx(inv.netTotal.value + inv.taxAmount.value, inv.grossTotal.value)
  }

  /** Rule 3a: the line-item sum against the net total. */
  function LineItemsRuleErrors(inv: Invoice, approx: ApproxEqual): (r: seq<string>)
  {
    if LineItemsMismatch(inv, approx) then [NET_TOTAL_MISMATCH] else []
  }

  /** Rule 3b: net plus tax against gross. */
  function TotalsRuleErrors(inv: Invoice, approx: ApproxEqual): (r: seq<string>)
  {
    if TotalsMismatch(inv, approx) then [TOTALS_MISMATCH] else []
  }

  /** The anomaly codes for the negative amounts among `fields`, in the order given. */
  function AnomalyCodes(inv: Invoice, fields: seq<AmountField>): (r: seq<string>)
  {
    if fields == [] then []
    else
      AnomalyCodes(inv, fields[..|fields| - 1]) + CodeIfNegative(inv, fields[|fields| - 1])
  }

  lemma {:induction false} AnomalyStep(inv: Invoice, k: nat)
    requires k < |AMOUNT_FIELDS|
    ensures AnomalyCodes(inv, AMOUNT_FIELDS[..k + 1]) == AnomalyCodes(inv, AMOUNT_FIELDS[..k]) + CodeIfNegative(inv, AMOUNT_FIELDS[k])
  {
    assert AMOUNT_FIELDS[..k + 1][..k] == AMOUNT_FIELDS[..k];
  }

  /** The code one anomaly check adds: none unless the amount is negative. */
  function CodeIfNegative(inv: Invoice, f: AmountField): seq<string> {
    if Negative(inv, f) then [NegativeCode(f)] else []
  }

  /** Rule 4: the three anomaly checks, in order. */
  function AnomalyErrors(inv: Invoice): seq<string> {
    CodeIfNegative(inv, NetTotal) + CodeIfNegative(inv, TaxAmount) + CodeIfNegative(inv, GrossTotal)
  }

  /** The duplicate key, when number, date and seller are all non-empty. */
  function KeyOf(inv: Invoice): Option<DuplicateKey> {
    if Truthy(inv.invoiceNumber) && Truthy(inv.invoiceDate) && Truthy(inv.sellerName)
    then Some(DuplicateKey(inv.invoiceNumber.value, inv.invoiceDate.value, inv.sellerName.value))
    else None
  }

  /** Rule 5: duplicate detection against the keys seen so far. */
  function DuplicateErrors(inv: Invoice, seen: set<DuplicateKey>): (r: seq<string>)
  {
    if KeyOf(inv).Some? && KeyOf(inv).value in seen then [DUPLICATE_INVOICE] else []
  }

  /** The key set after checking `inv`: it only grows, and only by the invoice's own complete key. */
  function Register(seen: set<DuplicateKey>, inv: Invoice): (r: set<DuplicateKey>)
    ensures seen <= r
    ensures KeyOf(inv).None? ==> r == seen
    ensures forall k :: k in r ==> k in seen || KeyOf(inv) == Some(k)
    ensures KeyOf(inv).Some? ==> KeyOf(inv).value in r
  {
    match KeyOf(inv)
    case Some(k) => seen + {k}
    case None => seen
  }

  /** The codes of the rules that look at the invoice alone, in rule order. */
  function RuleErrors(inv: Invoice, approx: ApproxEqual): seq<string> {
    CompletenessErrors(inv) + FormatErrors(inv) + LineItemsRuleErrors(inv, approx) + TotalsRuleErrors(inv, approx)
    + AnomalyErrors(inv)
  }

  /** Every error code of one invoice, in rule order. */
  function InvoiceErrors(inv: Invoice, approx: ApproxEqual, seen: set<DuplicateKey>): seq<string> {
    RuleErrors(inv, approx) + DuplicateErrors(inv, seen)
  }

  /** `invoice.invoice_number or invoice.source_file or "unknown"`. */
  function InvoiceId(inv: Invoice): (r: string)
    ensures r != ""
    ensures Truthy(inv.invoiceNumber) ==> r == inv.invoiceNumber.value
    ensures !Truthy(inv.invoiceNumber) && Truthy(inv.sourceFile) ==> r == inv.sourceFile.value
    ensures !Truthy(inv.invoiceNumber) && !Truthy(inv.sourceFile) ==> r == "unknown"
  {
    if Truthy(inv.invoiceNumber) then inv.invoiceNumber.value
    else if Truthy(inv.sourceFile) then inv.sourceFile.value
    else "unknown"
  }

  /** The result `validate_invoice` returns for `inv` against the key set `seen`. */
  function Validated(inv: Invoice, approx: ApproxEqual, seen: set<DuplicateKey>): ValidationResult {
    var errors := InvoiceErrors(inv, approx, seen);
    ValidationResult(InvoiceId(inv), errors == [], errors)
  }

  /** One completeness check of `validate_invoice`: the field's code is appended when it is missing. */
  method AppendIfMissing(invoice: Invoice, field: RequiredField, errors: seq<string>) returns (r: seq<string>)
    ensures r == errors + CodeIfMissing(invoice, field)
  {
    r := errors;
    if Missing(invoice, field) {
      r := r + [MissingFieldCode(field)];
    }
  }

  /** The completeness checks that open `validate_invoice`, starting from no errors. */
  method CheckCompleteness(invoice: Invoice) returns (errors: seq<string>)
    ensures errors == CompletenessErrors(invoice)
  {
    errors := AppendIfMissing(invoice, InvoiceNumberField, []);
    assert errors == CodeIfMissing(invoice, InvoiceNumberField);
    errors := AppendIfMissing(invoice, InvoiceDateField, errors);
    errors := AppendIfMissing(invoice, SellerNameField, errors);
    errors := AppendIfMissing(invoice, BuyerNameField, errors);
    errors := AppendIfMissing(invoice, NetTotalField, errors);
    errors := AppendIfMissing(invoice, TaxAmountField, errors);
    errors := AppendIfMissing(invoice, GrossTotalField, errors);
  }

  /** The currency check of `validate_invoice`, appended to `errors`. */
  method AppendFormat(invoice: Invoice, errors: seq<string>) returns (r: seq<string>)
    ensures r == errors + FormatErrors(invoice)
  {
    r := errors;
    var allowedCurrencies := {"EUR", "USD", "INR"};
    if invoice.currency.Some? && invoice.currency.value != "" && Upper(invoice.currency.value) !in allowedCurrencies {
      r := r + [UNSUPPORTED_CURRENCY];
    }
  }

  /** The two business rules of `validate_invoice`, appended to `errors`. */
  method AppendBusiness(invoice: Invoice, approx: ApproxEqual, errors: seq<string>) returns (r: seq<string>)
    ensures r == errors + LineItemsRuleErrors(invoice, approx) + TotalsRuleErrors(invoice, approx)
  {
    r := errors;
    if invoice.lineItems != [] && invoice.netTotal.Some? {
      var sumLines := SumLineTotals(invoice.lineItems);
      if sumLines != 0.0 && !approx(sumLines, invoice.netTotal.value) {
        r := r + [NET_TOTAL_MISMATCH];
      }
    }
    assert r == errors + LineItemsRuleErrors(invoice, approx);
    if invoice.netTotal.Some? && invoice.taxAmount.Some? && invoice.grossTotal.Some? {
      if !approx(invoice.netTotal.value + invoice.taxAmount.value, invoice.grossTotal.value) {
        r := r + [TOTALS_MISMATCH];
      }
    }
  }

  /**
   * The anomaly loop of `validate_invoice`: one code per negative amount,
   * appended to `errors` in the order net, tax, gross.
   */
  method AppendAnomalies(invoice: Invoice, errors: seq<string>) returns (r: seq<string>)
    ensures r == errors + AnomalyErrors(invoice)
  {
    r := errors;
    assert AMOUNT_FIELDS[..0] == [];
    for k := 0 to |AMOUNT_FIELDS|
      invariant r == errors + AnomalyCodes(invoice, AMOUNT_FIELDS[..k])
    {
      var field := AMOUNT_FIELDS[k];
      var value := Amount(invoice, field);
      if value.Some? && value.value < 0.0 {
        r := r + [NegativeCode(field)];
      }
      AnomalyStep(invoice, k);
    }
    assert AMOUNT_FIELDS[..|AMOUNT_FIELDS|] == AMOUNT_FIELDS;
    AnomalyCodesOfThree(invoice, AMOUNT_FIELDS);
  }

  // ------------------------------------------------------- validate_invoice

  /**
   * `validate_invoice`: runs the rules in order, appending a code per failed
   * check, and registers the invoice's key in the caller's key set, given in
   * `seenKeys` and handed back as `seenKeysAfter`.
   */
  method ValidateInvoice(invoice: Invoice, approx: ApproxEqual, seenKeys: set<DuplicateKey>)
    returns (result: ValidationResult, seenKeysAfter: set<DuplicateKey>)
    ensures result == Validated(invoice, approx, seenKeys)
    ensures result.isValid <==> result.errors == []
    ensures seenKeysAfter == Register(seenKeys, invoice)
  {
    var invNum := invoice.invoiceNumber.GetOr("");
    var invDate := invoice.invoiceDate.GetOr("");
    var sellerName := invoice.sellerName.GetOr("");

    var errors := CheckCompleteness(invoice);
    errors := AppendFormat(invoice, errors);
    errors := AppendBusiness(invoice, approx, errors);
    // Anomalies
    errors := AppendAnomalies(invoice, errors);
    assert errors == RuleErrors(invoice, approx);

    // Duplicates
    seenKeysAfter := seenKeys;
    if invNum != "" && invDate != "" && sellerName != "" {
      var key := DuplicateKey(invNum, invDate, sellerName);
      if key in seenKeys {
        errors := errors + [DUPLICATE_INVOICE];
      } else {
        seenKeysAfter := seenKeys + {key};
      }
    }
    assert errors == InvoiceErrors(invoice, approx, seenKeys);

    var isValid := |errors| == 0;
    var invoiceId := if Truthy(invoice.invoiceNumber) then invoice.invoiceNumber.value
                     else if Truthy(invoice.sourceFile) then invoice.sourceFile.value
                     else "unknown";
    assert invoiceId == InvoiceId(invoice);
    assert isValid <==> errors == [];
    result := ValidationResult(invoiceId, isValid, errors);
  }

  // ------------------------------------------------------------- properties

  lemma {:induction false} MissingFieldCodeStart(f: RequiredField)
    ensures StartsWith(MissingFieldCode(f), 'm')
  {
    assert MissingFieldCode(f)[0] == "missing_field: "[0];
  }

  lemma {:induction false} NegativeCodeStart(f: AmountField)
    ensures StartsWith(NegativeCode(f), 'a')
  {
    assert NegativeCode(f)[0] == "anomaly: "[0];
  }

  lemma {:induction false} CodeIfMissingCount(inv: Invoice, f: RequiredField, g: RequiredField)
    ensures multiset(CodeIfMissing(inv, g))[MissingFieldCode(f)] == if f == g && Missing(inv, g) then 1 else 0
  {
    MissingFieldCodeInjective(f, g);
  }

  /** Completeness reports a missing required field exactly once and a present one never. */
  lemma {:induction false} CompletenessCountsField(inv: Invoice, f: RequiredField)
    ensures multiset(CompletenessErrors(inv))[MissingFieldCode(f)] == if Missing(inv, f) then 1 else 0
  {
    CodeIfMissingCount(inv, f, InvoiceNumberField);
    CodeIfMissingCount(inv, f, InvoiceDateField);
    CodeIfMissingCount(inv, f, SellerNameField);
    CodeIfMissingCount(inv, f, BuyerNameField);
    CodeIfMissingCount(inv, f, NetTotalField);
    CodeIfMissingCount(inv, f, TaxAmountField);
    CodeIfMissingCount(inv, f, GrossTotalField);
  }

  lemma {:induction false} MissingCodesAppend(a: seq<RequiredField>, b: seq<RequiredField>)
    ensures MissingCodes(a + b) == MissingCodes(a) + MissingCodes(b)
  {
    if a == [] {
      assert a + b == b;
    } else {
      assert (a + b)[0] == a[0];
      assert (a + b)[1..] == a[1..] + b;
      MissingCodesAppend(a[1..], b);
    }
  }

  lemma {:induction false} MissingAmongAppend(inv: Invoice, a: seq<RequiredField>, b: seq<RequiredField>)
    ensures MissingAmong(inv, a + b) == MissingAmong(inv, a) + MissingAmong(inv, b)
  {
    if a == [] {
      assert a + b == b;
    } else {
      assert (a + b)[0] == a[0];
      assert (a + b)[1..] == a[1..] + b;
      MissingAmongAppend(inv, a[1..], b);
    }
  }

  lemma {:induction false} MissingPrefixStep(inv: Invoice, fields: seq<RequiredField>, k: nat)
    requires k < |fields|
    ensures MissingCodes(MissingAmong(inv, fields[..k + 1])) ==
      MissingCodes(MissingAmong(inv, fields[..k])) + CodeIfMissing(inv, fields[k])
  {
    var f := fields[k];
    assert fields[..k + 1] == fields[..k] + [f];
    MissingAmongAppend(inv, fields[..k], [f]);
    assert [f][1..] == [];
    var last := MissingAmong(inv, [f]);
    assert last == if Missing(inv, f) then [f] else [];
    assert MissingCodes(last) == CodeIfMissing(inv, f);
    MissingCodesAppend(MissingAmong(inv, fields[..k]), last);
  }

  lemma {:induction false} MissingCodesOfFirstFour(inv: Invoice, fields: seq<RequiredField>)
    requires |fields| >= 4
    ensures MissingCodes(MissingAmong(inv, fields[..4])) ==
      CodeIfMissing(inv, fields[0]) + CodeIfMissing(inv, fields[1]) + CodeIfMissing(inv, fields[2]) +
      CodeIfMissing(inv, fields[3])
  {
    assert fields[..0] == [];
    MissingPrefixStep(inv, fields, 0);
    MissingPrefixStep(inv, fields, 1);
    MissingPrefixStep(inv, fields, 2);
    MissingPrefixStep(inv, fields, 3);
  }

  /** The codes of the missing fields among seven, built one field at a time. */
  lemma {:induction false} MissingCodesOfSeven(inv: Invoice, fields: seq<RequiredField>)
    requires |fields| == 7
    ensures MissingCodes(MissingAmong(inv, fields)) ==
      CodeIfMissing(inv, fields[0]) + CodeIfMissing(inv, fields[1]) + CodeIfMissing(inv, fields[2]) +
      CodeIfMissing(inv, fields[3]) + CodeIfMissing(inv, fields[4]) + CodeIfMissing(inv, fields[5]) +
      CodeIfMissing(inv, fields[6])
  {
    MissingCodesOfFirstSix(inv, fields);
    MissingPrefixStep(inv, fields, 6);
    assert fields[..7] == fields;
  }

  lemma {:induction false} MissingCodesOfFirstSix(inv: Invoice, fields: seq<RequiredField>)
    requires |fields| >= 6
    ensures MissingCodes(MissingAmong(inv, fields[..6])) ==
      CodeIfMissing(inv, fields[0]) + CodeIfMissing(inv, fields[1]) + CodeIfMissing(inv, fields[2]) +
      CodeIfMissing(inv, fields[3]) + CodeIfMissing(inv, fields[4]) + CodeIfMissing(inv, fields[5])
  {
    MissingCodesOfFirstFour(inv, fields);
    MissingPrefixStep(inv, fields, 4);
    MissingPrefixStep(inv, fields, 5);
  }

  lemma {:induction false} RequiredFieldsRanked()
    ensures Ranked(REQUIRED_FIELDS)
  {
    forall i | 0 <= i < |REQUIRED_FIELDS|
      ensures REQUIRED_FIELDS[i].Rank() == i
    {
    }
  }

  /**
   * The completeness codes are exactly the codes of the missing required
   * fields, listed in check order.
   */
  lemma {:induction false} CompletenessInCheckOrder(inv: Invoice)
    ensures CompletenessErrors(inv) == MissingCodes(MissingAmong(inv, REQUIRED_FIELDS))
    ensures forall f :: f in MissingAmong(inv, REQUIRED_FIELDS) <==> Missing(inv, f)
    ensures Ranked(MissingAmong(inv, REQUIRED_FIELDS))
  {
    MissingCodesOfSeven(inv, REQUIRED_FIELDS);
    RequiredFieldsRanked();
    MissingAmongExactly(inv, REQUIRED_FIELDS);
  }

  /** The anomaly codes of three fields are the three checks in order. */
  lemma {:induction false} AnomalyCodesOfThree(inv: Invoice, fields: seq<AmountField>)
    requires |fields| == 3
    ensures AnomalyCodes(inv, fields) ==
      CodeIfNegative(inv, fields[0]) + CodeIfNegative(inv, fields[1]) + CodeIfNegative(inv, fields[2])
  {
    assert fields[..2][..1] == fields[..1];
    assert fields[..1][..0] == [];
    assert AnomalyCodes(inv, fields[..1]) == CodeIfNegative(inv, fields[0]);
    assert AnomalyCodes(inv, fields[..2]) == AnomalyCodes(inv, fields[..1]) + CodeIfNegative(inv, fields[1]);
  }

  lemma {:induction false} CodeIfNegativeHas(inv: Invoice, f: AmountField, g: AmountField)
    ensures NegativeCode(f) in CodeIfNegative(inv, g) <==> f == g && Negative(inv, g)
    ensures forall e :: e in CodeIfNegative(inv, g) ==> StartsWith(e, 'a')
  {
    NegativeCodeInjective(f, g);
    NegativeCodeStart(g);
  }

  lemma {:induction false} AnomalyErrorsHave(inv: Invoice, f: AmountField)
    ensures NegativeCode(f) in AnomalyErrors(inv) <==> Negative(inv, f)
    ensures forall e :: e in AnomalyErrors(inv) ==> StartsWith(e, 'a')
  {
    CodeIfNegativeHas(inv, f, NetTotal);
    CodeIfNegativeHas(inv, f, TaxAmount);
    CodeIfNegativeHas(inv, f, GrossTotal);
  }

  lemma {:induction false} CompletenessCategory(inv: Invoice, e: string)
    ensures e in CompletenessErrors(inv) ==> StartsWith(e, 'm')
  {
    if e in CompletenessErrors(inv) {
      var f :| e in CodeIfMissing(inv, f);
      MissingFieldCodeStart(f);
    }
  }

  lemma {:induction false} AnomalyCategory(inv: Invoice, e: string)
    ensures e in AnomalyErrors(inv) ==> StartsWith(e, 'a')
  {
    if e in AnomalyErrors(inv) {
      var f :| e in CodeIfNegative(inv, f);
      NegativeCodeStart(f);
    }
  }

  /** The first letter of every code names the rule that produced it. */
  lemma {:induction false} CodeCategory(inv: Invoice, approx: ApproxEqual, seen: set<DuplicateKey>, e: string)
    ensures e in CompletenessErrors(inv) ==> StartsWith(e, 'm')
    ensures e in FormatErrors(inv) ==> StartsWith(e, 'f')
    ensures e in LineItemsRuleErrors(inv, approx) ==> StartsWith(e, 'b')
    ensures e in TotalsRuleErrors(inv, approx) ==> StartsWith(e, 'b')
    ensures e in AnomalyErrors(inv) ==> StartsWith(e, 'a')
    ensures e in DuplicateErrors(inv, seen) ==> StartsWith(e, 'd')
  {
    CompletenessCategory(inv, e);
    AnomalyCategory(inv, e);
    assert UNSUPPORTED_CURRENCY[0] == 'f';
    assert NET_TOTAL_MISMATCH[0] == BUSINESS_RULE_FAILED[0] == 'b';
    assert TOTALS_MISMATCH[0] == BUSINESS_RULE_FAILED[0];
    assert DUPLICATE_INVOICE[0] == 'd';
  }

  /** `missing_field: <f>` is reported, and then exactly once, iff `f` is missing. */
  lemma {:induction false} MissingFieldReported(inv: Invoice, approx: ApproxEqual, seen: set<DuplicateKey>, f: RequiredField)
    ensures MissingFieldCode(f) in InvoiceErrors(inv, approx, seen) <==> Missing(inv, f)
    ensures multiset(InvoiceErrors(inv, approx, seen))[MissingFieldCode(f)] == if Missing(inv, f) then 1 else 0
  {
    var code := MissingFieldCode(f);
    assert multiset(InvoiceErrors(inv, approx, seen))[code] == multiset(CompletenessErrors(inv))[code] by {
      CodeCategory(inv, approx, seen, code);
      MissingFieldCodeStart(f);
    }
    CompletenessCountsField(inv, f);
  }

  /** The currency code is reported iff the currency is set and its upper case is not allowed. */
  lemma {:induction false} UnsupportedCurrencyReported(inv: Invoice, approx: ApproxEqual, seen: set<DuplicateKey>)
    ensures UNSUPPORTED_CURRENCY in InvoiceErrors(inv, approx, seen) <==>
      inv.currency.Some? && inv.currency.value != "" && Upper(inv.currency.value) !in ALLOWED_CURRENCIES
  {
    CodeCategory(inv, approx, seen, UNSUPPORTED_CURRENCY);
    assert UNSUPPORTED_CURRENCY[0] == 'f';
  }

  /**
   * The line-item mismatch is reported iff there are line items, a net total,
   * a non-zero line sum and the sum is not approximately the net total.
   */
  lemma {:induction false} LineItemsMismatchReported(inv: Invoice, approx: ApproxEqual, seen: set<DuplicateKey>)
    ensures NET_TOTAL_MISMATCH in InvoiceErrors(inv, approx, seen) <==>
      |inv.lineItems| > 0 && inv.netTotal.Some? && SumLineTotals(inv.lineItems) != 0.0 &&
      !approx(SumLineTotals(inv.lineItems), inv.netTotal.value)
  {
    CodeCategory(inv, approx, seen, NET_TOTAL_MISMATCH);
    assert NET_TOTAL_MISMATCH[0] == BUSINESS_RULE_FAILED[0] == 'b';
    assert NET_TOTAL_MISMATCH != TOTALS_MISMATCH by {
      assert NET_TOTAL_MISMATCH[22] == 'n' && TOTALS_MISMATCH[22] == 't';
    }
  }

  /** The totals mismatch is reported iff all three amounts are set and net + tax is not approximately gross. */
  lemma {:induction false} TotalsMismatchReported(inv: Invoice, approx: ApproxEqual, seen: set<DuplicateKey>)
    ensures TOTALS_MISMATCH in InvoiceErrors(inv, approx, seen) <==>
      inv.netTotal.Some? && inv.taxAmount.Some? && inv.grossTotal.Some? &&
      !approx(inv.netTotal.value + inv.taxAmount.value, inv.grossTotal.value)
  {
    CodeCategory(inv, approx, seen, TOTALS_MISMATCH);
    assert TOTALS_MISMATCH[0] == BUSINESS_RULE_FAILED[0] == 'b';
    assert NET_TOTAL_MISMATCH != TOTALS_MISMATCH by {
      assert NET_TOTAL_MISMATCH[22] == 'n' && TOTALS_MISMATCH[22] == 't';
    }
  }

  /** `anomaly: <f>_negative` is reported iff that amount is set and below zero. */
  lemma {:induction false} NegativeAmountReported(inv: Invoice, approx: ApproxEqual, seen: set<DuplicateKey>, f: AmountField)
    ensures NegativeCode(f) in InvoiceErrors(inv, approx, seen) <==> Amount(inv, f).Some? && Amount(inv, f).value < 0.0
  {
    CodeCategory(inv, approx, seen, NegativeCode(f));
    AnomalyErrorsHave(inv, f);
    NegativeCodeStart(f);
  }

  /**
   * `duplicate_invoice` is reported iff number, date and seller are all
   * non-empty and their key is already in the key set.
   */
  lemma {:induction false} DuplicateReported(inv: Invoice, approx: ApproxEqual, seen: set<DuplicateKey>)
    ensures DUPLICATE_INVOICE in InvoiceErrors(inv, approx, seen) <==>
      Truthy(inv.invoiceNumber) && Truthy(inv.invoiceDate) && Truthy(inv.sellerName) &&
      DuplicateKey(inv.invoiceNumber.value, inv.invoiceDate.value, inv.sellerName.value) in seen
  {
    CodeCategory(inv, approx, seen, DUPLICATE_INVOICE);
    assert DUPLICATE_INVOICE[0] == 'd';
  }

  /** An invoice is valid iff every rule passes. */
  lemma {:induction false} ValidIffEveryRulePasses(inv: Invoice, approx: ApproxEqual, seen: set<DuplicateKey>)
    ensures Validated(inv, approx, seen).isValid <==>
      (forall f :: !Missing(inv, f)) && !UnsupportedCurrency(inv) && !LineItemsMismatch(inv, approx) &&
      !TotalsMismatch(inv, approx) && (forall f :: !Negative(inv, f)) &&
      (KeyOf(inv).None? || KeyOf(inv).value !in seen)
  {
    var errors := InvoiceErrors(inv, approx, seen);
    if errors == [] {
      forall f: RequiredField
        ensures !Missing(inv, f)
      {
        MissingFieldReported(inv, approx, seen, f);
      }
      forall f: AmountField
        ensures !Negative(inv, f)
      {
        NegativeAmountReported(inv, approx, seen, f);
      }
    }
  }

  /**
   * An invoice holding only the schema defaults (currency USD, zero amounts,
   * nothing else) misses exactly its four text fields, when zero plus zero is
   * approximately zero.
   */
  lemma {:induction false} SchemaDefaultsMissTextFields(approx: ApproxEqual, seen: set<DuplicateKey>)
    requires approx(0.0 + 0.0, 0.0)
    ensures Validated(DefaultInvoice(), approx, seen) == ValidationResult("unknown", false, [
      MissingFieldCode(InvoiceNumberField), MissingFieldCode(InvoiceDateField),
      MissingFieldCode(SellerNameField), MissingFieldCode(BuyerNameField)])
  {
    var inv := DefaultInvoice();
    assert RuleErrors(inv, approx) == CompletenessErrors(inv) by {
      DefaultCurrencySupported();
    }
    assert KeyOf(inv).None?;
  }

  /** The default currency passes the currency rule. */
  lemma {:induction false} DefaultCurrencySupported()
    ensures FormatErrors(DefaultInvoice()) == []
  {
    var usd := "USD";
    assert Upper(usd) == [UpperChar(usd[0])] + Upper(usd[1..]);
    assert Upper(usd[1..]) == [UpperChar(usd[1])] + Upper(usd[2..]);
    assert Upper(usd[2..]) == [UpperChar(usd[2])] + Upper(usd[3..]);
    assert Upper(usd) == usd;
  }

  /**
   * An invoice missing every required field gets all seven completeness codes,
   * in check order, at the head of its errors, and is invalid.
   */
  lemma {:induction false} AllMissingGivesSevenCodes(inv: Invoice, approx: ApproxEqual, seen: set<DuplicateKey>)
    requires forall f :: Missing(inv, f)
    ensures InvoiceErrors(inv, approx, seen)[..7] == MissingCodes(REQUIRED_FIELDS)
    ensures !Validated(inv, approx, seen).isValid
  {
    var codes := CompletenessErrors(inv);
    assert codes == MissingCodes(REQUIRED_FIELDS) by {
      CompletenessInCheckOrder(inv);
      MissingAmongAll(inv, REQUIRED_FIELDS);
    }
    CompletenessPrefix(inv, approx, seen);
  }

  /** When every field given is missing, all of them are kept. */
  lemma {:induction false} MissingAmongAll(inv: Invoice, fields: seq<RequiredField>)
    requires forall f :: Missing(inv, f)
    ensures MissingAmong(inv, fields) == fields
  {
    if fields != [] {
      MissingAmongAll(inv, fields[1..]);
      assert Missing(inv, fields[0]);
    }
  }

  /** The completeness codes open the error list. */
  lemma {:induction false} CompletenessPrefix(inv: Invoice, approx: ApproxEqual, seen: set<DuplicateKey>)
    ensures InvoiceErrors(inv, approx, seen)[..|CompletenessErrors(inv)|] == CompletenessErrors(inv)
  {
    var codes := CompletenessErrors(inv);
    var errors := InvoiceErrors(inv, approx, seen);
    var rest := FormatErrors(inv) + LineItemsRuleErrors(inv, approx) + TotalsRuleErrors(inv, approx)
      + AnomalyErrors(inv) + DuplicateErrors(inv, seen);
    assert |errors| == |codes| + |rest|;
    forall i | 0 <= i < |codes|
      ensures errors[i] == codes[i]
    {
    }
  }

  // ------------------------------------------------------ validate_invoices

  /** The key set after validating `invoices` in order, starting from an empty set. */
  function SeenAfter(invoices: seq<Invoice>): set<DuplicateKey> {
    if invoices == [] then {}
    else Register(SeenAfter(invoices[..|invoices| - 1]), invoices[|invoices| - 1])
  }

  /** A key has been seen iff some earlier invoice carries it. */
  lemma {:induction false} SeenAfterHolds(invoices: seq<Invoice>, k: DuplicateKey)
    ensures k in SeenAfter(invoices) <==> exists j :: 0 <= j < |invoices| && KeyOf(invoices[j]) == Some(k)
  {
    if invoices != [] {
      var init := invoices[..|invoices| - 1];
      SeenAfterHolds(init, k);
      if k in SeenAfter(init) {
        var j :| 0 <= j < |init| && KeyOf(init[j]) == Some(k);
        assert invoices[j] == init[j];
      }
      if j :| 0 <= j < |invoices| && KeyOf(invoices[j]) == Some(k) {
        if j < |init| {
          assert init[j] == invoices[j];
        }
      }
    }
  }

  /** The key set of a batch only grows from one invoice to the next. */
  lemma {:induction false} SeenAfterGrows(invoices: seq<Invoice>, i: nat, j: nat)
    requires i <= j <= |invoices|
    ensures SeenAfter(invoices[..i]) <= SeenAfter(invoices[..j])
    decreases j - i
  {
    if i < j {
      SeenAfterGrows(invoices, i, j - 1);
      assert invoices[..j][..j - 1] == invoices[..j - 1];
    }
  }

  /**
   * Within a batch, invoice `i` is flagged as a duplicate iff its key is
   * complete and an earlier invoice has the same key; so the first invoice
   * with a given key is never flagged.
   */
  lemma {:induction false} DuplicateIffEarlierKey(invoices: seq<Invoice>, approx: ApproxEqual, i: nat)
    requires i < |invoices|
    ensures DUPLICATE_INVOICE in Validated(invoices[i], approx, SeenAfter(invoices[..i])).errors <==>
      KeyOf(invoices[i]).Some? && exists j :: 0 <= j < i && KeyOf(invoices[j]) == KeyOf(invoices[i])
  {
    var inv := invoices[i];
    DuplicateReported(inv, approx, SeenAfter(invoices[..i]));
    if KeyOf(inv).Some? {
      SeenAfterHolds(invoices[..i], KeyOf(inv).value);
      if j :| 0 <= j < i && KeyOf(invoices[j]) == KeyOf(inv) {
        assert invoices[..i][j] == invoices[j];
      }
    }
  }

  /** The results of validating `invoices` in order against one shared key set. */
  function BatchResults(invoices: seq<Invoice>, approx: ApproxEqual): (r: seq<ValidationResult>)
    ensures |r| == |invoices|
  {
    if invoices == [] then []
    else
      var init := invoices[..|invoices| - 1];
      BatchResults(init, approx) + [Validated(invoices[|invoices| - 1], approx, SeenAfter(init))]
  }

  /** Result `i` of a batch is invoice `i` checked against the keys of the invoices before it. */
  lemma {:induction false} BatchResultAt(invoices: seq<Invoice>, approx: ApproxEqual, i: nat)
    requires i < |invoices|
    ensures BatchResults(invoices, approx)[i] == Validated(invoices[i], approx, SeenAfter(invoices[..i]))
  {
    var init := invoices[..|invoices| - 1];
    var earlier := BatchResults(init, approx);
    var last := Validated(invoices[|invoices| - 1], approx, SeenAfter(init));
    assert BatchResults(invoices, approx) == earlier + [last];
    if i < |init| {
      assert (earlier + [last])[i] == earlier[i];
      assert init[..i] == invoices[..i] && init[i] == invoices[i];
      BatchResultAt(init, approx, i);
    } else {
      assert invoices[..i] == init;
    }
  }

  /** The number of valid results. */
  function CountValid(results: seq<ValidationResult>): (r: nat)
    ensures r <= |results|
  {
    if results == [] then 0
    else CountValid(results[..|results| - 1]) + (if results[|results| - 1].isValid then 1 else 0)
  }

  /** Every error code of the batch, invoice by invoice. */
  function AllErrors(results: seq<ValidationResult>): seq<string> {
    if results == [] then []
    else AllErrors(results[..|results| - 1]) + results[|results| - 1].errors
  }

  /** What `Counter` builds from a list of codes: each distinct code with its number of occurrences. */
  function Histogram(codes: seq<string>): map<string, int> {
    if codes == [] then map[]
    else
      var m := Histogram(codes[..|codes| - 1]);
      var e := codes[|codes| - 1];
      m[e := (if e in m then m[e] else 0) + 1]
  }

  /** The histogram holds exactly the codes that occur, each with its number of occurrences. */
  lemma {:induction false} HistogramCounts(codes: seq<string>)
    ensures forall e :: e in Histogram(codes) <==> e in codes
    ensures forall e :: e in Histogram(codes) ==> Histogram(codes)[e] == multiset(codes)[e]
  {
    if codes != [] {
      var init := codes[..|codes| - 1];
      HistogramCounts(init);
      assert codes == init + [codes[|codes| - 1]];
    }
  }

  /** Counting one more code updates only that code's count. */
  lemma {:induction false} HistogramSnoc(codes: seq<string>, e: string)
    ensures Histogram(codes + [e]) == Histogram(codes)[e := (if e in Histogram(codes) then Histogram(codes)[e] else 0) + 1]
  {
    assert (codes + [e])[..|codes|] == codes;
  }

  lemma {:induction false} SnocSlice<T>(before: seq<T>, s: seq<T>, j: nat)
    requires j < |s|
    ensures before + s[..j + 1] == (before + s[..j]) + [s[j]]
  {
    assert s[..j + 1] == s[..j] + [s[j]];
  }

  /** The sum of a histogram's values. */
  ghost function SumValues(m: map<string, int>): int
    decreases |m.Keys|
  {
    if m.Keys == {} then 0
    else
      var k :| k in m.Keys;
      assert (m - {k}).Keys == m.Keys - {k};
      m[k] + SumValues(m - {k})
  }

  /** Summing may start from any key. */
  lemma {:induction false} SumValuesRemove(m: map<string, int>, k: string)
    requires k in m
    ensures SumValues(m) == m[k] + SumValues(m - {k})
    decreases |m.Keys|
  {
    var j :| j in m.Keys && SumValues(m) == m[j] + SumValues(m - {j});
    if j != k {
      var withoutJ, withoutK := m - {j}, m - {k};
      RemoveTwoKeys(m, j, k);
      SumValuesRemove(withoutJ, k);
      SumValuesRemove(withoutK, j);
    }
  }

  /** Removing two distinct keys in either order leaves the same map. */
  lemma RemoveTwoKeys(m: map<string, int>, j: string, k: string)
    requires j in m && k in m && j != k
    ensures k in m - {j} && (m - {j})[k] == m[k] && (m - {j}).Keys == m.Keys - {j}
    ensures j in m - {k} && (m - {k})[j] == m[j] && (m - {k}).Keys == m.Keys - {k}
    ensures (m - {j}) - {k} == (m - {k}) - {j}
  {
    assert (m - {j}) - {k} == (m - {k}) - {j};
  }

  /** The counts of a histogram add up to the number of codes counted. */
  lemma {:induction false} HistogramTotal(codes: seq<string>)
    ensures SumValues(Histogram(codes)) == |codes|
  {
    if codes != [] {
      var init := codes[..|codes| - 1];
      var e := codes[|codes| - 1];
      var m := Histogram(init);
      var m' := Histogram(codes);
      HistogramTotal(init);
      SumValuesRemove(m', e);
      assert m' - {e} == m - {e};
      if e in m {
        SumValuesRemove(m, e);
      } else {
        assert m - {e} == m;
      }
    }
  }

  /** The batch report: the summary counts and the per-invoice results. */
  datatype Report = Report(summary: ValidationSummary, results: seq<ValidationResult>)

  /** The error histogram of `validate_invoices`: every code of every result, counted. */
  method CountErrors(perInvoice: seq<ValidationResult>) returns (errorCounter: map<string, int>)
    ensures errorCounter == Histogram(AllErrors(perInvoice))
  {
    errorCounter := map[];
    for i := 0 to |perInvoice|
      invariant errorCounter == Histogram(AllErrors(perInvoice[..i]))
    {
      errorCounter := CountCodes(errorCounter, AllErrors(perInvoice[..i]), perInvoice[i].errors);
      assert perInvoice[..i + 1][..i] == perInvoice[..i];
    }
    assert perInvoice[..|perInvoice|] == perInvoice;
  }

  /** The inner loop of the count: adds one to the entry of each code of `errors`. */
  method CountCodes(counter: map<string, int>, ghost before: seq<string>, errors: seq<string>)
    returns (errorCounter: map<string, int>)
    requires counter == Histogram(before)
    ensures errorCounter == Histogram(before + errors)
  {
    errorCounter := counter;
    assert before + errors[..0] == before;
    for j := 0 to |errors|
      invariant errorCounter == Histogram(before + errors[..j])
    {
      var e := errors[j];
      errorCounter := errorCounter[e := (if e in errorCounter then errorCounter[e] else 0) + 1];
      SnocSlice(before, errors, j);
      HistogramSnoc(before + errors[..j], e);
    }
    assert errors[..|errors|] == errors;
  }

  /**
   * `validate_invoices`: validates the invoices in order against one shared
   * key set, then counts every error code and the valid invoices.
   */
  method ValidateInvoices(invoices: seq<Invoice>, approx: ApproxEqual) returns (report: Report)
    ensures report.results == BatchResults(invoices, approx)
    ensures report.summary.totalInvoices == |invoices|
    ensures report.summary.validInvoices == CountValid(report.results)
    ensures report.summary.validInvoices + report.summary.invalidInvoices == report.summary.totalInvoices
    ensures 0 <= report.summary.invalidInvoices <= report.summary.totalInvoices
    ensures report.summary.errorCounts == Histogram(AllErrors(report.results))
  {
    var seenKeys: set<DuplicateKey> := {};
    var perInvoice: seq<ValidationResult> := [];
    for i := 0 to |invoices|
      invariant seenKeys == SeenAfter(invoices[..i])
      invariant perInvoice == BatchResults(invoices[..i], approx)
    {
      var result;
      result, seenKeys := ValidateInvoice(invoices[i], approx, seenKeys);
      perInvoice := perInvoice + [result];
      assert invoices[..i + 1][..i] == invoices[..i];
    }

    assert invoices[..|invoices|] == invoices;
    var errorCounter := CountErrors(perInvoice);

    var total := |invoices|;
    var valid := CountValid(perInvoice);
    var invalid := total - valid;
    report := Report(ValidationSummary(total, valid, invalid, errorCounter), perInvoice);
  }

  /** The values of `error_counts` add up to the number of error codes in the results. */
  lemma {:induction false} ErrorCountsAddUp(results: seq<ValidationResult>)
    ensures SumValues(Histogram(AllErrors(results))) == |AllErrors(results)|
    ensures forall e :: e in Histogram(AllErrors(results)) <==> e in AllErrors(results)
    ensures forall e :: e in Histogram(AllErrors(results)) ==> Histogram(AllErrors(results))[e] == multiset(AllErrors(results))[e]
  {
    HistogramCounts(AllErrors(results));
    HistogramTotal(AllErrors(results));
  }
}
