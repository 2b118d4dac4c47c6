/**
 * The records of invoice_qc/schemas.py and their `to_dict` projections to
 * JSON-shaped dictionaries.
 *
 * The field sets follow what the extractor and the validator read and write
 * (optional amounts, purchase-order and customer numbers, tax rate, line
 * positions and units). The dataclasses in schemas.py declare fewer fields
 * and give the amounts 0.0 defaults; those declarations survive here as the
 * schema defaults, as the key sets of `to_dict`, and in `InvoiceFromDict`,
 * which loads an invoice back from a dictionary of the shape `to_dict`
 * writes. Python's keyword construction `Invoice(**item)` converts nothing
 * and checks no type; `InvoiceFromDict` builds typed records instead and
 * gives None for a value that is not of the shape `to_dict` writes.
 */
module Schemas {
  import opened Optional

  datatype LineItem = LineItem(
    position: Option<int>,
    description: Option<string>,
    quantity: Option<real>,
    unit: Option<string>,
    unitConversion: Option<string>,
    unitPrice: Option<real>,
    lineTotal: Option<real>)

  datatype Invoice = Invoice(
    invoiceNumber: Option<string>,
    purchaseOrderNumber: Option<string>,
    invoiceDate: Option<string>,
    dueDate: Option<string>,
    customerNumber: Option<string>,
    endCustomerNumber: Option<string>,
    paymentTerms: Option<string>,
    deliveryTerms: Option<string>,
    deliveryDate: Option<string>,
    sellerName: Option<string>,
    sellerAddress: Option<string>,
    buyerName: Option<string>,
    buyerAddress: Option<string>,
    currency: Option<string>,
    netTotal: Option<real>,
    taxRate: Option<real>,
    taxAmount: Option<real>,
    grossTotal: Option<real>,
    lineItems: seq<LineItem>,
    notes: Option<string>,
    sourceFile: Option<string>)

  datatype ValidationResult = ValidationResult(invoiceId: string, isValid: bool, errors: seq<string>)

  datatype ValidationSummary = ValidationSummary(
    totalInvoices: int,
    validInvoices: int,
    invalidInvoices: int,
    errorCounts: map<string, int>)

  /** The currency codes the validator accepts. */
  const ALLOWED_CURRENCIES: seq<string> := ["EUR", "USD", "INR"]

  /** JSON-shaped values: what `to_dict` produces and `json.load` yields. */
  datatype Json =
    | Null
    | Str(str: string)
    | Num(num: real)
    | Int(integer: int)
    | Bool(boolean: bool)
    | Array(items: seq<Json>)
    | Object(fields: map<string, Json>)

  type Dict = map<string, Json>

  function StrJson(o: Option<string>): Json {
    match o
    case Some(s) => Str(s)
    case None => Null
  }

  function NumJson(o: Option<real>): Json {
    match o
    case Some(r) => Num(r)
    case None => Null
  }

  /** Reads a string-or-None attribute back; None when the value has another shape. */
  function StrOf(j: Json): Option<Option<string>> {
    match j
    case Null => Some(None)
    case Str(s) => Some(Some(s))
    case _ => None
  }

  /** Reads a number-or-None attribute back; None when the value has another shape. */
  function NumOf(j: Json): Option<Option<real>> {
    match j
    case Null => Some(None)
    case Num(r) => Some(Some(r))
    case _ => None
  }

  // ---------------------------------------------------------------- LineItem

  const LINE_ITEM_KEYS: set<string> := {"description", "quantity", "unit_price", "line_total"}

  /** `LineItem()`: description "" and every amount 0.0; the fields schemas.py lacks are None. */
  function DefaultLineItem(): LineItem {
    LineItem(None, Some(""), Some(0.0), None, None, Some(0.0), Some(0.0))
  }

  /** What of a line item `LineItem.to_dict` keeps: position, unit and unit conversion are dropped. */
  function LineItemSchemaView(li: LineItem): LineItem {
    li.(position := None, unit := None, unitConversion := None)
  }

  /** `LineItem.to_dict`. */
  function LineItemToDict(li: LineItem): (d: Dict)
    ensures d.Keys == LINE_ITEM_KEYS
  {
    map["description" := StrJson(li.description),
        "quantity" := NumJson(li.quantity),
        "unit_price" := NumJson(li.unitPrice),
        "line_total" := NumJson(li.lineTotal)]
  }

  /** `LineItem(**d)`: unknown keys are rejected, missing keys take the defaults. */
  function LineItemFromDict(d: Dict): Option<LineItem> {
    if !(d.Keys <= LINE_ITEM_KEYS) then None
    else
      var default := DefaultLineItem();
      var description :- if "description" in d then StrOf(d["description"]) else Some(default.description);
      var quantity :- if "quantity" in d then NumOf(d["quantity"]) else Some(default.quantity);
      var unitPrice :- if "unit_price" in d then NumOf(d["unit_price"]) else Some(default.unitPrice);
      var lineTotal :- if "line_total" in d then NumOf(d["line_total"]) else Some(default.lineTotal);
      Some(LineItem(None, description, quantity, None, None, unitPrice, lineTotal))
  }

  /** `to_dict` loses exactly the fields schemas.py does not declare. */
  lemma {:induction false} LineItemRoundTrip(li: LineItem)
    ensures LineItemFromDict(LineItemToDict(li)) == Some(LineItemSchemaView(li))
  {
  }

  /** `LineItem(**{})`: an empty dictionary loads as the schema defaults. */
  lemma {:induction false} EmptyDictIsDefaultLineItem()
    ensures LineItemFromDict(map[]) == Some(DefaultLineItem())
    ensures DefaultLineItem().description == Some("") && DefaultLineItem().quantity == Some(0.0) &&
            DefaultLineItem().unitPrice == Some(0.0) && DefaultLineItem().lineTotal == Some(0.0)
  {
  }

  function LineItemsToJson(items: seq<LineItem>): (r: seq<Json>)
    ensures |r| == |items|
    ensures forall i :: 0 <= i < |items| ==> r[i] == Object(LineItemToDict(items[i]))
  {
    if items == [] then [] else [Object(LineItemToDict(items[0]))] + LineItemsToJson(items[1..])
  }

  function LineItemsFromJson(items: seq<Json>): Option<seq<LineItem>> {
    if items == [] then Some([])
    else
      var first :- if items[0].Object? then LineItemFromDict(items[0].fields) else None;
      var rest :- LineItemsFromJson(items[1..]);
      Some([first] + rest)
  }

  function LineItemsSchemaView(items: seq<LineItem>): (r: seq<LineItem>)
    ensures |r| == |items|
    ensures forall i :: 0 <= i < |items| ==> r[i] == LineItemSchemaView(items[i])
  {
    if items == [] then [] else [LineItemSchemaView(items[0])] + LineItemsSchemaView(items[1..])
  }

  lemma {:induction false} LineItemsRoundTrip(items: seq<LineItem>)
    ensures LineItemsFromJson(LineItemsToJson(items)) == Some(LineItemsSchemaView(items))
  {
    if items != [] {
      var js := LineItemsToJson(items);
      LineItemsRoundTrip(items[1..]);
      LineItemRoundTrip(items[0]);
      assert js[0] == Object(LineItemToDict(items[0]));
      assert js[1..] == LineItemsToJson(items[1..]);
    }
  }

  // ----------------------------------------------------------------- Invoice

  const INVOICE_KEYS: set<string> := {
    "source_file", "invoice_number", "invoice_date", "due_date", "seller_name", "seller_address",
    "buyer_name", "buyer_address", "currency", "net_total", "tax_amount", "gross_total", "line_items"}

  /** `Invoice()`: currency "USD", amounts 0.0, no line items, every optional string None. */
  function DefaultInvoice(): Invoice {
    Invoice(None, None, None, None, None, None, None, None, None, None, None, None, None,
            Some("USD"), Some(0.0), None, Some(0.0), Some(0.0), [], None, None)
  }

  /** The part of an invoice `Invoice.to_dict` keeps. */
  function InvoiceSchemaView(inv: Invoice): Invoice {
    inv.(purchaseOrderNumber := None, customerNumber := None, endCustomerNumber := None,
         paymentTerms := None, deliveryTerms := None, deliveryDate := None, taxRate := None, notes := None,
         lineItems := LineItemsSchemaView(inv.lineItems))
  }

  /**
   * `Invoice.to_dict`: the thirteen schema fields, each under its own key,
   * line items projected one by one in order.
   */
  function InvoiceToDict(inv: Invoice): Dict {
    map["source_file" := StrJson(inv.sourceFile),
        "invoice_number" := StrJson(inv.invoiceNumber),
        "invoice_date" := StrJson(inv.invoiceDate),
        "due_date" := StrJson(inv.dueDate),
        "seller_name" := StrJson(inv.sellerName),
        "seller_address" := StrJson(inv.sellerAddress),
        "buyer_name" := StrJson(inv.buyerName),
        "buyer_address" := StrJson(inv.buyerAddress),
        "currency" := StrJson(inv.currency),
        "net_total" := NumJson(inv.netTotal),
        "tax_amount" := NumJson(inv.taxAmount),
        "gross_total" := NumJson(inv.grossTotal),
        "line_items" := Array(LineItemsToJson(inv.lineItems))]
  }

  /** The dictionary has exactly the thirteen schema keys, its line items in order. */
  lemma {:induction false} InvoiceToDictShape(inv: Invoice)
    ensures InvoiceToDict(inv).Keys == INVOICE_KEYS
    ensures InvoiceToDict(inv)["line_items"].Array?
    ensures |InvoiceToDict(inv)["line_items"].items| == |inv.lineItems|
    ensures forall i :: 0 <= i < |inv.lineItems| ==>
              InvoiceToDict(inv)["line_items"].items[i] == Object(LineItemToDict(inv.lineItems[i]))
  {
    AmountFieldsRead(inv);
  }

  function StrField(d: Dict, key: string, default: Option<string>): Option<Option<string>> {
    if key in d then StrOf(d[key]) else Some(default)
  }

  function NumField(d: Dict, key: string, default: Option<real>): Option<Option<real>> {
    if key in d then NumOf(d[key]) else Some(default)
  }

  /**
   * Loading an invoice back from a dictionary, as cli.py does with
   * `Invoice(**item)`: a key schemas.py does not declare is rejected and a
   * missing key takes the schema default, as in Python. Unlike Python, which
   * stores whatever value it is given, a value that is not of the shape
   * `to_dict` writes gives None, and line items are rebuilt as `LineItem`s.
   */
  function InvoiceFromDict(d: Dict): Option<Invoice> {
    if !(d.Keys <= INVOICE_KEYS) then None
    else
      var z := DefaultInvoice();
      var sourceFile :- StrField(d, "source_file", z.sourceFile);
      var invoiceNumber :- StrField(d, "invoice_number", z.invoiceNumber);
      var invoiceDate :- StrField(d, "invoice_date", z.invoiceDate);
      var dueDate :- StrField(d, "due_date", z.dueDate);
      var sellerName :- StrField(d, "seller_name", z.sellerName);
      var sellerAddress :- StrField(d, "seller_address", z.sellerAddress);
      var buyerName :- StrField(d, "buyer_name", z.buyerName);
      var buyerAddress :- StrField(d, "buyer_address", z.buyerAddress);
      var currency :- StrField(d, "currency", z.currency);
      var netTotal :- NumField(d, "net_total", z.netTotal);
      var taxAmount :- NumField(d, "tax_amount", z.taxAmount);
      var grossTotal :- NumField(d, "gross_total", z.grossTotal);
      var lineItems :- if "line_items" !in d then Some(z.lineItems)
                       else if d["line_items"].Array? then LineItemsFromJson(d["line_items"].items)
                       else None;
      Some(z.(sourceFile := sourceFile, invoiceNumber := invoiceNumber, invoiceDate := invoiceDate,
              dueDate := dueDate, sellerName := sellerName, sellerAddress := sellerAddress,
              buyerName := buyerName, buyerAddress := buyerAddress, currency := currency,
              netTotal := netTotal, taxAmount := taxAmount, grossTotal := grossTotal, lineItems := lineItems))
  }

  /** Loading what `to_dict` wrote gives back the schema part of the invoice. */
  lemma {:induction false} InvoiceRoundTrip(inv: Invoice)
    ensures InvoiceFromDict(InvoiceToDict(inv)) == Some(InvoiceSchemaView(inv))
  {
    InvoiceToDictShape(inv);
    LineItemsRoundTrip(inv.lineItems);
    HeaderFieldsRead(inv);
    PartyFieldsRead(inv);
    AmountFieldsRead(inv);
  }

  /** The identifying fields of the written dictionary read back as they were. */
  lemma {:induction false} HeaderFieldsRead(inv: Invoice)
    ensures StrField(InvoiceToDict(inv), "source_file", None) == Some(inv.sourceFile)
    ensures StrField(InvoiceToDict(inv), "invoice_number", None) == Some(inv.invoiceNumber)
    ensures StrField(InvoiceToDict(inv), "invoice_date", None) == Some(inv.invoiceDate)
    ensures StrField(InvoiceToDict(inv), "due_date", None) == Some(inv.dueDate)
  {
  }

  /** The party fields of the written dictionary read back as they were. */
  lemma {:induction false} PartyFieldsRead(inv: Invoice)
    ensures StrField(InvoiceToDict(inv), "seller_name", None) == Some(inv.sellerName)
    ensures StrField(InvoiceToDict(inv), "seller_address", None) == Some(inv.sellerAddress)
    ensures StrField(InvoiceToDict(inv), "buyer_name", None) == Some(inv.buyerName)
    ensures StrField(InvoiceToDict(inv), "buyer_address", None) == Some(inv.buyerAddress)
  {
  }

  /** The currency, the amounts and the line items of the written dictionary read back as they were. */
  lemma {:induction false} AmountFieldsRead(inv: Invoice)
    ensures StrField(InvoiceToDict(inv), "currency", Some("USD")) == Some(inv.currency)
    ensures NumField(InvoiceToDict(inv), "net_total", Some(0.0)) == Some(inv.netTotal)
    ensures NumField(InvoiceToDict(inv), "tax_amount", Some(0.0)) == Some(inv.taxAmount)
    ensures NumField(InvoiceToDict(inv), "gross_total", Some(0.0)) == Some(inv.grossTotal)
    ensures InvoiceToDict(inv)["line_items"] == Array(LineItemsToJson(inv.lineItems))
  {
  }

  /** An empty dictionary loads as the schema defaults. */
  lemma {:induction false} EmptyDictIsDefault()
    ensures InvoiceFromDict(map[]) == Some(DefaultInvoice())
  {
  }

  // --------------------------------------------------------- ValidationResult

  /** `ValidationResult.to_dict`: exactly the identifier, the verdict and the errors. */
  function ResultToDict(r: ValidationResult): (d: Dict)
    ensures d.Keys == {"invoice_id", "is_valid", "errors"}
  {
    map["invoice_id" := Str(r.invoiceId),
        "is_valid" := Bool(r.isValid),
        "errors" := Array(ErrorsToJson(r.errors))]
  }

  function ErrorsToJson(errors: seq<string>): (r: seq<Json>)
    ensures |r| == |errors|
    ensures forall i :: 0 <= i < |errors| ==> r[i] == Str(errors[i])
  {
    if errors == [] then [] else [Str(errors[0])] + ErrorsToJson(errors[1..])
  }

  function ErrorsOf(items: seq<Json>): Option<seq<string>> {
    if items == [] then Some([])
    else
      var first :- if items[0].Str? then Some(items[0].str) else None;
      var rest :- ErrorsOf(items[1..]);
      Some([first] + rest)
  }

  function ResultFromDict(d: Dict): Option<ValidationResult> {
    if d.Keys != {"invoice_id", "is_valid", "errors"} then None
    else if !d["invoice_id"].Str? || !d["is_valid"].Bool? || !d["errors"].Array? then None
    else
      var errors :- ErrorsOf(d["errors"].items);
      Some(ValidationResult(d["invoice_id"].str, d["is_valid"].boolean, errors))
  }

  lemma {:induction false} ErrorsRoundTrip(errors: seq<string>)
    ensures ErrorsOf(ErrorsToJson(errors)) == Some(errors)
  {
    if errors != [] {
      var js := ErrorsToJson(errors);
      ErrorsRoundTrip(errors[1..]);
      assert js[0] == Str(errors[0]);
      assert js[1..] == ErrorsToJson(errors[1..]);
      assert [errors[0]] + errors[1..] == errors;
    }
  }

  /** `ValidationResult.to_dict` loses nothing: the errors come back unchanged and in order. */
  lemma {:induction false} ResultRoundTrip(r: ValidationResult)
    ensures ResultFromDict(ResultToDict(r)) == Some(r)
  {
    ErrorsRoundTrip(r.errors);
  }

  // -------------------------------------------------------- ValidationSummary

  /** `ValidationSummary()`: every count 0 and no error counts. */
  function EmptySummary(): ValidationSummary {
    ValidationSummary(0, 0, 0, map[])
  }

  /** `ValidationSummary.to_dict`. */
  function SummaryToDict(s: ValidationSummary): (d: Dict)
    ensures d.Keys == {"total_invoices", "valid_invoices", "invalid_invoices", "error_counts"}
    ensures d["error_counts"].Object? && d["error_counts"].fields.Keys == s.errorCounts.Keys
  {
    map["total_invoices" := Int(s.totalInvoices),
        "valid_invoices" := Int(s.validInvoices),
        "invalid_invoices" := Int(s.invalidInvoices),
        "error_counts" := Object(map e | e in s.errorCounts :: Int(s.errorCounts[e]))]
  }

  /** Reads an error-count object back; None when some count is not an integer. */
  function CountsOf(fields: map<string, Json>): Option<map<string, int>> {
    if forall e :: e in fields ==> fields[e].Int? then Some(map e | e in fields :: fields[e].integer) else None
  }

  /** Reads a summary dictionary back; None for other keys or values of another shape. */
  function SummaryFromDict(d: Dict): Option<ValidationSummary> {
    if d.Keys != {"total_invoices", "valid_invoices", "invalid_invoices", "error_counts"} then None
    else if !d["total_invoices"].Int? || !d["valid_invoices"].Int? || !d["invalid_invoices"].Int? then None
    else if !d["error_counts"].Object? then None
    else
      var counts :- CountsOf(d["error_counts"].fields);
      Some(ValidationSummary(d["total_invoices"].integer, d["valid_invoices"].integer,
                             d["invalid_invoices"].integer, counts))
  }

  /** `ValidationSummary.to_dict` loses nothing: every count and every error count comes back. */
  lemma {:induction false} SummaryRoundTrip(s: ValidationSummary)
    ensures SummaryFromDict(SummaryToDict(s)) == Some(s)
  {
    var d := SummaryToDict(s);
    var f := d["error_counts"].fields;
    assert (map e | e in f :: f[e].integer) == s.errorCounts;
  }

  /** A fresh summary serialises to zero counts and an empty error histogram. */
  lemma {:induction false} EmptySummaryToDict()
    ensures SummaryToDict(EmptySummary()) == map[
      "total_invoices" := Int(0), "valid_invoices" := Int(0), "invalid_invoices" := Int(0),
      "error_counts" := Object(map[])]
  {
    var d := SummaryToDict(EmptySummary());
    assert d["error_counts"].fields == map[];
  }
}
