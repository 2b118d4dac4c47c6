# Invoice quality control, modelled in Dafny

This project models the core of the `invoice_qc` package. That package turns the text of an invoice into a structured `Invoice` record and checks records against a fixed rule sequence. It then reports the checks for a whole batch.

- **Rule engine** (`invoice_qc/validator.py`, module `Validator`): `validate_invoice` runs the rules in a fixed order. The rules are completeness of seven fields, the currency whitelist, the line-item sum, net + tax ≈ gross, negative amounts and duplicate detection. Each failing rule appends its error code; no rule stops the others. The duplicate-key set is an in/out parameter of `ValidateInvoice`. `validate_invoices` is `ValidateInvoices`: it loops over the batch in order, then counts the valid results and builds the error-code histogram. Each method is proved equal to a specification function (`Validated`, `BatchResults`, `Histogram`). Lemmas prove each rule fires exactly when its condition holds.
- **Extraction** (`invoice_qc/extractor.py`, module `Extractor`): the first-match pattern search, totals, parties, purchase order, line items and the assembly of the invoice. The regular-expression engine is a `Matcher` parameter that returns a match's optional groups, or nothing. The pattern table is kept as data: how many patterns each field has per language, each known by its index.
- **Helpers** (`invoice_qc/utils.py`, modules `TextCleaner` and `AmountParser`): `clean_text`, `extract_field`, `parse_amount` and `find_amounts`.
- **Records** (`invoice_qc/schemas.py`, module `Schemas`): `LineItem`, `Invoice`, `ValidationResult`, `ValidationSummary` and their `to_dict` projections. Each projection has a partner that reads a dictionary of the shape `to_dict` writes back into a typed record, and a round-trip lemma.
- **Support modules:** `Strings` models the Python string primitives the code relies on: `isspace`, `strip`, `splitlines` followed by filtering, `join`, `split()` (`Words`), `split()[0]` and `upper`. `Regex` holds the matcher abstraction and `Optional` the option type.

Collaborators that are not part of this model become parameters:
- `re.search` (a `Matcher`);
- `parse_number`, `int()` and `float()` (partial parsers returning `Option`);
- `approx_equal` (a relation on reals);
- `re.findall` with the amount pattern (a function from text to matches);
- the language detector's answer (`Option<string>`, where None means the detector raised).

Where the code and its design description differ, the model follows the code:
- Error codes carry a space after the colon (`"missing_field: invoice_number"`).
- The currency rule skips an empty currency as well as a missing one.
- `_search_patterns` skips a match whose groups are all empty rather than returning it.
- The `Invoice` amounts are optional (`Option<real>`), as the extractor and the validator treat them. The 0.0 defaults of `schemas.py` appear only in `DefaultInvoice` and in loading from a dictionary.

## Model

| member | source | states |
|---|---|---|
| Validator.ValidateInvoice | invoice_qc/validator.py:9-86 | the result equals the rule specification `Validated`; `isValid` holds exactly when the error list is empty; the key set afterwards is `Register(seenKeys, invoice)` |
| Validator.CheckCompleteness | invoice_qc/validator.py:19-33 | the seven completeness checks produce exactly `CompletenessErrors` |
| Validator.AppendIfMissing | invoice_qc/validator.py:19-33 | one completeness check appends the field's `missing_field` code exactly when the field is missing (strings: None or empty; amounts: None) |
| Validator.MissingCodesAt | invoice_qc/validator.py:19-33 | the codes of a list of fields are each field's `missing_field: <name>` code, position by position |
| Validator.AppendFormat | invoice_qc/validator.py:35-43 | appends exactly the currency-format codes to the errors so far |
| Validator.AppendBusiness | invoice_qc/validator.py:45-63 | appends exactly the line-item-sum code and then the totals code, each only when its rule fails |
| Validator.AppendAnomalies | invoice_qc/validator.py:65-69 | the loop over net, tax and gross appends exactly the anomaly codes, in that order |
| Validator.InvoiceId | invoice_qc/validator.py:80 | the identifier is never empty: the invoice number if non-empty, else the source file if non-empty, else "unknown" |
| Validator.Register | invoice_qc/validator.py:72-77 | the key set never shrinks; it is unchanged when a key component is empty; otherwise it gains exactly the invoice's key |
| Validator.MissingFieldCodeInjective | invoice_qc/validator.py:19-33 | distinct required fields have distinct `missing_field` codes |
| Validator.NegativeCodeInjective | invoice_qc/validator.py:66-69 | distinct amount fields have distinct anomaly codes |
| Validator.CompletenessCountsField | invoice_qc/validator.py:19-33 | each required field's code occurs once among the completeness codes if the field is missing, and never otherwise |
| Validator.CompletenessInCheckOrder | invoice_qc/validator.py:19-33 | the completeness codes are those of exactly the missing fields, in the order invoice_number … gross_total |
| Validator.AllMissingGivesSevenCodes | invoice_qc/validator.py:19-33 | an invoice missing every required field starts its errors with all seven codes in check order and is invalid |
| Validator.MissingFieldReported | invoice_qc/validator.py:19-33 | `missing_field: <name>` is among an invoice's errors iff the field is missing (strings: None or empty; amounts: None), and then exactly once |
| Validator.UnsupportedCurrencyReported | invoice_qc/validator.py:36-38 | `format_error: unsupported_currency` is reported iff the currency is non-empty and its upper-cased form is not in `ALLOWED_CURRENCIES` |
| Validator.LineItemsMismatchReported | invoice_qc/validator.py:47-52 | the line-item mismatch is reported iff there are line items, a net total, a non-zero sum of the present line totals and that sum is not approximately the net total |
| Validator.TotalsMismatchReported | invoice_qc/validator.py:55-63 | the totals mismatch is reported iff net, tax and gross are all present and net + tax is not approximately gross |
| Validator.AnomalyErrorsHave | invoice_qc/validator.py:66-69 | the anomaly codes name exactly the negative amounts, and every anomaly code is in the anomaly category |
| Validator.NegativeAmountReported | invoice_qc/validator.py:66-69 | `anomaly: <field>_negative` is among the errors iff that amount is present and negative |
| Validator.DuplicateReported | invoice_qc/validator.py:72-75 | `duplicate_invoice` is reported iff number, date and seller are all non-empty and their key is already in the set |
| Validator.CodeCategory | invoice_qc/validator.py:12-75 | each rule only emits codes of its own category (m, f, b, a, d) |
| Validator.ValidIffEveryRulePasses | invoice_qc/validator.py:12-79 | an invoice is valid iff no field is missing, the currency is supported, neither business rule fails, no amount is negative and its key is not yet seen |
| Validator.SchemaDefaultsMissTextFields | invoice_qc/validator.py:14-86 | an invoice of schema defaults alone validates as "unknown", invalid, with exactly the `missing_field` codes of invoice_number, invoice_date, seller_name and buyer_name, in that order |
| Validator.DefaultCurrencySupported | invoice_qc/validator.py:36-38 | the default currency "USD" passes the currency rule |
| Validator.SeenAfterHolds | invoice_qc/validator.py:89-95 | after a prefix of the batch, the key set holds exactly the keys of the invoices in that prefix |
| Validator.SeenAfterGrows | invoice_qc/validator.py:93-95 | the key set only grows along the batch |
| Validator.DuplicateIffEarlierKey | invoice_qc/validator.py:89-95 | within a batch, an invoice is flagged as a duplicate iff an earlier invoice has the same key, so the first occurrence is never flagged |
| Validator.BatchResultAt | invoice_qc/validator.py:93-95 | result i is invoice i validated against the keys of invoices 0 … i-1 |
| Validator.CountErrors | invoice_qc/validator.py:97-100 | the nested counting loop produces the histogram of all error codes of all results |
| Validator.CountCodes | invoice_qc/validator.py:99-100 | the inner loop adds one result's codes to the counter: the histogram of the codes so far followed by those codes |
| Validator.HistogramCounts | invoice_qc/validator.py:97-100 | the histogram has a key exactly for each code that occurs, mapped to its number of occurrences |
| Validator.HistogramTotal | invoice_qc/validator.py:97-111 | the histogram's counts sum to the number of codes counted |
| Validator.ValidateInvoices | invoice_qc/validator.py:89-116 | one result per invoice in input order; total is the number of invoices; valid counts the valid results; valid + invalid = total; the error counts are the histogram of every result's codes |
| Validator.ErrorCountsAddUp | invoice_qc/validator.py:97-111 | the error counts of a report sum to the total number of error codes across its results, and each count is that code's number of occurrences |
| Extractor.Patterns | invoice_qc/extractor.py:27-72 | the catalog lists per field and language as many patterns as the table does, in table order, and none for an unknown field or language |
| Extractor.FirstQualifyingIsFirst | invoice_qc/extractor.py:79-84 | the index found is that of the first candidate that matches with a non-empty group: no earlier one qualifies |
| Extractor.SearchResult | invoice_qc/extractor.py:80-85 | None iff no candidate matches with a non-empty group; otherwise a stripped value |
| Extractor.SearchResultIsFirstQualifying | invoice_qc/extractor.py:79-84 | when candidate k is the first that matches with a non-empty group, the result is the value of candidate k, whatever later candidates match |
| Extractor.SearchPatterns | invoice_qc/extractor.py:75-85 | the loop with early return equals `SearchResult` over the language's patterns followed by the English ones |
| Extractor.SearchCandidates | invoice_qc/extractor.py:79-85 | the loop returns the stripped last non-empty group of the first qualifying candidate, and None when none qualifies |
| Extractor.SearchResultAppend | invoice_qc/extractor.py:76-84 | searching a concatenation gives the first list's answer if it has one, else the second's |
| Extractor.LanguagePatternsFirst | invoice_qc/extractor.py:76-79 | the detected language's patterns take precedence; the English ones are used only when none of them finds a value |
| Extractor.UnknownFieldNotFound | invoice_qc/extractor.py:76-78 | a field absent from the pattern table is never found |
| Extractor.LastGroupStripped | invoice_qc/extractor.py:82-84 | the value taken from a qualifying match is stripped |
| Extractor.LastGroupChosen | invoice_qc/extractor.py:82-84 | the value taken from a qualifying match is the stripped text of a group that took part with non-empty text and after which every group is missing or empty: the last non-empty group |
| Extractor.ExtractTotals | invoice_qc/extractor.py:88-125 | the net total comes from the "Gesamtwert" match, else the "Netto" match, else None; tax rate and amount come from one match and are both None without it; the gross total is `parse_number` of group 1 of its match, and None without the match |
| Extractor.NetTotalIndependent | invoice_qc/extractor.py:95-102 | the net total depends only on its own two patterns, whatever the others match |
| Extractor.PartyFoundIffNotBlank | invoice_qc/extractor.py:144-150 | a matched block gives a name iff it has a non-whitespace character; an address only comes with a name |
| Extractor.PartyFromLines | invoice_qc/extractor.py:144-150 | of the block's non-blank lines, stripped, the first is the name and the others joined with ", " are the address (None for a single line); no lines give no party |
| Extractor.PartyLines | invoice_qc/extractor.py:145-150 | the name is a non-empty, stripped single line and the address a single line |
| Extractor.OneLinePartyKeepsText | invoice_qc/extractor.py:145-150 | a block of one non-blank line is all name: only whitespace is lost |
| Extractor.ExtractParties | invoice_qc/extractor.py:129-168 | a party whose anchor does not match has neither name nor address; otherwise it is read from group 1 of its match |
| Extractor.ExtractPurchaseOrder | invoice_qc/extractor.py:171-179 | None iff there is no match; otherwise a stripped string with exactly the non-whitespace characters of the non-empty groups, in order, whose words are each group's words, group after group, so no two groups fuse |
| Extractor.FirstRowIsFirst | invoice_qc/extractor.py:207-208 | the line found is the first table line that starts a row: no earlier line does |
| Extractor.RowItem | invoice_qc/extractor.py:209-245 | a row item has no line total, the document's description and the position parsed from the first token; quantity and unit are `parse_number` of group 1 and group 2 of the quantity match, the unit conversion group 1 of its match, the unit price `parse_number` of group 1 of its match; each field whose pattern does not match stays None |
| Extractor.ReadRow | invoice_qc/extractor.py:209-245 | reading a row's fields step by step gives `RowItem` |
| Extractor.LineItemsOf | invoice_qc/extractor.py:182-250 | no items without the table header; at most one item |
| Extractor.LineItemsOfShape | invoice_qc/extractor.py:195-248 | an item has no line total and the document's description; there is an item iff some table line starts a row |
| Extractor.ScanRows | invoice_qc/extractor.py:207-248 | the scan of table lines with its early break equals `RowsItems`: the item of the first line that starts a row, or nothing when no line does |
| Extractor.ExtractLineItems | invoice_qc/extractor.py:182-250 | the scan that stops at the first row line returns exactly `LineItemsOf` |
| Extractor.CurrencyOrDefault | invoice_qc/extractor.py:262 | the currency is never empty: the value found, or "EUR" when none or an empty one is found |
| Extractor.ExtractInvoiceFromText | invoice_qc/extractor.py:253-290 | the invoice assembled field by field equals the specification `ExtractedInvoice` |
| Extractor.ExtractedInvoiceShape | invoice_qc/extractor.py:253-290 | an extracted invoice has a non-empty currency, no due date, no notes, its own source file, at most one line item, stripped number and date, and non-empty party names |
| Extractor.PartiesNamed | invoice_qc/extractor.py:145-150 | a party name read from a block is never empty |
| TextCleaner.CollapseNormalised | invoice_qc/utils.py:237 | after replacing whitespace runs by one space, no whitespace other than a single space remains |
| TextCleaner.CollapseSpaces | invoice_qc/utils.py:237 | collapsing gives "" iff the text is empty, and starts with a space iff the text starts with whitespace |
| TextCleaner.CollapseKeepsNonSpace | invoice_qc/utils.py:237 | collapsing whitespace keeps every other character, in order |
| TextCleaner.CleanText | invoice_qc/utils.py:223-242 | "" for empty text; the result is stripped, its whitespace is single plain spaces, and its non-whitespace characters are the input's |
| TextCleaner.CleanTextWords | invoice_qc/utils.py:233-242 | the cleaned text is the text's words (maximal runs of non-whitespace) in order, separated by exactly one space |
| TextCleaner.FirstMatchIsFirst | invoice_qc/utils.py:256-258 | the index found is that of the first pattern that matches: no earlier one does |
| TextCleaner.ExtractField | invoice_qc/utils.py:245-262 | None iff no pattern matches; otherwise the cleaned, stripped group 1 of the first pattern that matches |
| TextCleaner.ExtractFieldUsesFirstMatch | invoice_qc/utils.py:256-262 | when pattern i matches and no earlier one does, the value is the cleaned, stripped group 1 of pattern i, whatever later patterns match |
| AmountParser.CleanAmount | invoice_qc/utils.py:197 | the cleaned text contains no `$`, `€`, `₹`, comma or whitespace, and is no longer than the input |
| AmountParser.CleanAmountConcat | invoice_qc/utils.py:197 | cleaning works character by character: it distributes over concatenation |
| AmountParser.CleanAmountFixed | invoice_qc/utils.py:197 | cleaning leaves a text unchanged iff it holds no removed character |
| AmountParser.ParseAmount | invoice_qc/utils.py:183-202 | 0.0 for empty text and when the cleaned text is not a number; otherwise the number |
| AmountParser.DocumentedExample | invoice_qc/utils.py:186-200 | "$1,234.56" parses to 1234.56 when `float` reads plain decimals |
| AmountParser.FindAmounts | invoice_qc/utils.py:205-216 | one amount per match, in match order, each parsed by `parse_amount` |
| Strings.Strip | invoice_qc/utils.py:240 | the stripped text has no whitespace at either end |
| Strings.StripEmpty | invoice_qc/utils.py:240 | the stripped text is empty iff the input is blank |
| Strings.StripKeepsText | invoice_qc/utils.py:240 | stripping keeps every non-whitespace character, in order |
| Strings.StripSingleLine | invoice_qc/extractor.py:146 | stripping a single line gives a single line |
| Strings.NonBlankLinesEmpty | invoice_qc/extractor.py:146-147 | a text has no non-blank line iff it is all whitespace |
| Strings.NonBlankLinesShape | invoice_qc/extractor.py:146 | each kept line is non-empty, stripped and free of line breaks |
| Strings.NonBlankLinesKeepText | invoice_qc/extractor.py:146 | splitting into stripped non-blank lines loses only whitespace |
| Strings.NonBlankLinesStrip | invoice_qc/extractor.py:145-146 | stripping a block before splitting it changes none of its stripped non-blank lines |
| Strings.WordsAreWords | invoice_qc/utils.py:237 | every word is non-empty and holds no whitespace |
| Strings.WordsKeepText | invoice_qc/utils.py:237 | the words hold exactly the text's non-whitespace characters, in order |
| Strings.WordsConcat | invoice_qc/utils.py:237 | two texts that meet at whitespace have the words of the first followed by the words of the second |
| Strings.WordsStrip | invoice_qc/utils.py:240 | stripping does not change the words |
| Strings.WordsOfJoin | invoice_qc/extractor.py:178 | the words of parts joined with one space are the words of each part, part after part |
| Strings.JoinSingleLine | invoice_qc/extractor.py:150 | joining single lines with ", " gives a single line |
| Strings.JoinNonSpace | invoice_qc/extractor.py:178 | joining with a blank separator keeps exactly the parts' non-whitespace characters |
| Strings.FirstToken | invoice_qc/extractor.py:209-211 | the first token of a line holds no whitespace |
| Strings.UpperAt | invoice_qc/validator.py:37 | upper-casing maps each character on its own, position by position |
| Regex.NonEmptyGroupsShape | invoice_qc/extractor.py:82 | a string is kept iff it is non-empty and some group took part with it; none is kept iff every group is missing or empty |
| Regex.NonEmptyGroupsSnoc | invoice_qc/extractor.py:82 | one more group adds its text at the end exactly when it took part with non-empty text, so the kept strings are the present non-empty groups in order |
| Regex.NonEmptyGroupsLast | invoice_qc/extractor.py:82-84 | the last kept string is a group that took part, after which every group is missing or empty |
| Schemas.LineItemToDict | invoice_qc/schemas.py:29-36 | `LineItem.to_dict` has exactly the keys description, quantity, unit_price and line_total |
| Schemas.LineItemRoundTrip | invoice_qc/schemas.py:24-36 | loading a line item's dictionary gives back the line item, less the fields schemas.py does not declare |
| Schemas.EmptyDictIsDefaultLineItem | invoice_qc/schemas.py:24-27 | `LineItem()` has description "" and quantity, unit price and line total 0.0 |
| Schemas.LineItemsRoundTrip | invoice_qc/schemas.py:88 | the line-item list round-trips item by item, keeping number and order |
| Schemas.InvoiceToDictShape | invoice_qc/schemas.py:73-89 | `Invoice.to_dict` has exactly the thirteen schema keys; its line items are each line item's dictionary, in order |
| Schemas.InvoiceRoundTrip | invoice_qc/schemas.py:59-89 | loading what `to_dict` wrote gives back every scalar field unchanged and the line items' schema part |
| Schemas.EmptyDictIsDefault | invoice_qc/schemas.py:59-71 | `Invoice()` is currency "USD", amounts 0.0, no line items and every optional string None |
| Schemas.ResultToDict | invoice_qc/schemas.py:106-112 | `ValidationResult.to_dict` has exactly the keys invoice_id, is_valid and errors |
| Schemas.ResultRoundTrip | invoice_qc/schemas.py:102-112 | `ValidationResult.to_dict` loses nothing: errors come back unchanged and in order |
| Schemas.SummaryToDict | invoice_qc/schemas.py:131-138 | `ValidationSummary.to_dict` has exactly the four summary keys and one error-count entry per counted code |
| Schemas.SummaryRoundTrip | invoice_qc/schemas.py:126-138 | `ValidationSummary.to_dict` loses nothing: reading it back gives the three counts and every error count unchanged |
| Schemas.EmptySummaryToDict | invoice_qc/schemas.py:126-129 | a fresh summary has all counts 0 and no error counts |

`ALLOWED_CURRENCIES` (invoice_qc/schemas.py:142) is the constant `Schemas.ALLOWED_CURRENCIES`. The currency rule does not use it: it writes the same three codes as a literal set (invoice_qc/validator.py:36), and so does `Validator.AppendFormat`. `Validator.UnsupportedCurrencyReported` states the rule in terms of the constant, so the two lists are proved to agree.

## Left out

- PDF text extraction, directory scanning and language detection are library and file I/O. The detector's answer is a parameter, and a failure falls back to "en".
- The regular expressions themselves and the regex engine are replaced by the `Matcher` parameter. Case-insensitive matching, `DOTALL` and anchoring are properties of that matcher. A group that did not take part reads as None, or as "" where the code reads its text.
- `parse_number`, `approx_equal`, `int()` and `float()` are not defined in the files modelled. They are parameters, so no tolerance or number syntax is assumed.
- Amounts are real numbers. IEEE rounding, `inf`, `nan` and exponent syntax are not modelled.
- The `_not_numeric` format check (invoice_qc/validator.py:40-43) cannot fire when amounts are typed as numbers, so it contributes no code.
- `DateParser`, `FileHandler`, `Logger`, the command-line interface, the HTTP API and the web application are not part of this model.
- Strings.SplitAtLineBreaks: splits "\r\n" into two breaks and keeps empty pieces, unlike `str.splitlines`. Every caller drops blank pieces, so the non-blank lines are the same.
- Strings.Upper: maps ASCII letters, `ı` and `ſ`. Other characters are left as they are. No other character upper-cases in Python to a piece of "EUR", "USD" or "INR", so the currency rule's outcome is unchanged.
- TextCleaner.ExtractField: requires that the first matching pattern captures group 1. When it does not, `match.group(1)` raises in the source, and no error result is modelled.
- Schemas: the dataclasses in schemas.py lack fields the extractor passes, such as `purchase_order_number` and `tax_rate`. As written, `Invoice(...)` in `extract_invoice_from_text` would raise `TypeError`. The records follow the extractor's field set, and `to_dict` keeps only the schema's fields.
- Schemas.InvoiceFromDict: reads back only values of the shape `to_dict` writes. Python's `Invoice(**item)` converts nothing and checks no type: a line item stays a dict, and an integer or a string in an amount field is stored as given, where the model gives None. This is also why the `_not_numeric` rule never fires in the model.
- Schemas.LineItemFromDict: the same difference for `LineItem(**d)`: a value of another shape gives None instead of being stored as given.
- Validator.ValidateInvoices: `error_counts` is a map, so the insertion order of Python's dict is not kept.
- Validator.ValidateInvoice: the key set is passed in and returned rather than mutated in place, so aliasing of the caller's set is not captured. The rule sequence is split into one helper method per rule group.
