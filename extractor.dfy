/**
 * The text-to-invoice extraction of invoice_qc/extractor.py: the pattern
 * catalog and its search, the totals, party, purchase-order and line-item
 * heuristics, and their assembly into an `Invoice`.
 *
 * Regular expressions are known by identity (`Regex.PatternId`) and run by a
 * caller-supplied `Matcher`; `parse_number`, `int()` and the language
 * detector are parameters as well.
 */
module Extractor {
  import opened Optional
  import opened Strings
  import opened Regex
  import opened Schemas

  /** `utils.parse_number`: the amount a numeric string denotes, None when it denotes none. */
  type NumberParser = string -> Option<real>

  /** `int(s)`: None where Python raises `ValueError`. */
  type IntParser = string -> Option<int>

  // ---------------------------------------------------------- the catalog

  /**
   * How many patterns `PATTERNS[field][lang]` lists; 0 where
   * `PATTERNS.get(field, {}).get(lang, [])` falls back to the empty list.
   */
  function PatternCount(field: string, lang: string): nat {
    if field == "invoice_number" then (if lang == "de" then 3 else if lang == "en" then 1 else 0)
    else if field == "invoice_date" then (if lang == "de" || lang == "en" then 2 else 0)
    else if field in {"customer_number", "end_customer_number", "payment_terms", "delivery_terms",
                      "delivery_date", "currency"}
    then (if lang == "de" || lang == "en" then 1 else 0)
    else 0
  }

  /** The catalog patterns for `field` in `lang`, in their listed order. */
  function Patterns(field: string, lang: string): (r: seq<PatternId>)
    ensures |r| == PatternCount(field, lang)
    ensures forall i :: 0 <= i < |r| ==> r[i] == Catalog(field, lang, i)
  {
    seq(PatternCount(field, lang), i requires 0 <= i => Catalog(field, lang, i))
  }

  /** The language's own patterns first, then the English ones. */
  function Candidates(field: string, lang: string): seq<PatternId> {
    Patterns(field, lang) + Patterns(field, "en")
  }

  // ------------------------------------------------------ _search_patterns

  /** A pattern that matches and captures at least one non-empty group. */
  predicate Qualifies(search: Matcher, p: PatternId, text: string) {
    search(p, text).Some? && NonEmptyGroups(search(p, text).value) != []
  }

  /** The index of the first qualifying candidate, |candidates| when none qualifies. */
  function FirstQualifying(search: Matcher, candidates: seq<PatternId>, text: string): (k: nat)
    ensures k <= |candidates|
    ensures k < |candidates| ==> Qualifies(search, candidates[k], text)
  {
    if candidates == [] then 0
    else if Qualifies(search, candidates[0], text) then 0
    else 1 + FirstQualifying(search, candidates[1..], text)
  }

  /** No candidate before the first qualifying one qualifies. */
  lemma {:induction false} FirstQualifyingIsFirst(search: Matcher, candidates: seq<PatternId>, text: string)
    ensures forall j :: 0 <= j < FirstQualifying(search, candidates, text) ==> !Qualifies(search, candidates[j], text)
  {
    if candidates != [] && !Qualifies(search, candidates[0], text) {
      FirstQualifyingIsFirst(search, candidates[1..], text);
      assert forall j :: 1 <= j < |candidates| ==> candidates[j] == candidates[1..][j - 1];
    }
  }

  /** A position before which nothing qualifies and at which something does is the first. */
  lemma {:induction false} FirstQualifyingUnique(search: Matcher, candidates: seq<PatternId>, text: string, k: nat)
    requires k <= |candidates|
    requires forall j :: 0 <= j < k ==> !Qualifies(search, candidates[j], text)
    requires k < |candidates| ==> Qualifies(search, candidates[k], text)
    ensures FirstQualifying(search, candidates, text) == k
  {
    if candidates != [] && !Qualifies(search, candidates[0], text) {
      FirstQualifyingUnique(search, candidates[1..], text, k - 1);
    }
  }

  /** The last non-empty group of a qualifying match, stripped. */
  function LastGroupStripped(search: Matcher, p: PatternId, text: string): (r: string)
    requires Qualifies(search, p, text)
    ensures Stripped(r)
  {
    var groups := NonEmptyGroups(search(p, text).value);
    Strip(groups[|groups| - 1])
  }

  /**
   * The value a qualifying match gives is its last group that took part with
   * a non-empty text, stripped: every group after that one is missing or empty.
   */
  lemma {:induction false} LastGroupChosen(search: Matcher, p: PatternId, text: string)
    requires Qualifies(search, p, text)
    ensures var g := search(p, text).value;
      exists j :: 0 <= j < |g| && g[j].Some? && g[j].value != "" &&
        LastGroupStripped(search, p, text) == Strip(g[j].value) &&
        forall k :: j < k < |g| ==> g[k] == None || g[k] == Some("")
  {
    var g := search(p, text).value;
    var kept := NonEmptyGroups(g);
    NonEmptyGroupsLast(g);
    var j :| 0 <= j < |g| && g[j] == Some(kept[|kept| - 1]) && kept[|kept| - 1] != "" &&
      forall k :: j < k < |g| ==> g[k] == None || g[k] == Some("");
    assert LastGroupStripped(search, p, text) == Strip(g[j].value);
  }

  /** What `_search_patterns` returns for a candidate list. */
  function SearchResult(search: Matcher, candidates: seq<PatternId>, text: string): (r: Option<string>)
    ensures r.None? <==> forall j :: 0 <= j < |candidates| ==> !Qualifies(search, candidates[j], text)
    ensures r.Some? ==> Stripped(r.value)
  {
    var k := FirstQualifying(search, candidates, text);
    FirstQualifyingIsFirst(search, candidates, text);
    if k < |candidates| then Some(LastGroupStripped(search, candidates[k], text)) else None
  }

  /** The value found is that of the first candidate that qualifies, whatever the later ones match. */
  lemma {:induction false} SearchResultIsFirstQualifying(search: Matcher, candidates: seq<PatternId>, text: string, k: nat)
    requires k < |candidates| && Qualifies(search, candidates[k], text)
    requires forall j :: 0 <= j < k ==> !Qualifies(search, candidates[j], text)
    ensures SearchResult(search, candidates, text) == Some(LastGroupStripped(search, candidates[k], text))
  {
    FirstQualifyingUnique(search, candidates, text, k);
  }

  /**
   * `_search_patterns`: tries the candidates in order and returns the last
   * non-empty group of the first match that has one, stripped.
   */
  method SearchPatterns(search: Matcher, field: string, lang: string, text: string) returns (r: Option<string>)
    ensures r == SearchResult(search, Candidates(field, lang), text)
  {
    var candidates := Patterns(field, lang) + Patterns(field, "en");
    r := SearchCandidates(search, candidates, text);
  }

  /** The loop of `_search_patterns` over a candidate list. */
  method SearchCandidates(search: Matcher, candidates: seq<PatternId>, text: string) returns (r: Option<string>)
    ensures r == SearchResult(search, candidates, text)
  {
    var i := 0;
    while i < |candidates|
      invariant 0 <= i <= |candidates|
      invariant i <= FirstQualifying(search, candidates, text)
    {
      var m := search(candidates[i], text);
      if m.Some? {
        var groups := NonEmptyGroups(m.value);
        if groups != [] {
          FirstQualifyingIsFirst(search, candidates, text);
          return Some(Strip(groups[|groups| - 1]));
        }
      }
      i := i + 1;
    }
    return None;
  }

  /** Searching a joined list finds in the first part when it can, else in the second. */
  lemma {:induction false} SearchResultAppend(search: Matcher, a: seq<PatternId>, b: seq<PatternId>, text: string)
    ensures SearchResult(search, a + b, text) ==
      if SearchResult(search, a, text).Some? then SearchResult(search, a, text) else SearchResult(search, b, text)
  {
    var k := FirstQualifying(search, a, text);
    var kb := FirstQualifying(search, b, text);
    FirstQualifyingIsFirst(search, a, text);
    FirstQualifyingIsFirst(search, b, text);
    assert forall j :: 0 <= j < |a| ==> (a + b)[j] == a[j];
    if k < |a| {
      FirstQualifyingUnique(search, a + b, text, k);
    } else {
      assert forall j :: |a| <= j < |a + b| ==> (a + b)[j] == b[j - |a|];
      FirstQualifyingUnique(search, a + b, text, |a| + kb);
    }
  }

  /**
   * The patterns of the detected language take precedence: English ones are
   * consulted only when none of the language's own patterns finds a value.
   */
  lemma {:induction false} LanguagePatternsFirst(search: Matcher, field: string, lang: string, text: string)
    ensures SearchResult(search, Candidates(field, lang), text) ==
      if SearchResult(search, Patterns(field, lang), text).Some? then SearchResult(search, Patterns(field, lang), text)
      else SearchResult(search, Patterns(field, "en"), text)
  {
    SearchResultAppend(search, Patterns(field, lang), Patterns(field, "en"), text);
  }

  /** A field the catalog does not list is never found, whatever the language. */
  lemma {:induction false} UnknownFieldNotFound(search: Matcher, field: string, lang: string, text: string)
    requires field !in {"invoice_number", "invoice_date", "customer_number", "end_customer_number",
                        "payment_terms", "delivery_terms", "delivery_date", "currency"}
    ensures SearchResult(search, Candidates(field, lang), text) == None
  {
    assert Candidates(field, lang) == [];
  }

  // -------------------------------------------------------- _extract_totals

  /** The amounts `_extract_totals` reports. */
  datatype Totals = Totals(netTotal: Option<real>, taxRate: Option<real>, taxAmount: Option<real>, grossTotal: Option<real>)

  /** `parse_number(m.group(n))`; a group that did not take part gives no number. */
  function ParseGroup(parseNumber: NumberParser, groups: Groups, n: nat): Option<real>
    requires n >= 1
  {
    match Group(groups, n)
    case Some(g) => parseNumber(g)
    case None => None
  }

  /**
   * `_extract_totals`: the net total from "Gesamtwert EUR", or failing that
   * from "Netto"; the tax rate and amount from the two groups of one "MwSt"
   * match; the gross total from "Gesamtwert inkl. MwSt. EUR". Each amount
   * depends only on its own patterns, so one failing leaves the others intact.
   */
  function ExtractTotals(search: Matcher, parseNumber: NumberParser, text: string): (r: Totals)
    ensures search(NetTotalGesamtwert, text).Some? ==>
      r.netTotal == ParseGroup(parseNumber, search(NetTotalGesamtwert, text).value, 1)
    ensures search(NetTotalGesamtwert, text).None? && search(NetTotalNetto, text).Some? ==>
      r.netTotal == ParseGroup(parseNumber, search(NetTotalNetto, text).value, 1)
    ensures search(NetTotalGesamtwert, text).None? && search(NetTotalNetto, text).None? ==> r.netTotal.None?
    ensures search(TaxRateAndAmount, text).None? ==> r.taxRate.None? && r.taxAmount.None?
    ensures search(TaxRateAndAmount, text).Some? ==>
      r.taxRate == ParseGroup(parseNumber, search(TaxRateAndAmount, text).value, 1) &&
      r.taxAmount == ParseGroup(parseNumber, search(TaxRateAndAmount, text).value, 2)
    ensures search(GrossTotal, text).None? ==> r.grossTotal.None?
    ensures search(GrossTotal, text).Some? ==>
      r.grossTotal == ParseGroup(parseNumber, search(GrossTotal, text).value, 1)
  {
    var mNet := if search(NetTotalGesamtwert, text).Some? then search(NetTotalGesamtwert, text)
                else search(NetTotalNetto, text);
    var netTotal := if mNet.Some? then ParseGroup(parseNumber, mNet.value, 1) else None;
    var mTax := search(TaxRateAndAmount, text);
    var taxRate := if mTax.Some? then ParseGroup(parseNumber, mTax.value, 1) else None;
    var taxAmount := if mTax.Some? then ParseGroup(parseNumber, mTax.value, 2) else None;
    var mGross := search(GrossTotal, text);
    var grossTotal := if mGross.Some? then ParseGroup(parseNumber, mGross.value, 1) else None;
    Totals(netTotal, taxRate, taxAmount, grossTotal)
  }

  /** Changing what the other patterns find leaves the net total alone. */
  lemma {:induction false} NetTotalIndependent(s1: Matcher, s2: Matcher, parseNumber: NumberParser, text: string)
    requires s1(NetTotalGesamtwert, text) == s2(NetTotalGesamtwert, text)
    requires s1(NetTotalNetto, text) == s2(NetTotalNetto, text)
    ensures ExtractTotals(s1, parseNumber, text).netTotal == ExtractTotals(s2, parseNumber, text).netTotal
  {
    var t1 := ExtractTotals(s1, parseNumber, text);
    var t2 := ExtractTotals(s2, parseNumber, text);
    if s1(NetTotalGesamtwert, text).Some? {
      assert t1.netTotal == ParseGroup(parseNumber, s1(NetTotalGesamtwert, text).value, 1) == t2.netTotal;
    } else if s1(NetTotalNetto, text).Some? {
      assert t1.netTotal == ParseGroup(parseNumber, s1(NetTotalNetto, text).value, 1) == t2.netTotal;
    }
  }

  // ------------------------------------------------------- _extract_parties

  /** A name and an address as the party heuristic reads them. */
  datatype Party = Party(name: Option<string>, address: Option<string>)

  /**
   * One party block: its non-blank lines, stripped; the first is the name,
   * the others joined with ", " the address (None when there is only one).
   */
  function PartyFromBlock(block: string): Party {
    var lines := NonBlankLines(Strip(block));
    if lines == [] then Party(None, None)
    else if |lines| > 1 then Party(Some(lines[0]), Some(Join(lines[1..], ", ")))
    else Party(Some(lines[0]), None)
  }

  /**
   * The party read from a block: the first of the block's non-blank lines,
   * stripped, is the name; the others, joined with ", ", are the address.
   */
  lemma {:induction false} PartyFromLines(block: string)
    ensures var lines := NonBlankLines(block);
      PartyFromBlock(block) ==
        if lines == [] then Party(None, None)
        else Party(Some(lines[0]), if |lines| > 1 then Some(Join(lines[1..], ", ")) else None)
  {
    NonBlankLinesStrip(block);
  }

  /** A party is found iff its block has a non-whitespace character. */
  lemma {:induction false} PartyFoundIffNotBlank(block: string)
    ensures PartyFromBlock(block).name.None? <==> Blank(block)
    ensures PartyFromBlock(block).address.Some? ==> PartyFromBlock(block).name.Some?
  {
    NonBlankLinesEmpty(Strip(block));
    StripEmpty(block);
    assert Blank(Strip(block)) <==> Strip(block) == [];
  }

  /** The name is a stripped, non-empty single line and the address a single line. */
  lemma {:induction false} PartyLines(block: string)
    ensures PartyFromBlock(block).name.Some? ==>
      var name := PartyFromBlock(block).name.value;
      name != "" && Stripped(name) && SingleLine(name)
    ensures PartyFromBlock(block).address.Some? ==> SingleLine(PartyFromBlock(block).address.value)
  {
    var lines := NonBlankLines(Strip(block));
    NonBlankLinesShape(Strip(block));
    if |lines| > 1 {
      AddressSingleLine(lines);
    }
  }

  /** Joining the lines after the first with ", " gives a single line. */
  lemma {:induction false} AddressSingleLine(lines: seq<string>)
    requires |lines| > 1
    requires forall i :: 0 <= i < |lines| ==> SingleLine(lines[i])
    ensures SingleLine(Join(lines[1..], ", "))
  {
    var rest := lines[1..];
    forall i | 0 <= i < |rest| ensures SingleLine(rest[i]) {
      assert rest[i] == lines[i + 1];
    }
    CommaSpaceSingleLine();
    JoinSingleLine(rest, ", ");
  }

  /** A block of one non-blank line is all name: no character other than whitespace is lost. */
  lemma {:induction false} OneLinePartyKeepsText(block: string)
    ensures PartyFromBlock(block).address.None? && PartyFromBlock(block).name.Some? ==>
      NonSpace(PartyFromBlock(block).name.value) == NonSpace(block)
  {
    var lines := NonBlankLines(Strip(block));
    if |lines| == 1 {
      assert NonSpace(lines[0]) == NonSpace(Strip(block)) by {
        NonBlankLinesKeepText(Strip(block));
        ConcatOne(lines);
      }
      StripKeepsText(block);
    }
  }

  /** The groups the party patterns capture. */
  datatype Parties = Parties(seller: Party, buyer: Party)

  /**
   * `_extract_parties`: the buyer block follows "Kundenanschrift", the seller
   * block starts at "Beispielname"; a block that is not found gives no party.
   */
  function ExtractParties(search: Matcher, text: string): (r: Parties)
    ensures search(BuyerBlock, text).None? ==> r.buyer == Party(None, None)
    ensures search(BuyerBlock, text).Some? ==> r.buyer == PartyFromBlock(GroupText(search(BuyerBlock, text).value, 1))
    ensures search(SellerBlock, text).None? ==> r.seller == Party(None, None)
    ensures search(SellerBlock, text).Some? ==> r.seller == PartyFromBlock(GroupText(search(SellerBlock, text).value, 1))
  {
    var mBuyer := search(BuyerBlock, text);
    var buyer := if mBuyer.Some? then PartyFromBlock(GroupText(mBuyer.value, 1)) else Party(None, None);
    var mSeller := search(SellerBlock, text);
    var seller := if mSeller.Some? then PartyFromBlock(GroupText(mSeller.value, 1)) else Party(None, None);
    Parties(seller, buyer)
  }

  // ------------------------------------------------ _extract_purchase_order

  /**
   * `_extract_purchase_order`: the non-empty groups of the "Bestellung" match
   * joined by spaces and stripped; None when there is no match. No character
   * other than whitespace is lost or added, and the groups stay apart: the
   * words of the result are the words of each group, group after group.
   */
  function ExtractPurchaseOrder(search: Matcher, text: string): (r: Option<string>)
    ensures r.None? <==> search(PurchaseOrder, text).None?
    ensures r.Some? ==> Stripped(r.value)
    ensures r.Some? ==> NonSpace(r.value) == NonSpace(Concat(NonEmptyGroups(search(PurchaseOrder, text).value)))
    ensures r.Some? ==> Words(r.value) == WordsOfAll(NonEmptyGroups(search(PurchaseOrder, text).value))
  {
    match search(PurchaseOrder, text)
    case None => None
    case Some(groups) =>
      var parts := NonEmptyGroups(groups);
      SpaceBlank();
      JoinNonSpace(parts, " ");
      StripKeepsText(Join(parts, " "));
      WordsStrip(Join(parts, " "));
      WordsOfJoin(parts);
      Some(Strip(Join(parts, " ")))
  }

  // ---------------------------------------------------- _extract_line_items

  /** The first table line that `^\d+\s` matches, |lines| when none does. */
  function FirstRow(search: Matcher, lines: seq<string>): (k: nat)
    ensures k <= |lines|
    ensures k < |lines| ==> search(RowStart, lines[k]).Some?
  {
    if lines == [] then 0
    else if search(RowStart, lines[0]).Some? then 0
    else 1 + FirstRow(search, lines[1..])
  }

  /** No table line before the first row line starts a row. */
  lemma {:induction false} FirstRowIsFirst(search: Matcher, lines: seq<string>)
    ensures forall j :: 0 <= j < FirstRow(search, lines) ==> search(RowStart, lines[j]).None?
  {
    if lines != [] && search(RowStart, lines[0]).None? {
      FirstRowIsFirst(search, lines[1..]);
      assert forall j :: 1 <= j < |lines| ==> lines[j] == lines[1..][j - 1];
    }
  }

  /** The line item read from one table row. */
  function RowItem(search: Matcher, parseNumber: NumberParser, parseInt: IntParser, line: string,
                   description: Option<string>): (r: LineItem)
    ensures r.lineTotal.None?
    ensures r.description == description
    ensures r.position == parseInt(FirstToken(line))
    ensures search(QuantityUnit, line).None? ==> r.quantity.None? && r.unit.None?
    ensures search(QuantityUnit, line).Some? ==>
      r.quantity == ParseGroup(parseNumber, search(QuantityUnit, line).value, 1) &&
      r.unit == Group(search(QuantityUnit, line).value, 2)
    ensures search(UnitConversion, line).None? ==> r.unitConversion.None?
    ensures search(UnitConversion, line).Some? ==> r.unitConversion == Group(search(UnitConversion, line).value, 1)
    ensures search(UnitPricePro, line).None? ==> r.unitPrice.None?
    ensures search(UnitPricePro, line).Some? ==> r.unitPrice == ParseGroup(parseNumber, search(UnitPricePro, line).value, 1)
  {
    var position := parseInt(FirstToken(line));
    var mQty := search(QuantityUnit, line);
    var quantity := if mQty.Some? then ParseGroup(parseNumber, mQty.value, 1) else None;
    var unit := if mQty.Some? then Group(mQty.value, 2) else None;
    var mConv := search(UnitConversion, line);
    var unitConversion := if mConv.Some? then Group(mConv.value, 1) else None;
    var mPrice := search(UnitPricePro, line);
    var unitPrice := if mPrice.Some? then ParseGroup(parseNumber, mPrice.value, 1) else None;
    LineItem(position, description, quantity, unit, unitConversion, unitPrice, None)
  }

  /** The document-wide description: the product name when the text mentions it anywhere. */
  function ItemDescription(search: Matcher, text: string): Option<string> {
    if search(ProductName, text).Some? then Some("Sterilisationsmittel") else None
  }

  /** The non-blank lines after the table header, stripped. */
  function TableLines(search: Matcher, text: string): seq<string>
    requires search(LineItemTable, text).Some?
  {
    NonBlankLines(GroupText(search(LineItemTable, text).value, 1))
  }

  /**
   * What `_extract_line_items` returns: nothing without the table header,
   * otherwise the item of the first row line, if any.
   */
  function LineItemsOf(search: Matcher, parseNumber: NumberParser, parseInt: IntParser, text: string): (r: seq<LineItem>)
    ensures |r| <= 1
    ensures search(LineItemTable, text).None? ==> r == []
  {
    if search(LineItemTable, text).None? then []
    else RowsItems(search, parseNumber, parseInt, TableLines(search, text), ItemDescription(search, text))
  }

  /**
   * An item has no line total and the document's description, and there is
   * one exactly when the table header matches and some table line starts a row.
   */
  lemma {:induction false} LineItemsOfShape(search: Matcher, parseNumber: NumberParser, parseInt: IntParser, text: string)
    ensures var r := LineItemsOf(search, parseNumber, parseInt, text);
      forall i :: 0 <= i < |r| ==> r[i].lineTotal.None? && r[i].description == ItemDescription(search, text)
    ensures LineItemsOf(search, parseNumber, parseInt, text) != [] <==> (search(LineItemTable, text).Some? &&
      exists j :: 0 <= j < |TableLines(search, text)| && search(RowStart, TableLines(search, text)[j]).Some?)
  {
    if search(LineItemTable, text).Some? {
      var lines := TableLines(search, text);
      var k := FirstRow(search, lines);
      FirstRowIsFirst(search, lines);
      if k < |lines| {
        assert search(RowStart, lines[k]).Some?;
      }
    }
  }

  /** Reads the fields of one table row, each left None when its pattern does not match. */
  method ReadRow(search: Matcher, parseNumber: NumberParser, parseInt: IntParser, line: string,
                 description: Option<string>) returns (item: LineItem)
    ensures item == RowItem(search, parseNumber, parseInt, line, description)
  {
    var position := parseInt(FirstToken(line));
    var quantity: Option<real> := None;
    var unit: Option<string> := None;
    var unitConversion: Option<string> := None;
    var unitPrice: Option<real> := None;
    var lineTotal: Option<real> := None;

    var qtyUnitMatch := search(QuantityUnit, line);
    if qtyUnitMatch.Some? {
      quantity := ParseGroup(parseNumber, qtyUnitMatch.value, 1);
      unit := Group(qtyUnitMatch.value, 2);
    }
    var convMatch := search(UnitConversion, line);
    if convMatch.Some? {
      unitConversion := Group(convMatch.value, 1);
    }
    var priceMatch := search(UnitPricePro, line);
    if priceMatch.Some? {
      unitPrice := ParseGroup(parseNumber, priceMatch.value, 1);
    }
    item := LineItem(position, description, quantity, unit, unitConversion, unitPrice, lineTotal);
  }

  /** The items of a table: the item of its first row line, none when no line starts a row. */
  function RowsItems(search: Matcher, parseNumber: NumberParser, parseInt: IntParser, lines: seq<string>,
                     description: Option<string>): (r: seq<LineItem>)
    ensures |r| <= 1
  {
    var k := FirstRow(search, lines);
    if k < |lines| then [RowItem(search, parseNumber, parseInt, lines[k], description)] else []
  }

  /**
   * The loop of `_extract_line_items`: scans the table lines and stops at the
   * first one that starts with a number, so at most one item is produced.
   */
  method ScanRows(search: Matcher, parseNumber: NumberParser, parseInt: IntParser, lines: seq<string>,
                  description: Option<string>) returns (items: seq<LineItem>)
    ensures items == RowsItems(search, parseNumber, parseInt, lines, description)
  {
    items := [];
    var i := 0;
    while i < |lines|
      invariant 0 <= i <= |lines|
      invariant i <= FirstRow(search, lines)
    {
      var line := lines[i];
      if search(RowStart, line).Some? {
        var item := ReadRow(search, parseNumber, parseInt, line, description);
        items := items + [item];
        FirstRowIsFirst(search, lines);
        return;
      }
      i := i + 1;
    }
  }

  /** `_extract_line_items`: no items without the table header, else the items of the table lines. */
  method ExtractLineItems(search: Matcher, parseNumber: NumberParser, parseInt: IntParser, text: string)
    returns (items: seq<LineItem>)
    ensures items == LineItemsOf(search, parseNumber, parseInt, text)
  {
    var tableMatch := search(LineItemTable, text);
    if tableMatch.None? {
      return [];
    }
    var tableText := GroupText(tableMatch.value, 1);
    var lines := NonBlankLines(tableText);
    var description := if search(ProductName, text).Some? then Some("Sterilisationsmittel") else None;
    items := ScanRows(search, parseNumber, parseInt, lines, description);
  }

  // ---------------------------------------------- extract_invoice_from_text

  /** `detect_language`: the detector's answer, "en" when it fails. */
  function Language(detected: Option<string>): string {
    detected.GetOr("en")
  }

  /** `_search_patterns(field, ...) or "EUR"`: a missing or empty currency becomes EUR. */
  function CurrencyOrDefault(found: Option<string>): (r: string)
    ensures r != ""
    ensures found.Some? && found.value != "" ==> r == found.value
    ensures found.None? || found.value == "" ==> r == "EUR"
  {
    if found.Some? && found.value != "" then found.value else "EUR"
  }

  /** The invoice `extract_invoice_from_text` builds from `text`. */
  function ExtractedInvoice(search: Matcher, parseNumber: NumberParser, parseInt: IntParser, text: string,
                            detected: Option<string>, sourceFile: Option<string>): Invoice
  {
    var lang := Language(detected);
    var totals := ExtractTotals(search, parseNumber, text);
    var parties := ExtractParties(search, text);
    Invoice(
      SearchResult(search, Candidates("invoice_number", lang), text),
      ExtractPurchaseOrder(search, text),
      SearchResult(search, Candidates("invoice_date", lang), text),
      None,
      SearchResult(search, Candidates("customer_number", lang), text),
      SearchResult(search, Candidates("end_customer_number", lang), text),
      SearchResult(search, Candidates("payment_terms", lang), text),
      SearchResult(search, Candidates("delivery_terms", lang), text),
      SearchResult(search, Candidates("delivery_date", lang), text),
      parties.seller.name, parties.seller.address, parties.buyer.name, parties.buyer.address,
      Some(CurrencyOrDefault(SearchResult(search, Candidates("currency", lang), text))),
      totals.netTotal, totals.taxRate, totals.taxAmount, totals.grossTotal,
      LineItemsOf(search, parseNumber, parseInt, text),
      None,
      sourceFile)
  }

  /**
   * `extract_invoice_from_text`: runs every extractor over `text`.
   * `detected` is what the language detector answered, None when it raised.
   */
  method ExtractInvoiceFromText(search: Matcher, parseNumber: NumberParser, parseInt: IntParser, text: string,
                                detected: Option<string>, sourceFile: Option<string>) returns (invoice: Invoice)
    ensures invoice == ExtractedInvoice(search, parseNumber, parseInt, text, detected, sourceFile)
  {
    var lang := if detected.Some? then detected.value else "en";
    var invoiceNumber := SearchPatterns(search, "invoice_number", lang, text);
    var invoiceDate := SearchPatterns(search, "invoice_date", lang, text);
    var customerNumber := SearchPatterns(search, "customer_number", lang, text);
    var endCustomerNumber := SearchPatterns(search, "end_customer_number", lang, text);
    var paymentTerms := SearchPatterns(search, "payment_terms", lang, text);
    var deliveryTerms := SearchPatterns(search, "delivery_terms", lang, text);
    var deliveryDate := SearchPatterns(search, "delivery_date", lang, text);
    var currency := SearchPatterns(search, "currency", lang, text);
    var currencyOrEur := if currency.Some? && currency.value != "" then currency.value else "EUR";

    var totals := ExtractTotals(search, parseNumber, text);
    var parties := ExtractParties(search, text);
    var purchaseOrderNumber := ExtractPurchaseOrder(search, text);
    var lineItems := ExtractLineItems(search, parseNumber, parseInt, text);

    invoice := Invoice(
      invoiceNumber, purchaseOrderNumber, invoiceDate, None, customerNumber, endCustomerNumber,
      paymentTerms, deliveryTerms, deliveryDate,
      parties.seller.name, parties.seller.address, parties.buyer.name, parties.buyer.address,
      Some(currencyOrEur), totals.netTotal, totals.taxRate, totals.taxAmount, totals.grossTotal,
      lineItems, None, sourceFile);
  }

  /**
   * Every extracted invoice has a non-empty currency, no due date and no
   * notes, carries its source file, at most one line item, and stripped
   * text in every field found by the catalog search.
   */
  lemma {:induction false} ExtractedInvoiceShape(search: Matcher, parseNumber: NumberParser, parseInt: IntParser, text: string,
                              detected: Option<string>, sourceFile: Option<string>)
    ensures var inv := ExtractedInvoice(search, parseNumber, parseInt, text, detected, sourceFile);
      inv.currency.Some? && inv.currency.value != "" &&
      inv.dueDate.None? && inv.notes.None? && inv.sourceFile == sourceFile && |inv.lineItems| <= 1 &&
      (inv.invoiceNumber.Some? ==> Stripped(inv.invoiceNumber.value)) &&
      (inv.invoiceDate.Some? ==> Stripped(inv.invoiceDate.value)) &&
      (inv.sellerName.Some? ==> inv.sellerName.value != "") &&
      (inv.buyerName.Some? ==> inv.buyerName.value != "")
  {
    PartiesNamed(search, text);
  }

  /** A party name found in a block is never empty. */
  lemma {:induction false} PartiesNamed(search: Matcher, text: string)
    ensures var parties := ExtractParties(search, text);
      (parties.seller.name.Some? ==> parties.seller.name.value != "") &&
      (parties.buyer.name.Some? ==> parties.buyer.name.value != "")
  {
    var mBuyer := search(BuyerBlock, text);
    if mBuyer.Some? {
      PartyLines(GroupText(mBuyer.value, 1));
    }
    var mSeller := search(SellerBlock, text);
    if mSeller.Some? {
      PartyLines(GroupText(mSeller.value, 1));
    }
  }
}
