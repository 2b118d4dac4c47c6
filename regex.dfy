/**
 * The regular-expression engine, abstracted. A pattern is known only by its
 * identity; `re.search` is a `Matcher` supplied by the caller that either
 * finds no match or returns the match's capture groups, each of which may
 * not have taken part in the match (Python's `None` group).
 */
module Regex {
  import opened Optional

  datatype PatternId =
      /** Entry `index` of the pattern catalog list for `field` and language `lang`. */
    | Catalog(field: string, lang: string, index: nat)
      /** A pattern handed in by a caller, known by its source text. */
    | Source(text: string)
      /** The fixed patterns of the totals, parties, purchase-order and line-item extractors. */
    | NetTotalGesamtwert | NetTotalNetto | TaxRateAndAmount | GrossTotal
    | BuyerBlock | SellerBlock | PurchaseOrder
    | LineItemTable | ProductName | RowStart | QuantityUnit | UnitConversion | UnitPricePro

  /** `m.groups()`: group n (n >= 1) is at index n - 1. */
  type Groups = seq<Option<string>>

  /** `re.search(pattern, text, ...)`: None when there is no match. */
  type Matcher = (PatternId, string) -> Option<Groups>

  /** `m.group(n)`, None when the group did not take part (or the matcher reports none). */
  function Group(groups: Groups, n: nat): Option<string>
    requires n >= 1
  {
    if n <= |groups| then groups[n - 1] else None
  }

  /** The text of group n, empty when the group did not take part. */
  function GroupText(groups: Groups, n: nat): string
    requires n >= 1
  {
    Group(groups, n).GetOr("")
  }

  /** `[g for g in m.groups() if g]`: the groups that took part and are non-empty, in order. */
  function NonEmptyGroups(groups: Groups): (r: seq<string>)
    ensures |r| <= |groups|
  {
    if groups == [] then []
    else
      var rest := NonEmptyGroups(groups[1..]);
      match groups[0]
      case Some(g) => if g != "" then [g] + rest else rest
      case None => rest
  }

  /**
   * The strings kept are exactly the non-empty groups that took part, and none
   * is kept iff every group is missing or empty.
   */
  lemma {:induction false} NonEmptyGroupsShape(groups: Groups)
    ensures forall g :: g in NonEmptyGroups(groups) <==> g != "" && Some(g) in groups
    ensures NonEmptyGroups(groups) == [] <==> forall i :: 0 <= i < |groups| ==> groups[i] == None || groups[i] == Some("")
  {
    if groups != [] {
      NonEmptyGroupsShape(groups[1..]);
      assert groups == [groups[0]] + groups[1..];
      assert forall i :: 1 <= i < |groups| ==> groups[i] == groups[1..][i - 1];
    }
  }

  /**
   * Keeping groups one more group at a time: with `NonEmptyGroups([]) == []`
   * this fixes the kept strings and their order.
   */
  lemma {:induction false} NonEmptyGroupsSnoc(groups: Groups, g: Option<string>)
    ensures NonEmptyGroups(groups + [g]) ==
      NonEmptyGroups(groups) + (if g.Some? && g.value != "" then [g.value] else [])
  {
    if groups == [] {
      assert groups + [g] == [g] && [g][1..] == [];
    } else {
      assert (groups + [g])[0] == groups[0] && (groups + [g])[1..] == groups[1..] + [g];
      NonEmptyGroupsSnoc(groups[1..], g);
    }
  }

  /**
   * `groups[-1]` of the kept list is the last group that took part with a
   * non-empty text: every group after it is missing or empty.
   */
  lemma {:induction false} NonEmptyGroupsLast(groups: Groups)
    requires NonEmptyGroups(groups) != []
    ensures var kept := NonEmptyGroups(groups);
      exists j :: 0 <= j < |groups| && groups[j] == Some(kept[|kept| - 1]) && kept[|kept| - 1] != "" &&
        forall k :: j < k < |groups| ==> groups[k] == None || groups[k] == Some("")
  {
    var kept := NonEmptyGroups(groups);
    var rest := NonEmptyGroups(groups[1..]);
    if rest != [] {
      NonEmptyGroupsLast(groups[1..]);
      assert kept[|kept| - 1] == rest[|rest| - 1];
      var j :| 0 <= j < |groups[1..]| && groups[1..][j] == Some(rest[|rest| - 1]) && rest[|rest| - 1] != "" &&
        forall k :: j < k < |groups[1..]| ==> groups[1..][k] == None || groups[1..][k] == Some("");
      assert groups[j + 1] == groups[1..][j];
      assert forall k :: j + 1 < k < |groups| ==> groups[k] == groups[1..][k - 1];
    } else {
      NonEmptyGroupsShape(groups[1..]);
      assert kept == [groups[0].value];
      assert forall k :: 0 < k < |groups| ==> groups[k] == groups[1..][k - 1];
    }
  }
}
