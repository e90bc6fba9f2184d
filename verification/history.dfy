/**
 * The invoice history page: invoices stored in either of two shapes, a
 * case-insensitive search over invoice number and counterpart name, the
 * per-shape amounts and totals, expandable rows and deletion by id.
 */
module History {
  import opened Wrappers
  import opened Calc
  import Lists

  /** A line of the new invoice shape: its amount is stored, not computed. */
  datatype NewItem = NewItem(description: string, qty: real, rate: real, amount: real)

  /**
   * The two stored shapes. `Old` is what the editor saves (its lines are the
   * calculator's lines); `New` carries from/to parties and stored totals.
   */
  datatype Invoice =
    | Old(id: string, invoiceNumber: string, date: string, user: Option<string>,
          customerName: string, customerNumber: string, pan: string,
          lines: seq<LineItem>, cgst: real, sgst: real, totalAmount: real)
    | New(id: string, invoiceNumber: string, date: string, user: Option<string>,
          fromName: string, fromAddress: string, fromPhone: string, fromGstin: string,
          toName: string, toAddress: string, toPhone: string, toGstin: string,
          items: seq<NewItem>, subtotal: real, cgstPrice: real, sgstPrice: real,
          cgstAmount: real, sgstAmount: real, total: real, pdf: Option<string>)

  /** The counterpart shown and searched: the customer (old shape) or the recipient (new shape). */
  function Name(inv: Invoice): (name: string) {
    if inv.Old? then inv.customerName else inv.toName
  }

  // ---------- Search ----------

  /** ASCII lower-casing of one character. */
  function LowerChar(c: char): (lower: char) {
    if 'A' <= c <= 'Z' then (c as int + 32) as char else c
  }

  function Lower(s: string): (r: string)
    ensures |r| == |s|
    ensures forall i :: 0 <= i < |s| ==> r[i] == LowerChar(s[i])
  {
    seq(|s|, i requires 0 <= i < |s| => LowerChar(s[i]))
  }

  /** Lower-casing twice is lower-casing once. */
  lemma LowerIdempotent(s: string)
    ensures Lower(Lower(s)) == Lower(s)
  {
  }

  /** `hay.includes(needle)`, scanning from the left. */
  function Contains(hay: string, needle: string): (found: bool) {
    if needle <= hay then true
    else if hay == [] then false
    else Contains(hay[1..], needle)
  }

  /** `needle` occurs in `hay` at position `i`. */
  predicate OccursAt(hay: string, needle: string, i: int) {
    0 <= i && i + |needle| <= |hay| && hay[i..i + |needle|] == needle
  }

  /** The scan finds the needle exactly when it occurs somewhere in the text. */
  lemma {:induction false} ContainsIff(hay: string, needle: string)
    ensures Contains(hay, needle) <==> exists i :: OccursAt(hay, needle, i)
  {
    if needle <= hay {
      assert OccursAt(hay, needle, 0);
    } else if hay == [] {
      assert needle != [];
    } else {
      ContainsIff(hay[1..], needle);
      if exists i :: OccursAt(hay[1..], needle, i) {
        var i :| OccursAt(hay[1..], needle, i);
        assert hay[1..][i..i + |needle|] == hay[i + 1..i + 1 + |needle|];
        assert OccursAt(hay, needle, i + 1);
      }
      if exists i :: OccursAt(hay, needle, i) {
        var i :| OccursAt(hay, needle, i);
        assert !OccursAt(hay, needle, 0);
        assert hay[1..][i - 1..i - 1 + |needle|] == hay[i..i + |needle|];
        assert OccursAt(hay[1..], needle, i - 1);
      }
    }
  }

  /** The search box's test: the lower-cased query occurs in the lower-cased invoice number or name. */
  function Matches(inv: Invoice, query: string): (matched: bool) {
    var q := Lower(query);
    Contains(Lower(inv.invoiceNumber), q) || Contains(Lower(Name(inv)), q)
  }

  /** Matching, stated without the scan: an occurrence in the number or in the name. */
  lemma MatchesIff(inv: Invoice, query: string)
    ensures Matches(inv, query) <==>
      (exists i :: OccursAt(Lower(inv.invoiceNumber), Lower(query), i))
      || (exists i :: OccursAt(Lower(Name(inv)), Lower(query), i))
  {
    ContainsIff(Lower(inv.invoiceNumber), Lower(query));
    ContainsIff(Lower(Name(inv)), Lower(query));
  }

  /** The empty query matches every invoice. */
  lemma EmptyQueryMatches(inv: Invoice)
    ensures Matches(inv, "")
  {
    assert Lower("") == [];
  }

  /** Matching ignores case in the query. */
  lemma MatchesIgnoresQueryCase(inv: Invoice, query: string)
    ensures Matches(inv, Lower(query)) == Matches(inv, query)
  {
    LowerIdempotent(query);
  }

  /** The visible list: the invoices that match the query, in stored order. */
  function Search(invoices: seq<Invoice>, query: string): (r: seq<Invoice>)
    ensures |r| <= |invoices|
    ensures forall i :: 0 <= i < |r| ==> r[i] in invoices && Matches(r[i], query)
    ensures forall i :: 0 <= i < |invoices| && Matches(invoices[i], query) ==> invoices[i] in r
  {
    Lists.Filter(invoices, inv => Matches(inv, query))
  }

  /** An empty search box shows the whole list unchanged. */
  lemma SearchEmptyQuery(invoices: seq<Invoice>)
    ensures Search(invoices, "") == invoices
  {
    forall i | 0 <= i < |invoices| ensures Matches(invoices[i], "") {
      EmptyQueryMatches(invoices[i]);
    }
    Lists.FilterKeepsAll(invoices, inv => Matches(inv, ""));
  }

  /** Searching keeps relative order: the results for a split list are the two parts' results in turn. */
  lemma SearchAppend(a: seq<Invoice>, b: seq<Invoice>, query: string)
    ensures Search(a + b, query) == Search(a, query) + Search(b, query)
  {
    Lists.FilterAppend(a, b, inv => Matches(inv, query));
  }

  // ---------- Amounts and totals ----------

  /** The amount column of the expanded row: `quantity * rate` for old lines, the stored amount for new ones. */
  function ItemAmounts(inv: Invoice): (amounts: seq<real>)
    ensures inv.Old? ==>
      |amounts| == |inv.lines| && forall i :: 0 <= i < |amounts| ==> amounts[i] == Taxable(inv.lines[i])
    ensures inv.New? ==>
      |amounts| == |inv.items| && forall i :: 0 <= i < |amounts| ==> amounts[i] == inv.items[i].amount
  {
    match inv
    case Old(_, _, _, _, _, _, _, lines, _, _, _) =>
      seq(|lines|, i requires 0 <= i < |lines| => lines[i].quantity * lines[i].rate)
    case New(_, _, _, _, _, _, _, _, _, _, _, _, items, _, _, _, _, _, _, _) =>
      seq(|items|, i requires 0 <= i < |items| => items[i].amount)
  }

  /** The totals box of the expanded row, with the two rates it labels. */
  datatype Detail = Detail(subtotal: real, cgstRate: real, sgstRate: real,
                           cgstAmount: real, sgstAmount: real, total: real)

  /**
   * renderTotals: an old invoice's totals are recomputed from its lines and
   * rates (its stored `totalAmount` is not used); a new invoice's stored
   * totals are shown verbatim.
   */
  function DetailTotals(inv: Invoice): (d: Detail)
    ensures inv.Old? ==>
      && d.cgstRate == inv.cgst && d.sgstRate == inv.sgst
      && Calc.Totals(d.subtotal, d.cgstAmount, d.sgstAmount, d.total) == ComputeTotals(inv.lines, inv.cgst, inv.sgst)
    ensures inv.New? ==>
      d == Detail(inv.subtotal, inv.cgstPrice, inv.sgstPrice, inv.cgstAmount, inv.sgstAmount, inv.total)
  {
    match inv
    case Old(_, _, _, _, _, _, _, lines, cgst, sgst, _) =>
      var t := ComputeTotals(lines, cgst, sgst);
      Detail(t.subtotal, cgst, sgst, t.cgstAmount, t.sgstAmount, t.total)
    case New(_, _, _, _, _, _, _, _, _, _, _, _, _, subtotal, cgstPrice, sgstPrice, cgstAmount, sgstAmount, total, _) =>
      Detail(subtotal, cgstPrice, sgstPrice, cgstAmount, sgstAmount, total)
  }

  /** An old invoice's detail totals do not depend on its stored total. */
  lemma OldDetailIgnoresStoredTotal(inv: Invoice, stored: real)
    requires inv.Old?
    ensures DetailTotals(inv.(totalAmount := stored)) == DetailTotals(inv)
  {
  }

  /** The Total column of the list: the stored `totalAmount` or the stored `total`. */
  function ListedTotal(inv: Invoice): (shown: real) {
    if inv.Old? then inv.totalAmount else inv.total
  }

  /** Sum of a column of amounts. */
  function AmountSum(amounts: seq<real>): (sum: real) {
    if amounts == [] then 0.0 else amounts[0] + AmountSum(amounts[1..])
  }

  /** For an old invoice the amount column adds up to the subtotal in its totals box. */
  lemma OldAmountsAddUp(inv: Invoice)
    requires inv.Old?
    ensures AmountSum(ItemAmounts(inv)) == DetailTotals(inv).subtotal
  {
    AmountsAreTaxables(inv.lines);
    assert ItemAmounts(inv) == seq(|inv.lines|, i requires 0 <= i < |inv.lines| => Taxable(inv.lines[i]));
  }

  lemma {:induction false} AmountsAreTaxables(lines: seq<LineItem>)
    ensures AmountSum(seq(|lines|, i requires 0 <= i < |lines| => Taxable(lines[i]))) == Sum(lines)
  {
    if lines != [] {
      AmountsAreTaxables(lines[1..]);
      assert seq(|lines|, i requires 0 <= i < |lines| => Taxable(lines[i]))[1..]
          == seq(|lines[1..]|, i requires 0 <= i < |lines[1..]| => Taxable(lines[1..][i]));
    }
  }

  /**
   * The Total column shows the stored `totalAmount` (old shape) or the stored
   * `total` (new shape). A new invoice therefore always shows the same total
   * in the list and in its expanded row; an old one does when it was stored
   * with the calculator's total, as the editor saves it.
   */
  lemma ListedTotalAgrees(inv: Invoice)
    requires inv.Old? ==> inv.totalAmount == ComputeTotals(inv.lines, inv.cgst, inv.sgst).total
    ensures inv.Old? ==> ListedTotal(inv) == inv.totalAmount
    ensures inv.New? ==> ListedTotal(inv) == inv.total
    ensures ListedTotal(inv) == DetailTotals(inv).total
  {
  }

  // ---------- Expanded rows and deletion ----------

  /** toggleRow: take `id` out when it is there, otherwise append it. */
  function Toggle(rows: seq<string>, id: string): (r: seq<string>)
    ensures id in r <==> id !in rows
    ensures forall x :: x != id ==> (x in r <==> x in rows)
    ensures id !in rows ==> r == rows + [id]
  {
    if id in rows then Lists.Filter(rows, r => r != id) else rows + [id]
  }

  /** Toggling twice restores which rows are expanded; when `id` was collapsed, the exact list comes back. */
  lemma ToggleTwice(rows: seq<string>, id: string)
    ensures forall x :: x in Toggle(Toggle(rows, id), id) <==> x in rows
    ensures id !in rows ==> Toggle(Toggle(rows, id), id) == rows
  {
    if id !in rows {
      Lists.FilterAppend(rows, [id], r => r != id);
      Lists.FilterKeepsAll(rows, r => r != id);
      assert Lists.Filter([id], r => r != id) == [] by {
        assert [id][1..] == [];
      }
    }
  }

  /** Toggling keeps the expanded list free of repeats. */
  lemma ToggleNoDuplicates(rows: seq<string>, id: string)
    requires Lists.NoDuplicates(rows)
    ensures Lists.NoDuplicates(Toggle(rows, id))
  {
    if id in rows {
      Lists.FilterNoDuplicates(rows, r => r != id);
    }
  }

  /** After a delete: every invoice except those with the deleted id, in stored order. */
  function WithoutId(invoices: seq<Invoice>, id: string): (r: seq<Invoice>)
    ensures forall i :: 0 <= i < |r| ==> r[i].id != id && r[i] in invoices
    ensures forall i :: 0 <= i < |invoices| && invoices[i].id != id ==> invoices[i] in r
  {
    Lists.Filter(invoices, (inv: Invoice) => inv.id != id)
  }

  /** Deleting an id that no invoice has changes nothing. */
  lemma WithoutAbsentId(invoices: seq<Invoice>, id: string)
    requires forall i :: 0 <= i < |invoices| ==> invoices[i].id != id
    ensures WithoutId(invoices, id) == invoices
  {
    Lists.FilterKeepsAll(invoices, (inv: Invoice) => inv.id != id);
  }

  /** Deleting keeps the order of the remaining invoices. */
  lemma WithoutIdAppend(a: seq<Invoice>, b: seq<Invoice>, id: string)
    ensures WithoutId(a + b, id) == WithoutId(a, id) + WithoutId(b, id)
  {
    Lists.FilterAppend(a, b, (inv: Invoice) => inv.id != id);
  }

  /** The page's state. */
  class HistoryPage {
    var invoices: seq<Invoice>
    var searchQuery: string
    var expandedRows: seq<string>

    constructor ()
      ensures invoices == [] && searchQuery == "" && expandedRows == []
    {
      invoices, searchQuery, expandedRows := [], "", [];
    }

    /** `filteredInvoices`: the rows the table shows, all of them while the search box is empty. */
    function Visible(): (shown: seq<Invoice>)
      reads this
      ensures forall i :: 0 <= i < |shown| ==> shown[i] in invoices && Matches(shown[i], searchQuery)
      ensures forall i :: 0 <= i < |invoices| && Matches(invoices[i], searchQuery) ==> invoices[i] in shown
      ensures searchQuery == "" ==> shown == invoices
    {
      SearchEmptyQuery(invoices);
      Search(invoices, searchQuery)
    }

    /** The fetch on mount: the list is replaced only by a successful response. */
    method Load(succeeded: bool, fetched: seq<Invoice>)
      modifies this`invoices
      ensures invoices == if succeeded then fetched else old(invoices)
    {
      if succeeded {
        invoices := fetched;
      }
    }

    /** toggleRow */
    method ToggleRow(id: string)
      modifies this`expandedRows
      ensures expandedRows == Toggle(old(expandedRows), id)
      ensures Lists.NoDuplicates(old(expandedRows)) ==> Lists.NoDuplicates(expandedRows)
      ensures id in expandedRows <==> id !in old(expandedRows)
    {
      if Lists.NoDuplicates(expandedRows) {
        ToggleNoDuplicates(expandedRows, id);
      }
      expandedRows := Toggle(expandedRows, id);
    }

    /**
     * handleDelete: only when the user confirms and the server reports
     * success is the invoice removed from the list.
     */
    method Delete(id: string, confirmed: bool, deleted: bool)
      modifies this`invoices
      ensures invoices == if confirmed && deleted then WithoutId(old(invoices), id) else old(invoices)
    {
      if !confirmed {
        return;
      }
      if deleted {
        invoices := WithoutId(invoices, id);
      }
    }
  }
}
