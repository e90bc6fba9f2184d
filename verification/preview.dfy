/**
 * The invoice preview page: it loads the record the editor left in local
 * storage (or sends the user back to the editor), shows each line's taxable
 * value and total, the stored totals, the bank section and the PDF file name.
 */
module Preview {
  import opened Wrappers
  import Calc

  /** A line as read back from storage; a `taxAmount` is optional and the editor never writes one. */
  datatype PreviewItem = PreviewItem(line: Calc.LineItem, taxAmount: Option<real>)

  /** The saved preview record: form fields, lines, rates and the totals computed when it was saved. */
  datatype Record = Record(
    companyName: string, companyGst: string, companyAddress: string,
    companyEmail: string, companyPhone: string,
    invoiceNumber: string, invoiceDate: string, placeOfSupply: string,
    customerName: string, customerGST: string, customerPAN: string, billingAddress: string,
    items: seq<PreviewItem>,
    cgst: real, sgst: real,
    subtotal: real, cgstAmount: real, sgstAmount: real, total: real,
    bankName: string, accountNumber: string, ifsc: string, branch: string)

  /** The lines of a record without their optional tax amounts. */
  function Lines(items: seq<PreviewItem>): (lines: seq<Calc.LineItem>)
    ensures |lines| == |items|
    ensures forall i :: 0 <= i < |lines| ==> lines[i] == items[i].line
  {
    seq(|items|, i requires 0 <= i < |items| => items[i].line)
  }

  // ---------- Loading ----------

  /** What the page does on mount. */
  datatype Outcome = Show(record: Record) | Redirect(path: string)

  /** A saved record is shown as it is; without one the page goes back to the editor. */
  function Load(saved: Option<Record>): (o: Outcome)
    ensures o.Redirect? <==> saved.None?
    ensures o.Redirect? ==> o.path == "/invoice"
    ensures o.Show? ==> saved == Some(o.record)
  {
    match saved
    case Some(r) => Show(r)
    case None => Redirect("/invoice")
  }

  // ---------- Line rows ----------

  /** `it.taxAmount || 0`: an absent tax amount counts as 0. */
  function TaxOrZero(it: PreviewItem): (t: real)
    ensures it.taxAmount.None? ==> t == 0.0
    ensures it.taxAmount.Some? ==> t == it.taxAmount.value
  {
    it.taxAmount.GetOr(0.0)
  }

  /** The taxable value shown for a line. */
  function RowValue(it: PreviewItem): (v: real)
    ensures v == Calc.Taxable(it.line)
  {
    it.line.quantity * it.line.rate
  }

  /** The total shown for a line: its value plus its tax amount, if it has one. */
  function RowTotal(it: PreviewItem): (t: real)
    ensures it.taxAmount.None? ==> t == Calc.Taxable(it.line)
    ensures it.taxAmount.Some? ==> t == Calc.Taxable(it.line) + it.taxAmount.value
  {
    RowValue(it) + TaxOrZero(it)
  }

  /** Sum of the row totals, in row order. */
  function RowTotalsSum(items: seq<PreviewItem>): (sum: real) {
    if items == [] then 0.0 else RowTotal(items[0]) + RowTotalsSum(items[1..])
  }

  /** Items that carry no tax amount, as the editor writes them. */
  predicate NoTaxAmounts(items: seq<PreviewItem>) {
    forall i :: 0 <= i < |items| ==> items[i].taxAmount.None?
  }

  /**
   * For lines without tax amounts the row totals add up to the subtotal, not to
   * the total: the per-line table shows no tax even though the totals box does.
   */
  lemma {:induction false} RowTotalsSumIsSubtotal(items: seq<PreviewItem>)
    requires NoTaxAmounts(items)
    ensures RowTotalsSum(items) == Calc.Sum(Lines(items))
  {
    if items != [] {
      RowTotalsSumIsSubtotal(items[1..]);
      assert Lines(items)[1..] == Lines(items[1..]);
    }
  }

  // ---------- Totals ----------

  /** The totals box shows the stored figures verbatim; nothing is recomputed. */
  function DisplayedTotals(r: Record): (t: Calc.Totals)
    ensures t.subtotal == r.subtotal && t.cgstAmount == r.cgstAmount
    ensures t.sgstAmount == r.sgstAmount && t.total == r.total
  {
    Calc.Totals(r.subtotal, r.cgstAmount, r.sgstAmount, r.total)
  }

  /** A record whose stored totals are the calculator's totals for its own lines and rates. */
  predicate Consistent(r: Record) {
    DisplayedTotals(r) == Calc.ComputeTotals(Lines(r.items), r.cgst, r.sgst)
  }

  /** For a consistent record the displayed figures satisfy the calculator's invariant. */
  lemma ConsistentDisplay(r: Record)
    requires Consistent(r)
    ensures r.total == r.subtotal + r.cgstAmount + r.sgstAmount
    ensures r.subtotal == Calc.Sum(Lines(r.items))
    ensures r.cgstAmount == r.subtotal * r.cgst / 100.0
    ensures r.sgstAmount == r.subtotal * r.sgst / 100.0
  {
  }

  // ---------- Bank section and file name ----------

  /** How many of the texts are non-empty. */
  function NonEmptyCount(fields: seq<string>): (n: nat)
    ensures n <= |fields|
  {
    if fields == [] then 0 else (if fields[0] != "" then 1 else 0) + NonEmptyCount(fields[1..])
  }

  /** `{value && <p>{title}{value}</p>}` for each pair in turn: only non-empty values make a line. */
  function LabelledLines(labels: seq<string>, values: seq<string>): (lines: seq<string>)
    requires |labels| == |values|
    ensures |lines| == NonEmptyCount(values)
    ensures values != [] && values[0] != "" ==> lines[0] == labels[0] + values[0]
  {
    if values == [] then []
    else Labelled(labels[0], values[0]) + LabelledLines(labels[1..], values[1..])
  }

  /** `{value && <p>{title}{value}</p>}`: one line when the value is non-empty, none otherwise. */
  function Labelled(title: string, value: string): (lines: seq<string>) {
    if value != "" then [title + value] else []
  }

  /** A single field gives its own conditional line. */
  lemma LabelledLinesSingle(title: string, value: string)
    ensures LabelledLines([title], [value]) == Labelled(title, value)
  {
    assert [value][1..] == [];
  }

  /** Fields listed one after another give their lines one after another, in order. */
  lemma {:induction false} LabelledLinesAppend(l1: seq<string>, v1: seq<string>, l2: seq<string>, v2: seq<string>)
    requires |l1| == |v1| && |l2| == |v2|
    ensures LabelledLines(l1 + l2, v1 + v2) == LabelledLines(l1, v1) + LabelledLines(l2, v2)
  {
    if v1 == [] {
      assert l1 + l2 == l2;
      assert v1 + v2 == v2;
    } else {
      assert (l1 + l2)[1..] == l1[1..] + l2;
      assert (v1 + v2)[1..] == v1[1..] + v2;
      LabelledLinesAppend(l1[1..], v1[1..], l2, v2);
    }
  }

  /**
   * The bank section: absent unless the bank name or the account number is
   * filled in; when present, one line per non-empty bank field, in order.
   */
  function BankSection(r: Record): (lines: Option<seq<string>>)
    ensures lines.None? <==> r.bankName == "" && r.accountNumber == ""
    ensures lines.Some? ==> 1 <= |lines.value| <= 4
    ensures lines.Some? ==> |lines.value| == NonEmptyCount([r.bankName, r.accountNumber, r.ifsc, r.branch])
    ensures lines.Some? && r.bankName != "" ==> lines.value[0] == "Bank: " + r.bankName
    ensures lines.Some? ==>
              lines.value == Labelled("Bank: ", r.bankName) + Labelled("Account #: ", r.accountNumber)
                             + Labelled("IFSC: ", r.ifsc) + Labelled("Branch: ", r.branch)
  {
    var values := [r.bankName, r.accountNumber, r.ifsc, r.branch];
    assert values[1..][1..][1..][1..] == [];
    FourLabelledLines(["Bank: ", "Account #: ", "IFSC: ", "Branch: "], values);
    if r.bankName == "" && r.accountNumber == "" then None
    else Some(LabelledLines(["Bank: ", "Account #: ", "IFSC: ", "Branch: "], values))
  }

  /** Four fields give their four conditional lines, in order. */
  lemma FourLabelledLines(titles: seq<string>, values: seq<string>)
    requires |titles| == 4 && |values| == 4
    ensures LabelledLines(titles, values) ==
              Labelled(titles[0], values[0]) + Labelled(titles[1], values[1])
              + Labelled(titles[2], values[2]) + Labelled(titles[3], values[3])
  {
    var t1, v1 := titles[1..], values[1..];
    var t2, v2 := t1[1..], v1[1..];
    var t3, v3 := t2[1..], v2[1..];
    assert v3[1..] == [];
    assert LabelledLines(t3, v3) == Labelled(titles[3], values[3]);
    assert LabelledLines(t2, v2) == Labelled(titles[2], values[2]) + LabelledLines(t3, v3);
    assert LabelledLines(t1, v1) == Labelled(titles[1], values[1]) + LabelledLines(t2, v2);
  }

  const FilePrefix := "Invoice-"
  const FileSuffix := ".pdf"

  /** `Invoice-${invoiceNumber || "Invoice"}.pdf` */
  function FileName(invoiceNumber: string): (name: string)
    ensures |name| == |FilePrefix| + |FileSuffix| + (if invoiceNumber == "" then 7 else |invoiceNumber|)
    ensures name[..|FilePrefix|] == FilePrefix
    ensures name[|name| - |FileSuffix|..] == FileSuffix
  {
    FilePrefix + (if invoiceNumber == "" then "Invoice" else invoiceNumber) + FileSuffix
  }

  /** The part of a generated file name between the prefix and the suffix. */
  function Stem(name: string): (stem: string)
    requires |name| >= |FilePrefix| + |FileSuffix|
  {
    name[|FilePrefix|..|name| - |FileSuffix|]
  }

  /** The file name gives back the invoice number, except that an empty number reads as "Invoice". */
  lemma FileNameStem(invoiceNumber: string)
    ensures Stem(FileName(invoiceNumber)) == if invoiceNumber == "" then "Invoice" else invoiceNumber
  {
    var middle := if invoiceNumber == "" then "Invoice" else invoiceNumber;
    assert FileName(invoiceNumber) == FilePrefix + middle + FileSuffix;
  }

  /** Two invoice numbers share a file name only if they are equal or are "" and "Invoice". */
  lemma FileNameCollisions(a: string, b: string)
    requires FileName(a) == FileName(b)
    ensures a == b || {a, b} == {"", "Invoice"}
  {
    FileNameStem(a);
    FileNameStem(b);
  }
}
