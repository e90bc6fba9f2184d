/**
 * The invoice calculator: the taxable value of a line, the subtotal as a fold
 * over the lines, CGST and SGST as percentages of the subtotal, and the total.
 * Every page that shows or saves totals uses `ComputeTotals`.
 */
module Calc {

  /** One billable line: free text, an HSN code carried along, a quantity and a unit rate. */
  datatype LineItem = LineItem(description: string, hsn: string, quantity: real, rate: real)

  /** The line the editor starts with and appends: empty texts, quantity 1, rate 0. */
  const BlankItem := LineItem("", "", 1.0, 0.0)

  /** The taxable value of one line. */
  function Taxable(item: LineItem): (value: real) {
    item.quantity * item.rate
  }

  /** `items.reduce((acc, item) => acc + item.quantity * item.rate, 0)`: a left fold from 0. */
  function Subtotal(items: seq<LineItem>): (sum: real) {
    if items == [] then 0.0
    else Subtotal(items[..|items| - 1]) + Taxable(items[|items| - 1])
  }

  /** The same sum taken from the front: the reference definition the fold is checked against. */
  function Sum(items: seq<LineItem>): (sum: real) {
    if items == [] then 0.0 else Taxable(items[0]) + Sum(items[1..])
  }

  lemma {:induction false} SumAppend(a: seq<LineItem>, b: seq<LineItem>)
    ensures Sum(a + b) == Sum(a) + Sum(b)
  {
    if a == [] {
      assert a + b == b;
    } else {
      assert (a + b)[1..] == a[1..] + b;
      SumAppend(a[1..], b);
    }
  }

  /** The fold adds up `quantity * rate` over all lines, whatever their order of accumulation. */
  lemma {:induction false} SubtotalIsSum(items: seq<LineItem>)
    ensures Subtotal(items) == Sum(items)
  {
    if items != [] {
      var init := items[..|items| - 1];
      var last := items[|items| - 1];
      SubtotalIsSum(init);
      assert items == init + [last];
      SumAppend(init, [last]);
    }
  }

  /** The subtotal of two lists of lines placed one after the other is the sum of their subtotals. */
  lemma SubtotalAppend(a: seq<LineItem>, b: seq<LineItem>)
    ensures Subtotal(a + b) == Subtotal(a) + Subtotal(b)
  {
    SubtotalIsSum(a + b);
    SubtotalIsSum(a);
    SubtotalIsSum(b);
    SumAppend(a, b);
  }

  predicate NonNegativeLines(items: seq<LineItem>) {
    forall i :: 0 <= i < |items| ==> items[i].quantity >= 0.0 && items[i].rate >= 0.0
  }

  /** Lines with non-negative quantities and rates have a non-negative subtotal. */
  lemma {:induction false} SubtotalNonNegative(items: seq<LineItem>)
    requires NonNegativeLines(items)
    ensures Subtotal(items) >= 0.0
  {
    if items != [] {
      SubtotalNonNegative(items[..|items| - 1]);
      var last := items[|items| - 1];
      assert last.quantity >= 0.0 && last.rate >= 0.0;
      assert Taxable(last) >= 0.0;
    }
  }

  /** The four figures every page shows: subtotal, the two tax amounts and the total. */
  datatype Totals = Totals(subtotal: real, cgstAmount: real, sgstAmount: real, total: real)

  /**
   * Totals for `items` under the percentages `cgst` and `sgst` (not capped:
   * a rate above 100 simply gives a tax larger than the subtotal).
   */
  function ComputeTotals(items: seq<LineItem>, cgst: real, sgst: real): (t: Totals)
    ensures t.subtotal == Sum(items)
    ensures t.cgstAmount == Sum(items) * cgst / 100.0
    ensures t.sgstAmount == Sum(items) * sgst / 100.0
    ensures t.total == t.subtotal + t.cgstAmount + t.sgstAmount
    ensures t.total == Sum(items) * (100.0 + cgst + sgst) / 100.0
  {
    SubtotalIsSum(items);
    var subtotal := Subtotal(items);
    var cgstAmount := subtotal * cgst / 100.0;
    var sgstAmount := subtotal * sgst / 100.0;
    Totals(subtotal, cgstAmount, sgstAmount, subtotal + cgstAmount + sgstAmount)
  }

  /** An empty list of lines gives all-zero totals, whatever the rates. */
  lemma EmptyTotals(cgst: real, sgst: real)
    ensures ComputeTotals([], cgst, sgst) == Totals(0.0, 0.0, 0.0, 0.0)
  {
  }

  /** Totals are additive: splitting the lines into two lists splits every figure. */
  lemma TotalsAppend(a: seq<LineItem>, b: seq<LineItem>, cgst: real, sgst: real)
    ensures var ta, tb, t := ComputeTotals(a, cgst, sgst), ComputeTotals(b, cgst, sgst), ComputeTotals(a + b, cgst, sgst);
      && t.subtotal == ta.subtotal + tb.subtotal
      && t.cgstAmount == ta.cgstAmount + tb.cgstAmount
      && t.sgstAmount == ta.sgstAmount + tb.sgstAmount
      && t.total == ta.total + tb.total
  {
    SumAppend(a, b);
  }

  /** With non-negative lines and rates, `0 <= subtotal <= total` and both taxes are non-negative. */
  lemma TotalsBounds(items: seq<LineItem>, cgst: real, sgst: real)
    requires NonNegativeLines(items) && cgst >= 0.0 && sgst >= 0.0
    ensures var t := ComputeTotals(items, cgst, sgst);
      && 0.0 <= t.subtotal <= t.total
      && t.cgstAmount >= 0.0 && t.sgstAmount >= 0.0
  {
    SubtotalNonNegative(items);
    SubtotalIsSum(items);
  }

  /** Worked example: 2 x 100 and 1 x 50 at 9% + 9% give 250, 22.50, 22.50 and 295. */
  lemma WorkedExample()
    ensures ComputeTotals([LineItem("", "", 2.0, 100.0), LineItem("", "", 1.0, 50.0)], 9.0, 9.0)
         == Totals(250.0, 22.5, 22.5, 295.0)
  {
    var items := [LineItem("", "", 2.0, 100.0), LineItem("", "", 1.0, 50.0)];
    assert items[1..][1..] == [];
    assert Sum(items) == 250.0;
  }
}
