/**
 * The query-string invoice preview: it reads the invoice fields from the URL
 * parameters (with defaults for missing ones), recomputes the totals with the
 * calculator and shows one row per line with its taxable value, tax and amount.
 */
module ApiPreview {
  import opened Wrappers
  import opened Calc
  import Numerals

  /**
   * The URL's parameters: text parameters by name, and the `items` parameter
   * already decoded from its JSON text (`None` when it is missing or empty).
   */
  datatype Query = Query(params: map<string, string>, items: Option<seq<LineItem>>)

  /** A rate parameter whose text is not a number (the page would compute with NaN). */
  datatype ParamError = NotANumber(key: string)

  /** One row of the table. */
  datatype Row = Row(number: nat, line: LineItem, taxable: real, tax: real, amount: real)

  /** Everything the page shows. */
  datatype Sheet = Sheet(
    invoiceNumber: string, invoiceDate: string, customerName: string,
    customerNumber: string, pan: string,
    cgst: real, sgst: real, items: seq<LineItem>,
    totals: Calc.Totals, rows: seq<Row>)

  /** `searchParams.get(key) || ""` */
  function TextParam(q: Query, key: string): (s: string)
    ensures key !in q.params ==> s == ""
    ensures key in q.params ==> s == q.params[key]
  {
    if key in q.params then q.params[key] else ""
  }

  /** `Number(searchParams.get(key) || 0)`: a missing or empty parameter is 0. */
  function NumberParam(q: Query, key: string): (r: Result<real, ParamError>)
    ensures (key !in q.params || q.params[key] == "") ==> r == Ok(0.0)
    ensures r.Err? <==> key in q.params && !Numerals.IsNumberText(q.params[key])
    ensures r.Ok? && key in q.params ==> r.value == Numerals.NumberValue(q.params[key])
  {
    var text := TextParam(q, key);
    if text == "" then Ok(0.0)
    else if Numerals.IsNumberText(text) then Ok(Numerals.NumberValue(text))
    else Err(NotANumber(key))
  }

  /** The row for the line at position `index`. */
  function RowAt(line: LineItem, index: nat, cgst: real, sgst: real): (r: Row)
    ensures r.number == index + 1
    ensures r.line == line
    ensures r.taxable == Taxable(line)
    ensures r.tax == r.taxable * (cgst + sgst) / 100.0
    ensures r.amount == r.taxable + r.tax
  {
    var taxable := line.quantity * line.rate;
    var tax := taxable * (cgst + sgst) / 100.0;
    Row(index + 1, line, taxable, tax, taxable + tax)
  }

  function Rows(items: seq<LineItem>, cgst: real, sgst: real): (rows: seq<Row>)
    ensures |rows| == |items|
    ensures forall i :: 0 <= i < |rows| ==> rows[i] == RowAt(items[i], i, cgst, sgst)
  {
    seq(|items|, i requires 0 <= i < |items| => RowAt(items[i], i, cgst, sgst))
  }

  /**
   * The page: parameter defaults, the calculator's totals, one row per line.
   * The rows shown agree with the totals box (`RowsAgreeWithTotals`).
   */
  function Render(q: Query): (r: Result<Sheet, ParamError>)
    ensures r.Ok? ==> var s := r.value;
      && s.items == q.items.GetOr([])
      && s.invoiceNumber == TextParam(q, "invoiceNumber")
      && s.invoiceDate == TextParam(q, "invoiceDate")
      && s.customerName == TextParam(q, "customerName")
      && s.customerNumber == TextParam(q, "customerNumber")
      && s.pan == TextParam(q, "pan")
      && NumberParam(q, "cgst") == Ok(s.cgst)
      && NumberParam(q, "sgst") == Ok(s.sgst)
      && s.totals == ComputeTotals(s.items, s.cgst, s.sgst)
      && s.rows == Rows(s.items, s.cgst, s.sgst)
      && TaxSum(s.rows) == s.totals.cgstAmount + s.totals.sgstAmount
      && AmountSum(s.rows) == s.totals.total
    ensures r.Err? <==> NumberParam(q, "cgst").Err? || NumberParam(q, "sgst").Err?
  {
    match NumberParam(q, "cgst")
    case Err(e) => Err(e)
    case Ok(cgst) =>
      match NumberParam(q, "sgst")
      case Err(e) => Err(e)
      case Ok(sgst) =>
        var items := q.items.GetOr([]);
        RowsAgreeWithTotals(items, cgst, sgst);
        Ok(Sheet(
          TextParam(q, "invoiceNumber"), TextParam(q, "invoiceDate"),
          TextParam(q, "customerName"), TextParam(q, "customerNumber"),
          TextParam(q, "pan"), cgst, sgst, items,
          ComputeTotals(items, cgst, sgst), Rows(items, cgst, sgst)))
  }

  /** With no parameters at all the page shows an empty invoice with zero rates and totals. */
  lemma EmptyQuery()
    ensures var r := Render(Query(map[], None));
      && r.Ok?
      && r.value.cgst == 0.0 && r.value.sgst == 0.0
      && r.value.items == [] && r.value.rows == []
      && r.value.invoiceNumber == "" && r.value.customerName == "" && r.value.pan == ""
      && r.value.totals == Calc.Totals(0.0, 0.0, 0.0, 0.0)
  {
  }

  function TaxSum(rows: seq<Row>): (sum: real) {
    if rows == [] then 0.0 else rows[0].tax + TaxSum(rows[1..])
  }

  function AmountSum(rows: seq<Row>): (sum: real) {
    if rows == [] then 0.0 else rows[0].amount + AmountSum(rows[1..])
  }

  /** Rows for the lines from position `from` on. */
  function RowsFrom(items: seq<LineItem>, from: nat, cgst: real, sgst: real): (rows: seq<Row>)
    requires from <= |items|
  {
    Rows(items, cgst, sgst)[from..]
  }

  lemma {:induction false} RowSumsFrom(items: seq<LineItem>, from: nat, cgst: real, sgst: real)
    requires from <= |items|
    ensures TaxSum(RowsFrom(items, from, cgst, sgst)) == Sum(items[from..]) * (cgst + sgst) / 100.0
    ensures AmountSum(RowsFrom(items, from, cgst, sgst)) == Sum(items[from..]) * (100.0 + cgst + sgst) / 100.0
    decreases |items| - from
  {
    var rows := RowsFrom(items, from, cgst, sgst);
    if from < |items| {
      RowSumsFrom(items, from + 1, cgst, sgst);
      assert rows[1..] == RowsFrom(items, from + 1, cgst, sgst);
      assert items[from..][1..] == items[from + 1..];
      var t := Taxable(items[from]);
      var rest := Sum(items[from + 1..]);
      assert rows[0].tax == t * (cgst + sgst) / 100.0;
      assert t * (cgst + sgst) / 100.0 + rest * (cgst + sgst) / 100.0 == (t + rest) * (cgst + sgst) / 100.0;
      assert t + t * (cgst + sgst) / 100.0 + rest * (100.0 + cgst + sgst) / 100.0
          == (t + rest) * (100.0 + cgst + sgst) / 100.0;
    } else {
      assert items[from..] == [];
    }
  }

  /**
   * The table agrees with the totals box: the row taxes add up to CGST + SGST
   * and the row amounts add up to the total.
   */
  lemma RowsAgreeWithTotals(items: seq<LineItem>, cgst: real, sgst: real)
    ensures var t := ComputeTotals(items, cgst, sgst);
      && TaxSum(Rows(items, cgst, sgst)) == t.cgstAmount + t.sgstAmount
      && AmountSum(Rows(items, cgst, sgst)) == t.total
  {
    RowSumsFrom(items, 0, cgst, sgst);
    assert RowsFrom(items, 0, cgst, sgst) == Rows(items, cgst, sgst);
    assert items[0..] == items;
  }
}
