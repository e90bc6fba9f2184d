/**
 * The invoice editor page: the form's state, the three handlers that edit
 * the list of lines, the live totals, the save request and the record handed
 * to the preview page.
 */
module Editor {
  import opened Wrappers
  import opened Calc
  import Lists
  import Numerals
  import Preview

  /** The editable fields of a line. */
  datatype Field = Description | Hsn | Quantity | Rate

  /** The body of the save request (the old, flat invoice shape). */
  datatype SaveRequest = SaveRequest(
    invoiceNumber: string, date: string, customerName: string,
    customerNumber: string, pan: string, items: seq<LineItem>,
    cgst: real, sgst: real, totalAmount: real, user: Option<string>)

  /** `Number(value)` for a numeric field, `String(value)` (the text itself) for the others. */
  function Assign(item: LineItem, field: Field, value: string): (r: LineItem)
    requires (field == Quantity || field == Rate) ==> Numerals.IsNumberText(value)
    ensures field == Description ==> r == item.(description := value)
    ensures field == Hsn ==> r == item.(hsn := value)
    ensures field == Quantity ==> r == item.(quantity := Numerals.NumberValue(value))
    ensures field == Rate ==> r == item.(rate := Numerals.NumberValue(value))
  {
    match field
    case Description => item.(description := value)
    case Hsn => item.(hsn := value)
    case Quantity => item.(quantity := Numerals.NumberValue(value))
    case Rate => item.(rate := Numerals.NumberValue(value))
  }

  class InvoiceForm {
    var companyName: string
    var companyGst: string
    var companyAddress: string
    var companyEmail: string
    var companyPhone: string
    var invoiceNumber: string
    var invoiceDate: string
    var placeOfSupply: string
    var customerName: string
    var customerGST: string
    var customerPAN: string
    var billingAddress: string
    var items: seq<LineItem>
    var cgst: real
    var sgst: real
    var bankName: string
    var accountNumber: string
    var ifsc: string
    var branch: string

    /** The page's initial state; `today` is the current date as `yyyy-mm-dd`. */
    constructor (today: string)
      ensures items == [BlankItem] && cgst == 9.0 && sgst == 9.0
      ensures companyName == "DEV ELECTRICALS" && invoiceDate == today
      ensures companyGst == companyAddress == companyEmail == companyPhone == ""
      ensures invoiceNumber == placeOfSupply == ""
      ensures customerName == customerGST == customerPAN == billingAddress == ""
      ensures bankName == accountNumber == ifsc == branch == ""
      ensures Totals() == Calc.Totals(0.0, 0.0, 0.0, 0.0)
    {
      companyName := "DEV ELECTRICALS";
      companyGst, companyAddress, companyEmail, companyPhone := "", "", "", "";
      invoiceNumber, invoiceDate, placeOfSupply := "", today, "";
      customerName, customerGST, customerPAN, billingAddress := "", "", "", "";
      items := [BlankItem];
      cgst, sgst := 9.0, 9.0;
      bankName, accountNumber, ifsc, branch := "", "", "", "";
      new;
      assert [BlankItem][1..] == [];
      assert Sum(items) == 0.0;
    }

    /** The live totals, recomputed from the current lines and rates. */
    function Totals(): Calc.Totals
      reads this
    {
      ComputeTotals(items, cgst, sgst)
    }

    /** handleAddItem: one blank line at the end. */
    method AddItem()
      modifies this`items
      ensures items == old(items) + [BlankItem]
      ensures Totals().subtotal == old(Totals()).subtotal
    {
      items := items + [BlankItem];
      SubtotalAppend(old(items), [BlankItem]);
      assert [BlankItem][1..] == [];
    }

    /** handleDeleteItem: drop the line at `index`; any other index leaves the lines as they are. */
    method DeleteItem(index: int)
      modifies this`items
      ensures items == Lists.DropIndex(old(items), index)
      ensures 0 <= index < |old(items)| ==> items == old(items)[..index] + old(items)[index + 1..]
      ensures !(0 <= index < |old(items)|) ==> items == old(items)
      ensures 0 <= index < |old(items)| ==>
        Totals().subtotal == old(Totals()).subtotal - Taxable(old(items)[index])
    {
      var before := items;
      items := Lists.DropIndex(items, index);
      if 0 <= index < |before| {
        SubtotalAppend(before[..index], before[index + 1..]);
        SubtotalAppend(before[..index], [before[index]]);
        SubtotalAppend(before[..index] + [before[index]], before[index + 1..]);
        assert before == before[..index] + [before[index]] + before[index + 1..];
        assert [before[index]][1..] == [];
      }
    }

    /**
     * handleItemChange: field `field` of line `index` takes `value` (as a number
     * for quantity and rate); every other field and every other line stay.
     * `value` is what the field's input passes: any text for the text fields,
     * "" or a numeral for the number inputs.
     */
    method ItemChange(index: int, field: Field, value: string)
      requires 0 <= index < |items|
      requires (field == Quantity || field == Rate) ==> Numerals.IsNumberText(value)
      modifies this`items
      ensures |items| == |old(items)|
      ensures forall k :: 0 <= k < |items| && k != index ==> items[k] == old(items)[k]
      ensures items[index] == Assign(old(items)[index], field, value)
    {
      items := items[index := Assign(items[index], field, value)];
    }

    /**
     * handleSave: nothing is sent unless both the invoice number and the
     * customer name are filled in; otherwise the request carries the form's
     * lines, rates and live total, with no owner.
     */
    method Save() returns (request: Option<SaveRequest>)
      ensures request.None? <==> invoiceNumber == "" || customerName == ""
      ensures request.Some? ==>
        && request.value.invoiceNumber == invoiceNumber
        && request.value.customerName == customerName
        && request.value.date == invoiceDate
        && request.value.customerNumber == companyPhone
        && request.value.pan == customerPAN
        && request.value.items == items
        && request.value.cgst == cgst && request.value.sgst == sgst
        && request.value.totalAmount == Sum(items) * (100.0 + cgst + sgst) / 100.0
        && request.value.user.None?
    {
      if invoiceNumber == "" || customerName == "" {
        request := None;
      } else {
        var t := ComputeTotals(items, cgst, sgst);
        request := Some(SaveRequest(invoiceNumber, invoiceDate, customerName, companyPhone,
                                    customerPAN, items, cgst, sgst, t.total, None));
      }
    }

    /** handlePreview: the record left in storage for the preview page, totals included. */
    method PreviewRecord() returns (r: Preview.Record)
      ensures Preview.Consistent(r)
      ensures Preview.Lines(r.items) == items && Preview.NoTaxAmounts(r.items)
      ensures r.cgst == cgst && r.sgst == sgst
      ensures r.subtotal == Sum(items)
      ensures r.companyName == companyName && r.companyGst == companyGst
      ensures r.companyAddress == companyAddress && r.companyEmail == companyEmail
      ensures r.companyPhone == companyPhone
      ensures r.invoiceNumber == invoiceNumber && r.invoiceDate == invoiceDate
      ensures r.placeOfSupply == placeOfSupply
      ensures r.customerName == customerName && r.customerGST == customerGST
      ensures r.customerPAN == customerPAN && r.billingAddress == billingAddress
      ensures r.bankName == bankName && r.accountNumber == accountNumber
      ensures r.ifsc == ifsc && r.branch == branch
    {
      var t := ComputeTotals(items, cgst, sgst);
      var lines := items;
      var rows := seq(|lines|, i requires 0 <= i < |lines| => Preview.PreviewItem(lines[i], None));
      r := Preview.Record(
        companyName, companyGst, companyAddress, companyEmail, companyPhone,
        invoiceNumber, invoiceDate, placeOfSupply,
        customerName, customerGST, customerPAN, billingAddress,
        rows, cgst, sgst,
        t.subtotal, t.cgstAmount, t.sgstAmount, t.total,
        bankName, accountNumber, ifsc, branch);
      assert Preview.Lines(r.items) == items;
    }
  }
}
