# Invoice app core, modelled in Dafny

This project models the rules inside a small invoice web application (a GST
invoice editor, a preview page, an invoice history and a product list).
UI, network and database code is left out. What is modelled:

- **Calculator** (`calc.dfy`): a line's taxable value is `quantity * rate`.
  The subtotal is a left fold of those values. CGST and SGST are uncapped
  percentages of the subtotal, and the total is their sum. Amounts are
  exact `real`s.
- **Invoice editor** (`editor.dfy`): the form is a class whose fields are
  the page's state. The handlers add, delete and edit lines. Save builds
  the request body (the old, flat invoice shape), and preview builds the
  record handed to the preview page.
- **Preview page** (`preview.dfy`): it loads the stored record or
  redirects to the editor. It shows per-line values and totals (a missing
  `taxAmount` counts as 0), the stored totals verbatim, the bank section
  and the PDF file name.
- **Query-string preview** (`api_preview.dfy`): it reads URL parameters
  with their defaults, recomputes the totals and shows per-row taxable
  value, tax and amount.
- **History page** (`history.dfy`): a closed two-variant invoice type
  (`Old`: customer fields and a stored `totalAmount`; `New`: from/to
  parties and stored totals). The search is case-insensitive, matching
  the invoice number or the counterpart name. Amounts and totals are
  chosen per shape. The page also has the expanded-row toggle and delete
  by id.
- **Product list** (`products.dfy`): an append guarded by validation,
  delete by position, and the local-storage copy kept equal to the list.
- **`cn`** (`class_names.dfy`): drop falsy class names and join the rest
  with single spaces.
- Shared helpers: `lists.dfy` (`filter` by predicate and by index),
  `numerals.dfy` (`Number(text)` for number-input texts), `wrappers.dfy`
  (`Option`, `Result`).

All totals go through one function, `Calc.ComputeTotals`. Its contract
proves `total == subtotal + cgstAmount + sgstAmount`, and it ties the
left fold to an independent front-to-back sum. Each page that shows or
saves totals either calls it or is proved to agree with it:

- the editor's live totals and save request;
- the old-shape history detail;
- the query-string preview, whose row taxes add up to CGST + SGST and
  whose row amounts add up to the total;
- the stored preview record, which is `Consistent` when the editor
  writes it.

Observations the proofs make explicit:

- The preview page's per-line table shows no tax for lines written by
  the editor, because the editor never writes a `taxAmount`. Its row
  totals therefore add up to the subtotal, not to the total
  (`Preview.RowTotalsSumIsSubtotal`).
- An empty invoice number and the number `"Invoice"` get the same PDF
  file name (`Preview.FileNameCollisions`).
- The history list shows an old invoice's stored `totalAmount`, but its
  expanded row recomputes the total. The two agree when the stored total
  came from the calculator (`History.ListedTotalAgrees`).
- The save request's `customerNumber` is the company phone field. The
  form has no customer phone field, and the model keeps this as written.

## Model

| member | source | states |
|---|---|---|
| Calc.SubtotalIsSum | src/app/invoice/page.tsx:52-55 | the `reduce` fold (`Calc.Subtotal`, a left fold of `Calc.Taxable` = quantity*rate) equals the sum of `quantity*rate` over all lines, taken front to back; 0 for no lines |
| Calc.SubtotalAppend | src/app/invoice/page.tsx:52-55 | the subtotal of two lists placed one after the other is the sum of their subtotals |
| Calc.SubtotalNonNegative | src/app/invoice/page.tsx:52-55 | lines with non-negative quantities and rates have a non-negative subtotal |
| Calc.ComputeTotals | src/app/invoice/page.tsx:52-58 | subtotal is the sum of line values; each tax is subtotal*rate/100 with no cap; total = subtotal + CGST + SGST = subtotal*(100+cgst+sgst)/100 |
| Calc.EmptyTotals | src/app/invoice/page.tsx:52-58 | no lines give all-zero totals at any rates |
| Calc.TotalsAppend | src/app/invoice/page.tsx:52-58 | every figure is additive over a split of the lines |
| Calc.TotalsBounds | src/app/invoice/page.tsx:56-58 | with non-negative lines and rates, 0 <= subtotal <= total and both taxes are non-negative |
| Calc.WorkedExample | src/app/invoice/page.tsx:52-58 | 2 x 100 and 1 x 50 at 9% + 9% give 250, 22.50, 22.50 and 295 |
| Numerals.NatTextRoundTrip | src/app/invoice/page.tsx:72 | `Number` of a rendered natural number gives the number back |
| Numerals.NegativeNumeral | src/app/invoice/page.tsx:72 | `Number("-" + s)` is minus `Number(s)` |
| Lists.DropIndex | src/app/invoice/page.tsx:63-64 | `filter((_, i) => i !== index)` removes exactly position `index` and keeps the rest in order; an out-of-range index changes nothing |
| Lists.Filter | src/app/history/page.tsx:82 | `filter(p)` keeps exactly the elements satisfying `p` and never lengthens the list |
| Lists.FilterAppend | src/app/history/page.tsx:95-102 | filtering preserves relative order: it distributes over concatenation |
| Lists.FilterKeepsAll | src/app/history/page.tsx:95-102 | when every element passes, the list comes back unchanged |
| Lists.FilterNoDuplicates | src/app/history/page.tsx:91 | filtering never introduces a repeated element |
| Editor.Assign | src/app/invoice/page.tsx:71-72 | quantity and rate take `Number(value)`, description and hsn take the text; the other fields are untouched |
| Editor.InvoiceForm.constructor | src/app/invoice/page.tsx:22-49 | initial state: one blank line (quantity 1, rate 0), CGST = SGST = 9, company name "DEV ELECTRICALS", today's date; initial totals are all 0 |
| Editor.InvoiceForm.AddItem | src/app/invoice/page.tsx:61-62 | exactly one blank line is appended and earlier lines are unchanged; the subtotal does not change |
| Editor.InvoiceForm.DeleteItem | src/app/invoice/page.tsx:63-64 | only position `index` is removed and the rest keep their order; an out-of-range index changes nothing; the subtotal drops by that line's value |
| Editor.InvoiceForm.ItemChange | src/app/invoice/page.tsx:65-74 | only the named field of line `index` changes (a number for quantity/rate, text otherwise); the length and all other lines stay |
| Editor.InvoiceForm.Save | src/app/invoice/page.tsx:76-95 | no request without invoice number and customer name; otherwise the body carries the form's fields and lines, totalAmount = the calculator's total, and user = null |
| Editor.InvoiceForm.PreviewRecord | src/app/invoice/page.tsx:105-133 | the stored preview record carries every form field, the lines (without tax amounts) and the rates, plus the calculator's totals for those lines |
| Preview.Load | src/app/invoice/preview/page.tsx:117-121 | a saved record is shown as it is; without one the page redirects to /invoice |
| Preview.RowValue | src/app/invoice/preview/page.tsx:210 | a row's taxable value is quantity*rate |
| Preview.TaxOrZero | src/app/invoice/preview/page.tsx:211 | the logical-or default of `taxAmount`: the tax amount when present, 0 when absent |
| Preview.RowTotal | src/app/invoice/preview/page.tsx:211 | a row's total is its value plus its tax amount, which counts as 0 when absent |
| Preview.RowTotalsSumIsSubtotal | src/app/invoice/preview/page.tsx:209-211 | for lines without tax amounts the row totals add up to the subtotal |
| Preview.DisplayedTotals | src/app/invoice/preview/page.tsx:231-234 | the totals box shows the stored figures verbatim |
| Preview.ConsistentDisplay | src/app/invoice/preview/page.tsx:231-234 | for a record written by the editor, the displayed figures satisfy the calculator's formulas |
| Preview.LabelledLines | src/app/invoice/preview/page.tsx:241-244 | one labelled line per non-empty field; the first line is the first field's when that is non-empty |
| Preview.LabelledLinesSingle | src/app/invoice/preview/page.tsx:241 | one field gives `title + value` when the value is non-empty and no line otherwise |
| Preview.LabelledLinesAppend | src/app/invoice/preview/page.tsx:241-244 | fields listed one after another give their lines one after another, in order |
| Preview.FourLabelledLines | src/app/invoice/preview/page.tsx:241-244 | four fields give their four conditional lines, each present iff its field is non-empty, in field order |
| Preview.BankSection | src/app/invoice/preview/page.tsx:239-245 | the bank section is shown iff the bank name or the account number is non-empty; it then holds "Bank: name", "Account #: number", "IFSC: code" and "Branch: name", each only when its field is non-empty, in that order (1 to 4 lines) |
| Preview.FileName | src/app/invoice/preview/page.tsx:149 | the file name is "Invoice-", then the invoice number (or "Invoice" when empty), then ".pdf" |
| Preview.FileNameStem | src/app/invoice/preview/page.tsx:149 | stripping prefix and suffix gives the invoice number back, or "Invoice" for an empty one |
| Preview.FileNameCollisions | src/app/invoice/preview/page.tsx:149 | two invoice numbers share a file name only if equal or if they are "" and "Invoice" |
| ApiPreview.TextParam | src/app/api/invoices/preview/page.tsx:8-12 | a missing text parameter reads as "" |
| ApiPreview.NumberParam | src/app/api/invoices/preview/page.tsx:13-14 | a missing or empty rate parameter reads as 0; otherwise the numeral's value, or an error when the text is not a number |
| ApiPreview.RowAt | src/app/api/invoices/preview/page.tsx:67-73 | row number = index + 1, the row's line, taxable = quantity*rate, tax = taxable*(cgst+sgst)/100, amount = taxable + tax |
| ApiPreview.Rows | src/app/api/invoices/preview/page.tsx:67 | one row per line, in order |
| ApiPreview.Render | src/app/api/invoices/preview/page.tsx:8-21 | error iff a rate parameter is not a number; otherwise every text field is its parameter or "" when missing, the rates are their parameters' values (0 when missing or empty), items are the decoded parameter or none, the totals are the calculator's, the rows are one per line, and the shown row taxes and amounts add up to CGST + SGST and to the total |
| ApiPreview.EmptyQuery | src/app/api/invoices/preview/page.tsx:8-21 | with no parameters: empty texts, no lines, zero rates and zero totals |
| ApiPreview.RowSumsFrom | src/app/api/invoices/preview/page.tsx:67-70 | from any position on, the row taxes and amounts add up to the remaining subtotal times the tax and total factors |
| ApiPreview.RowsAgreeWithTotals | src/app/api/invoices/preview/page.tsx:67-70 | the row taxes add up to CGST + SGST and the row amounts to the total |
| History.Lower | src/app/history/page.tsx:96 | lower-casing maps each character and keeps the length |
| History.LowerIdempotent | src/app/history/page.tsx:96 | lower-casing twice is lower-casing once |
| History.ContainsIff | src/app/history/page.tsx:98-101 | `includes` holds iff the needle occurs at some position of the text |
| History.MatchesIff | src/app/history/page.tsx:95-102 | an invoice matches iff lower(query) occurs in lower(invoiceNumber) or in lower(name), name being customerName (old) or toName (new); this specifies `History.Matches` and `History.Name` |
| History.EmptyQueryMatches | src/app/history/page.tsx:95-102 | the empty query matches every invoice |
| History.MatchesIgnoresQueryCase | src/app/history/page.tsx:96 | the query's case does not matter |
| History.Search | src/app/history/page.tsx:95-102 | the visible list holds exactly the matching invoices and never adds any |
| History.SearchEmptyQuery | src/app/history/page.tsx:95-102 | the empty query shows the whole list unchanged |
| History.SearchAppend | src/app/history/page.tsx:95-102 | searching keeps relative order |
| History.ItemAmounts | src/app/history/page.tsx:125-139 | old lines show quantity*rate, new lines their stored amount |
| History.DetailTotals | src/app/history/page.tsx:149-179 | old shape: totals recomputed by the calculator from lines and rates; new shape: stored subtotal, rates, taxes and total verbatim |
| History.OldDetailIgnoresStoredTotal | src/app/history/page.tsx:150-157 | an old invoice's detail totals do not depend on its stored totalAmount |
| History.OldAmountsAddUp | src/app/history/page.tsx:125-157 | an old invoice's amount column adds up to its detail subtotal |
| History.ListedTotalAgrees | src/app/history/page.tsx:252-254 | `History.ListedTotal`, the Total column, shows the stored totalAmount (old) or the stored total (new); a new invoice always shows the same figure in list and detail, and an old one does when it was saved with the calculator's total |
| History.Toggle | src/app/history/page.tsx:89-92 | `id` is expanded afterwards iff it was not before; no other id changes; a collapsed id is appended at the end |
| History.ToggleTwice | src/app/history/page.tsx:89-92 | toggling twice restores membership, and the exact list when the id was collapsed |
| History.ToggleNoDuplicates | src/app/history/page.tsx:89-92 | a repeat-free expanded list stays repeat-free |
| History.WithoutId | src/app/history/page.tsx:82 | after delete(id) no invoice has that id and every other invoice remains |
| History.WithoutAbsentId | src/app/history/page.tsx:82 | deleting an unknown id changes nothing |
| History.WithoutIdAppend | src/app/history/page.tsx:82 | deleting keeps the others' order |
| History.HistoryPage.Visible | src/app/history/page.tsx:95-102 | `filteredInvoices`: every shown invoice is in the list and matches the query, every matching invoice is shown, and an empty query shows the whole list |
| History.HistoryPage.constructor | src/app/history/page.tsx:56-58 | the page starts with no invoices, an empty query and no expanded rows |
| History.HistoryPage.Load | src/app/history/page.tsx:61-75 | the list is replaced only by a successful fetch |
| History.HistoryPage.ToggleRow | src/app/history/page.tsx:89-92 | the expanded list becomes Toggle of the old one and stays repeat-free |
| History.HistoryPage.Delete | src/app/history/page.tsx:77-87 | the invoice leaves the list only when confirmed and the server succeeds |
| Products.Accepts | src/app/products/page.tsx:29 | accepted iff description non-empty, rate given and > 0, stock given and >= 0 |
| Products.DropIndexWellFormed | src/app/products/page.tsx:38-39 | removing a product keeps every remaining one well formed |
| Products.ProductPage.constructor | src/app/products/page.tsx:17-20 | empty list and empty fields |
| Products.ProductPage.Load | src/app/products/page.tsx:23-26 | a stored list replaces the in-memory one |
| Products.ProductPage.Add | src/app/products/page.tsx:28-36 | on acceptance exactly one product is appended, storage equals the new list, and the fields reset to ""; on rejection nothing changes; every product keeps rate > 0 and stock >= 0 |
| Products.ProductPage.Delete | src/app/products/page.tsx:38-42 | only position `index` is removed, order is kept, storage equals the new list |
| ClassNames.Kept | src/lib/utils.ts:6 | only truthy arguments (non-empty texts) survive `filter(Boolean)` |
| ClassNames.JoinAppend | src/lib/utils.ts:6 | `join` of two non-empty lists puts one separator between their joins |
| ClassNames.JoinEmpty | src/lib/utils.ts:6 | a join of non-empty texts is empty only for no texts |
| ClassNames.CnEmpty | src/lib/utils.ts:5-7 | `ClassNames.Cn`'s result is "" iff every argument is false, null, undefined or "" (also for no arguments) |
| ClassNames.CnSingle | src/lib/utils.ts:5-7 | a single non-empty class name comes back unchanged |
| ClassNames.CnAppend | src/lib/utils.ts:5-7 | `ClassNames.Cn` is compositional: the truthy arguments appear in argument order, separated by single spaces |
| ClassNames.CnSkipsFalsy | src/lib/utils.ts:6 | a falsy argument anywhere can be dropped without changing the result |

## Left out

- Editor.InvoiceForm.ItemChange: requires `index` to be in range. The
  source throws a TypeError for any other index.
- Editor.Assign, Editor.InvoiceForm.ItemChange: for quantity and rate it requires the
  text a number input passes: "" or a decimal numeral, optionally
  negative and optionally with a fraction. A number input also passes
  exponent notation such as "1e3", which `Number` reads as 1000. That
  case, surrounding whitespace and non-numeric text (NaN in the source)
  are not modelled.
- Editor.InvoiceForm.ItemChange: models the lines as values. The source
  copies the array shallowly and then assigns to the shared line object,
  so the previous state's line changes as well. That aliasing is not
  modelled.
- ApiPreview.NumberParam: accepts only "", a decimal numeral and a
  minus sign followed by one. JavaScript's `Number` also reads other
  texts as numbers, and the model gives an error for each of them:
  - a leading plus sign ("+9");
  - surrounding whitespace (" 9 "), including a plus sign that URL
    decoding turned into a space;
  - exponent notation ("1e1");
  - hexadecimal, octal and binary literals ("0x10");
  - "Infinity".
  For a text that is not a number at all, the source goes on computing
  with NaN and the model also gives an error.
- ApiPreview.Render: the `items` parameter is taken already decoded.
  JSON parsing of the URL text is not modelled.
- Preview.Load: the stored record is taken already decoded. The record's
  JSON round trip through local storage is not modelled.
- Preview.TaxOrZero: a line read back from storage may carry a
  `taxAmount`, and the model treats only its absence as 0. The source's
  `|| 0` also maps NaN to 0.
- History.Lower: ASCII lower-casing only. Unicode case mapping is not
  modelled.
- Number formatting (`toFixed(2)`), floating-point rounding, dates
  (`toLocaleDateString`, ISO slicing) and the "Amount in words", logo
  and due-date fields, which the editor never writes.
- Browser and server effects are inputs or are dropped:
  - `fetch` is dropped, and its outcome becomes a boolean input of
    `History.HistoryPage.Load` and `History.HistoryPage.Delete`;
  - `confirm` becomes a boolean input;
  - `alert`, router navigation, `window.print` and PDF rendering are
    dropped;
  - local storage is a field of the page.
- The plain form setters (`setInvoiceNumber`, `setCgst(Number(...))` and
  the like) are not modelled as methods. They are single field
  assignments on the form's public fields.
- A normalizer with a "malformed record" path and a skipped-record count
  is not in the code. The history page relies on its two TypeScript
  shapes, so the model uses a closed two-variant datatype and has no
  malformed case.
- API routes, authentication, the database connection and the Mongoose
  schema (used only for the old shape's field list), shop branding
  context, settings page, navigation bars and layout are not part of
  this model.
