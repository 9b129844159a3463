# ORO MANTRA invoice generator — verified model of the invoice engine

The invoice generator is a single browser script (`script.js`). Beneath its
DOM and HTML-template plumbing sits a small invoice engine, and this project
models that engine in Dafny:

- **Line-item store** (`LineItems`, file `line_items.dfy`). Class `ItemStore`
  holds the global `itemCounter` and the ordered rows of the items container.
  Its methods are `AddItem`, `RemoveItem`, `EditRow` (typing into a row's
  description, quantity or rate input) and `Reset`. The invariant `Valid()` states that row ids strictly
  increase along the list and lie in `1..counter`. Under it, removal by id
  (`getElementById` finds the first match) is the same as filtering out every
  row with that id.
- **Totals calculator** (`TotalsCalculator`, `totals.dfy`). `CalculateTotals`
  is the `forEach` accumulation loop. It is proved equal to the recursive
  `Subtotal` and to `TotalsOf`: tax is `subtotal * (taxRate / 100)` and the
  total is `subtotal + tax`. Inputs are the value `parseFloat` reads, as
  `Option<real>`; `None` stands for NaN, and `|| 0` (`Coerce`) turns it into 0.
- **Renderer** (`Render`, `render.dfy`). `RenderPreview` (from `updatePreview`)
  and `RenderPdf` (from `generatePDF`) map the inputs and rows to a `Document`:
  one text per field, one `Row` per item, and the totals. Each function keeps
  its template's own fallback literals. The lemmas show that, rendered from
  the same inputs and rows, the two views agree except for the GST line,
  which only the preview has.
- **Form controller** (`Form`, `form.dfy`). Class `InvoiceForm` covers page load
  and `resetForm`: the default values, an invoice number
  `INV-<year><month, 2 digits>-<n>` with `n < 1000`, and exactly one row with
  id 1. The invoice number is proved to parse back into its parts.
- **Export** (`Export`, `export.dfy`). `GeneratePdf` updates the download
  button's busy state and derives the file name. The asynchronous part is
  represented only by how it ends: it completes, the capture throws, or a
  later step throws. The page is built from the inputs at the start; the
  file name from the invoice number read after the capture returns. The
  method returns the button state seen while the capture runs. On every
  outcome the final button has its original label and is enabled.
- `Decimal` (`decimal.dfy`) holds the number-to-text conversion and
  `padStart(2, '0')`, with the lemmas that reading the digits back gives the
  number. `Wrappers` (`wrappers.dfy`) holds `Option`.

Behaviour modelled as the code has it:
- Row ids are reused after a reset, because the counter goes back to 0.
- A field falls back to its placeholder only when it is exactly `""` (JavaScript's falsy string). A string of spaces is shown as is.
- `formatDate` returns `""` only for the empty string. Any other text goes to the locale formatter, even text that is not a date.
- Negative quantities, rates and tax rates are not clamped. `NonNegativeTotals` states what holds when they are non-negative.

## Model

| member | source | states |
|---|---|---|
| `LineItems.DefaultItem` | script.js:45-51 | a new row has the counter value as id, description "Item " followed by that number, quantity 1 and rate 0 |
| `LineItems.Without` | script.js:81-88 | removing by id never lengthens the list; the rows kept are the others, in order |
| `LineItems.WithoutAbsent` | script.js:81-88 | removing an id that no row has changes nothing |
| `LineItems.WithoutAt` | script.js:82-84 | with increasing ids, removing row k's id removes exactly row k and keeps the rest in order |
| `LineItems.WithoutKeepsIds` | script.js:81-88 | removal keeps ids increasing and within the range the counter handed out |
| `LineItems.WithoutRemovesOne` | script.js:81-88 | when the id is present, exactly one row goes and no row with that id remains |
| `LineItems.ItemStore.constructor` | script.js:32-37 | on page load the counter is 1 and the list holds one default row with id 1 |
| `LineItems.ItemStore.AddItem` | script.js:39-58 | the counter rises by exactly 1 and one default row with the new counter as id is appended after the unchanged earlier rows |
| `LineItems.ItemStore.RemoveItem` | script.js:81-88 | the rows become the old rows without that id; the counter is unchanged; an absent id leaves the rows unchanged |
| `LineItems.ItemStore.EditRow` | script.js:61-78 | editing a row's inputs replaces that row's description, quantity and rate, keeps its id and changes no other row |
| `LineItems.ItemStore.Reset` | script.js:343-347 | after a reset the counter is 1 and the only row is the default row with id 1 |
| `TotalsCalculator.Coerce` | script.js:95-96 | `parseFloat(x) \|\| 0`: an input that does not parse counts as 0, a parsed number counts as itself |
| `TotalsCalculator.Amount` | script.js:97 | a row's amount is 0 when its quantity or rate does not parse |
| `TotalsCalculator.Subtotal` | script.js:91-99 | no rows give subtotal 0, a single row gives its own amount |
| `TotalsCalculator.TotalsOf` | script.js:101-111 | the returned subtotal is the row sum, tax*100 = subtotal*rate, total = subtotal + tax |
| `TotalsCalculator.CalculateTotals` | script.js:90-111 | the accumulation loop returns the subtotal as the sum of qty*rate over the rows (unparseable input counting 0), tax = subtotal*(rate/100), total = subtotal + tax |
| `TotalsCalculator.SubtotalAppend` | script.js:94-99 | the subtotal of two runs of rows is the sum of their subtotals |
| `TotalsCalculator.SubtotalPermutation` | script.js:94-99 | rows in any order have the same subtotal |
| `TotalsCalculator.RemoveLowersSubtotal` | script.js:81-99 | removing a row lowers the subtotal by exactly that row's amount |
| `TotalsCalculator.AddLeavesSubtotal` | script.js:49-51 | adding a default row (rate 0) leaves the subtotal unchanged |
| `TotalsCalculator.EmptyTotals` | script.js:90-103 | with no rows, subtotal, tax and total are all 0 |
| `TotalsCalculator.TaxRule` | script.js:101-103 | tax*100 = subtotal*rate and total = subtotal + tax; a zero or unparseable rate gives tax 0 and total = subtotal |
| `TotalsCalculator.NonNegativeTotals` | script.js:94-103 | non-negative quantities, rates and tax rate give 0 <= subtotal <= total and tax >= 0 |
| `TotalsCalculator.WidgetExample` | script.js:94-103 | 3 at 100 with 10% tax gives 300, 30, 330 |
| `TotalsCalculator.TwoRowExample` | script.js:94-103 | 2 at 50 and 1 at 25.25 with rate 0 gives 125.25, 0, 125.25 |
| `Render.Fallback` | script.js:235-259 | a non-empty value is shown unchanged; an empty one shows the placeholder; the result is never empty |
| `Render.FormatDate` | script.js:185-193 | an empty date string formats to the empty string |
| `Render.ItemLabel` | script.js:198 | a non-empty description is shown as is; a blank one gets a non-empty positional label |
| `Render.OptionalLine` | script.js:260 | the customer email line appears exactly when the input is non-empty, and shows it |
| `Render.RowsOf` | script.js:196-211 | the table has one row per line item |
| `Render.RowContents` | script.js:197-201 | row i shows "Item i+1" for a blank description, the coerced quantity and rate, and amount = quantity*rate |
| `Render.RowsAddUp` | script.js:197-211 | the amounts shown in the table add up to the subtotal |
| `Render.PreviewFallbacks` | script.js:224-300 | every placeholder field of the preview is non-empty and equals the input when the input is non-empty; the email line is present exactly for a non-empty input; empty dates stay empty |
| `Render.BlankFormShowsSample` | script.js:215-308 | with no input and no rows the preview is the fully populated sample invoice with zero totals |
| `Render.RenderPreview` | script.js:180-308 | the preview always shows a non-empty GST line, one table row per item, the company name in heading and details alike, the subtotal, tax and total of `TotalsOf`, and empty dates for empty date inputs |
| `Render.RenderPdf` | script.js:386-509 | the exported page has no GST line, one table row per item, the same totals as `TotalsOf`, and empty dates for empty date inputs |
| `Render.PdfMatchesPreview` | script.js:419-509 | the exported page equals the preview in every field, including fallbacks and totals, except the GST number, which only the preview shows |
| `Decimal.DecimalOf` | script.js:332 | a number's text is non-empty digits with no leading zero, a single digit exactly for n < 10 |
| `Decimal.ValueOfDecimalOf` | script.js:332 | reading a number's text back gives the number |
| `Decimal.ValueOfLeadingZero` | script.js:330 | a zero prepended by padding does not change the value |
| `Decimal.PadStart2` | script.js:330 | padding leaves strings of length 2 or more alone and widens shorter ones to exactly 2 by prepending zeros |
| `Decimal.TwoDigits` | script.js:330 | a padded month (below 100) is exactly two digits denoting the month |
| `Form.Disambiguator` | script.js:331 | floor(random*1000) is below 1000 for a draw in [0, 1) |
| `Form.InvoiceNumber` | script.js:327-332 | the invoice number starts with "INV-", has the year's digits, two month digits, a dash and the serial's digits |
| `Form.InvoiceNumberRoundTrip` | script.js:327-332 | the invoice number parses back to the year, month and serial it was built from |
| `Form.ResetMeta` | script.js:315-341 | a reset writes the new invoice number, today's and the due date, tax rate 18, and a non-empty default into every other input |
| `Form.ResetShowsPlaceholders` | script.js:315-341 | the reset defaults equal the preview placeholders, apart from the invoice number, dates, tax rate 18 and customer email |
| `Form.InvoiceForm.constructor` | script.js:2-12 | on page load the date inputs get today and the due date, and the store holds one default row with id 1 |
| `Form.InvoiceForm.ResetForm` | script.js:312-347 | unconfirmed, nothing changes; confirmed, every input holds its default, the tax rate is 18, the invoice number is freshly built, and exactly one row with id 1 remains |
| `Export.PdfFileName` | script.js:546-547 | the file name is "ORO-MANTRA-Invoice-" + number + ".pdf" |
| `Export.FileNameRoundTrip` | script.js:546-547 | the invoice number (or "invoice" when blank) is recovered from the file name |
| `Export.FileNamesDistinct` | script.js:546-547 | different non-empty invoice numbers give different file names |
| `Export.GeneratePdf` | script.js:359-559 | while capturing, the button is disabled with the busy label; on success and on a throw alike it ends enabled with its original label; only a completed export saves, the page rendered from the inputs at the start under the name derived from the invoice number read after the capture; the off-screen container stays in the page exactly when the capture itself threw |

## Left out

- DOM access, the HTML and CSS template strings, and the logo. Inputs are read and written as fields of `Meta`, and a rendered view is a `Document` of field texts.
- `html2canvas`, `canvas.toDataURL`, `jsPDF` and the page-size arithmetic (script.js:515-548). These are foreign libraries with floating-point geometry. Their combined effect is the `Capture` outcome.
- `localStorage`, the onboarding modal, `showNotification`'s markup and timers, `console.error`, and the keyboard shortcuts (script.js:23-28, 149-176, 562-641). `GeneratePdf` returns only the notification's message and kind.
- IEEE floating point, `toFixed(2)` rounding, and the details of `parseFloat`. Numbers are exact reals, and a parsed input is an `Option<real>`.
- `toLocaleDateString`, `new Date()`, the "+30 days" date arithmetic, and `Math.random()`. These are clock, locale and randomness inputs. They appear as parameters: `longDate`, `now`, `today`, `due`, `year`, `monthIndex`, `random`.
- `Form.InvoiceForm.constructor`: the initial values of the other inputs come from the page markup, which is not part of this model. They are a parameter.
- `Export.GeneratePdf`: the label restoration holds for one call at a time. The disabled button blocks clicks, but the Ctrl+D shortcut (script.js:630-633) starts `generatePDF` regardless. A second call that starts while the first is busy records the busy label as its original text. If it finishes last, the button ends enabled but still reads "Generating PDF...". Overlapping calls are not modelled.
- `Export.GeneratePdf`: `const { jsPDF } = window.jspdf` (script.js:360) sits outside the `try`. If it throws, the button is never touched and no notification appears. The model starts after that line.
- `Render.PdfMatchesPreview`: the preview is modelled as re-rendered after every change. In the script, editing an item description fires no listener (script.js:74-75 and 135-140 cover only quantity, rate and the meta inputs). Until the next refresh the on-screen preview shows the old description, while the export re-reads the rows and shows the new one.
- `Form.InvoiceForm.ResetForm`: the "Form reset successfully!" notification (script.js:354) is not returned. Only `GeneratePdf`'s notifications are modelled.
- Years before year 0: `year` is a natural number, so a negative `getFullYear` is not modelled.
