/** What `updatePreview` and `generatePDF` put on the page, with the markup
    and styling stripped away: one text per field, one row per line item and
    the totals. Both templates spell out their own fallback for every field;
    `PdfMatchesPreview` shows that, rendered from the same inputs and rows,
    they agree. */
module Render {
  import opened Wrappers
  import Decimal
  import opened LineItems
  import opened TotalsCalculator

  /** The form's input values, read by identifier. `taxRate` is the number
      input as read through `parseFloat`. */
  datatype Meta = Meta(
    companyName: string, businessEmail: string, businessAddress: string,
    businessCity: string, businessPhone: string, gstNumber: string,
    customerName: string, customerEmail: string, customerAddress: string,
    customerCity: string, customerPhone: string, invoiceNumber: string,
    invoiceDate: string, dueDate: string, taxRate: Option<real>, notes: string)

  /** Every input left empty. */
  const BlankMeta := Meta("", "", "", "", "", "", "", "", "", "", "", "", "", "", None, "")

  /** One row of the items table as shown. */
  datatype Row = Row(description: string, qty: real, rate: real, amount: real)

  /** The rendered invoice: `gstNumber` is `None` where the template has no
      such line, `customerEmail` is `None` where the line is omitted. */
  datatype Document = Document(
    heading: string, invoiceNumber: string, invoiceDate: string, dueDate: string,
    gstNumber: Option<string>, businessEmail: string,
    companyName: string, businessAddress: string, businessCity: string, businessPhone: string,
    customerName: string, customerAddress: string, customerCity: string, customerPhone: string,
    customerEmail: Option<string>,
    rows: seq<Row>, subtotal: real, taxRate: real, tax: real, total: real,
    notes: string, generatedOn: string)

  /** `value || placeholder`: only the empty string is falsy. */
  function Fallback(value: string, placeholder: string): (r: string)
    requires placeholder != ""
    ensures r != ""
    ensures value != "" ==> r == value
    ensures value == "" ==> r == placeholder
  {
    if value == "" then placeholder else value
  }

  /** `formatDate`: an empty date string gives the empty string; any other is
      handed to the locale's long date format, `longDate`. */
  function FormatDate(dateString: string, longDate: string -> string): (r: string)
    ensures dateString == "" ==> r == ""
  {
    if dateString == "" then "" else longDate(dateString)
  }

  /** A blank description is shown as "Item <position>", counting from 1. */
  function ItemLabel(name: string, index: nat): (r: string)
    ensures r != ""
    ensures name != "" ==> r == name
  {
    if name == "" then "Item " + Decimal.DecimalOf(index + 1) else name
  }

  /** The customer email line appears only when the input is non-empty. */
  function OptionalLine(value: string): (r: Option<string>)
    ensures r.None? <==> value == ""
    ensures r.Some? ==> r.value == value
  {
    if value == "" then None else Some(value)
  }

  /** The items table body, both templates alike. */
  function RowsOf(items: seq<Item>): (rows: seq<Row>)
    ensures |rows| == |items|
  {
    seq(|items|, i requires 0 <= i < |items| =>
      Row(ItemLabel(items[i].name, i), Coerce(items[i].qty), Coerce(items[i].rate), Amount(items[i])))
  }

  /** The sum of the amounts as displayed in the table. */
  function DisplayedSum(rows: seq<Row>): real {
    if rows == [] then 0.0 else DisplayedSum(rows[..|rows| - 1]) + rows[|rows| - 1].amount
  }

  /** The on-screen preview of `updatePreview`; `now` is the current date
      the footer formats. */
  function RenderPreview(m: Meta, items: seq<Item>, longDate: string -> string, now: string): (d: Document)
    ensures d.gstNumber.Some? && d.gstNumber.value != ""
    ensures |d.rows| == |items| && d.heading == d.companyName
    ensures d.subtotal == Subtotal(items) && d.taxRate == Coerce(m.taxRate)
    ensures d.tax == TotalsOf(items, m.taxRate).tax && d.total == d.subtotal + d.tax
    ensures m.invoiceDate == "" ==> d.invoiceDate == ""
    ensures m.dueDate == "" ==> d.dueDate == ""
  {
    var t := TotalsOf(items, m.taxRate);
    Document(
      heading := Fallback(m.companyName, "ORO MANTRA"),
      invoiceNumber := Fallback(m.invoiceNumber, "INV-2602-220"),
      invoiceDate := FormatDate(m.invoiceDate, longDate),
      dueDate := FormatDate(m.dueDate, longDate),
      gstNumber := Some(Fallback(m.gstNumber, "22AAAAA0000A1Z5")),
      businessEmail := Fallback(m.businessEmail, "hello@oromantra.com"),
      companyName := Fallback(m.companyName, "ORO MANTRA"),
      businessAddress := Fallback(m.businessAddress, "123 Business Street"),
      businessCity := Fallback(m.businessCity, "Mumbai, Maharashtra 400001"),
      businessPhone := Fallback(m.businessPhone, "+91 98765 43210"),
      customerName := Fallback(m.customerName, "John Doe"),
      customerAddress := Fallback(m.customerAddress, "456 Customer Lane"),
      customerCity := Fallback(m.customerCity, "Colombo, 00100"),
      customerPhone := Fallback(m.customerPhone, "+94 11 234 5678"),
      customerEmail := OptionalLine(m.customerEmail),
      rows := RowsOf(items),
      subtotal := t.subtotal, taxRate := Coerce(m.taxRate), tax := t.tax, total := t.total,
      notes := Fallback(m.notes, "Thank you for your business! Please make payment within the due date."),
      generatedOn := longDate(now))
  }

  /** The off-screen page `generatePDF` captures: the same fields, but the
      meta block has no GST number line. */
  function RenderPdf(m: Meta, items: seq<Item>, longDate: string -> string, now: string): (d: Document)
    ensures d.gstNumber.None?
    ensures |d.rows| == |items| && d.heading == d.companyName
    ensures d.subtotal == Subtotal(items) && d.taxRate == Coerce(m.taxRate)
    ensures d.tax == TotalsOf(items, m.taxRate).tax && d.total == d.subtotal + d.tax
    ensures m.invoiceDate == "" ==> d.invoiceDate == ""
    ensures m.dueDate == "" ==> d.dueDate == ""
  {
    var t := TotalsOf(items, m.taxRate);
    Document(
      heading := Fallback(m.companyName, "ORO MANTRA"),
      invoiceNumber := Fallback(m.invoiceNumber, "INV-2602-220"),
      invoiceDate := FormatDate(m.invoiceDate, longDate),
      dueDate := FormatDate(m.dueDate, longDate),
      gstNumber := None,
      businessEmail := Fallback(m.businessEmail, "hello@oromantra.com"),
      companyName := Fallback(m.companyName, "ORO MANTRA"),
      businessAddress := Fallback(m.businessAddress, "123 Business Street"),
      businessCity := Fallback(m.businessCity, "Mumbai, Maharashtra 400001"),
      businessPhone := Fallback(m.businessPhone, "+91 98765 43210"),
      customerName := Fallback(m.customerName, "John Doe"),
      customerAddress := Fallback(m.customerAddress, "456 Customer Lane"),
      customerCity := Fallback(m.customerCity, "Colombo, 00100"),
      customerPhone := Fallback(m.customerPhone, "+94 11 234 5678"),
      customerEmail := OptionalLine(m.customerEmail),
      rows := RowsOf(items),
      subtotal := t.subtotal, taxRate := Coerce(m.taxRate), tax := t.tax, total := t.total,
      notes := Fallback(m.notes, "Thank you for your business! Please make payment within the due date."),
      generatedOn := longDate(now))
  }

  /** The exported page shows what the preview shows, field for field, except
      the GST number, which only the preview has. */
  lemma PdfMatchesPreview(m: Meta, items: seq<Item>, longDate: string -> string, now: string)
    ensures RenderPreview(m, items, longDate, now).gstNumber.Some?
    ensures RenderPdf(m, items, longDate, now) == RenderPreview(m, items, longDate, now).(gstNumber := None)
  {
  }

  /** Every text field of the preview is non-empty, shows the input when the
      input is non-empty, and dates stay empty when their input is empty. */
  lemma PreviewFallbacks(m: Meta, items: seq<Item>, longDate: string -> string, now: string)
    ensures var d := RenderPreview(m, items, longDate, now);
      d.heading != "" && d.invoiceNumber != "" && d.gstNumber.Some? && d.gstNumber.value != "" &&
      d.businessEmail != "" && d.companyName != "" && d.businessAddress != "" &&
      d.businessCity != "" && d.businessPhone != "" && d.customerName != "" &&
      d.customerAddress != "" && d.customerCity != "" && d.customerPhone != "" && d.notes != "" &&
      (m.companyName != "" ==> d.heading == m.companyName && d.companyName == m.companyName) &&
      (m.invoiceNumber != "" ==> d.invoiceNumber == m.invoiceNumber) &&
      (m.gstNumber != "" ==> d.gstNumber == Some(m.gstNumber)) &&
      (m.businessEmail != "" ==> d.businessEmail == m.businessEmail) &&
      (m.businessAddress != "" ==> d.businessAddress == m.businessAddress) &&
      (m.businessCity != "" ==> d.businessCity == m.businessCity) &&
      (m.businessPhone != "" ==> d.businessPhone == m.businessPhone) &&
      (m.customerName != "" ==> d.customerName == m.customerName) &&
      (m.customerAddress != "" ==> d.customerAddress == m.customerAddress) &&
      (m.customerCity != "" ==> d.customerCity == m.customerCity) &&
      (m.customerPhone != "" ==> d.customerPhone == m.customerPhone) &&
      (m.notes != "" ==> d.notes == m.notes) &&
      (d.customerEmail.Some? <==> m.customerEmail != "") &&
      (m.invoiceDate == "" ==> d.invoiceDate == "") &&
      (m.dueDate == "" ==> d.dueDate == "")
  {
  }

  /** With nothing entered and no rows, the preview is the sample invoice. */
  lemma BlankFormShowsSample(longDate: string -> string, now: string)
    ensures RenderPreview(BlankMeta, [], longDate, now) == Document(
      "ORO MANTRA", "INV-2602-220", "", "", Some("22AAAAA0000A1Z5"), "hello@oromantra.com",
      "ORO MANTRA", "123 Business Street", "Mumbai, Maharashtra 400001", "+91 98765 43210",
      "John Doe", "456 Customer Lane", "Colombo, 00100", "+94 11 234 5678", None,
      [], 0.0, 0.0, 0.0, 0.0,
      "Thank you for your business! Please make payment within the due date.", longDate(now))
  {
  }

  /** Row `i` of the table: its label falls back on its position, and its
      amount is its own quantity times rate. */
  lemma RowContents(items: seq<Item>, i: nat)
    requires i < |items|
    ensures var r := RowsOf(items)[i];
      r.description == (if items[i].name == "" then "Item " + Decimal.DecimalOf(i + 1) else items[i].name) &&
      r.qty == Coerce(items[i].qty) && r.rate == Coerce(items[i].rate) &&
      r.amount == r.qty * r.rate
  {
  }

  /** The displayed amounts add up to the displayed subtotal. */
  lemma {:induction false} RowsAddUp(items: seq<Item>)
    ensures DisplayedSum(RowsOf(items)) == Subtotal(items)
  {
    if items != [] {
      var n := |items| - 1;
      assert RowsOf(items)[..n] == RowsOf(items[..n]);
      RowsAddUp(items[..n]);
    }
  }
}
