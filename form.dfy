/** The form controller: page load and `resetForm`, which restores every
    input to its default, draws a new invoice number `INV-<year><month>-<n>`
    and leaves exactly one line item. */
module Form {
  import opened Wrappers
  import opened Decimal
  import opened LineItems
  import opened Render

  /** `Math.floor(Math.random() * 1000)` for a draw `0 <= random < 1`. */
  function Disambiguator(random: real): (n: nat)
    requires 0.0 <= random < 1.0
    ensures n < 1000
    ensures n as real <= random * 1000.0 < n as real + 1.0
  {
    (random * 1000.0).Floor
  }

  /** `INV-${year}${month}-${randomNum}` with the month padded to two digits. */
  function InvoiceNumber(year: nat, month: nat, serial: nat): (s: string)
    requires 1 <= month <= 12
    ensures |s| == 7 + |DecimalOf(year)| + |DecimalOf(serial)|
    ensures s[..4] == "INV-" && s[|s| - |DecimalOf(serial)| - 1] == '-'
  {
    TwoDigits(month);
    "INV-" + DecimalOf(year) + PadStart2(DecimalOf(month)) + "-" + DecimalOf(serial)
  }

  /** The parts an invoice number is made of. */
  datatype InvoiceId = InvoiceId(year: nat, month: nat, serial: nat)

  /** The position of the first '-' in `s`, or `|s|` if there is none. */
  function IndexOfDash(s: string): (k: nat)
    ensures k <= |s|
    ensures forall i :: 0 <= i < k ==> s[i] != '-'
    ensures k < |s| ==> s[k] == '-'
  {
    if s == [] || s[0] == '-' then 0 else 1 + IndexOfDash(s[1..])
  }

  /** Reads `INV-<digits><two digits>-<digits>` back into its parts. */
  function ParseInvoiceNumber(s: string): Option<InvoiceId> {
    if |s| < 4 || s[..4] != "INV-" then None
    else
      var rest := s[4..];
      var k := IndexOfDash(rest);
      if k == |rest| then None
      else
        var stamp, serial := rest[..k], rest[k + 1..];
        if |stamp| < 3 || !AllDigits(stamp) || serial == [] || !AllDigits(serial) then None
        else Some(InvoiceId(ValueOf(stamp[..|stamp| - 2]), ValueOf(stamp[|stamp| - 2..]), ValueOf(serial)))
  }

  lemma {:induction false} DashAfterDigits(d: string, t: string)
    requires AllDigits(d)
    ensures IndexOfDash(d + "-" + t) == |d|
  {
    if d != [] {
      assert (d + "-" + t)[1..] == d[1..] + "-" + t;
      DashAfterDigits(d[1..], t);
    }
  }

  /** How the parser splits a well-formed number. */
  lemma ParseParts(stamp: string, serial: string)
    requires AllDigits(stamp) && |stamp| >= 3 && AllDigits(serial) && serial != []
    ensures ParseInvoiceNumber("INV-" + (stamp + "-" + serial))
         == Some(InvoiceId(ValueOf(stamp[..|stamp| - 2]), ValueOf(stamp[|stamp| - 2..]), ValueOf(serial)))
  {
    var s := "INV-" + (stamp + "-" + serial);
    var rest := stamp + "-" + serial;
    assert s[..4] == "INV-" && s[4..] == rest;
    DashAfterDigits(stamp, serial);
    assert rest[..|stamp|] == stamp;
    assert rest[|stamp| + 1..] == serial;
  }

  /** The digits before the month and the two month digits, read apart. */
  lemma StampParts(y: string, mm: string)
    requires AllDigits(y) && y != [] && AllDigits(mm) && |mm| == 2
    ensures var stamp := y + mm;
      AllDigits(stamp) && |stamp| >= 3 &&
      ValueOf(stamp[..|stamp| - 2]) == ValueOf(y) && ValueOf(stamp[|stamp| - 2..]) == ValueOf(mm)
  {
    var stamp := y + mm;
    assert stamp[..|stamp| - 2] == y;
    assert stamp[|stamp| - 2..] == mm;
  }

  lemma Spelled(year: nat, month: nat, serial: nat)
    requires 1 <= month <= 12
    ensures InvoiceNumber(year, month, serial)
         == "INV-" + (DecimalOf(year) + PadStart2(DecimalOf(month)) + "-" + DecimalOf(serial))
  {
  }

  /** The invoice number determines the year, month and random serial it
      was made from. */
  lemma {:induction false} InvoiceNumberRoundTrip(year: nat, month: nat, serial: nat)
    requires 1 <= month <= 12
    ensures ParseInvoiceNumber(InvoiceNumber(year, month, serial)) == Some(InvoiceId(year, month, serial))
  {
    var y, mm, n := DecimalOf(year), PadStart2(DecimalOf(month)), DecimalOf(serial);
    TwoDigits(month);
    ValueOfDecimalOf(year);
    ValueOfDecimalOf(serial);
    StampParts(y, mm);
    Spelled(year, month, serial);
    ParseParts(y + mm, n);
  }

  /** The values `resetForm` writes into the inputs. */
  function ResetMeta(invoiceNumber: string, today: string, due: string): (m: Meta)
    ensures m.invoiceNumber == invoiceNumber && m.invoiceDate == today && m.dueDate == due
    ensures m.taxRate == Some(18.0)
    ensures m.companyName != "" && m.businessEmail != "" && m.businessAddress != "" &&
      m.businessCity != "" && m.businessPhone != "" && m.gstNumber != "" &&
      m.customerName != "" && m.customerEmail != "" && m.customerAddress != "" &&
      m.customerCity != "" && m.customerPhone != "" && m.notes != ""
  {
    Meta(
      companyName := "ORO MANTRA",
      businessEmail := "hello@oromantra.com",
      businessAddress := "123 Business Street",
      businessCity := "Mumbai, Maharashtra 400001",
      businessPhone := "+91 98765 43210",
      gstNumber := "22AAAAA0000A1Z5",
      customerName := "John Doe",
      customerEmail := "customer@email.com",
      customerAddress := "456 Customer Lane",
      customerCity := "Colombo, 00100",
      customerPhone := "+94 11 234 5678",
      invoiceNumber := invoiceNumber,
      invoiceDate := today,
      dueDate := due,
      taxRate := Some(18.0),
      notes := "Thank you for your business! Please make payment within the due date.")
  }

  /** The reset defaults are the preview's own placeholders: after a reset
      the preview looks as if those inputs were empty, apart from the
      invoice number, the dates, the 18% tax rate and the customer email,
      which a reset fills in and an empty input omits. */
  lemma ResetShowsPlaceholders(number: string, today: string, due: string,
                               items: seq<Item>, longDate: string -> string, now: string)
    ensures RenderPreview(ResetMeta(number, today, due), items, longDate, now)
         == RenderPreview(BlankMeta.(invoiceNumber := number, invoiceDate := today, dueDate := due,
                                     customerEmail := "customer@email.com", taxRate := Some(18.0)),
                          items, longDate, now)
  {
  }

  /** The form: its inputs and the items container. */
  class InvoiceForm {
    var meta: Meta
    const store: ItemStore

    ghost predicate Valid()
      reads this, store
    {
      store.Valid()
    }

    /** `DOMContentLoaded`: the date inputs get today and today + 30 days,
        the other inputs keep what the page declares (`initial`), and one
        item is added. */
    constructor (initial: Meta, today: string, due: string)
      ensures Valid() && fresh(store)
      ensures meta == initial.(invoiceDate := today, dueDate := due)
      ensures store.counter == 1 && store.items == [DefaultItem(1)]
    {
      meta := initial.(invoiceDate := today, dueDate := due);
      store := new ItemStore();
    }

    /** `resetForm`. Nothing happens unless the user confirms. `year`,
        `monthIndex` (0 for January) and `random` are the clock and random
        readings; `today` and `due` the two dates written to the inputs. */
    method ResetForm(confirmed: bool, year: nat, monthIndex: nat, random: real, today: string, due: string)
      requires Valid()
      requires monthIndex < 12 && 0.0 <= random < 1.0
      modifies this, store
      ensures Valid()
      ensures !confirmed ==> meta == old(meta) && store.counter == old(store.counter) && store.items == old(store.items)
      ensures confirmed ==>
        meta == ResetMeta(InvoiceNumber(year, monthIndex + 1, Disambiguator(random)), today, due) &&
        store.counter == 1 && store.items == [DefaultItem(1)]
    {
      if confirmed {
        var number := InvoiceNumber(year, monthIndex + 1, Disambiguator(random));
        meta := ResetMeta(number, today, due);
        store.Reset();
      }
    }
  }
}
