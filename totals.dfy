/** `calculateTotals`: the subtotal is the sum over the rows of quantity times
    rate, an input that does not parse counting as 0; tax is the subtotal
    times the tax rate over 100; the total is their sum. Numbers are exact
    reals: the rounding of `toFixed(2)` happens only when displayed. */
module TotalsCalculator {
  import opened Wrappers
  import opened LineItems

  /** `parseFloat(v) || 0`: NaN (no number) becomes 0. */
  function Coerce(v: Option<real>): (r: real)
    ensures v.None? ==> r == 0.0
    ensures v.Some? ==> r == v.value
  {
    v.GetOr(0.0)
  }

  /** A row's amount, `qty * rate`. */
  function Amount(it: Item): (r: real)
    ensures it.qty.None? || it.rate.None? ==> r == 0.0
  {
    Coerce(it.qty) * Coerce(it.rate)
  }

  /** The sum of the amounts, accumulated from the first row to the last. */
  function Subtotal(s: seq<Item>): (r: real)
    ensures s == [] ==> r == 0.0
    ensures |s| == 1 ==> r == Amount(s[0])
  {
    if s == [] then 0.0 else Subtotal(s[..|s| - 1]) + Amount(s[|s| - 1])
  }

  datatype Totals = Totals(subtotal: real, tax: real, total: real)

  /** What `calculateTotals` returns for these rows and this tax-rate input. */
  function TotalsOf(rows: seq<Item>, taxRate: Option<real>): (t: Totals)
    ensures t.subtotal == Subtotal(rows)
    ensures t.tax * 100.0 == t.subtotal * Coerce(taxRate)
    ensures t.total == t.subtotal + t.tax
  {
    var subtotal := Subtotal(rows);
    var tax := subtotal * (Coerce(taxRate) / 100.0);
    Totals(subtotal, tax, subtotal + tax)
  }

  /** The loop of `calculateTotals` over the rows of the container. */
  method CalculateTotals(rows: seq<Item>, taxRate: Option<real>) returns (t: Totals)
    ensures t.subtotal == Subtotal(rows)
    ensures t == TotalsOf(rows, taxRate)
  {
    var subtotal := 0.0;
    var i := 0;
    while i < |rows|
      invariant 0 <= i <= |rows|
      invariant subtotal == Subtotal(rows[..i])
    {
      var qty := Coerce(rows[i].qty);
      var rate := Coerce(rows[i].rate);
      var amount := qty * rate;
      subtotal := subtotal + amount;
      SubtotalStep(rows, i);
      i := i + 1;
    }
    assert rows[..i] == rows;
    var rateInput := Coerce(taxRate);
    var tax := subtotal * (rateInput / 100.0);
    t := Totals(subtotal, tax, subtotal + tax);
  }

  /** One more row adds its amount. */
  lemma SubtotalStep(s: seq<Item>, i: nat)
    requires i < |s|
    ensures Subtotal(s[..i + 1]) == Subtotal(s[..i]) + Amount(s[i])
  {
    assert s[..i + 1][..i] == s[..i];
  }

  /** The subtotal of two runs of rows is the sum of their subtotals. */
  lemma {:induction false} SubtotalAppend(a: seq<Item>, b: seq<Item>)
    ensures Subtotal(a + b) == Subtotal(a) + Subtotal(b)
  {
    if b == [] {
      assert a + b == a;
    } else {
      var b' := b[..|b| - 1];
      assert (a + b)[..|a + b| - 1] == a + b';
      SubtotalAppend(a, b');
    }
  }

  /** Taking row `i` out lowers the subtotal by that row's amount. */
  lemma {:induction false} SubtotalRemoveAt(s: seq<Item>, i: nat)
    requires i < |s|
    ensures Subtotal(s) == Subtotal(s[..i] + s[i + 1..]) + Amount(s[i])
  {
    var pre, x, post := s[..i], s[i], s[i + 1..];
    assert s == pre + [x] + post;
    SubtotalAppend(pre + [x], post);
    SubtotalAppend(pre, [x]);
    SubtotalAppend(pre, post);
    assert Subtotal([x]) == Amount(x) by { assert [x][..0] == []; }
  }

  lemma MultisetRemoveAt(s: seq<Item>, i: nat)
    requires i < |s|
    ensures multiset(s[..i] + s[i + 1..]) == multiset(s) - multiset{s[i]}
  {
    assert s == s[..i] + [s[i]] + s[i + 1..];
    assert multiset(s) == multiset(s[..i]) + multiset{s[i]} + multiset(s[i + 1..]);
  }

  lemma MultisetDropLast(s: seq<Item>)
    requires s != []
    ensures multiset(s[..|s| - 1]) == multiset(s) - multiset{s[|s| - 1]}
  {
    assert s == s[..|s| - 1] + [s[|s| - 1]];
  }

  lemma PositionOf(s: seq<Item>, x: Item) returns (i: nat)
    requires x in multiset(s)
    ensures i < |s| && s[i] == x
  {
    i :| 0 <= i < |s| && s[i] == x;
  }

  /** The order of the rows does not change the subtotal. */
  lemma {:induction false} SubtotalPermutation(a: seq<Item>, b: seq<Item>)
    requires multiset(a) == multiset(b)
    ensures Subtotal(a) == Subtotal(b)
    decreases |a|
  {
    if a == [] {
      assert |b| == |multiset(b)| == 0;
    } else {
      var x := a[|a| - 1];
      var i := PositionOf(b, x);
      MultisetDropLast(a);
      MultisetRemoveAt(b, i);
      SubtotalPermutation(a[..|a| - 1], b[..i] + b[i + 1..]);
      SubtotalRemoveAt(b, i);
    }
  }

  /** Removing the row of `k` lowers the subtotal by exactly that row's amount. */
  lemma RemoveLowersSubtotal(s: seq<Item>, k: nat)
    requires IdsIncreasing(s) && k < |s|
    ensures Subtotal(Without(s, s[k].id)) == Subtotal(s) - Amount(s[k])
  {
    WithoutAt(s, k);
    SubtotalRemoveAt(s, k);
  }

  /** A freshly added row has rate 0, so adding it leaves the subtotal alone. */
  lemma AddLeavesSubtotal(s: seq<Item>, id: nat)
    ensures Subtotal(s + [DefaultItem(id)]) == Subtotal(s)
  {
  }

  /** With no rows (the only row removed) every total is 0. */
  lemma EmptyTotals(taxRate: Option<real>)
    ensures TotalsOf([], taxRate) == Totals(0.0, 0.0, 0.0)
  {
  }

  /** A zero or unparseable tax rate gives no tax; otherwise the tax is the
      given percentage of the subtotal and the total the subtotal plus tax. */
  lemma TaxRule(rows: seq<Item>, taxRate: Option<real>)
    ensures var t := TotalsOf(rows, taxRate);
      t.total == t.subtotal + t.tax &&
      t.tax * 100.0 == t.subtotal * Coerce(taxRate) &&
      (Coerce(taxRate) == 0.0 ==> t.tax == 0.0 && t.total == t.subtotal)
  {
  }

  /** Non-negative inputs, as the form's `min="0"` asks for, give
      non-negative totals with subtotal <= total. */
  lemma {:induction false} NonNegativeTotals(rows: seq<Item>, taxRate: Option<real>)
    requires forall i :: 0 <= i < |rows| ==> Coerce(rows[i].qty) >= 0.0 && Coerce(rows[i].rate) >= 0.0
    requires Coerce(taxRate) >= 0.0
    ensures var t := TotalsOf(rows, taxRate);
      0.0 <= t.subtotal && 0.0 <= t.tax && t.subtotal <= t.total
  {
    if rows != [] {
      var last := rows[|rows| - 1];
      NonNegativeTotals(rows[..|rows| - 1], taxRate);
      assert Coerce(last.qty) >= 0.0 && Coerce(last.rate) >= 0.0;
      assert Amount(last) >= 0.0;
    }
  }

  /** One widget: 3 at 100.00 with 10% tax is 300.00 + 30.00 = 330.00. */
  lemma WidgetExample()
    ensures TotalsOf([Item(1, "Widget", Some(3.0), Some(100.0))], Some(10.0))
      == Totals(300.0, 30.0, 330.0)
  {
  }

  /** Two rows, 2 at 50.00 and 1 at 25.25, with tax rate 0: 125.25. */
  lemma TwoRowExample()
    ensures TotalsOf([Item(1, "A", Some(2.0), Some(50.0)), Item(2, "B", Some(1.0), Some(25.25))], Some(0.0))
      == Totals(125.25, 0.0, 125.25)
  {
    var rows := [Item(1, "A", Some(2.0), Some(50.0)), Item(2, "B", Some(1.0), Some(25.25))];
    assert rows[..1][..0] == [];
    assert Subtotal(rows[..1]) == 100.0;
  }
}
