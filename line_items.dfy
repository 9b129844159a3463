/** The line-item store: the global `itemCounter` and the ordered rows of the
    items container. A row keeps its quantity and rate as the script reads
    them, through `parseFloat`: `None` is an input that does not parse. */
module LineItems {
  import opened Wrappers
  import Decimal

  datatype Item = Item(id: nat, name: string, qty: Option<real>, rate: Option<real>)

  /** The row `addItem` creates for a counter value: description
      "Item <id>", quantity 1, rate 0. */
  function DefaultItem(id: nat): (it: Item)
    ensures it.id == id && it.qty == Some(1.0) && it.rate == Some(0.0)
    ensures |it.name| > 5 && it.name[..5] == "Item " && it.name[5..] == Decimal.DecimalOf(id)
  {
    Item(id, "Item " + Decimal.DecimalOf(id), Some(1.0), Some(0.0))
  }

  /** Row ids appear in strictly increasing order, hence at most once. */
  predicate IdsIncreasing(s: seq<Item>) {
    forall i, j :: 0 <= i < j < |s| ==> s[i].id < s[j].id
  }

  /** Every row id lies in the range `lo < id <= hi`. */
  predicate IdsBetween(s: seq<Item>, lo: nat, hi: nat) {
    forall i :: 0 <= i < |s| ==> lo < s[i].id <= hi
  }

  /** Every row id was handed out by the counter. */
  predicate IdsWithin(s: seq<Item>, counter: nat) {
    IdsBetween(s, 0, counter)
  }

  predicate HasId(s: seq<Item>, id: nat) {
    exists i :: 0 <= i < |s| && s[i].id == id
  }

  /** The rows without those whose id is `id`, in their original order. */
  function Without(s: seq<Item>, id: nat): (r: seq<Item>)
    ensures |r| <= |s|
  {
    if s == [] then []
    else (if s[0].id == id then [] else [s[0]]) + Without(s[1..], id)
  }

  /** Removing an id nobody has changes nothing. */
  lemma {:induction false} WithoutAbsent(s: seq<Item>, id: nat)
    requires !HasId(s, id)
    ensures Without(s, id) == s
  {
    if s != [] {
      assert s[0].id != id;
      assert !HasId(s[1..], id) by {
        forall i | 0 <= i < |s| - 1 ensures s[1..][i].id != id {
          assert s[1..][i] == s[i + 1];
        }
      }
      WithoutAbsent(s[1..], id);
      assert s == [s[0]] + s[1..];
    }
  }

  /** With ids increasing, removing the id of row `k` takes out exactly that
      row and keeps the others in order. */
  lemma {:induction false} WithoutAt(s: seq<Item>, k: nat)
    requires IdsIncreasing(s) && k < |s|
    ensures Without(s, s[k].id) == s[..k] + s[k + 1..]
  {
    var id := s[k].id;
    if k == 0 {
      assert !HasId(s[1..], id) by {
        forall i | 0 <= i < |s| - 1 ensures s[1..][i].id != id {
          assert s[1..][i] == s[i + 1];
        }
      }
      WithoutAbsent(s[1..], id);
    } else {
      assert s[0].id < id;
      assert s[1..][k - 1] == s[k];
      WithoutAt(s[1..], k - 1);
      assert s[..k] == [s[0]] + s[1..][..k - 1];
      assert s[k + 1..] == s[1..][k..];
    }
  }

  /** Removal keeps the store's invariant. */
  lemma {:induction false} WithoutKeepsIds(s: seq<Item>, id: nat, lo: nat, hi: nat)
    requires IdsIncreasing(s) && IdsBetween(s, lo, hi)
    ensures IdsIncreasing(Without(s, id)) && IdsBetween(Without(s, id), lo, hi)
  {
    if s != [] {
      var tail := s[1..];
      assert IdsBetween(tail, s[0].id, hi) by {
        forall i | 0 <= i < |tail| ensures s[0].id < tail[i].id <= hi {
          assert tail[i] == s[i + 1];
        }
      }
      WithoutKeepsIds(tail, id, s[0].id, hi);
      var rest := Without(tail, id);
      if s[0].id != id {
        var r := [s[0]] + rest;
        assert Without(s, id) == r;
        forall i, j | 0 <= i < j < |r| ensures r[i].id < r[j].id {
          assert r[j] == rest[j - 1];
          if i > 0 { assert r[i] == rest[i - 1]; }
        }
        forall i | 0 <= i < |r| ensures lo < r[i].id <= hi {
          if i > 0 { assert r[i] == rest[i - 1]; }
        }
      } else {
        assert Without(s, id) == rest;
      }
    }
  }

  /** When the id is present, exactly one row goes and the id is gone. */
  lemma WithoutRemovesOne(s: seq<Item>, id: nat)
    requires IdsIncreasing(s) && HasId(s, id)
    ensures |Without(s, id)| == |s| - 1 && !HasId(Without(s, id), id)
  {
    var k :| 0 <= k < |s| && s[k].id == id;
    WithoutAt(s, k);
    var r := Without(s, id);
    forall i | 0 <= i < |r| ensures r[i].id != id {
      if i < k { assert r[i] == s[i]; } else { assert r[i] == s[i + 1]; }
    }
  }

  /** The items container together with `itemCounter`. */
  class ItemStore {
    var counter: nat
    var items: seq<Item>

    ghost predicate Valid()
      reads this
    {
      IdsIncreasing(items) && IdsWithin(items, counter)
    }

    /** Page load: the counter starts at 0 and `initializeItems` adds one row. */
    constructor ()
      ensures Valid()
      ensures counter == 1 && items == [DefaultItem(1)]
    {
      counter := 0;
      items := [];
      new;
      AddItem();
    }

    /** `addItem`: bump the counter and append a default row with that id. */
    method AddItem()
      requires Valid()
      modifies this
      ensures Valid()
      ensures counter == old(counter) + 1
      ensures items == old(items) + [DefaultItem(counter)]
    {
      counter := counter + 1;
      items := items + [DefaultItem(counter)];
    }

    /** `removeItem(id)`: the row whose element id is `item-<id>` is removed
        when there is one; otherwise nothing happens. */
    method RemoveItem(id: nat)
      requires Valid()
      modifies this
      ensures Valid()
      ensures counter == old(counter)
      ensures items == Without(old(items), id)
      ensures !HasId(old(items), id) ==> items == old(items)
    {
      if HasId(items, id) {
        var k :| 0 <= k < |items| && items[k].id == id;
        WithoutAt(items, k);
        WithoutKeepsIds(items, id, 0, counter);
        items := items[..k] + items[k + 1..];
      } else {
        WithoutAbsent(items, id);
      }
    }

    /** Typing into the description, quantity or rate input of row `k`.
        Only the quantity and rate inputs carry the `input` listeners that
        `addItem` installs; a description edit changes the row without
        refreshing the preview. */
    method EditRow(k: nat, name: string, qty: Option<real>, rate: Option<real>)
      requires Valid() && k < |items|
      modifies this
      ensures Valid()
      ensures counter == old(counter)
      ensures items == old(items)[k := Item(old(items)[k].id, name, qty, rate)]
    {
      items := items[k := Item(items[k].id, name, qty, rate)];
    }

    /** The item part of `resetForm`: empty the container, set the counter
        to 0 and add one row, so the only row has id 1 again. */
    method Reset()
      requires Valid()
      modifies this
      ensures Valid()
      ensures counter == 1 && items == [DefaultItem(1)]
    {
      items := [];
      counter := 0;
      AddItem();
    }
  }
}
