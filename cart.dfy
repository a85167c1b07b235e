/** The shopping cart (client/src/contexts/CartContext.tsx): a list of
    package lines kept in React state, mirrored to localStorage under
    "cart" after every change. The updates are pure functions of the old
    list; `CartStore` holds the list and the storage it persists to. */
module Cart {
  import opened Wrappers
  import opened Types
  import opened Storage
  import Seqs

  /** Some line is for package `id`. */
  predicate HasPackage(items: seq<CartItem>, id: int)
  {
    exists i :: 0 <= i < |items| && items[i].pkg.id == id
  }

  /** No two lines are for the same package. */
  predicate UniqueIds(items: seq<CartItem>)
  {
    forall i, j :: 0 <= i < j < |items| ==> items[i].pkg.id != items[j].pkg.id
  }

  /** Array.prototype.find on the package id. */
  function Find(items: seq<CartItem>, id: int): Option<CartItem>
    decreases |items|
  {
    if items == [] then None
    else if items[0].pkg.id == id then Some(items[0])
    else Find(items[1..], id)
  }

  /** addItem: raise the quantity of every line for the package (keeping the
      package data those lines already hold), or append a new line. */
  function AddLine(items: seq<CartItem>, pkg: Package, quantity: int): seq<CartItem>
  {
    if Find(items, pkg.id).Some? then
      seq(|items|, i requires 0 <= i < |items| =>
        if items[i].pkg.id == pkg.id then items[i].(quantity := items[i].quantity + quantity) else items[i])
    else
      items + [CartItem(pkg, quantity)]
  }

  /** removeItem: drop every line for the package. */
  function RemoveLine(items: seq<CartItem>, id: int): seq<CartItem>
  {
    Seqs.Filter(items, (it: CartItem) => it.pkg.id != id)
  }

  /** The positive branch of updateQuantity: overwrite the quantity of every line for the package. */
  function SetQuantity(items: seq<CartItem>, id: int, quantity: int): seq<CartItem>
  {
    seq(|items|, i requires 0 <= i < |items| =>
      if items[i].pkg.id == id then items[i].(quantity := quantity) else items[i])
  }

  /** updateQuantity: a quantity of zero or less removes the line. */
  function UpdateLine(items: seq<CartItem>, id: int, quantity: int): seq<CartItem>
  {
    if quantity <= 0 then RemoveLine(items, id) else SetQuantity(items, id, quantity)
  }

  /** totalItems: the sum of the quantities. */
  function TotalItems(items: seq<CartItem>): int
    decreases |items|
  {
    if items == [] then 0 else items[0].quantity + TotalItems(items[1..])
  }

  /** totalPrice: the sum of unit price times quantity, in cents. */
  function TotalPrice(items: seq<CartItem>): int
    decreases |items|
  {
    if items == [] then 0 else items[0].pkg.totalPrice * items[0].quantity + TotalPrice(items[1..])
  }

  // ---------------------------------------------------------------------
  // Properties of the updates

  /** find succeeds exactly when some line is for the package, and then
      returns the first such line. */
  lemma {:induction false} FindSpec(items: seq<CartItem>, id: int)
    ensures Find(items, id).Some? <==> HasPackage(items, id)
    ensures Find(items, id).Some? ==>
      exists k :: 0 <= k < |items| && items[k] == Find(items, id).value && items[k].pkg.id == id &&
        forall j :: 0 <= j < k ==> items[j].pkg.id != id
    decreases |items|
  {
    if items != [] && items[0].pkg.id != id {
      FindSpec(items[1..], id);
      if HasPackage(items, id) {
        var i :| 0 <= i < |items| && items[i].pkg.id == id;
        assert items[1..][i - 1].pkg.id == id;
      }
      if Find(items, id).Some? {
        var k :| 0 <= k < |items[1..]| && items[1..][k] == Find(items, id).value && items[1..][k].pkg.id == id &&
          forall j :: 0 <= j < k ==> items[1..][j].pkg.id != id;
        assert items[k + 1] == items[1..][k];
        assert forall j :: 0 < j < k + 1 ==> items[j] == items[1..][j - 1];
      }
    }
  }

  /** Adding a package already in a cart with distinct lines changes exactly
      that line: its quantity grows, its package data stays as it was. */
  lemma AddLineExisting(items: seq<CartItem>, pkg: Package, quantity: int, k: int)
    requires UniqueIds(items)
    requires 0 <= k < |items| && items[k].pkg.id == pkg.id
    ensures AddLine(items, pkg, quantity) == items[k := CartItem(items[k].pkg, items[k].quantity + quantity)]
  {
    FindSpec(items, pkg.id);
  }

  /** Adding a package not yet in the cart appends one line at the end. */
  lemma AddLineNew(items: seq<CartItem>, pkg: Package, quantity: int)
    requires !HasPackage(items, pkg.id)
    ensures AddLine(items, pkg, quantity) == items + [CartItem(pkg, quantity)]
  {
    FindSpec(items, pkg.id);
  }

  /** After addItem the package is in the cart. */
  lemma AddLineContains(items: seq<CartItem>, pkg: Package, quantity: int)
    ensures HasPackage(AddLine(items, pkg, quantity), pkg.id)
  {
    FindSpec(items, pkg.id);
    var r := AddLine(items, pkg, quantity);
    if HasPackage(items, pkg.id) {
      var k :| 0 <= k < |items| && items[k].pkg.id == pkg.id;
      assert r[k].pkg.id == pkg.id;
    } else {
      assert r[|items|].pkg.id == pkg.id;
    }
  }

  /** addItem keeps the lines distinct, adding a line only for a new package. */
  lemma AddLineUnique(items: seq<CartItem>, pkg: Package, quantity: int)
    requires UniqueIds(items)
    ensures UniqueIds(AddLine(items, pkg, quantity))
    ensures |AddLine(items, pkg, quantity)| == |items| + (if HasPackage(items, pkg.id) then 0 else 1)
  {
    FindSpec(items, pkg.id);
  }

  lemma {:induction false} TotalsAppend(a: seq<CartItem>, b: seq<CartItem>)
    ensures TotalItems(a + b) == TotalItems(a) + TotalItems(b)
    ensures TotalPrice(a + b) == TotalPrice(a) + TotalPrice(b)
    decreases |a|
  {
    if a == [] {
      assert a + b == b;
    } else {
      TotalsAppend(a[1..], b);
      assert (a + b)[1..] == a[1..] + b;
    }
  }

  /** Replacing one line changes the totals by that line's difference. */
  lemma {:induction false} TotalsReplace(items: seq<CartItem>, k: int, x: CartItem)
    requires 0 <= k < |items|
    ensures TotalItems(items[k := x]) == TotalItems(items) - items[k].quantity + x.quantity
    ensures TotalPrice(items[k := x]) ==
      TotalPrice(items) - items[k].pkg.totalPrice * items[k].quantity + x.pkg.totalPrice * x.quantity
    decreases |items|
  {
    if k > 0 {
      TotalsReplace(items[1..], k - 1, x);
      assert items[k := x][1..] == items[1..][k - 1 := x];
    } else {
      assert items[k := x][1..] == items[1..];
    }
  }

  /** addItem adds `quantity` items, each at the unit price of the line it
      lands in: the price already held for a package in the cart, the given
      package's price otherwise. */
  lemma AddLineTotals(items: seq<CartItem>, pkg: Package, quantity: int)
    requires UniqueIds(items)
    ensures TotalItems(AddLine(items, pkg, quantity)) == TotalItems(items) + quantity
    ensures TotalPrice(AddLine(items, pkg, quantity)) ==
      TotalPrice(items) + quantity * (if Find(items, pkg.id).Some? then Find(items, pkg.id).value.pkg.totalPrice else pkg.totalPrice)
  {
    FindSpec(items, pkg.id);
    if HasPackage(items, pkg.id) {
      var k :| 0 <= k < |items| && items[k] == Find(items, pkg.id).value && items[k].pkg.id == pkg.id &&
        forall j :: 0 <= j < k ==> items[j].pkg.id != pkg.id;
      AddLineTotalsAt(items, pkg, quantity, k);
    } else {
      AddLineNew(items, pkg, quantity);
      TotalsAppend(items, [CartItem(pkg, quantity)]);
    }
  }

  /** The totals after addItem raises the quantity of line `k`. */
  lemma AddLineTotalsAt(items: seq<CartItem>, pkg: Package, quantity: int, k: int)
    requires UniqueIds(items)
    requires 0 <= k < |items| && items[k].pkg.id == pkg.id
    ensures TotalItems(AddLine(items, pkg, quantity)) == TotalItems(items) + quantity
    ensures TotalPrice(AddLine(items, pkg, quantity)) == TotalPrice(items) + quantity * items[k].pkg.totalPrice
  {
    var x := CartItem(items[k].pkg, items[k].quantity + quantity);
    TotalsReplaceQuantity(items, k, x, quantity);
    AddLineExisting(items, pkg, quantity, k);
  }

  /** Raising the quantity of one line by `d` raises the totals by `d` items
      at that line's price. */
  lemma TotalsReplaceQuantity(items: seq<CartItem>, k: int, x: CartItem, d: int)
    requires 0 <= k < |items| && x == CartItem(items[k].pkg, items[k].quantity + d)
    ensures TotalItems(items[k := x]) == TotalItems(items) + d
    ensures TotalPrice(items[k := x]) == TotalPrice(items) + d * items[k].pkg.totalPrice
  {
    TotalsReplace(items, k, x);
    MulAddRight(items[k].pkg.totalPrice, items[k].quantity, d);
  }

  lemma MulAddRight(p: int, q: int, d: int)
    ensures p * (q + d) == p * q + d * p
  {
  }

  /** What removeItem keeps, counted with multiplicity: every line for
      another package, and none for this one. */
  lemma RemoveLineKeeps(items: seq<CartItem>, id: int)
    ensures forall it :: multiset(RemoveLine(items, id))[it] == if it.pkg.id != id then multiset(items)[it] else 0
    ensures !HasPackage(RemoveLine(items, id), id)
    ensures Seqs.IsSubsequence(RemoveLine(items, id), items)
  {
    var p := (it: CartItem) => it.pkg.id != id;
    Seqs.FilterCounts(items, p);
    Seqs.FilterAllSatisfy(items, p);
    Seqs.FilterIsSubsequence(items, p);
  }

  /** Removing a package that is not in the cart changes nothing. */
  lemma RemoveLineAbsent(items: seq<CartItem>, id: int)
    requires !HasPackage(items, id)
    ensures RemoveLine(items, id) == items
  {
    Seqs.FilterAllPass(items, (it: CartItem) => it.pkg.id != id);
  }

  /** In a cart with distinct lines, removeItem deletes exactly the line for
      the package and keeps the others in order. */
  lemma RemoveLineAt(items: seq<CartItem>, k: int)
    requires UniqueIds(items)
    requires 0 <= k < |items|
    ensures RemoveLine(items, items[k].pkg.id) == items[..k] + items[k + 1..]
  {
    var id := items[k].pkg.id;
    var p := (it: CartItem) => it.pkg.id != id;
    var pre, post := items[..k], items[k + 1..];
    assert items == (pre + [items[k]]) + post;
    forall i | 0 <= i < |pre|
      ensures p(pre[i])
    {
      assert pre[i] == items[i];
    }
    forall i | 0 <= i < |post|
      ensures p(post[i])
    {
      assert post[i] == items[k + 1 + i];
    }
    Seqs.FilterAllPass(pre, p);
    Seqs.FilterAllPass(post, p);
    Seqs.FilterAppend(pre + [items[k]], post, p);
    Seqs.FilterAppend(pre, [items[k]], p);
    assert Seqs.Filter([items[k]], p) == [];
  }

  /** Removing a package's only line lowers the totals by that line. */
  lemma RemoveLineTotals(items: seq<CartItem>, k: int)
    requires UniqueIds(items)
    requires 0 <= k < |items|
    ensures TotalItems(RemoveLine(items, items[k].pkg.id)) == TotalItems(items) - items[k].quantity
    ensures TotalPrice(RemoveLine(items, items[k].pkg.id)) ==
      TotalPrice(items) - items[k].pkg.totalPrice * items[k].quantity
  {
    RemoveLineAt(items, k);
    var pre, post := items[..k], items[k + 1..];
    assert items == (pre + [items[k]]) + post;
    TotalsAppend(pre + [items[k]], post);
    TotalsAppend(pre, [items[k]]);
    TotalsAppend(pre, post);
  }

  /** removeItem keeps the lines distinct. */
  lemma {:induction false} RemoveLineUnique(items: seq<CartItem>, id: int)
    requires UniqueIds(items)
    ensures UniqueIds(RemoveLine(items, id))
    decreases |items|
  {
    if items != [] {
      var tail := RemoveLine(items[1..], id);
      RemoveLineUnique(items[1..], id);
      if items[0].pkg.id != id {
        assert RemoveLine(items, id) == [items[0]] + tail;
        forall j | 0 <= j < |tail|
          ensures tail[j].pkg.id != items[0].pkg.id
        {
          RemoveLineMember(items[1..], id, tail[j]);
          var m :| 0 <= m < |items[1..]| && items[1..][m] == tail[j];
          assert items[m + 1] == tail[j];
        }
        UniqueCons(items[0], tail);
      } else {
        assert RemoveLine(items, id) == tail;
      }
    }
  }

  /** Every line removeItem keeps was in the cart. */
  lemma RemoveLineMember(items: seq<CartItem>, id: int, x: CartItem)
    requires x in RemoveLine(items, id)
    ensures x in items
  {
    RemoveLineKeeps(items, id);
    assert x in multiset(RemoveLine(items, id));
  }

  lemma UniqueCons(x: CartItem, t: seq<CartItem>)
    requires UniqueIds(t)
    requires forall j :: 0 <= j < |t| ==> t[j].pkg.id != x.pkg.id
    ensures UniqueIds([x] + t)
  {
    var r := [x] + t;
    forall i, j | 0 <= i < j < |r|
      ensures r[i].pkg.id != r[j].pkg.id
    {
      assert r[j] == t[j - 1];
      if i > 0 {
        assert r[i] == t[i - 1];
      }
    }
  }

  /** In a cart with distinct lines, a positive quantity replaces exactly
      that line's quantity. */
  lemma SetQuantityAt(items: seq<CartItem>, k: int, quantity: int)
    requires UniqueIds(items)
    requires 0 <= k < |items|
    ensures SetQuantity(items, items[k].pkg.id, quantity) == items[k := items[k].(quantity := quantity)]
  {
  }

  /** updateQuantity on a package that is not in the cart changes nothing. */
  lemma UpdateLineAbsent(items: seq<CartItem>, id: int, quantity: int)
    requires !HasPackage(items, id)
    ensures UpdateLine(items, id, quantity) == items
  {
    if quantity <= 0 {
      RemoveLineAbsent(items, id);
    } else {
      assert SetQuantity(items, id, quantity) == items;
    }
  }

  /** updateQuantity keeps the lines distinct, and its totals: a positive
      quantity replaces the line's count, a non-positive one removes it. */
  lemma UpdateLineAt(items: seq<CartItem>, k: int, quantity: int)
    requires UniqueIds(items)
    requires 0 <= k < |items|
    ensures UniqueIds(UpdateLine(items, items[k].pkg.id, quantity))
    ensures TotalItems(UpdateLine(items, items[k].pkg.id, quantity)) ==
      TotalItems(items) - items[k].quantity + (if quantity <= 0 then 0 else quantity)
    ensures TotalPrice(UpdateLine(items, items[k].pkg.id, quantity)) ==
      TotalPrice(items) - items[k].pkg.totalPrice * items[k].quantity +
      (if quantity <= 0 then 0 else items[k].pkg.totalPrice * quantity)
  {
    if quantity <= 0 {
      RemoveLineTotals(items, k);
      RemoveLineUnique(items, items[k].pkg.id);
    } else {
      SetQuantityAt(items, k, quantity);
      TotalsReplace(items, k, items[k].(quantity := quantity));
    }
  }

  /** Two lines, 2 x 10.00 and 1 x 5.00, give a total of 25.00 over 3 items. */
  lemma TotalsExample()
    ensures var items := [CartItem(Package(1, "A", "", 1000, 0), 2), CartItem(Package(2, "B", "", 500, 0), 1)];
      TotalPrice(items) == 2500 && TotalItems(items) == 3
  {
  }

  // ---------------------------------------------------------------------
  // The provider's state

  /** The cart restored on load: a saved list, or empty when nothing (or an
      empty string) is saved. */
  function SavedCart(entries: map<string, Value>): seq<CartItem>
  {
    if CartKey in entries && entries[CartKey].CartItems? then entries[CartKey].items else []
  }

  /** What the saved value must be for the initial JSON.parse not to throw. */
  predicate CartLoadable(entries: map<string, Value>)
  {
    !Present(entries, CartKey) || entries[CartKey].CartItems?
  }

  class CartStore {
    var items: seq<CartItem>
    const storage: LocalStorage

    /** The stored cart mirrors the state. */
    ghost predicate Valid()
      reads this, storage
    {
      CartKey in storage.entries && storage.entries[CartKey] == CartItems(items)
    }

    /** Restore the saved cart, then persist it. */
    constructor (storage: LocalStorage)
      requires CartLoadable(storage.entries)
      modifies storage
      ensures this.storage == storage
      ensures items == SavedCart(old(storage.entries))
      ensures storage.entries == old(storage.entries)[CartKey := CartItems(items)]
      ensures Valid()
    {
      this.storage := storage;
      var saved := SavedCart(storage.entries);
      items := saved;
      storage.SetItem(CartKey, CartItems(saved));
    }

    method Persist()
      modifies storage
      ensures storage.entries == old(storage.entries)[CartKey := CartItems(items)]
      ensures Valid()
    {
      storage.SetItem(CartKey, CartItems(items));
    }

    method AddItem(pkg: Package, quantity: int := 1)
      modifies this, storage
      ensures items == AddLine(old(items), pkg, quantity)
      ensures storage.entries == old(storage.entries)[CartKey := CartItems(items)]
      ensures Valid()
    {
      items := AddLine(items, pkg, quantity);
      Persist();
    }

    method RemoveItem(id: int)
      modifies this, storage
      ensures items == RemoveLine(old(items), id)
      ensures storage.entries == old(storage.entries)[CartKey := CartItems(items)]
      ensures Valid()
    {
      items := RemoveLine(items, id);
      Persist();
    }

    method UpdateQuantity(id: int, quantity: int)
      modifies this, storage
      ensures quantity <= 0 ==> items == RemoveLine(old(items), id)
      ensures quantity > 0 ==> items == SetQuantity(old(items), id, quantity)
      ensures storage.entries == old(storage.entries)[CartKey := CartItems(items)]
      ensures Valid()
    {
      if quantity <= 0 {
        RemoveItem(id);
        return;
      }
      items := SetQuantity(items, id, quantity);
      Persist();
    }

    method ClearCart()
      modifies this, storage
      ensures items == []
      ensures storage.entries == old(storage.entries)[CartKey := CartItems([])]
      ensures Valid()
    {
      items := [];
      Persist();
    }
  }
}
