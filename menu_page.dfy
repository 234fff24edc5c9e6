/** The client's menu page: the quantity chosen per item, adding an item to
    the saved cart, and the search and category filter. The saved cart comes
    in and goes out as a value; `parseInt` is modelled by its result. */
module MenuPage {
  import opened Common
  import opened Schema
  import opened CartPage
  import OrderRoutes
  import MenuRoutes

  /** Every chosen quantity is at least 1. */
  predicate QuantitiesValid(quantities: map<string, int>) {
    forall id :: id in quantities ==> quantities[id] >= 1
  }

  /** On load every item's quantity starts at 1. */
  method InitialQuantities(items: seq<MenuItem>) returns (quantities: map<string, int>)
    ensures forall id :: id in quantities <==> exists i :: 0 <= i < |items| && items[i].id == id
    ensures forall id :: id in quantities ==> quantities[id] == 1
    ensures QuantitiesValid(quantities)
  {
    quantities := map[];
    var i := 0;
    while i < |items|
      invariant 0 <= i <= |items|
      invariant forall id :: id in quantities <==> exists j :: 0 <= j < i && items[j].id == id
      invariant forall id :: id in quantities ==> quantities[id] == 1
    {
      quantities := quantities[items[i].id := 1];
      i := i + 1;
    }
  }

  /** `handleQuantityChange(id, value)`: stores the clamped quantity for that
      item and leaves every other item's quantity alone. */
  function QuantityChanged(quantities: map<string, int>, id: string, parsed: Option<int>): (r: map<string, int>)
    ensures r.Keys == quantities.Keys + {id}
    ensures r[id] == (if parsed.Some? && parsed.value >= 1 then parsed.value else 1)
    ensures forall k :: k in quantities && k != id ==> r[k] == quantities[k]
    ensures QuantitiesValid(quantities) ==> QuantitiesValid(r)
  {
    quantities[id := ClampQuantity(parsed)]
  }

  /** `parseInt(quantities[id], 10) || 1`: the chosen quantity, or 1 when there
      is none. */
  function ChosenQuantity(quantities: map<string, int>, id: string): (q: int)
    ensures QuantitiesValid(quantities) ==> q >= 1
    ensures QuantitiesValid(quantities) && id in quantities ==> q == quantities[id]
    ensures id !in quantities ==> q == 1
  {
    if id in quantities && quantities[id] != 0 then quantities[id] else 1
  }

  /** `cart.find(c => c.itemId === id)`: the first entry with that item id, as
      an index, or -1. */
  function IndexOfItem(cart: seq<CartEntry>, id: string): (k: int)
    ensures -1 <= k < |cart|
    ensures k >= 0 ==> cart[k].itemId == Some(id) && forall j :: 0 <= j < k ==> cart[j].itemId != Some(id)
    ensures k == -1 ==> forall j :: 0 <= j < |cart| ==> cart[j].itemId != Some(id)
  {
    if cart == [] then -1
    else if cart[0].itemId == Some(id) then 0
    else
      var k := IndexOfItem(cart[1..], id);
      if k == -1 then -1 else k + 1
  }

  /** The cart after adding qty of an item: an entry already holding the item
      grows by qty; otherwise a new entry is appended. Nothing else changes. */
  function AddedToCart(cart: seq<CartEntry>, item: MenuItem, qty: int): (r: seq<CartEntry>)
    ensures IndexOfItem(cart, item.id) >= 0 ==>
      var k := IndexOfItem(cart, item.id);
      && |r| == |cart| && r[k].qty == cart[k].qty + qty
      && r[k] == cart[k].(qty := r[k].qty)
      && forall j :: 0 <= j < |cart| && j != k ==> r[j] == cart[j]
    ensures IndexOfItem(cart, item.id) == -1 ==>
      && |r| == |cart| + 1 && r[..|cart|] == cart
      && r[|cart|] == CartEntry(Some(item.id), None, None, item.name, item.price, qty)
  {
    var k := IndexOfItem(cart, item.id);
    if k >= 0 then cart[k := cart[k].(qty := cart[k].qty + qty)]
    else cart + [CartEntry(Some(item.id), None, None, item.name, item.price, qty)]
  }

  /** No two entries name the same item. */
  predicate UniqueItems(cart: seq<CartEntry>) {
    forall i, j :: 0 <= i < j < |cart| && cart[i].itemId.Some? ==> cart[i].itemId != cart[j].itemId
  }

  /** Adding to the cart keeps at most one entry per item. */
  lemma AddKeepsItemsUnique(cart: seq<CartEntry>, item: MenuItem, qty: int)
    requires UniqueItems(cart)
    ensures UniqueItems(AddedToCart(cart, item, qty))
  {
    var r := AddedToCart(cart, item, qty);
    if IndexOfItem(cart, item.id) == -1 {
      forall i, j | 0 <= i < j < |r| && r[i].itemId.Some? ensures r[i].itemId != r[j].itemId {
        if j < |cart| {
          assert r[i] == cart[i] && r[j] == cart[j];
        } else {
          assert r[i] == cart[i];
        }
      }
    }
  }

  /** `addToCart(item)`: look for the item's entry, then grow it or append one. */
  method AddToCart(cart: seq<CartEntry>, item: MenuItem, quantities: map<string, int>) returns (updated: seq<CartEntry>)
    ensures updated == AddedToCart(cart, item, ChosenQuantity(quantities, item.id))
  {
    var qty := ChosenQuantity(quantities, item.id);
    var k := 0;
    while k < |cart| && cart[k].itemId != Some(item.id)
      invariant 0 <= k <= |cart|
      invariant forall j :: 0 <= j < k ==> cart[j].itemId != Some(item.id)
    {
      k := k + 1;
    }
    if k < |cart| {
      updated := cart[k := cart[k].(qty := cart[k].qty + qty)];
    } else {
      updated := cart + [CartEntry(Some(item.id), None, None, item.name, item.price, qty)];
    }
  }

  /** The search box and the category select. */
  predicate Shown(item: MenuItem, search: string, category: string) {
    Contains(ToLower(item.name), ToLower(search)) && (category == "All" || CategoryName(item.category) == category)
  }

  /** `filteredItems`: exactly the items the search and category admit, in
      menu order. */
  function FilteredItems(items: seq<MenuItem>, search: string, category: string): (r: seq<MenuItem>)
    ensures forall m :: m in r <==> m in items && Shown(m, search, category)
    ensures Subsequence(r, items)
  {
    if items == [] then []
    else
      var rest := FilteredItems(items[1..], search, category);
      assert items == [items[0]] + items[1..];
      if Shown(items[0], search, category) then
        assert ([items[0]] + rest)[1..] == rest;
        [items[0]] + rest
      else rest
  }

  /** An empty search with category "All" shows the whole menu. */
  lemma {:induction false} UnfilteredShowsAll(items: seq<MenuItem>)
    ensures FilteredItems(items, "", "All") == items
  {
    if items != [] {
      UnfilteredShowsAll(items[1..]);
      ContainsEmpty(ToLower(items[0].name));
      assert Shown(items[0], "", "All");
      assert items == [items[0]] + items[1..];
    }
  }

  /** "Add to Cart" is disabled exactly when the count is 0, so an item whose
      count went below zero can still be added. */
  function AddDisabled(item: MenuItem): (disabled: bool)
    ensures disabled <==> item.count == 0
    ensures item.count < 0 ==> !disabled
  {
    item.count == 0
  }

  /** The button and the server disagree below zero: an item with no stock
      left is refused by order placement and by the purchase route whenever
      its count is at most 0, but the button only blocks a count of exactly 0,
      so an item with a negative count can still be put in the cart. */
  lemma StockButtonVersusServer(menu: map<string, MenuItem>, item: MenuItem, quantities: map<string, int>)
    requires item.id in menu && menu[item.id] == item && item.id != ""
    requires QuantitiesValid(quantities)
    ensures item.count < 0 ==> !AddDisabled(item)
    ensures item.count <= 0 ==>
      var cart := AddedToCart([], item, ChosenQuantity(quantities, item.id));
      && OrderRoutes.FirstCartError(menu, PayloadLines(cart)) == Some(OrderRoutes.InsufficientStock(item.name))
      && MenuRoutes.PurchaseStep(menu, item.id).response == MenuRoutes.OutOfStock
  {
    if item.count <= 0 {
      var q := ChosenQuantity(quantities, item.id);
      var cart := AddedToCart([], item, q);
      assert cart == [CartEntry(Some(item.id), None, None, item.name, item.price, q)];
      var lines := PayloadLines(cart);
      assert |lines| == 1 && lines[0] == PayloadLine(cart[0]);
      assert ItemIdOf(cart[0]) == Some(item.id);
      assert OrderRoutes.LineError(menu, lines[0]) == Some(OrderRoutes.InsufficientStock(item.name));
    }
  }
}
