/** The MenuItem collection and the /menu routes of the server: create, update,
    delete, the guarded single-unit purchase and the public list. The
    collection is a map from id to item; each route is a method on it, and each
    method is pinned to a pure step function that states what the route does
    to the map and what it answers. */
module MenuRoutes {
  import opened Common
  import opened Schema
  import opened Ordering

  /** The answer of a /menu route. Invalid and OutOfStock are 400, NotFound
      404, SaveFailed 500. */
  datatype MenuResponse = Item(item: MenuItem) | Deleted | NotFound | OutOfStock | Invalid | SaveFailed

  /** The fields a `PUT /menu/:id` body may overwrite. */
  datatype MenuPatch = MenuPatch(
    name: Option<string>,
    description: Option<string>,
    price: Option<int>,
    category: Option<Category>,
    count: Option<int>,
    isAvailable: Option<bool>,
    imageUrl: Option<string>)

  /** A route's answer together with the collection it leaves behind. */
  datatype MenuStep = MenuStep(response: MenuResponse, items: map<string, MenuItem>)

  function CreatedAt(m: MenuItem): int { m.createdAt }

  /** `findByIdAndUpdate(id, body)`: every field present in the body overwrites
      the stored one (update validators are off, so nothing is checked). */
  function ApplyPatch(m: MenuItem, p: MenuPatch): MenuItem {
    m.(name := p.name.GetOr(m.name),
       description := p.description.GetOr(m.description),
       price := p.price.GetOr(m.price),
       category := p.category.GetOr(m.category),
       count := p.count.GetOr(m.count),
       isAvailable := p.isAvailable.GetOr(m.isAvailable),
       imageUrl := p.imageUrl.GetOr(m.imageUrl))
  }

  /** POST /menu: a valid body becomes a new item under a fresh id; an invalid
      one is answered 400 and stores nothing. */
  function CreateStep(items: map<string, MenuItem>, id: string, d: MenuItemDraft, now: nat): (r: MenuStep)
    ensures r.response.Item? <==> MenuItemDraftValid(d)
    ensures r.response.Item? ==> r.items == items[id := r.response.item] && r.response.item.price >= 0
    ensures r.response.Item? ==> r.response.item.id == id && r.response.item.count == d.count.GetOr(0)
    ensures !r.response.Item? ==> r.response == Invalid && r.items == items
  {
    match CreateMenuItem(id, d, now)
    case None => MenuStep(Invalid, items)
    case Some(m) => MenuStep(Item(m), items[id := m])
  }

  /** PUT /menu/:id: an unknown id is 404; otherwise only that item changes. */
  function UpdateStep(items: map<string, MenuItem>, id: string, p: MenuPatch): (r: MenuStep)
    ensures r.items.Keys == items.Keys
    ensures id !in items ==> r == MenuStep(NotFound, items)
    ensures id in items ==> r.response == Item(r.items[id]) && r.items[id] == ApplyPatch(items[id], p)
    ensures forall k :: k in items && k != id ==> r.items[k] == items[k]
  {
    if id !in items then MenuStep(NotFound, items)
    else
      var m := ApplyPatch(items[id], p);
      MenuStep(Item(m), items[id := m])
  }

  /** DELETE /menu/:id: an unknown id is 404; otherwise exactly that item goes. */
  function DeleteStep(items: map<string, MenuItem>, id: string): (r: MenuStep)
    ensures id !in items ==> r == MenuStep(NotFound, items)
    ensures id in items ==> r.response == Deleted
    ensures r.items.Keys == items.Keys - {id}
    ensures forall k :: k in r.items ==> r.items[k] == items[k]
  {
    if id !in items then MenuStep(NotFound, items)
    else MenuStep(Deleted, items - {id})
  }

  /** PATCH /menu/:id/purchase: an unknown id is 404 and a count of 0 or less
      is 400 "Out of stock", both leaving the collection alone. Otherwise the
      count drops by one and the item is saved; `save()` validates the whole
      loaded item, so one that an unvalidated update left with an empty name
      or a negative price is 500 and nothing is written. A valid item's count
      drops by exactly one and nothing else changes, so a purchase never takes
      a non-negative count below zero. */
  function PurchaseStep(items: map<string, MenuItem>, id: string): (r: MenuStep)
    ensures id !in items ==> r == MenuStep(NotFound, items)
    ensures id in items && items[id].count <= 0 ==> r == MenuStep(OutOfStock, items)
    ensures id in items && items[id].count > 0 && !MenuItemValid(items[id]) ==> r == MenuStep(SaveFailed, items)
    ensures id in items && items[id].count > 0 && MenuItemValid(items[id]) ==>
      && r.items == items[id := items[id].(count := items[id].count - 1)]
      && r.response == Item(r.items[id])
      && r.items[id].count >= 0
    ensures r.items.Keys == items.Keys
    ensures forall k :: k in items && k != id ==> r.items[k] == items[k]
  {
    if id !in items then MenuStep(NotFound, items)
    else if items[id].count <= 0 then MenuStep(OutOfStock, items)
    else if !MenuItemValid(items[id]) then MenuStep(SaveFailed, items)
    else
      var m := items[id].(count := items[id].count - 1);
      MenuStep(Item(m), items[id := m])
  }

  /** An update may store what creation refuses, and a purchase of such an
      item then fails on save: a negative price set through PUT blocks every
      later purchase of an item that is still in stock. */
  lemma NegativePriceBlocksPurchase(items: map<string, MenuItem>, id: string, p: MenuPatch)
    requires id in items && items[id].count > 0
    requires p.price.Some? && p.price.value < 0 && p.count.None?
    ensures UpdateStep(items, id, p).response.Item?
    ensures PurchaseStep(UpdateStep(items, id, p).items, id) == MenuStep(SaveFailed, UpdateStep(items, id, p).items)
  {
  }

  /** A run of purchases, one request after another. */
  function PurchaseAll(items: map<string, MenuItem>, ids: seq<string>): map<string, MenuItem> {
    if ids == [] then items else PurchaseAll(PurchaseStep(items, ids[0]).items, ids[1..])
  }

  /** However many purchases arrive, in whatever order, no stock that started
      at zero or above ends below zero, and no item appears or disappears. */
  lemma {:induction false} PurchasesNeverOverdraw(items: map<string, MenuItem>, ids: seq<string>)
    requires forall k :: k in items ==> items[k].count >= 0
    ensures PurchaseAll(items, ids).Keys == items.Keys
    ensures forall k :: k in items ==> PurchaseAll(items, ids)[k].count >= 0
  {
    if ids != [] {
      PurchasesNeverOverdraw(PurchaseStep(items, ids[0]).items, ids[1..]);
    }
  }

  /** `findByIdAndUpdate(id, { $inc: { count: delta } })`: a missing or unknown
      id changes nothing; otherwise only that item's count moves by delta. */
  function IncCount(items: map<string, MenuItem>, id: Option<string>, delta: int): (r: map<string, MenuItem>)
    ensures r.Keys == items.Keys
    ensures forall k :: k in items && Some(k) != id ==> r[k] == items[k]
    ensures id.Some? && id.value in items ==> r[id.value] == items[id.value].(count := items[id.value].count + delta)
  {
    if id.Some? && id.value in items then
      items[id.value := items[id.value].(count := items[id.value].count + delta)]
    else items
  }

  /** GET /menu: every item found, newest first. */
  function ListMenu(found: seq<MenuItem>): (r: seq<MenuItem>)
    ensures multiset(r) == multiset(found)
    ensures forall i, j :: 0 <= i < j < |r| ==> r[i].createdAt >= r[j].createdAt
  {
    var sorted := SortNewestFirst(found, CreatedAt);
    assert forall i, j :: 0 <= i < j < |sorted| ==> CreatedAt(sorted[i]) >= CreatedAt(sorted[j]);
    sorted
  }

  /** The MenuItem collection. */
  class MenuCollection {
    var items: map<string, MenuItem>

    constructor ()
      ensures items == map[]
    {
      items := map[];
    }

    method Create(id: string, d: MenuItemDraft, now: nat) returns (r: MenuResponse)
      modifies this
      ensures CreateStep(old(items), id, d, now) == MenuStep(r, items)
    {
      var created := CreateMenuItem(id, d, now);
      if created.None? {
        return Invalid;
      }
      items := items[id := created.value];
      r := Item(created.value);
    }

    method Update(id: string, p: MenuPatch) returns (r: MenuResponse)
      modifies this
      ensures UpdateStep(old(items), id, p) == MenuStep(r, items)
    {
      if id !in items {
        return NotFound;
      }
      var m := ApplyPatch(items[id], p);
      items := items[id := m];
      r := Item(m);
    }

    method Delete(id: string) returns (r: MenuResponse)
      modifies this
      ensures DeleteStep(old(items), id) == MenuStep(r, items)
    {
      if id !in items {
        return NotFound;
      }
      items := items - {id};
      r := Deleted;
    }

    method Purchase(id: string) returns (r: MenuResponse)
      modifies this
      ensures PurchaseStep(old(items), id) == MenuStep(r, items)
    {
      if id !in items {
        return NotFound;
      }
      var item := items[id];
      if item.count <= 0 {
        return OutOfStock;
      }
      item := item.(count := item.count - 1);
      if !MenuItemValid(item) {
        return SaveFailed;
      }
      items := items[id := item];
      r := Item(item);
    }

    /** The `$inc` update order placement issues once per cart line. */
    method IncrementCount(id: Option<string>, delta: int)
      modifies this
      ensures items == IncCount(old(items), id, delta)
    {
      if id.Some? && id.value in items {
        var item := items[id.value];
        items := items[id.value := item.(count := item.count + delta)];
      }
    }
  }
}
