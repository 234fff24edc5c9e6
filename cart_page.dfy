/** The client's cart page: the saved cart, its total, the quantity and
    removal edits, and placing the order. The cart is a sequence of entries;
    the page's state (cart, order type, payment method, notes) is a class whose
    handlers reassign it. What the browser stores and the order request's
    answer are parameters. */
module CartPage {
  import opened Common
  import OrderRoutes

  /** One entry of the saved cart. The menu page writes `itemId`; entries
      saved by other pages may carry the id as `_id` or `id` instead. */
  datatype CartEntry = CartEntry(itemId: Option<string>, docId: Option<string>, id: Option<string>,
                                 name: string, price: int, qty: int)

  /** `(i.price || 0) * (i.qty || 0)`. */
  function EntryAmount(e: CartEntry): int {
    OrDefault(Some(e.price), 0) * OrDefault(Some(e.qty), 0)
  }

  /** The total shown on the page: the entries' amounts, plus 10 for takeaway. */
  function Total(cart: seq<CartEntry>, orderType: string): int {
    SumOf(cart, EntryAmount) + if orderType == "takeaway" then OrderRoutes.TakeawaySurcharge else 0
  }

  /** `Math.max(1, parseInt(value) || 1)`: a number that does not parse, and
      0, both become 1; anything below 1 becomes 1. */
  function ClampQuantity(parsed: Option<int>): (q: int)
    ensures q >= 1
    ensures parsed.Some? && parsed.value >= 1 ==> q == parsed.value
    ensures parsed.None? || parsed.value < 1 ==> q == 1
  {
    var n := OrDefault(parsed, 1);
    if n < 1 then 1 else n
  }

  /** Every entry asks for at least one unit. */
  predicate QuantitiesPositive(cart: seq<CartEntry>) {
    forall i :: 0 <= i < |cart| ==> cart[i].qty >= 1
  }

  /** `updateQuantity(idx, value)`: the entry at idx gets the clamped quantity;
      the length and every other entry stay. */
  function WithQuantity(cart: seq<CartEntry>, idx: int, parsed: Option<int>): (r: seq<CartEntry>)
    requires 0 <= idx < |cart|
    ensures |r| == |cart| && r[idx].qty >= 1
    ensures r[idx] == cart[idx].(qty := ClampQuantity(parsed))
    ensures forall i :: 0 <= i < |cart| && i != idx ==> r[i] == cart[i]
    ensures QuantitiesPositive(cart) ==> QuantitiesPositive(r)
  {
    cart[idx := cart[idx].(qty := ClampQuantity(parsed))]
  }

  /** `removeItem(idx)`: drops exactly the entry at idx and keeps the rest in
      order; an index outside the cart removes nothing. */
  function RemoveAt(cart: seq<CartEntry>, idx: int): (r: seq<CartEntry>)
    ensures 0 <= idx < |cart| ==> |r| == |cart| - 1
    ensures 0 <= idx < |cart| ==> forall i :: 0 <= i < idx ==> r[i] == cart[i]
    ensures 0 <= idx < |cart| ==> forall i :: idx <= i < |r| ==> r[i] == cart[i + 1]
    ensures !(0 <= idx < |cart|) ==> r == cart
    ensures QuantitiesPositive(cart) ==> QuantitiesPositive(r)
  {
    if cart == [] then []
    else if idx == 0 then cart[1..]
    else
      var rest := RemoveAt(cart[1..], idx - 1);
      assert cart == [cart[0]] + cart[1..];
      [cart[0]] + rest
  }

  /** Removing an entry lowers the total by exactly that entry's amount. */
  lemma RemoveAtTotal(cart: seq<CartEntry>, idx: int, orderType: string)
    requires 0 <= idx < |cart|
    ensures Total(RemoveAt(cart, idx), orderType) == Total(cart, orderType) - EntryAmount(cart[idx])
  {
    RemoveAtSum(cart, idx);
  }

  lemma RemoveAtSum(cart: seq<CartEntry>, idx: int)
    requires 0 <= idx < |cart|
    ensures SumOf(RemoveAt(cart, idx), EntryAmount) == SumOf(cart, EntryAmount) - EntryAmount(cart[idx])
  {
    RemoveAtSlices(cart, idx);
    SumOfAppend(cart[..idx], cart[idx + 1..], EntryAmount);
    SumOfAround(cart, idx, EntryAmount);
  }

  lemma RemoveAtSlices(cart: seq<CartEntry>, idx: int)
    requires 0 <= idx < |cart|
    ensures RemoveAt(cart, idx) == cart[..idx] + cart[idx + 1..]
  {
  }

  /** `i.itemId || i._id || i.id`. */
  function ItemIdOf(e: CartEntry): (r: Option<string>)
    ensures Truthy(e.itemId) ==> r == e.itemId
    ensures !Truthy(e.itemId) && Truthy(e.docId) ==> r == e.docId
    ensures !Truthy(e.itemId) && !Truthy(e.docId) ==> r == e.id
  {
    if Truthy(e.itemId) then e.itemId else if Truthy(e.docId) then e.docId else e.id
  }

  function PayloadLine(e: CartEntry): OrderRoutes.RequestLine {
    OrderRoutes.RequestLine(ItemIdOf(e), Some(e.name), Some(e.qty), Some(e.price))
  }

  function PayloadLines(cart: seq<CartEntry>): seq<OrderRoutes.RequestLine> {
    seq(|cart|, i requires 0 <= i < |cart| => PayloadLine(cart[i]))
  }

  /** The body of the order request: one line per entry, in cart order, with
      the page's order type, notes and payment method. */
  function Payload(cart: seq<CartEntry>, orderType: string, notes: string, paymentMethod: string): (r: OrderRoutes.OrderRequest)
    ensures r.items.Some? && |r.items.value| == |cart|
    ensures forall i :: 0 <= i < |cart| ==>
      && r.items.value[i].itemId == ItemIdOf(cart[i]) && r.items.value[i].name == Some(cart[i].name)
      && r.items.value[i].qty == Some(cart[i].qty) && r.items.value[i].price == Some(cart[i].price)
    ensures r.orderType == Some(orderType) && r.notes == Some(notes) && r.paymentMethod == Some(paymentMethod)
  {
    OrderRoutes.OrderRequest(Some(PayloadLines(cart)), Some(orderType), Some(paymentMethod), Some(notes))
  }

  /** The total the page shows is the total the server stores for the order
      it places from the same cart. */
  lemma {:induction false} TotalAgreesWithServer(cart: seq<CartEntry>, orderType: string)
    ensures Total(cart, orderType) == OrderRoutes.OrderTotal(PayloadLines(cart), Some(orderType))
  {
    LinesAgree(cart);
  }

  lemma {:induction false} LinesAgree(cart: seq<CartEntry>)
    ensures SumOf(cart, EntryAmount) == OrderRoutes.LinesTotal(PayloadLines(cart))
  {
    if cart != [] {
      var init := cart[..|cart| - 1];
      LinesAgree(init);
      assert PayloadLines(cart)[..|cart| - 1] == PayloadLines(init);
    }
  }

  /** Where the page goes after "Place Order". */
  datatype Navigation = Stay | ToPayment(orderId: string) | ToOrderSuccess | ShowError

  /** The cart page's state. */
  class CartView {
    var cart: seq<CartEntry>
    var orderType: string
    var paymentMethod: string
    var notes: string

    /** The page opens on the saved cart, dine-in, cash on delivery, no notes. */
    constructor (saved: seq<CartEntry>)
      ensures cart == saved && orderType == "dine-in" && paymentMethod == "cod" && notes == ""
    {
      cart := saved;
      orderType := "dine-in";
      paymentMethod := "cod";
      notes := "";
    }

    method UpdateQuantity(idx: int, parsed: Option<int>)
      requires 0 <= idx < |cart|
      modifies this
      ensures cart == WithQuantity(old(cart), idx, parsed)
      ensures orderType == old(orderType) && paymentMethod == old(paymentMethod) && notes == old(notes)
    {
      cart := cart[idx := cart[idx].(qty := ClampQuantity(parsed))];
    }

    method RemoveItem(idx: int)
      modifies this
      ensures cart == RemoveAt(old(cart), idx)
      ensures orderType == old(orderType) && paymentMethod == old(paymentMethod) && notes == old(notes)
    {
      cart := RemoveAt(cart, idx);
    }

    method ClearCart()
      modifies this
      ensures cart == []
      ensures orderType == old(orderType) && paymentMethod == old(paymentMethod) && notes == old(notes)
    {
      cart := [];
    }

    /** "Place Order". An empty cart sends nothing. Otherwise the payload is
        sent; `created` is the new order's id when the server accepted it and
        None when the request failed. After a success the cart is cleared only
        for cash on delivery: a UPI order keeps it while the user pays. */
    method PlaceOrder(created: Option<string>) returns (sent: Option<OrderRoutes.OrderRequest>, next: Navigation)
      modifies this
      ensures old(cart) == [] ==> sent.None? && next == Stay && cart == old(cart)
      ensures old(cart) != [] ==> sent == Some(Payload(old(cart), orderType, notes, paymentMethod))
      ensures old(cart) != [] ==> next == (if created.None? then ShowError
                                           else if paymentMethod == "upi" then ToPayment(created.value)
                                           else ToOrderSuccess)
      ensures cart == (if old(cart) != [] && created.Some? && paymentMethod != "upi" then [] else old(cart))
      ensures orderType == old(orderType) && paymentMethod == old(paymentMethod) && notes == old(notes)
    {
      if |cart| == 0 {
        return None, Stay;
      }
      sent := Some(Payload(cart, orderType, notes, paymentMethod));
      if created.None? {
        return sent, ShowError;
      }
      if paymentMethod == "upi" {
        next := ToPayment(created.value);
      } else {
        ClearCart();
        next := ToOrderSuccess;
      }
    }
  }
}
