/** The order lifecycle of the server's /orders routes: placing an order
    (validate the cart line by line, price it, create the order, then take the
    stock), the UPI payment notification, the admin's confirm/reject of a
    payment, the admin's status overwrite, and the read side (single order,
    the caller's orders, the admin's filtered list and the dashboard's
    normalised list).

    Each state-changing route is a method of OrderService, whose `orders` map
    is the Order collection and whose `catalog` is the MenuItem collection;
    each method is pinned to a pure step function, and the properties of the
    route are proved about that function. */
module OrderRoutes {
  import opened Common
  import opened Schema
  import opened Ordering
  import opened AuthGuard
  import MenuRoutes

  /** One cart line of a POST /orders body. */
  datatype RequestLine = RequestLine(itemId: Option<string>, name: Option<string>, qty: Option<int>, price: Option<int>)

  /** A POST /orders body; `items` is None when it is missing or not an array. */
  datatype OrderRequest = OrderRequest(
    items: Option<seq<RequestLine>>,
    orderType: Option<string>,
    paymentMethod: Option<string>,
    notes: Option<string>)

  datatype OrderError =
    | CartEmpty                                   // 400 "Cart is empty"
    | MenuItemNotFound(itemId: Option<string>)    // 400 "Menu item not found: <id>"
    | InsufficientStock(name: string)             // 400 "Insufficient stock for <name>"
    | OrderNotFound                               // 404
    | Forbidden                                   // 403
    | NotUpi                                      // 400 "Order is not UPI"
    | InvalidAction                               // 400
    | InvalidStatus                               // 400
    | ServerError                                 // 500: Order.create rejected the document

  datatype Response = Ok(order: Order) | Err(error: OrderError)

  /** A route's answer with the Order and MenuItem collections it leaves behind. */
  datatype PlaceOutcome = PlaceOutcome(response: Response, orders: map<string, Order>, menu: map<string, MenuItem>)

  /** A route's answer with the Order collection it leaves behind. */
  datatype OrderStep = OrderStep(response: Response, orders: map<string, Order>)

  const TakeawaySurcharge: int := 10

  // ----- Pricing -----

  /** `(i.price || 0) * (i.qty || 0)`: the request's own price, never the catalog's. */
  function LineAmount(l: RequestLine): int {
    OrDefault(l.price, 0) * OrDefault(l.qty, 0)
  }

  function LinesTotal(lines: seq<RequestLine>): int {
    SumOf(lines, LineAmount)
  }

  /** The `totalAmount` of a new order: the lines' amounts, plus 10 for takeaway. */
  function OrderTotal(lines: seq<RequestLine>, orderType: Option<string>): int {
    LinesTotal(lines) + if orderType == Some("takeaway") then TakeawaySurcharge else 0
  }

  /** The total of a cart is the sum of the totals of any split of it, and the
      surcharge is charged once, not per part. */
  lemma OrderTotalOfAppend(a: seq<RequestLine>, b: seq<RequestLine>, orderType: Option<string>)
    ensures OrderTotal(a + b, orderType) == OrderTotal(a, orderType) + LinesTotal(b)
  {
    SumOfAppend(a, b, LineAmount);
  }

  /** With no negative price or quantity the total is never negative, so
      Order.create's `min: 0` on totalAmount is then always met. */
  lemma {:induction false} OrderTotalNonNegative(lines: seq<RequestLine>, orderType: Option<string>)
    requires forall i :: 0 <= i < |lines| ==> lines[i].price.GetOr(0) >= 0 && lines[i].qty.GetOr(0) >= 0
    ensures OrderTotal(lines, orderType) >= 0
    ensures orderType == Some("takeaway") ==> OrderTotal(lines, orderType) >= TakeawaySurcharge
  {
    if lines != [] {
      var init := lines[..|lines| - 1];
      OrderTotalNonNegative(init, None);
      var l := lines[|lines| - 1];
      assert LineAmount(l) >= 0 by {
        assert OrDefault(l.price, 0) >= 0 && OrDefault(l.qty, 0) >= 0;
      }
    }
  }

  // ----- Stock check -----

  /** Why one cart line is refused: no menu item with its id, or a stored
      count below the requested quantity (a missing qty counts as 0). A
      quantity equal to the stock passes. */
  function LineError(menu: map<string, MenuItem>, l: RequestLine): Option<OrderError> {
    if l.itemId.None? || l.itemId.value !in menu then Some(MenuItemNotFound(l.itemId))
    else if menu[l.itemId.value].count < l.qty.GetOr(0) then Some(InsufficientStock(menu[l.itemId.value].name))
    else None
  }

  /** The first refused line in cart order decides the error; there is none
      exactly when every line passes. */
  function FirstCartError(menu: map<string, MenuItem>, lines: seq<RequestLine>): (r: Option<OrderError>)
    ensures r.None? <==> forall i :: 0 <= i < |lines| ==> LineError(menu, lines[i]).None?
    ensures r.Some? ==>
      (exists k :: 0 <= k < |lines| && r == LineError(menu, lines[k]) && (forall i :: 0 <= i < k ==> LineError(menu, lines[i]).None?))
  {
    if lines == [] then None
    else if LineError(menu, lines[0]).Some? then LineError(menu, lines[0])
    else
      var r := FirstCartError(menu, lines[1..]);
      assert forall i :: 1 <= i < |lines| ==> lines[i] == lines[1..][i - 1];
      if r.Some? then
        var k :| 0 <= k < |lines[1..]| && r == LineError(menu, lines[1..][k]) &&
          (forall i :: 0 <= i < k ==> LineError(menu, lines[1..][i]).None?);
        assert r == LineError(menu, lines[k + 1]);
        r
      else r
  }

  /** The first loop of the handler: look each line's item up and stop at the
      first line that is refused. */
  method CheckCart(menu: map<string, MenuItem>, lines: seq<RequestLine>) returns (err: Option<OrderError>)
    ensures err == FirstCartError(menu, lines)
  {
    var i := 0;
    while i < |lines|
      invariant 0 <= i <= |lines|
      invariant FirstCartError(menu, lines) == FirstCartError(menu, lines[i..])
    {
      assert lines[i..][1..] == lines[i + 1..];
      var line := lines[i];
      if line.itemId.None? || line.itemId.value !in menu {
        return Some(MenuItemNotFound(line.itemId));
      }
      var item := menu[line.itemId.value];
      if item.count < line.qty.GetOr(0) {
        return Some(InsufficientStock(item.name));
      }
      i := i + 1;
    }
    return None;
  }

  // ----- Taking the stock -----

  /** `$inc: { count: -it.qty }` for one line. */
  function Decrement(menu: map<string, MenuItem>, l: RequestLine): map<string, MenuItem> {
    MenuRoutes.IncCount(menu, l.itemId, -l.qty.GetOr(0))
  }

  /** The second loop of the handler: one decrement per line, in cart order. */
  function Withdraw(menu: map<string, MenuItem>, lines: seq<RequestLine>): map<string, MenuItem> {
    if lines == [] then menu else Decrement(Withdraw(menu, lines[..|lines| - 1]), lines[|lines| - 1])
  }

  /** Withdrawing one more line decrements after the earlier lines. */
  lemma WithdrawSnoc(menu: map<string, MenuItem>, lines: seq<RequestLine>, i: int)
    requires 0 <= i < |lines|
    ensures Withdraw(menu, lines[..i + 1]) == Decrement(Withdraw(menu, lines[..i]), lines[i])
  {
    assert lines[..i + 1][..i] == lines[..i];
  }

  /** The total quantity the lines ask of one item. */
  function QtyFor(lines: seq<RequestLine>, id: string): int {
    if lines == [] then 0
    else
      var l := lines[|lines| - 1];
      QtyFor(lines[..|lines| - 1], id) + if l.itemId == Some(id) then l.qty.GetOr(0) else 0
  }

  /** Taking the stock lowers each item's count by the total quantity of the
      lines naming it and changes nothing else. */
  lemma {:induction false} WithdrawCounts(menu: map<string, MenuItem>, lines: seq<RequestLine>)
    ensures Withdraw(menu, lines).Keys == menu.Keys
    ensures forall id :: id in menu ==>
      Withdraw(menu, lines)[id] == menu[id].(count := menu[id].count - QtyFor(lines, id))
  {
    if lines != [] {
      WithdrawCounts(menu, lines[..|lines| - 1]);
    }
  }

  /** The ids of the lines are pairwise different. */
  predicate DistinctItems(lines: seq<RequestLine>) {
    forall i, j :: 0 <= i < j < |lines| && lines[i].itemId.Some? ==> lines[i].itemId != lines[j].itemId
  }

  /** With distinct ids, an item's total is the quantity of the one line naming it. */
  lemma {:induction false} QtyForDistinct(lines: seq<RequestLine>, id: string)
    requires DistinctItems(lines)
    ensures QtyFor(lines, id) == 0 || exists k :: 0 <= k < |lines| && lines[k].itemId == Some(id) && QtyFor(lines, id) == lines[k].qty.GetOr(0)
    ensures (forall k :: 0 <= k < |lines| ==> lines[k].itemId != Some(id)) ==> QtyFor(lines, id) == 0
  {
    if lines != [] {
      var init := lines[..|lines| - 1];
      assert DistinctItems(init) by {
        forall i, j | 0 <= i < j < |init| && init[i].itemId.Some? ensures init[i].itemId != init[j].itemId {
          assert init[i] == lines[i] && init[j] == lines[j];
        }
      }
      QtyForDistinct(init, id);
      var l := lines[|lines| - 1];
      if l.itemId == Some(id) {
        assert forall k :: 0 <= k < |init| ==> init[k].itemId != Some(id) by {
          forall k | 0 <= k < |init| ensures init[k].itemId != Some(id) {
            assert init[k] == lines[k];
          }
        }
      } else if QtyFor(init, id) != 0 {
        var k :| 0 <= k < |init| && init[k].itemId == Some(id) && QtyFor(init, id) == init[k].qty.GetOr(0);
        assert lines[k] == init[k];
      }
      assert forall k :: 0 <= k < |init| ==> init[k] == lines[k];
    }
  }

  // ----- Creating the order -----

  /** The object the handler hands to Order.create. */
  function Draft(user: string, lines: seq<RequestLine>, total: int, req: OrderRequest): OrderDraft {
    OrderDraft(
      user := user,
      items := seq(|lines|, i requires 0 <= i < |lines| => LineDraft(lines[i].itemId, lines[i].name, lines[i].qty, lines[i].price)),
      totalAmount := total,
      orderType := if Truthy(req.orderType) then req.orderType else Some("dine-in"),
      notes := Some(req.notes.GetOr("")),
      paymentMethod := Some(req.paymentMethod.GetOr("cod")),
      paymentStatus := Some("unpaid"),
      status := Some("placed"))
  }

  /** POST /orders as a whole. An empty or missing cart is refused first; then
      the first refused line; then Order.create's validators (a line with qty
      below 1 passes the stock check but fails here). Every refusal leaves both
      collections as they were. A success adds exactly the new order, in status
      "placed" and payment "unpaid", priced from the request's own lines, and
      lowers each item's stock by the quantity the cart asks of it. */
  /** The order document POST /orders creates from a checked cart: the
      caller's, placed and unpaid, with no payment times, the cart's lines
      copied in order, the computed total, and "dine-in", "cod" and "" where
      the request gives no order type, payment method or notes. None when the
      schema rejects the document (a 500). */
  function NewOrder(caller: AuthUser, lines: seq<RequestLine>, req: OrderRequest, newId: string, now: nat): (r: Option<Order>)
    ensures r.Some? ==>
      var o := r.value;
      && o.id == newId && o.user == caller.id && o.createdAt == now
      && o.status == Placed && o.paymentStatus == Unpaid
      && o.paidAt.None? && o.paymentNotifiedAt.None?
      && o.totalAmount == OrderTotal(lines, req.orderType) && o.totalAmount >= 0
      && (if Truthy(req.orderType) then OrderTypeName(o.orderType) == req.orderType.value else o.orderType == DineIn)
      && PaymentMethodName(o.paymentMethod) == req.paymentMethod.GetOr("cod")
      && o.notes == req.notes.GetOr("")
      && WellFormedOrder(o)
      && |o.items| == |lines|
      && (forall i :: 0 <= i < |lines| ==>
            && Some(o.items[i].item) == lines[i].itemId && Some(o.items[i].name) == lines[i].name
            && Some(o.items[i].qty) == lines[i].qty && Some(o.items[i].price) == lines[i].price)
  {
    CreateOrder(newId, Draft(caller.id, lines, OrderTotal(lines, req.orderType), req), now)
  }

  function PlaceOrderStep(menu: map<string, MenuItem>, orders: map<string, Order>, caller: AuthUser,
                          req: OrderRequest, newId: string, now: nat): (r: PlaceOutcome)
    ensures r.response.Err? ==> r.orders == orders && r.menu == menu
    ensures req.items.None? || req.items.value == [] ==> r.response == Err(CartEmpty)
    ensures req.items.Some? && req.items.value != [] && FirstCartError(menu, req.items.value).Some? ==>
      r.response == Err(FirstCartError(menu, req.items.value).value)
    ensures req.items.Some? && req.items.value != [] && FirstCartError(menu, req.items.value).None? ==>
      r.response == (if NewOrder(caller, req.items.value, req, newId, now).Some?
                     then Ok(NewOrder(caller, req.items.value, req, newId, now).value) else Err(ServerError))
    ensures r.response.Ok? ==> r.orders == orders[newId := r.response.order]
    ensures r.response.Ok? ==>
      && r.menu.Keys == menu.Keys
      && forall id :: id in menu ==> r.menu[id] == menu[id].(count := menu[id].count - QtyFor(req.items.value, id))
  {
    if req.items.None? || req.items.value == [] then PlaceOutcome(Err(CartEmpty), orders, menu)
    else
      var lines := req.items.value;
      match FirstCartError(menu, lines)
      case Some(e) => PlaceOutcome(Err(e), orders, menu)
      case None =>
        match NewOrder(caller, lines, req, newId, now)
        case None => PlaceOutcome(Err(ServerError), orders, menu)
        case Some(o) =>
          WithdrawCounts(menu, lines);
          PlaceOutcome(Ok(o), orders[newId := o], Withdraw(menu, lines))
  }

  /** When no item appears twice in a cart that passed the stock check, the
      quantity asked of each item is at most its stock, so placing the order
      never takes a stock that was zero or above below zero. */
  /** The fresh id of a new order makes placing it add exactly one order and
      keep every stored one as it was. */
  lemma PlaceOrderAddsOne(menu: map<string, MenuItem>, orders: map<string, Order>, caller: AuthUser,
                          req: OrderRequest, newId: string, now: nat)
    requires newId !in orders
    ensures var r := PlaceOrderStep(menu, orders, caller, req, newId, now);
      r.response.Ok? ==> r.orders.Keys == orders.Keys + {newId} && forall k :: k in orders ==> r.orders[k] == orders[k]
  {
  }

  lemma CheckedDistinctCartFitsStock(menu: map<string, MenuItem>, lines: seq<RequestLine>)
    requires DistinctItems(lines) && FirstCartError(menu, lines).None?
    ensures forall id :: id in menu && menu[id].count >= 0 ==> menu[id].count - QtyFor(lines, id) >= 0
  {
    forall id | id in menu && menu[id].count >= 0
      ensures menu[id].count - QtyFor(lines, id) >= 0
    {
      QtyForDistinct(lines, id);
      if QtyFor(lines, id) != 0 {
        var k :| 0 <= k < |lines| && lines[k].itemId == Some(id) && QtyFor(lines, id) == lines[k].qty.GetOr(0);
        assert LineError(menu, lines[k]).None?;
      }
    }
  }

  /** Each line is checked against the stock as it was before the order, so a
      cart naming one item twice can overdraw it: two lines of 1 against a
      stock of 1 are accepted and leave the stock at -1. */
  lemma RepeatedItemOverdraws(caller: AuthUser, now: nat)
    ensures
      var item := MenuItem("m1", "Idli", "", 30, Breakfast, 1, true, "", 0);
      var line := RequestLine(Some("m1"), Some("Idli"), Some(1), Some(30));
      var req := OrderRequest(Some([line, line]), None, None, None);
      var r := PlaceOrderStep(map["m1" := item], map[], caller, req, "o1", now);
      r.response.Ok? && r.menu["m1"].count == -1
  {
    var item := MenuItem("m1", "Idli", "", 30, Breakfast, 1, true, "", 0);
    var line := RequestLine(Some("m1"), Some("Idli"), Some(1), Some(30));
    var lines := [line, line];
    var menu := map["m1" := item];
    assert FirstCartError(menu, lines).None?;
    assert LineAmount(line) == 30;
    assert lines[..1] == [line] && [line][..0] == [];
    assert SumOf([line], LineAmount) == 30;
    assert OrderTotal(lines, None) == 60;
    var req := OrderRequest(Some(lines), None, None, None);
    var d := Draft(caller.id, lines, 60, req);
    assert OrderDraftValid(d);
    assert QtyFor([line], "m1") == 1;
    assert QtyFor(lines, "m1") == 2;
  }

  // ----- Payment and status -----

  /** The caller is an admin or the order's owner. */
  predicate MayAccess(caller: AuthUser, o: Order) {
    caller.role == "admin" || o.user == caller.id
  }

  /** POST /orders/:id/notify-payment: a missing order is 404, a caller who is
      neither admin nor owner 403, a non-UPI order 400, in that order.
      Otherwise the payment becomes "awaiting_confirmation" whatever it was
      before (even "paid"), the notification time is recorded, and nothing
      else about the order changes. */
  function NotifyPaymentStep(orders: map<string, Order>, id: string, caller: AuthUser, now: nat): (r: OrderStep)
    ensures r.response.Err? ==> r.orders == orders
    ensures id !in orders ==> r.response == Err(OrderNotFound)
    ensures id in orders && !MayAccess(caller, orders[id]) ==> r.response == Err(Forbidden)
    ensures id in orders && MayAccess(caller, orders[id]) && orders[id].paymentMethod != Upi ==> r.response == Err(NotUpi)
    ensures r.response.Ok? ==>
      && id in orders && MayAccess(caller, orders[id]) && orders[id].paymentMethod == Upi
      && r.orders == orders[id := r.response.order]
      && r.response.order == orders[id].(paymentStatus := AwaitingConfirmation, paymentNotifiedAt := Some(now))
  {
    if id !in orders then OrderStep(Err(OrderNotFound), orders)
    else
      var o := orders[id];
      if !MayAccess(caller, o) then OrderStep(Err(Forbidden), orders)
      else if o.paymentMethod != Upi then OrderStep(Err(NotUpi), orders)
      else
        var o' := o.(paymentStatus := AwaitingConfirmation, paymentNotifiedAt := Some(now));
        OrderStep(Ok(o'), orders[id := o'])
  }

  /** Notifying again changes nothing but the recorded notification time. */
  lemma NotifyPaymentRepeat(orders: map<string, Order>, id: string, caller: AuthUser, t1: nat, t2: nat)
    requires NotifyPaymentStep(orders, id, caller, t1).response.Ok?
    ensures
      var first := NotifyPaymentStep(orders, id, caller, t1);
      var second := NotifyPaymentStep(first.orders, id, caller, t2);
      second.response.Ok? && second.orders == orders[id := first.response.order.(paymentNotifiedAt := Some(t2))]
  {
  }

  /** PATCH /orders/:id/payment (admin only): an action other than "confirm"
      or "reject" is 400 before the order is looked up; a missing order 404.
      Confirm makes the payment "paid", records the time and moves a "placed"
      order to "preparing", leaving any other status alone; reject makes the
      payment "failed" and leaves the status alone. */
  function ResolvePaymentStep(orders: map<string, Order>, id: string, caller: AuthUser,
                              action: Option<string>, now: nat): (r: OrderStep)
    ensures r.response.Err? ==> r.orders == orders
    ensures !AdminOnly(caller) ==> r.response == Err(Forbidden)
    ensures AdminOnly(caller) && action != Some("confirm") && action != Some("reject") ==> r.response == Err(InvalidAction)
    ensures AdminOnly(caller) && (action == Some("confirm") || action == Some("reject")) && id !in orders ==>
      r.response == Err(OrderNotFound)
    ensures r.response.Ok? ==>
      && AdminOnly(caller) && id in orders
      && r.orders == orders[id := r.response.order]
      && var o, o' := orders[id], r.response.order;
      if action == Some("confirm") then
        o' == o.(paymentStatus := Paid, paidAt := Some(now), status := if o.status == Placed then Preparing else o.status)
      else
        action == Some("reject") && o' == o.(paymentStatus := Failed)
  {
    if !AdminOnly(caller) then OrderStep(Err(Forbidden), orders)
    else if action != Some("confirm") && action != Some("reject") then OrderStep(Err(InvalidAction), orders)
    else if id !in orders then OrderStep(Err(OrderNotFound), orders)
    else
      var o := orders[id];
      var o' :=
        if action == Some("confirm") then
          o.(paymentStatus := Paid, paidAt := Some(now), status := if o.status == Placed then Preparing else o.status)
        else o.(paymentStatus := Failed);
      OrderStep(Ok(o'), orders[id := o'])
  }

  /** Confirming a payment leaves no order in "placed", and the status moves
      exactly when it was "placed". */
  lemma ConfirmCoupling(orders: map<string, Order>, id: string, caller: AuthUser, now: nat)
    requires ResolvePaymentStep(orders, id, caller, Some("confirm"), now).response.Ok?
    ensures
      var o' := ResolvePaymentStep(orders, id, caller, Some("confirm"), now).response.order;
      && o'.paymentStatus == Paid && o'.status != Placed
      && (o'.status != orders[id].status <==> orders[id].status == Placed)
  {
  }

  /** PATCH /orders/:id/status (admin only): anything but the five statuses is
      400 before the order is looked up; a missing order 404. Otherwise the
      status is overwritten, with no restriction on the transition. */
  function UpdateStatusStep(orders: map<string, Order>, id: string, caller: AuthUser, status: Option<string>): (r: OrderStep)
    ensures r.response.Err? ==> r.orders == orders
    ensures !AdminOnly(caller) ==> r.response == Err(Forbidden)
    ensures AdminOnly(caller) && (status.None? || status.value !in StatusNames) ==> r.response == Err(InvalidStatus)
    ensures AdminOnly(caller) && status.Some? && status.value in StatusNames && id !in orders ==> r.response == Err(OrderNotFound)
    ensures r.response.Ok? ==>
      && AdminOnly(caller) && id in orders && status.Some?
      && r.orders == orders[id := r.response.order]
      && StatusName(r.response.order.status) == status.value
      && r.response.order == orders[id].(status := r.response.order.status)
  {
    if !AdminOnly(caller) then OrderStep(Err(Forbidden), orders)
    else if status.None? || ParseStatus(status.value).None? then OrderStep(Err(InvalidStatus), orders)
    else if id !in orders then OrderStep(Err(OrderNotFound), orders)
    else
      var o' := orders[id].(status := ParseStatus(status.value).value);
      OrderStep(Ok(o'), orders[id := o'])
  }

  /** An admin can move any order from any status to any status, including out
      of "completed" and "cancelled". */
  lemma AnyStatusReachable(orders: map<string, Order>, id: string, caller: AuthUser, target: Status)
    requires AdminOnly(caller) && id in orders
    ensures UpdateStatusStep(orders, id, caller, Some(StatusName(target))).response == Ok(orders[id].(status := target))
  {
    assert ParseStatus(StatusName(target)) == Some(target);
  }

  // ----- Reading -----

  /** GET /orders/:id: 404 for a missing order, 403 for a caller who is neither
      admin nor owner, otherwise the order as stored. `ownerExists` says
      whether the order's user is still stored: when it is not, the populated
      user is null and the ownership test of a non-admin caller throws (500). */
  function GetOrder(orders: map<string, Order>, id: string, caller: AuthUser, ownerExists: bool): (r: Response)
    ensures r.Ok? <==> id in orders && MayAccess(caller, orders[id]) && (caller.role == "admin" || ownerExists)
    ensures r.Ok? ==> r.order == orders[id]
    ensures id !in orders ==> r == Err(OrderNotFound)
    ensures id in orders && caller.role != "admin" && !ownerExists ==> r == Err(ServerError)
    ensures id in orders && ownerExists && !MayAccess(caller, orders[id]) ==> r == Err(Forbidden)
  {
    if id !in orders then Err(OrderNotFound)
    else if caller.role != "admin" && !ownerExists then Err(ServerError)
    else if !MayAccess(caller, orders[id]) then Err(Forbidden)
    else Ok(orders[id])
  }

  const ActiveStatuses: set<Status> := {Placed, Preparing, Ready}
  const FinishedStatuses: set<Status> := {Completed, Cancelled}

  /** "Active" and "finished" split the five statuses: no order is in both
      lists, and none is in neither. */
  lemma StatusesPartition()
    ensures ActiveStatuses !! FinishedStatuses
    ensures forall s: Status :: s in ActiveStatuses || s in FinishedStatuses
  {
    forall s: Status ensures s in ActiveStatuses || s in FinishedStatuses {
      match s
      case Placed =>
      case Preparing =>
      case Ready =>
      case Completed =>
      case Cancelled =>
    }
  }

  /** The admin list's `status` query: "active" and any unknown value select
      placed/preparing/ready, "completed" selects completed/cancelled, "all"
      selects everything. */
  function StatusFilter(query: Option<string>): (r: set<Status>)
    ensures query == Some("all") ==> forall s: Status :: s in r
    ensures query == Some("completed") ==> r == FinishedStatuses
    ensures query != Some("all") && query != Some("completed") ==> r == ActiveStatuses
  {
    StatusesPartition();
    if query == Some("active") then ActiveStatuses
    else if query == Some("completed") then FinishedStatuses
    else if query == Some("all") then ActiveStatuses + FinishedStatuses
    else ActiveStatuses
  }

  function OrderCreatedAt(o: Order): int { o.createdAt }

  /** The orders of s that `keep` selects, in their order. */
  function Filter(s: seq<Order>, keep: Order -> bool): (r: seq<Order>)
    ensures forall x :: x in r <==> x in s && keep(x)
    ensures multiset(r) <= multiset(s)
  {
    if s == [] then []
    else
      assert s == [s[0]] + s[1..];
      (if keep(s[0]) then [s[0]] else []) + Filter(s[1..], keep)
  }

  /** GET /orders (admin): exactly the found orders whose status the query
      selects, newest first. */
  function AdminList(found: seq<Order>, query: Option<string>): (r: seq<Order>)
    ensures forall o :: o in r <==> o in found && o.status in StatusFilter(query)
    ensures forall i, j :: 0 <= i < j < |r| ==> r[i].createdAt >= r[j].createdAt
  {
    var selected := Filter(found, (o: Order) => o.status in StatusFilter(query));
    var r := SortNewestFirst(selected, OrderCreatedAt);
    assert forall o :: o in r <==> o in selected by {
      forall o ensures o in r <==> o in selected {
        assert o in r <==> o in multiset(r);
      }
    }
    assert forall i, j :: 0 <= i < j < |r| ==> OrderCreatedAt(r[i]) >= OrderCreatedAt(r[j]);
    r
  }

  /** GET /orders/user: exactly the caller's orders, newest first; never another
      user's. */
  function UserOrders(found: seq<Order>, caller: AuthUser): (r: seq<Order>)
    ensures forall o :: o in r <==> o in found && o.user == caller.id
    ensures forall i, j :: 0 <= i < j < |r| ==> r[i].createdAt >= r[j].createdAt
  {
    var mine := Filter(found, (o: Order) => o.user == caller.id);
    var r := SortNewestFirst(mine, OrderCreatedAt);
    assert forall o :: o in r <==> o in mine by {
      forall o ensures o in r <==> o in mine {
        assert o in r <==> o in multiset(r);
      }
    }
    assert forall i, j :: 0 <= i < j < |r| ==> OrderCreatedAt(r[i]) >= OrderCreatedAt(r[j]);
    r
  }

  /** One line of the admin dashboard's list. */
  datatype ListLine = ListLine(name: string, qty: int, price: int)

  /** One order of GET /orders/list, with the owner's name and email filled in. */
  datatype ListRow = ListRow(
    id: string,
    userName: string,
    userEmail: string,
    items: seq<ListLine>,
    totalAmount: int,
    createdAt: nat,
    status: Status,
    orderType: OrderType,
    notes: string,
    paymentMethod: PaymentMethod,
    paymentStatus: PaymentStatus)

  /** The name shown for a line: its own snapshot, else the current catalog
      name of the item it refers to, else "Unknown". */
  function LineName(l: LineItem, menu: map<string, MenuItem>): string {
    if l.name != "" then l.name
    else if l.item in menu && menu[l.item].name != "" then menu[l.item].name
    else "Unknown"
  }

  /** The `/list` normalisation of one order. Snapshots win over the catalog,
      so an order keeps its names and prices after the menu item is edited or
      deleted; a missing owner shows as "Guest" with an empty email. */
  function NormalizeRow(o: Order, owner: Option<User>, menu: map<string, MenuItem>): (r: ListRow)
    ensures r.id == o.id && r.totalAmount == o.totalAmount && r.status == o.status && r.createdAt == o.createdAt
    ensures r.paymentMethod == o.paymentMethod && r.paymentStatus == o.paymentStatus
    ensures r.userName != "" && r.userName == (if owner.Some? && owner.value.name != "" then owner.value.name else "Guest")
    ensures r.userEmail == (if owner.Some? then owner.value.email else "")
    ensures |r.items| == |o.items|
    ensures forall i :: 0 <= i < |o.items| ==>
      && r.items[i].name != ""
      && (o.items[i].name != "" ==> r.items[i].name == o.items[i].name)
      && r.items[i].qty == o.items[i].qty && r.items[i].price == o.items[i].price
  {
    ListRow(
      id := o.id,
      userName := if owner.Some? && owner.value.name != "" then owner.value.name else "Guest",
      userEmail := if owner.Some? then owner.value.email else "",
      items := seq(|o.items|, i requires 0 <= i < |o.items| => ListLine(LineName(o.items[i], menu), o.items[i].qty, o.items[i].price)),
      totalAmount := o.totalAmount,
      createdAt := o.createdAt,
      status := o.status,
      orderType := o.orderType,
      notes := o.notes,
      paymentMethod := o.paymentMethod,
      paymentStatus := o.paymentStatus)
  }

  /** One normalised row per order, in the given order. */
  function NormalizeAll(orders: seq<Order>, findById: string -> Option<User>, menu: map<string, MenuItem>): (r: seq<ListRow>)
    ensures |r| == |orders|
    ensures forall i :: 0 <= i < |r| ==> r[i] == NormalizeRow(orders[i], findById(orders[i].user), menu)
  {
    seq(|orders|, i requires 0 <= i < |orders| => NormalizeRow(orders[i], findById(orders[i].user), menu))
  }

  /** GET /orders/list (admin): every stored order, newest first, each
      normalised with its owner as `findById` finds it. */
  function ListOrders(found: seq<Order>, findById: string -> Option<User>, menu: map<string, MenuItem>): (r: seq<ListRow>)
    ensures |r| == |found|
    ensures exists s :: multiset(s) == multiset(found) && r == NormalizeAll(s, findById, menu)
    ensures forall i, j :: 0 <= i < j < |r| ==> r[i].createdAt >= r[j].createdAt
  {
    var sorted := SortNewestFirst(found, OrderCreatedAt);
    assert |sorted| == |multiset(sorted)| == |found|;
    var r := NormalizeAll(sorted, findById, menu);
    assert forall i :: 0 <= i < |r| ==> r[i].createdAt == OrderCreatedAt(sorted[i]);
    assert multiset(sorted) == multiset(found) && r == NormalizeAll(sorted, findById, menu);
    r
  }

  /** Every row of the list is a stored order's, with its id, total and status. */
  lemma ListedRowsAreStored(found: seq<Order>, findById: string -> Option<User>, menu: map<string, MenuItem>)
    ensures var r := ListOrders(found, findById, menu);
      forall i :: 0 <= i < |r| ==> exists o :: o in found && r[i].id == o.id && r[i].totalAmount == o.totalAmount && r[i].status == o.status
  {
    var sorted := SortNewestFirst(found, OrderCreatedAt);
    var r := NormalizeAll(sorted, findById, menu);
    assert ListOrders(found, findById, menu) == r;
    forall i | 0 <= i < |r|
      ensures exists o :: o in found && r[i].id == o.id && r[i].totalAmount == o.totalAmount && r[i].status == o.status
    {
      assert sorted[i] in multiset(sorted);
      assert r[i] == NormalizeRow(sorted[i], findById(sorted[i].user), menu);
    }
  }

  /** Every stored order has a row in the list, with its id, total and status. */
  lemma StoredOrdersAreListed(found: seq<Order>, findById: string -> Option<User>, menu: map<string, MenuItem>)
    ensures var r := ListOrders(found, findById, menu);
      forall o :: o in found ==> exists i :: 0 <= i < |r| && r[i].id == o.id && r[i].totalAmount == o.totalAmount && r[i].status == o.status
  {
    var sorted := SortNewestFirst(found, OrderCreatedAt);
    var r := NormalizeAll(sorted, findById, menu);
    assert ListOrders(found, findById, menu) == r;
    forall o | o in found
      ensures exists i :: 0 <= i < |r| && r[i].id == o.id && r[i].totalAmount == o.totalAmount && r[i].status == o.status
    {
      assert o in multiset(sorted);
      var i :| 0 <= i < |sorted| && sorted[i] == o;
      assert r[i] == NormalizeRow(o, findById(o.user), menu);
    }
  }

  /** The Order collection with the MenuItem collection it takes stock from. */
  class OrderService {
    const catalog: MenuRoutes.MenuCollection
    var orders: map<string, Order>

    constructor (catalog: MenuRoutes.MenuCollection)
      ensures this.catalog == catalog && orders == map[]
    {
      this.catalog := catalog;
      orders := map[];
    }

    /** POST /orders. `newId` is the id the database gives the new order. */
    method PlaceOrder(caller: AuthUser, req: OrderRequest, newId: string, now: nat) returns (response: Response)
      modifies this, catalog
      ensures PlaceOrderStep(old(catalog.items), old(orders), caller, req, newId, now)
        == PlaceOutcome(response, orders, catalog.items)
    {
      if req.items.None? || req.items.value == [] {
        return Err(CartEmpty);
      }
      var lines := req.items.value;
      var err := CheckCart(catalog.items, lines);
      if err.Some? {
        return Err(err.value);
      }
      var created := NewOrder(caller, lines, req, newId, now);
      if created.None? {
        return Err(ServerError);
      }
      orders := orders[newId := created.value];
      var i := 0;
      while i < |lines|
        invariant 0 <= i <= |lines|
        invariant catalog.items == Withdraw(old(catalog.items), lines[..i])
        invariant orders == old(orders)[newId := created.value]
      {
        WithdrawSnoc(old(catalog.items), lines, i);
        catalog.IncrementCount(lines[i].itemId, -lines[i].qty.GetOr(0));
        i := i + 1;
      }
      assert lines[..|lines|] == lines;
      WithdrawCounts(old(catalog.items), lines);
      response := Ok(created.value);
    }

    /** POST /orders/:id/notify-payment. */
    method NotifyPayment(id: string, caller: AuthUser, now: nat) returns (response: Response)
      modifies this
      ensures NotifyPaymentStep(old(orders), id, caller, now) == OrderStep(response, orders)
    {
      if id !in orders {
        return Err(OrderNotFound);
      }
      var order := orders[id];
      if caller.role != "admin" && order.user != caller.id {
        return Err(Forbidden);
      }
      if order.paymentMethod != Upi {
        return Err(NotUpi);
      }
      order := order.(paymentStatus := AwaitingConfirmation);
      order := order.(paymentNotifiedAt := Some(now));
      orders := orders[id := order];
      response := Ok(order);
    }

    /** PATCH /orders/:id/payment. */
    method ResolvePayment(id: string, caller: AuthUser, action: Option<string>, now: nat) returns (response: Response)
      modifies this
      ensures ResolvePaymentStep(old(orders), id, caller, action, now) == OrderStep(response, orders)
    {
      if !AdminOnly(caller) {
        return Err(Forbidden);
      }
      if action != Some("confirm") && action != Some("reject") {
        return Err(InvalidAction);
      }
      if id !in orders {
        return Err(OrderNotFound);
      }
      var order := orders[id];
      if action == Some("confirm") {
        order := order.(paymentStatus := Paid);
        order := order.(paidAt := Some(now));
        if order.status == Placed {
          order := order.(status := Preparing);
        }
      } else {
        order := order.(paymentStatus := Failed);
      }
      orders := orders[id := order];
      response := Ok(order);
    }

    /** PATCH /orders/:id/status. */
    method UpdateStatus(id: string, caller: AuthUser, status: Option<string>) returns (response: Response)
      modifies this
      ensures UpdateStatusStep(old(orders), id, caller, status) == OrderStep(response, orders)
    {
      if !AdminOnly(caller) {
        return Err(Forbidden);
      }
      if status.None? || ParseStatus(status.value).None? {
        return Err(InvalidStatus);
      }
      if id !in orders {
        return Err(OrderNotFound);
      }
      var order := orders[id].(status := ParseStatus(status.value).value);
      orders := orders[id := order];
      response := Ok(order);
    }
  }
}
