/** The client's user dashboard: the current order, the order history, the
    progress bar and "reorder". Orders arrive as the client sees them, with
    the status as free text. */
module DashboardPage {
  import opened Common
  import opened Schema
  import CartPage
  import OrderRoutes
  import AuthGuard

  /** An order as the dashboard reads it. */
  datatype OrderView = OrderView(id: string, status: Option<string>, items: seq<LineItem>)

  /** The dashboard's view of a stored order. */
  function ViewOf(o: Order): OrderView {
    OrderView(o.id, Some(StatusName(o.status)), o.items)
  }

  /** `normalize(s)`: lower-cased then trimmed; a missing or empty status is "". */
  function Normalize(s: Option<string>): (r: string)
    ensures !Truthy(s) ==> r == ""
    ensures forall st: Status :: s == Some(StatusName(st)) ==> r == StatusName(st)
  {
    StatusNamesAreNormal();
    if Truthy(s) then Trim(ToLower(s.value)) else ""
  }

  /** Every status name is already lower-case and trimmed. */
  lemma StatusNamesAreNormal()
    ensures forall st: Status :: ToLower(StatusName(st)) == StatusName(st) && Trim(StatusName(st)) == StatusName(st)
  {
    forall st: Status ensures ToLower(StatusName(st)) == StatusName(st) && Trim(StatusName(st)) == StatusName(st) {
      LowerWordIsNormal(StatusName(st));
    }
  }

  const ActiveNames: seq<string> := ["placed", "preparing"]
  const HistoryNames: seq<string> := ["ready", "completed", "cancelled"]

  predicate ActiveCandidate(o: OrderView) {
    Normalize(o.status) in ActiveNames
  }

  predicate InHistory(o: OrderView) {
    Normalize(o.status) in HistoryNames
  }

  /** The current order: the first order still placed or preparing, if any. */
  function ActiveOrder(orders: seq<OrderView>): (r: Option<OrderView>)
    ensures r.None? <==> forall i :: 0 <= i < |orders| ==> !ActiveCandidate(orders[i])
    ensures r.Some? ==>
      (exists k :: 0 <= k < |orders| && orders[k] == r.value && ActiveCandidate(r.value) && (forall j :: 0 <= j < k ==> !ActiveCandidate(orders[j])))
  {
    if orders == [] then None
    else if ActiveCandidate(orders[0]) then Some(orders[0])
    else
      var r := ActiveOrder(orders[1..]);
      assert forall j :: 1 <= j < |orders| ==> orders[j] == orders[1..][j - 1];
      if r.Some? then
        var k :| 0 <= k < |orders[1..]| && orders[1..][k] == r.value && ActiveCandidate(r.value) &&
          (forall j :: 0 <= j < k ==> !ActiveCandidate(orders[1..][j]));
        assert orders[k + 1] == r.value;
        r
      else r
  }

  /** The history: the ready, completed and cancelled orders, in their order.
      No order in it is a candidate for the current order. */
  function History(orders: seq<OrderView>): (r: seq<OrderView>)
    ensures forall o :: o in r <==> o in orders && InHistory(o)
    ensures Subsequence(r, orders)
    ensures forall o :: o in r ==> !ActiveCandidate(o)
  {
    if orders == [] then []
    else
      var rest := History(orders[1..]);
      assert orders == [orders[0]] + orders[1..];
      if InHistory(orders[0]) then
        assert ([orders[0]] + rest)[1..] == rest;
        [orders[0]] + rest
      else rest
  }

  /** For orders the server stored, the two lists split by status: placed and
      preparing orders are candidates for the current order, the other three
      statuses go to the history, and no order is in neither. */
  lemma StoredOrdersSplit(o: Order)
    ensures ActiveCandidate(ViewOf(o)) <==> o.status == Placed || o.status == Preparing
    ensures InHistory(ViewOf(o)) <==> !ActiveCandidate(ViewOf(o))
  {
    var v := ViewOf(o);
    var n := Normalize(v.status);
    assert n == StatusName(o.status);
    NameLists(n, o.status);
    assert ActiveCandidate(v) == (n in ActiveNames);
    assert InHistory(v) == (n in HistoryNames);
  }

  lemma NameLists(n: string, st: Status)
    requires n == StatusName(st)
    ensures n in ActiveNames <==> st == Placed || st == Preparing
    ensures n in HistoryNames <==> n !in ActiveNames
  {
  }

  /** `reorder(order)`: a fresh cart with one entry per order line. */
  function Reorder(o: OrderView): (cart: seq<CartPage.CartEntry>)
    ensures |cart| == |o.items|
    ensures forall i :: 0 <= i < |o.items| ==>
      cart[i] == CartPage.CartEntry(Some(o.items[i].item), None, None, o.items[i].name, o.items[i].price, o.items[i].qty)
  {
    seq(|o.items|, i requires 0 <= i < |o.items| =>
      CartPage.CartEntry(Some(o.items[i].item), None, None, o.items[i].name, o.items[i].price, o.items[i].qty))
  }

  /** Placing a reordered cart asks the server for the same lines again. */
  lemma ReorderRoundTrip(o: OrderView, orderType: string, notes: string, paymentMethod: string)
    requires forall i :: 0 <= i < |o.items| ==> o.items[i].item != ""
    ensures
      var req := CartPage.Payload(Reorder(o), orderType, notes, paymentMethod);
      |req.items.value| == |o.items| &&
      forall i :: 0 <= i < |o.items| ==>
        req.items.value[i] == OrderRoutes.RequestLine(Some(o.items[i].item), Some(o.items[i].name),
                                                      Some(o.items[i].qty), Some(o.items[i].price))
  {
  }

  const ProgressSteps: seq<string> := ["placed", "preparing", "ready", "completed"]

  /** `steps.indexOf(x)`. */
  function IndexOf(s: seq<string>, x: string): (k: int)
    ensures -1 <= k < |s|
    ensures k >= 0 ==> s[k] == x && forall j :: 0 <= j < k ==> s[j] != x
    ensures k == -1 <==> x !in s
  {
    if s == [] then -1
    else if s[0] == x then 0
    else
      var k := IndexOf(s[1..], x);
      assert forall j :: 1 <= j < |s| ==> s[j] == s[1..][j - 1];
      if k == -1 then -1 else k + 1
  }

  /** The progress bar's position: the lower-cased status's place among
      placed, preparing, ready, completed, or -1 (cancelled, unknown or none).
      No trimming happens here. */
  function CurrentStep(status: Option<string>): (step: int)
    ensures -1 <= step <= 3
    ensures step >= 0 ==> status.Some? && ToLower(status.value) == ProgressSteps[step]
    ensures step == -1 <==> status.None? || ToLower(status.value) !in ProgressSteps
  {
    IndexOf(ProgressSteps, if status.Some? then ToLower(status.value) else "")
  }

  /** Step idx is drawn as done. */
  predicate StepDone(idx: int, status: Option<string>) {
    idx <= CurrentStep(status)
  }

  /** The bar of a stored order: placed through completed light up one more
      step each, and a cancelled order lights none. */
  lemma ProgressOfStoredOrder(o: Order)
    ensures CurrentStep(ViewOf(o).status) == match o.status
      case Placed => 0
      case Preparing => 1
      case Ready => 2
      case Completed => 3
      case Cancelled => -1
    ensures o.status == Cancelled ==> forall idx :: 0 <= idx < 4 ==> !StepDone(idx, ViewOf(o).status)
  {
    var n := StatusName(o.status);
    StatusNamesAreNormal();
    assert ToLower(n) == n;
    var step := CurrentStep(ViewOf(o).status);
    assert step == IndexOf(ProgressSteps, n);
    StepPositions();
  }

  /** Where each status name sits on the bar. */
  lemma StepPositions()
    ensures IndexOf(ProgressSteps, "placed") == 0 && IndexOf(ProgressSteps, "preparing") == 1
    ensures IndexOf(ProgressSteps, "ready") == 2 && IndexOf(ProgressSteps, "completed") == 3
    ensures IndexOf(ProgressSteps, "cancelled") == -1
  {
    assert "cancelled" !in ProgressSteps;
  }

  /** An admin's payment confirmation of a placed order moves its bar from the
      first step to the second: "preparing" lights up and "ready" does not. */
  lemma ConfirmLightsPreparing(orders: map<string, Order>, id: string, caller: AuthGuard.AuthUser, now: nat)
    requires OrderRoutes.ResolvePaymentStep(orders, id, caller, Some("confirm"), now).response.Ok?
    requires orders[id].status == Placed
    ensures CurrentStep(ViewOf(orders[id]).status) == 0
    ensures
      var o' := OrderRoutes.ResolvePaymentStep(orders, id, caller, Some("confirm"), now).response.order;
      StepDone(1, ViewOf(o').status) && !StepDone(2, ViewOf(o').status)
  {
    var o' := OrderRoutes.ResolvePaymentStep(orders, id, caller, Some("confirm"), now).response.order;
    ProgressOfStoredOrder(orders[id]);
    ProgressOfStoredOrder(o');
  }
}
