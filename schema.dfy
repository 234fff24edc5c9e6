/** The Mongoose schemas of the canteen: Order (its enums, defaults and minimums),
    MenuItem and the OTP-era User record. A "draft" is the object handed to
    `Model.create` / `new Model(...)`; the Create functions apply the schema's
    defaults and validators to it, and fail exactly where Mongoose would reject
    the document. */
module Schema {
  import opened Common

  datatype OrderType = DineIn | Takeaway
  datatype PaymentMethod = Upi | Cod
  datatype PaymentStatus = Unpaid | AwaitingConfirmation | Paid | Failed
  datatype Status = Placed | Preparing | Ready | Completed | Cancelled
  datatype Category = Breakfast | Lunch | Snacks | General

  const OrderTypeNames: seq<string> := ["dine-in", "takeaway"]
  const PaymentMethodNames: seq<string> := ["upi", "cod"]
  const PaymentStatusNames: seq<string> := ["unpaid", "awaiting_confirmation", "paid", "failed"]
  const StatusNames: seq<string> := ["placed", "preparing", "ready", "completed", "cancelled"]
  const CategoryNames: seq<string> := ["Breakfast", "Lunch", "Snacks", "General"]

  /** The enum validator of `orderType`: exactly the two names are accepted. */
  function ParseOrderType(s: string): (r: Option<OrderType>)
    ensures r.Some? <==> s in OrderTypeNames
    ensures r.Some? ==> OrderTypeName(r.value) == s
    ensures forall x :: OrderTypeName(x) == s ==> r == Some(x)
  {
    if s == "dine-in" then Some(DineIn)
    else if s == "takeaway" then Some(Takeaway)
    else None
  }

  function OrderTypeName(t: OrderType): (s: string)
    ensures s in OrderTypeNames
  {
    match t
    case DineIn => "dine-in"
    case Takeaway => "takeaway"
  }

  function ParsePaymentMethod(s: string): (r: Option<PaymentMethod>)
    ensures r.Some? <==> s in PaymentMethodNames
    ensures r.Some? ==> PaymentMethodName(r.value) == s
    ensures forall x :: PaymentMethodName(x) == s ==> r == Some(x)
  {
    if s == "upi" then Some(Upi)
    else if s == "cod" then Some(Cod)
    else None
  }

  function PaymentMethodName(m: PaymentMethod): (s: string)
    ensures s in PaymentMethodNames
  {
    match m
    case Upi => "upi"
    case Cod => "cod"
  }

  function ParsePaymentStatus(s: string): (r: Option<PaymentStatus>)
    ensures r.Some? <==> s in PaymentStatusNames
    ensures r.Some? ==> PaymentStatusName(r.value) == s
    ensures forall x :: PaymentStatusName(x) == s ==> r == Some(x)
  {
    if s == "unpaid" then Some(Unpaid)
    else if s == "awaiting_confirmation" then Some(AwaitingConfirmation)
    else if s == "paid" then Some(Paid)
    else if s == "failed" then Some(Failed)
    else None
  }

  function PaymentStatusName(p: PaymentStatus): (s: string)
    ensures s in PaymentStatusNames
  {
    match p
    case Unpaid => "unpaid"
    case AwaitingConfirmation => "awaiting_confirmation"
    case Paid => "paid"
    case Failed => "failed"
  }

  function ParseStatus(s: string): (r: Option<Status>)
    ensures r.Some? <==> s in StatusNames
    ensures r.Some? ==> StatusName(r.value) == s
    ensures forall x :: StatusName(x) == s ==> r == Some(x)
  {
    if s == "placed" then Some(Placed)
    else if s == "preparing" then Some(Preparing)
    else if s == "ready" then Some(Ready)
    else if s == "completed" then Some(Completed)
    else if s == "cancelled" then Some(Cancelled)
    else None
  }

  function StatusName(st: Status): (s: string)
    ensures s in StatusNames
  {
    match st
    case Placed => "placed"
    case Preparing => "preparing"
    case Ready => "ready"
    case Completed => "completed"
    case Cancelled => "cancelled"
  }

  function ParseCategory(s: string): (r: Option<Category>)
    ensures r.Some? <==> s in CategoryNames
    ensures r.Some? ==> CategoryName(r.value) == s
    ensures forall x :: CategoryName(x) == s ==> r == Some(x)
  {
    if s == "Breakfast" then Some(Breakfast)
    else if s == "Lunch" then Some(Lunch)
    else if s == "Snacks" then Some(Snacks)
    else if s == "General" then Some(General)
    else None
  }

  function CategoryName(c: Category): (s: string)
    ensures s in CategoryNames
  {
    match c
    case Breakfast => "Breakfast"
    case Lunch => "Lunch"
    case Snacks => "Snacks"
    case General => "General"
  }

  // ----- Order -----

  /** One ordered line: the menu item it refers to and snapshots of its name and price. */
  datatype LineItem = LineItem(item: string, name: string, qty: int, price: int)

  /** A stored order. Times (`createdAt`, `paidAt`, `paymentNotifiedAt`) are
      milliseconds since the epoch. */
  datatype Order = Order(
    id: string,
    user: string,
    items: seq<LineItem>,
    totalAmount: int,
    orderType: OrderType,
    tableNo: string,
    notes: string,
    paymentMethod: PaymentMethod,
    paymentStatus: PaymentStatus,
    paidAt: Option<nat>,
    paymentNotifiedAt: Option<nat>,
    status: Status,
    createdAt: nat)

  /** What the validators guarantee of every created order. */
  predicate WellFormedOrder(o: Order) {
    o.totalAmount >= 0
    && forall i :: 0 <= i < |o.items| ==> o.items[i].qty >= 1 && o.items[i].name != ""
  }

  /** A line as handed to `Order.create`; any field may be missing. */
  datatype LineDraft = LineDraft(item: Option<string>, name: Option<string>, qty: Option<int>, price: Option<int>)

  /** The object handed to `Order.create`; a missing enum field takes its default. */
  datatype OrderDraft = OrderDraft(
    user: string,
    items: seq<LineDraft>,
    totalAmount: int,
    orderType: Option<string>,
    notes: Option<string>,
    paymentMethod: Option<string>,
    paymentStatus: Option<string>,
    status: Option<string>)

  /** `required` on a String fails for a missing value and for ""; `min: 1` on qty. */
  predicate LineDraftValid(l: LineDraft) {
    l.item.Some? && Truthy(l.name) && l.qty.Some? && l.qty.value >= 1 && l.price.Some?
  }

  predicate EnumOk<E>(field: Option<string>, parse: string -> Option<E>) {
    field.None? || parse(field.value).Some?
  }

  predicate OrderDraftValid(d: OrderDraft) {
    (forall i :: 0 <= i < |d.items| ==> LineDraftValid(d.items[i]))
    && d.totalAmount >= 0
    && EnumOk(d.orderType, ParseOrderType)
    && EnumOk(d.paymentMethod, ParsePaymentMethod)
    && EnumOk(d.paymentStatus, ParsePaymentStatus)
    && EnumOk(d.status, ParseStatus)
  }

  function LineFromDraft(l: LineDraft): LineItem
    requires LineDraftValid(l)
  {
    LineItem(l.item.value, l.name.value, l.qty.value, l.price.value)
  }

  function LinesFromDrafts(ls: seq<LineDraft>): (r: seq<LineItem>)
    requires forall i :: 0 <= i < |ls| ==> LineDraftValid(ls[i])
    ensures |r| == |ls|
    ensures forall i :: 0 <= i < |ls| ==> r[i] == LineFromDraft(ls[i])
  {
    if ls == [] then [] else [LineFromDraft(ls[0])] + LinesFromDrafts(ls[1..])
  }

  /** `Order.create(draft)` at time `now` under the fresh id `id`: rejected
      exactly when a validator fails; otherwise every missing enum takes its
      default (dine-in, cod, unpaid, placed), notes and tableNo default to "",
      both payment times to null, and the lines are copied as they are. */
  function CreateOrder(id: string, d: OrderDraft, now: nat): (r: Option<Order>)
    ensures r.Some? <==> OrderDraftValid(d)
    ensures r.Some? ==> WellFormedOrder(r.value)
    ensures r.Some? ==> r.value.id == id && r.value.user == d.user && r.value.createdAt == now
    ensures r.Some? ==> |r.value.items| == |d.items|
    ensures r.Some? ==> forall i :: 0 <= i < |d.items| ==>
      && Some(r.value.items[i].item) == d.items[i].item
      && Some(r.value.items[i].name) == d.items[i].name
      && Some(r.value.items[i].qty) == d.items[i].qty
      && Some(r.value.items[i].price) == d.items[i].price
    ensures r.Some? ==> r.value.totalAmount == d.totalAmount && r.value.tableNo == ""
    ensures r.Some? ==> r.value.paidAt.None? && r.value.paymentNotifiedAt.None?
    ensures r.Some? && d.orderType.None? ==> r.value.orderType == DineIn
    ensures r.Some? && d.orderType.Some? ==> OrderTypeName(r.value.orderType) == d.orderType.value
    ensures r.Some? && d.paymentMethod.None? ==> r.value.paymentMethod == Cod
    ensures r.Some? && d.paymentMethod.Some? ==> PaymentMethodName(r.value.paymentMethod) == d.paymentMethod.value
    ensures r.Some? && d.paymentStatus.None? ==> r.value.paymentStatus == Unpaid
    ensures r.Some? && d.paymentStatus.Some? ==> PaymentStatusName(r.value.paymentStatus) == d.paymentStatus.value
    ensures r.Some? && d.status.None? ==> r.value.status == Placed
    ensures r.Some? && d.status.Some? ==> StatusName(r.value.status) == d.status.value
    ensures r.Some? ==> r.value.notes == d.notes.GetOr("")
  {
    if !OrderDraftValid(d) then None
    else
      Some(Order(
        id := id,
        user := d.user,
        items := LinesFromDrafts(d.items),
        totalAmount := d.totalAmount,
        orderType := if d.orderType.None? then DineIn else ParseOrderType(d.orderType.value).value,
        tableNo := "",
        notes := d.notes.GetOr(""),
        paymentMethod := if d.paymentMethod.None? then Cod else ParsePaymentMethod(d.paymentMethod.value).value,
        paymentStatus := if d.paymentStatus.None? then Unpaid else ParsePaymentStatus(d.paymentStatus.value).value,
        paidAt := None,
        paymentNotifiedAt := None,
        status := if d.status.None? then Placed else ParseStatus(d.status.value).value,
        createdAt := now))
  }

  // ----- MenuItem -----

  /** A menu item. `count` is the stock; the schema gives it no lower bound. */
  datatype MenuItem = MenuItem(
    id: string,
    name: string,
    description: string,
    price: int,
    category: Category,
    count: int,
    isAvailable: bool,
    imageUrl: string,
    createdAt: nat)

  /** The body handed to `MenuItem.create`. */
  datatype MenuItemDraft = MenuItemDraft(
    name: Option<string>,
    description: Option<string>,
    price: Option<int>,
    category: Option<string>,
    count: Option<int>,
    isAvailable: Option<bool>,
    imageUrl: Option<string>)

  /** `name` is trimmed before `required` is checked; `price` is required with `min: 0`. */
  predicate MenuItemDraftValid(d: MenuItemDraft) {
    d.name.Some? && Trim(d.name.value) != ""
    && d.price.Some? && d.price.value >= 0
    && EnumOk(d.category, ParseCategory)
  }

  /** What `save()` re-checks on a loaded item: the name is required (not "")
      and the price is at least 0. The category is an enum value here, so its
      validator always passes. */
  predicate MenuItemValid(m: MenuItem) {
    m.name != "" && m.price >= 0
  }

  /** `MenuItem.create(draft)`: the price of a created item is never negative,
      the category defaults to General, the stock to 0, availability to true. */
  function CreateMenuItem(id: string, d: MenuItemDraft, now: nat): (r: Option<MenuItem>)
    ensures r.Some? <==> MenuItemDraftValid(d)
    ensures r.Some? ==> r.value.id == id && r.value.createdAt == now && MenuItemValid(r.value)
    ensures r.Some? ==> r.value.price >= 0 && r.value.name == Trim(d.name.value) && r.value.name != ""
    ensures r.Some? && d.category.None? ==> r.value.category == General
    ensures r.Some? && d.category.Some? ==> CategoryName(r.value.category) == d.category.value
    ensures r.Some? ==> r.value.count == d.count.GetOr(0) && r.value.isAvailable == d.isAvailable.GetOr(true)
    ensures r.Some? ==> r.value.description == d.description.GetOr("") && r.value.imageUrl == d.imageUrl.GetOr("")
  {
    if !MenuItemDraftValid(d) then None
    else
      Some(MenuItem(
        id := id,
        name := Trim(d.name.value),
        description := d.description.GetOr(""),
        price := d.price.value,
        category := if d.category.None? then General else ParseCategory(d.category.value).value,
        count := d.count.GetOr(0),
        isAvailable := d.isAvailable.GetOr(true),
        imageUrl := d.imageUrl.GetOr(""),
        createdAt := now))
  }

  // ----- User -----

  /** A user account. `otpExpiresAt` is in milliseconds since the epoch. */
  datatype User = User(
    id: string,
    name: string,
    email: string,
    passwordHash: Option<string>,
    role: string,
    verified: bool,
    otp: Option<int>,
    otpExpiresAt: Option<nat>)

  /** A fresh user document: role "user", not verified, and no password hash,
      OTP or expiry until they are set. */
  function DefaultUser(id: string, name: string, email: string): (u: User)
    ensures u.id == id && u.name == name && u.email == email
    ensures u.role == "user" && !u.verified
    ensures u.passwordHash.None? && u.otp.None? && u.otpExpiresAt.None?
  {
    User(id, name, email, None, "user", false, None, None)
  }

  /** Users stored under their (required, unique) email. */
  predicate KeyedByEmail(users: map<string, User>) {
    forall e :: e in users ==> users[e].email == e
  }
}
