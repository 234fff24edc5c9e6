# Canteen ordering: a Dafny model of the order lifecycle, the account flows and the client cart algebra

The canteen system is an Express/Mongoose server with React clients. Students browse a menu, build a cart, and place dine-in or takeaway orders. They pay cash on delivery ("cod") or by UPI, which an administrator confirms. Administrators then move each order through placed → preparing → ready → completed (or cancelled).

This project models three parts of that system in Dafny and proves properties about them.

1. **The order lifecycle** (`order_routes.dfy`, `menu_routes.dfy`, `schema.dfy`, `ordering.dfy`).
   - The store is an in-memory map of menu items (id → name, price, stock count, …) and a map of orders.
   - Placing an order checks the cart line by line against stock, prices it, creates the order through the schema's validation and defaults, and then decrements stock line by line.
   - The other order operations are notify-payment, admin payment confirm/reject, status overwrite, and the list and filter reads.
   - The menu routes cover create, update, delete, list, and the guarded single-unit purchase.
   - Each stateful handler is a method of a class (`OrderService`, `MenuCollection`) with a `modifies` clause. Its `ensures` ties the response and the new state to a pure step function. The properties are proved about those step functions.
   - The enumerations, defaults and minimums of the Mongoose schemas are datatypes with parse/name round trips. `CreateOrder` and `CreateMenuItem` model schema validation.
2. **The account state machine** (`otp_auth.dfy`, `nec_auth.dfy`, `auth_guard.dfy`, `protected_route.dfy`).
   - The OTP-based register/verify/login flow is a `UserCollection` keyed by email, whose `verified` flag changes exactly once.
   - The campus-domain register/login is an `Accounts` collection.
   - The bearer-header middleware and `adminOnly` are modelled, as is the client-side route guard.
   - Hashing, token signing and verification, random OTP draws, the clock, e-mail delivery and fresh ids are parameters.
3. **The client-side cart and summary algebra** (`cart_page.dfy`, `menu_page.dfy`, `dashboard_page.dfy`, `admin_dashboard.dfy`).
   - Cart pricing, quantity clamping and line removal; the order payload; merging an item into the cart; and the menu filter.
   - On the dashboard, the split into the active order and the history, reorder, and the progress bar.
   - On the admin dashboard: revenue, the per-item counts (a nested loop over a dictionary), the top item, and the spreadsheet export rows.
   - The cart total is proved equal to the total the server stores for the payload the cart sends.

`common.dfy` holds the JavaScript string and number behaviour the code relies on:
- `trim`, ASCII `toLowerCase`, `includes`, `startsWith`/`endsWith` and `split(" ")[1]`;
- `String(n)`, `join`, and `x || d` on numbers and strings;
- sums over sequences.

Money and quantities are integers (minor units).

## Model

| member | source | states |
|---|---|---|
| Schema.ParseOrderType | canteen-ms/server/src/models/Order.js:31-35 | a string is accepted iff it is "dine-in" or "takeaway", and parsing inverts naming |
| Schema.ParsePaymentMethod | canteen-ms/server/src/models/Order.js:48-52 | accepted iff "upi" or "cod"; parse inverts name |
| Schema.ParsePaymentStatus | canteen-ms/server/src/models/Order.js:53-57 | accepted iff one of unpaid, awaiting_confirmation, paid, failed; parse inverts name |
| Schema.ParseStatus | canteen-ms/server/src/models/Order.js:62-66 | accepted iff one of the five statuses; parse inverts name |
| Schema.ParseCategory | canteen-ms/server/src/models/MenuItem.js:8-13 | accepted iff Breakfast, Lunch, Snacks or General; parse inverts name |
| Schema.CreateOrder | canteen-ms/server/src/models/Order.js:4-71 | creation succeeds iff every required field is present, qty ≥ 1, total ≥ 0 and enum fields are in range. The result is well formed; line fields are copied; orderType defaults to dine-in, paymentMethod to cod, paymentStatus to unpaid, status to placed, notes and tableNo to "", paidAt and paymentNotifiedAt to null |
| Schema.CreateMenuItem | canteen-ms/server/src/models/MenuItem.js:3-19 | creation succeeds iff the trimmed name is non-empty, price ≥ 0 and the category is valid; a created item passes the validators `save()` re-runs; category defaults to General, count to 0, isAvailable to true, description and imageUrl to "" |
| Schema.DefaultUser | server/src/models/User.js:3-26 | a new user has role "user", is unverified, and has no password hash, OTP or expiry |
| Ordering.SortNewestFirst | server/src/routes/orders.js:19 | the result is ordered by createdAt descending and is a permutation of the input |
| OrderRoutes.OrderTotalOfAppend | server/src/routes/orders.js:105-109 | the total of a concatenated cart is the first part's total plus the second part's line sum (the takeaway surcharge is counted once) |
| OrderRoutes.OrderTotalNonNegative | server/src/routes/orders.js:105-109 | with non-negative prices and quantities the total is ≥ 0, and a takeaway order's total is ≥ 10 |
| OrderRoutes.FirstCartError | server/src/routes/orders.js:91-103 | no error iff every line is known and within stock; otherwise the error is that of the first failing line, all earlier lines passing |
| OrderRoutes.CheckCart | server/src/routes/orders.js:91-103 | the checking loop returns exactly the first cart error |
| OrderRoutes.WithdrawCounts | server/src/routes/orders.js:127-133 | decrementing line by line keeps the item set and lowers each item's count by the total qty of the lines naming it |
| OrderRoutes.CheckedDistinctCartFitsStock | server/src/routes/orders.js:91-133 | when no item id repeats, a cart that passes the check leaves every non-negative count non-negative |
| OrderRoutes.RepeatedItemOverdraws | server/src/routes/orders.js:91-133 | a cart naming the same item twice (one in stock, qty 1 each) passes the check and drives the count to -1 |
| OrderRoutes.NewOrder | server/src/routes/orders.js:105-125 | a created order has the caller as user, status placed, payment unpaid, the computed total, type/method/notes from the request or their defaults, and the request's lines copied |
| OrderRoutes.PlaceOrderStep | server/src/routes/orders.js:83-151 | empty or missing cart → "Cart is empty"; otherwise the first cart error; otherwise the created order, or a server error when schema validation fails. Every error leaves orders and stock untouched; success stores the order and lowers each count by its total qty |
| OrderRoutes.PlaceOrderAddsOne | server/src/routes/orders.js:111-125 | with an id not yet in the store, a successful order adds exactly that one order and keeps every other order as it was |
| OrderRoutes.OrderService.PlaceOrder | server/src/routes/orders.js:83-151 | the two loops (check, then decrement in place) give exactly the response and the store that PlaceOrderStep describes |
| OrderRoutes.NotifyPaymentStep | server/src/routes/orders.js:226-251 | in order: missing order 404, neither admin nor owner 403, not UPI 400; otherwise paymentStatus becomes awaiting_confirmation whatever it was, the notification time is set, and the status is untouched |
| OrderRoutes.NotifyPaymentRepeat | server/src/routes/orders.js:240-244 | notifying twice succeeds again and differs from the first notification only in the timestamp |
| OrderRoutes.OrderService.NotifyPayment | server/src/routes/orders.js:226-251 | the in-place update gives exactly NotifyPaymentStep's response and store |
| OrderRoutes.ResolvePaymentStep | server/src/routes/orders.js:256-279 | non-admins 403; an action other than confirm/reject 400 before the lookup; missing order 404; confirm sets paid, paidAt, and placed → preparing only; reject sets failed and leaves status alone |
| OrderRoutes.ConfirmCoupling | server/src/routes/orders.js:266-269 | after a confirm the order is paid and not placed, and its status changed iff it was placed |
| OrderRoutes.OrderService.ResolvePayment | server/src/routes/orders.js:256-279 | the in-place update gives exactly ResolvePaymentStep's response and store |
| OrderRoutes.UpdateStatusStep | server/src/routes/orders.js:284-303 | non-admins 403; anything outside the five statuses 400; missing order 404; otherwise only the status field is overwritten |
| OrderRoutes.AnyStatusReachable | server/src/routes/orders.js:287-296 | an admin can move any stored order to any of the five statuses, whatever its current status |
| OrderRoutes.OrderService.UpdateStatus | server/src/routes/orders.js:284-303 | the overwrite gives exactly UpdateStatusStep's response and store |
| OrderRoutes.GetOrder | server/src/routes/orders.js:201-221 | the stored order is returned iff it exists and the caller is admin or owner (with the owner record present); otherwise 404, 403, or 500 when a non-admin reads an order whose user is gone |
| OrderRoutes.StatusesPartition | server/src/routes/orders.js:178-187 | the active statuses and the finished statuses are disjoint and cover all five |
| OrderRoutes.StatusFilter | server/src/routes/orders.js:176-187 | "all" admits every status, "completed" the finished ones, and any other query the active ones |
| OrderRoutes.AdminList | server/src/routes/orders.js:174-196 | an order is listed iff it is stored with a status the filter admits, newest first |
| OrderRoutes.UserOrders | server/src/routes/orders.js:157-169 | an order is listed iff it belongs to the caller, newest first |
| OrderRoutes.NormalizeRow | server/src/routes/orders.js:21-38 | each row keeps id, total, status, payment fields and line qty/price; the user name falls back to "Guest", the e-mail to "", and an empty line name is replaced by the menu name or a placeholder, never "" |
| OrderRoutes.ListOrders | server/src/routes/orders.js:14-40 | the rows are NormalizeRow of each stored order (owner and menu fallbacks included), taken in some permutation of the stored orders that is newest first |
| OrderRoutes.ListedRowsAreStored | server/src/routes/orders.js:16-38 | every listed row carries the id, total and status of some stored order |
| OrderRoutes.StoredOrdersAreListed | server/src/routes/orders.js:16-38 | every stored order appears as a row with its id, total and status |
| MenuRoutes.CreateStep | server/src/routes/menu.js:14-21 | the item is stored iff the draft passes schema validation; otherwise 400 with the store unchanged |
| MenuRoutes.UpdateStep | server/src/routes/menu.js:24-32 | unknown id 404 with the store unchanged; otherwise the patched item is stored and returned, other items untouched |
| MenuRoutes.DeleteStep | server/src/routes/menu.js:35-39 | unknown id 404; otherwise exactly that item is removed and the rest are kept |
| MenuRoutes.PurchaseStep | server/src/routes/menu.js:42-63 | unknown id 404; count ≤ 0 "Out of stock"; an item that fails the validators `save()` re-runs (empty name, negative price) 500; all three change nothing. Otherwise that count drops by exactly one (staying ≥ 0) and nothing else changes |
| MenuRoutes.NegativePriceBlocksPurchase | server/src/routes/menu.js:24-56 | a negative price stored through the unvalidated update makes every later purchase of that in-stock item fail on save |
| MenuRoutes.PurchasesNeverOverdraw | server/src/routes/menu.js:51-56 | any sequence of purchases keeps non-negative stock non-negative |
| MenuRoutes.IncCount | server/src/routes/orders.js:127-133 | the count of the named item changes by delta; other items and a missing id leave the store unchanged |
| MenuRoutes.ListMenu | server/src/routes/menu.js:8-11 | every stored item, newest first |
| MenuRoutes.MenuCollection.Create | server/src/routes/menu.js:14-21 | the insert matches CreateStep |
| MenuRoutes.MenuCollection.Update | server/src/routes/menu.js:24-32 | the in-place update matches UpdateStep |
| MenuRoutes.MenuCollection.Delete | server/src/routes/menu.js:35-39 | the removal matches DeleteStep |
| MenuRoutes.MenuCollection.Purchase | server/src/routes/menu.js:42-63 | the in-place decrement matches PurchaseStep |
| MenuRoutes.MenuCollection.IncrementCount | server/src/routes/orders.js:127-133 | the `$inc` update matches IncCount |
| AuthGuard.BearerToken | server/src/middleware/auth.js:10-15 | a token exists iff the header is present and starts with "Bearer "; the token is the second space-separated segment |
| AuthGuard.BearerTokenRoundTrip | server/src/middleware/auth.js:11-15 | "Bearer " followed by a space-free token yields that token |
| AuthGuard.RequireAuth | server/src/middleware/auth.js:8-42 | no bearer header 401; a failed verification 401; an admin claim yields {id or "admin", admin, "Admin"} with no lookup; otherwise a found user with role defaulting to "user", else 401 |
| AuthGuard.AdminAccess | server/src/middleware/auth.js:8-52 | a request passes requireAuth and adminOnly iff its token verifies with an admin claim or names a stored admin user |
| OtpAuth.GenerateOtp | server/src/routes/auth.js:28 | the OTP is a six-digit integer in [100000, 999999] |
| OtpAuth.SendOtpStep | server/src/routes/auth.js:10-58 | missing fields 400 and a verified user "already registered", both without writing. Otherwise one unverified record for the e-mail holds the new hash, OTP and expiry now + 10 minutes, and an existing record keeps its name, id and role; the reply is "OTP sent", or 500 when the mail fails after the write. E-mail uniqueness and verified records are preserved |
| OtpAuth.UserCollection.SendOtp | server/src/routes/auth.js:10-58 | the in-place update matches SendOtpStep and keeps the collection keyed by e-mail |
| OtpAuth.VerifyOtpStep | server/src/routes/auth.js:61-104 | in order: unknown 404, already verified 400, OTP text mismatch 400 InvalidOtp, now > expiry 400 OtpExpired; success iff the OTP text matches and now ≤ expiry. Success sets verified and clears the OTP and expiry; failures write nothing |
| OtpAuth.UserCollection.VerifyOtp | server/src/routes/auth.js:61-104 | the in-place update matches VerifyOtpStep |
| OtpAuth.SentCodeVerifies | server/src/routes/auth.js:28-75 | the code just sent verifies at any time up to the expiry |
| OtpAuth.SecondVerifyFails | server/src/routes/auth.js:68-81 | after a successful verify, any further verify is refused as already verified and writes nothing |
| OtpAuth.VerifiedIsFinal | server/src/routes/auth.js:18-22 | over any sequence of send-otp and verify-otp requests a verified record never changes and e-mails stay unique |
| OtpAuth.OnlyVerifySetsVerified | server/src/routes/auth.js:77-81 | the only request that turns an unverified record verified is a successful verify-otp for that e-mail |
| OtpAuth.LoginStep | server/src/routes/auth.js:107-158 | admin login succeeds iff both configured values match (else 401). User login: unknown 404, unverified 400, missing password or hash 500, wrong password 400 InvalidPassword; success iff the password matches the stored hash |
| NecAuth.Register | canteen-ms/server/src/routes/auth.js:13-61 | in order: blank fields 400, e-mail outside the campus domain 400, taken e-mail 409, all without writing; success adds exactly that e-mail with role "user" |
| NecAuth.Accounts.RegisterUser | canteen-ms/server/src/routes/auth.js:13-61 | the insert matches Register |
| NecAuth.RegisterOnlyAdds | canteen-ms/server/src/routes/auth.js:29-44 | registering never changes an existing account and keeps e-mails unique |
| NecAuth.RegisterTwiceTaken | canteen-ms/server/src/routes/auth.js:30-33 | registering the same e-mail again is refused with 409 |
| NecAuth.Login | canteen-ms/server/src/routes/auth.js:66-114 | admin login succeeds iff both configured values match (else 401). User login: blank fields 400; unknown e-mail and wrong password both give the same 401 InvalidCredentials; a record without a hash 500; success iff the account exists and the password matches |
| NecAuth.RegisterThenLogin | canteen-ms/server/src/routes/auth.js:39-109 | a freshly registered account logs in with its password and gets the same session |
| NecAuth.UserLoginIsNeverAdmin | canteen-ms/server/src/routes/auth.js:101-108 | a successful user login always carries role "user" |
| NecAuth.Me | canteen-ms/server/src/routes/auth.js:119-130 | a missing or empty header is 401 "No token provided"; no second segment or a token that does not verify is 401 "Invalid token"; otherwise the claims of the second header segment |
| NecAuth.MeAgreesWithRequireAuth | canteen-ms/server/src/routes/auth.js:119-130 | on a bearer header, `/me` accepts exactly the tokens the middleware accepts |
| Common.BlankIsTrimTest | canteen-ms/server/src/routes/auth.js:18 | a field is blank iff it is missing or trims to "" |
| ProtectedRoute.GetAuth | canteen-ms/client/src/components/ProtectedRoute.jsx:3-9 | the stored user is present iff its text is non-empty and parses |
| ProtectedRoute.Guard | canteen-ms/client/src/components/ProtectedRoute.jsx:11-16 | the children render iff there is a token and a user, and, when roles are given, the user's role is among them; otherwise redirect to "/" |
| ProtectedRoute.MalformedUserIsLoggedOut | canteen-ms/client/src/components/ProtectedRoute.jsx:7-13 | unparsable stored user text behaves exactly like no user and redirects |
| CartPage.ClampQuantity | client/src/pages/Cart.jsx:27 | the stored quantity is the parsed value when it is ≥ 1, else 1; always ≥ 1 |
| CartPage.WithQuantity | client/src/pages/Cart.jsx:25-30 | only the entry at idx changes, to the clamped qty; length kept; positive quantities preserved |
| CartPage.RemoveAt | client/src/pages/Cart.jsx:32-36 | exactly position idx is removed and the rest keep their order |
| CartPage.RemoveAtTotal | client/src/pages/Cart.jsx:20-36 | removing a line lowers the total by exactly that line's amount |
| CartPage.ItemIdOf | client/src/pages/Cart.jsx:52 | the item id is itemId, else _id, else id |
| CartPage.Payload | client/src/pages/Cart.jsx:50-60 | one request line per cart entry with the id chosen as above and name/qty/price copied, plus the chosen type, notes and method |
| CartPage.TotalAgreesWithServer | client/src/pages/Cart.jsx:20-23 | the cart's displayed total equals the total the server computes for the payload it sends |
| CartPage.CartView.constructor | client/src/pages/Cart.jsx:7-10 | the page starts with the saved cart, dine-in, cod and empty notes |
| CartPage.CartView.UpdateQuantity | client/src/pages/Cart.jsx:25-30 | the cart becomes WithQuantity of the old cart; other state unchanged |
| CartPage.CartView.RemoveItem | client/src/pages/Cart.jsx:32-36 | the cart becomes RemoveAt of the old cart |
| CartPage.CartView.ClearCart | client/src/pages/Cart.jsx:38-41 | the cart becomes empty |
| CartPage.CartView.PlaceOrder | client/src/pages/Cart.jsx:43-78 | an empty cart sends nothing; otherwise the payload is sent, and the cart is cleared only after a created cod order (kept for upi, which goes to payment) |
| MenuPage.InitialQuantities | client/src/pages/Menu.jsx:18-20 | every loaded item, and nothing else, starts with quantity 1 |
| MenuPage.QuantityChanged | client/src/pages/Menu.jsx:30-35 | the edited item's quantity becomes the parsed value if it is ≥ 1, else exactly 1; other items unchanged |
| MenuPage.ChosenQuantity | client/src/pages/Menu.jsx:39 | the quantity added is the stored one (≥ 1) or 1 when none is stored |
| MenuPage.IndexOfItem | client/src/pages/Menu.jsx:40 | the index of the first cart entry with that item id, or -1 when there is none |
| MenuPage.AddedToCart | client/src/pages/Menu.jsx:37-50 | an existing entry's qty grows by the chosen qty and nothing else changes; otherwise a new entry is appended |
| MenuPage.AddToCart | client/src/pages/Menu.jsx:37-50 | the in-place merge (`+=` or push) yields AddedToCart with the chosen quantity |
| MenuPage.AddKeepsItemsUnique | client/src/pages/Menu.jsx:40-46 | adding preserves "at most one entry per item id" |
| MenuPage.FilteredItems | client/src/pages/Menu.jsx:52-56 | an item is shown iff its lower-cased name contains the lower-cased search and the category is "All" or matches, in the original order |
| MenuPage.UnfilteredShowsAll | client/src/pages/Menu.jsx:52-56 | an empty search with "All" shows every item |
| MenuPage.StockButtonVersusServer | client/src/pages/Menu.jsx:111-113 | the button is disabled only at a count of exactly 0, so an item with a negative count can be added, yet order placement refuses it as insufficient stock and the purchase route as out of stock |
| DashboardPage.Normalize | canteen-ms/client/src/pages/Dashboard.jsx:31 | a missing status becomes "", and every stored status name is already normal |
| DashboardPage.ActiveOrder | canteen-ms/client/src/pages/Dashboard.jsx:33-36 | none iff no order is placed or preparing; otherwise the first such order |
| DashboardPage.History | canteen-ms/client/src/pages/Dashboard.jsx:38-41 | the in-order sublist of ready, completed and cancelled orders, disjoint from the active candidates |
| DashboardPage.StoredOrdersSplit | canteen-ms/client/src/pages/Dashboard.jsx:31-41 | every stored order is either an active candidate (placed or preparing) or in history, never both |
| DashboardPage.Reorder | canteen-ms/client/src/pages/Dashboard.jsx:49-62 | one cart entry per order line, with the item id, name, price and qty copied |
| DashboardPage.ReorderRoundTrip | canteen-ms/client/src/pages/Dashboard.jsx:49-62 | reordering and then checking out sends exactly the original order's lines |
| DashboardPage.CurrentStep | canteen-ms/client/src/pages/Dashboard.jsx:205-206 | the step is the position of the lower-cased status among placed, preparing, ready, completed, or -1 |
| DashboardPage.ProgressOfStoredOrder | canteen-ms/client/src/pages/Dashboard.jsx:204-216 | stored statuses sit at steps 0..3 and cancelled at -1, so a cancelled order shows no step done |
| DashboardPage.ConfirmLightsPreparing | canteen-ms/client/src/pages/Dashboard.jsx:204-216 | confirming the payment of a placed order moves its bar from step 0 to "preparing" done and "ready" not done |
| AdminDashboard.KeysListEachNameOnce | client/src/pages/AdminDashboard.jsx:62-71 | the counted names are exactly the names on some line, each listed once |
| AdminDashboard.TallyCountsEachName | client/src/pages/AdminDashboard.jsx:62-68 | a name is counted iff some line has it, and its count is the sum of (qty ‖ 0) over its lines |
| AdminDashboard.CountItems | client/src/pages/AdminDashboard.jsx:62-68 | the nested loops build exactly the tally and its first-seen key order |
| AdminDashboard.CountOrder | client/src/pages/AdminDashboard.jsx:64-67 | the inner loop extends the tally of the lines seen so far by one order's lines |
| AdminDashboard.FirstMaxIndex | client/src/pages/AdminDashboard.jsx:69-71 | the chosen entry has a maximal count and every earlier entry a strictly smaller one (stable sort) |
| AdminDashboard.TopItem | client/src/pages/AdminDashboard.jsx:69-71 | "-" when nothing was counted; otherwise the first key with maximal count (ties go to the earliest key), or "-" when that name is empty |
| AdminDashboard.RevenueOfAppend | client/src/pages/AdminDashboard.jsx:57-61 | revenue is additive over concatenation |
| AdminDashboard.SummaryOf | client/src/pages/AdminDashboard.jsx:57-72 | totalOrders is the number of orders, totalRevenue the sum of (totalAmount ‖ 0), and a top item other than "-" is the name of a sold line |
| AdminDashboard.Summarize | client/src/pages/AdminDashboard.jsx:57-72 | the method computes exactly SummaryOf, for all orders and for the weekly subset alike |
| AdminDashboard.TopItemIsBestSeller | client/src/pages/AdminDashboard.jsx:62-71 | no item on any line was sold more than the top item |
| AdminDashboard.TopItemIsNamed | client/src/pages/AdminDashboard.jsx:62-72 | when some line was sold and no line name is empty, the summary's top item is the name of a sold line |
| AdminDashboard.ExportRows | client/src/pages/AdminDashboard.jsx:100-118 | one row per order with "name xqty" items joined by ", ", and a SUMMARY row last only when a summary is passed |
| AdminDashboard.SummaryRowBalances | client/src/pages/AdminDashboard.jsx:112-118 | the SUMMARY row's total equals the sum of the order rows above it |

## Left out

- The stats aggregation route (`/orders/stats`) and `canteen-ms/server/src/routes/admin.js` are database aggregation pipelines and query glue; they are not part of this model.
- E-mail delivery (`sendOrderEmail`, `sendOtpEmail`) is I/O. An order e-mail failure is swallowed and does not change the response. A send-otp e-mail failure is the parameter `mailSent`, which turns the reply into a 500 after the record is saved.
- Concurrency: handlers are sequential atomic steps. The race between the stock check and the decrement of concurrent place-order requests is not modelled, and neither is an atomic-decrement fix, which the code lacks.
- Mongoose cast errors on malformed ObjectIds (which surface as 500) are not modelled: ids are plain strings and an unknown id is simply absent.
- OrderRoutes.PlaceOrderStep: a failing `$inc` after the order was created is not modelled; the decrement of an id absent from the store is a no-op, as with `updateOne`.
- OrderRoutes.Decrement: a line with a missing qty makes the source's `$inc` amount NaN; the model decrements by 0 in that case (the schema rejects such an order before the decrement anyway).
- MenuRoutes.UpdateStep: the update body's category is an enum value, so an out-of-range category that the unvalidated update would store (and that would then make a purchase's `save()` fail) is not represented; the `trim` setter on the updated name is not applied either.
- The `lowercase`/`trim` setters on the User e-mail and name are not applied: the e-mail is the exact map key.
- A verify-otp or login body without an e-mail is taken as the empty string, which matches no stored user.
- Lower-casing and trimming are ASCII and the JavaScript whitespace set listed in `common.dfy`; full Unicode case mapping is not modelled.
- `Object.entries` lists integer-like keys first; AdminDashboard.KeysInOrder uses first-insertion order for every name.
- `populate`: rows and views carry the referenced id instead of the populated document. In reorder, the cart entry takes the line's item id.
- CartPage.CartView.UpdateQuantity: the source mutates the shared entry object (`updated[idx].qty = …`) inside a shallow copy; the model replaces the entry value, so aliasing between the old and new cart arrays is not captured.
- Dashboard `cartCount` (the length of the saved cart) is a display read of local storage and is not modelled.
- AdminDashboard's today/week date windows, the charts, the XLSX workbook writing, `saveAs` and the file name are left out. The weekly summary is modelled as the same SummaryOf applied to whatever subset is passed.
- Local storage and `JSON.parse` become parameters (a saved cart value, a `parse` function). `parseInt` is a parameter `string -> Option<int>` that is resolved before the model is called.
- Floating point: prices, quantities and totals are integers, and `toFixed` display is ignored.
- Token signing, expiry and verification are a `verify` function from token to optional claims. bcrypt hashing and comparison are a `hashed` value and a `matches` function. `Math.random` enters as the integer draw `Math.floor(Math.random() * 900000)`, a value in [0, 900000). The clock is a natural number of milliseconds.
- The canteen-ms User model file is not part of this model: the server's User shape (`server/src/models/User.js`) is reused for both account flows.
- The admin dashboard's nested `forEach` is split into two methods, with the inner loop as `CountOrder`.
