# Food-ordering server routes, page guard and cart page, in Dafny

This project models the core of a Next.js and Prisma food-ordering
application. Users are ADMIN, MANAGER or MEMBER, and each belongs to a
country. Restaurants serve menu items. A user's cart moves through the
statuses PENDING, ORDERED, COMPLETED and CANCELLED.

The model covers:

- the writing API routes:
  - adding to a cart, with the `increment`, `decrement` and `delete` types;
  - placing an order, for yourself or on behalf of a customer whose phone
    number is given;
  - cancelling an order;
  - changing the payment method of a completed cart;
- the reading routes:
  - restaurants, filtered by country;
  - a restaurant's menu;
  - the pending cart;
  - a customer's ordered cart;
  - a customer's latest cart;
- the edge middleware that guards the protected pages;
- the cart page's quantity handler and its two totals.

The database is a value `Db`: one sequence of rows per table, kept in storage
order (`schema.dfy`). The Prisma queries the routes use become functions over
those sequences (`tables.dfy`):

- `findFirst` is the first row that matches;
- `findMany` keeps the matching rows in order;
- `orderBy … desc` with a single result is the row with the greatest key;
- an `update` or `updateMany` rewrites every row that matches.

Each route is a function from the database and the request to an `Outcome`,
which holds the HTTP response and the database afterwards. The response
carries a status and a payload, and messages are named constructors
(`http.dfy`).

The four writing routes are also a `class Store` (`store.dfy`). Its table
fields are updated one statement at a time, in the route's order. Each
method is proved to end in the state, and to return the response, that the
route's function gives. Each method also keeps the store's invariant:
- line ids are unique;
- each line's subtotal is its quantity times its item's price.

The cart page's handler is a `class Page` that holds the page state
(`cart_page.dfy`).

The access token is abstracted to three cases:
- missing;
- undecodable (`Invalid`);
- decoded claims, where each claim may be absent.

The token's truthiness tests (`!userId`) are `Present`, which treats an
absent value and the empty string the same way.

Behaviour of the source that looks unintended is modelled as written:

- **The cart route never creates a cart.** When there is no PENDING cart,
  the restaurant check already answers 400, so the creation branch is
  unreachable.
- **Removing the last unit of a line leaves the cart's total wrong.**
  - The route first takes one unit off the line and the total.
  - It then deletes the line and takes the line's original subtotal off
    the total a second time.
  - So the total ends one item price below the sum of the remaining lines
    (`CartAdd.RemovingDecrementBreaksTotal`). Every other branch keeps each
    total equal to the sum of its lines.
- **An unrecognised `type` still adds a line.** When the cart has no line
  for the item, the route adds one whatever `type` says. An unrecognised
  `type` is refused with 400 only when a line already exists.
- **A MEMBER can order on a customer's behalf.** The order route orders for
  the caller only when the caller's role is the string `"USER"` or the body's
  `phoneNo` is `null`. The schema's roles are ADMIN, MANAGER and MEMBER, so
  any caller whose `phoneNo` is not `null` takes the proxy branch. That
  includes a `phoneNo` left out of the body. A role `"USER"` orders for
  itself even when it gives a phone number.
- **Some missing values answer 500.**
  - A decoded token without a user id makes the restaurant route's user
    lookup throw.
  - A `phoneNo` left out of the order body takes the proxy branch. There the
    customer lookup has an undefined key and throws.
  - A token without a phone claim makes the order-listing route's customer
    lookup throw.
  - A missing customer makes the order-listing route, and the latest-order
    route, read `.id` of null.
- **An unknown user sees every restaurant.** An unknown user has no
  country, so the country filter is dropped.

## Model

| member | source | states |
|---|---|---|
| Tables.FirstPendingCart | src/app/api/order/create/route.tsx:75-84 | the cart found is a PENDING cart of the user; none is found exactly when the user has no PENDING cart |
| Tables.LatestPendingCart | src/app/api/cart/add/route.tsx:39-47 | the cart found is a PENDING cart of the user with the greatest creation time; none exactly when the user has no PENDING cart |
| Tables.LatestCartOf | src/app/api/order/fetch/latest/route.tsx:106-131 | the cart found is one of the customer's carts with the greatest update time; none exactly when the customer has no cart |
| Tables.FindLine | src/app/api/cart/add/route.tsx:75-80 | the line found belongs to the cart and the item; none exactly when the cart has no line for the item |
| Tables.FindItem | src/app/api/cart/add/route.tsx:56-62 | the item found has the requested id; none exactly when no item has it |
| Tables.FindUser | src/app/api/cart/fetch/route.tsx:72-82 | the user found has the requested id; none exactly when no user has it |
| Tables.FindUserByPhone | src/app/api/order/create/route.tsx:64-73 | the user found has the requested phone number; none exactly when no user has it |
| Tables.FindCartWithStatus | src/app/api/order/cancel/route.tsx:56-65 | the cart found has the id and the status; none exactly when no cart has both |
| Tables.Where | src/app/api/fetch/restaurants/route.tsx:43-69 | a `findMany`: exactly the rows that match, never more rows than the table |
| Tables.WhereHead | src/app/api/cart/fetch/route.tsx:84-108 | `findMany` returns some row exactly when `findFirst` finds one, and its first row is the one `findFirst` finds |
| Tables.SetLineAt | src/app/api/cart/add/route.tsx:83-105 | a line update changes quantity and subtotal of the line with that id and of no other row |
| Tables.AddToTotalAt | src/app/api/cart/add/route.tsx:93-100 | a total update adds the amount to the cart with that id and leaves every other row alone |
| Tables.SetStatus | src/app/api/order/cancel/route.tsx:67-72 | the update sets the status of the cart with that id and changes nothing else |
| Tables.SetPaymentMethod | src/app/api/order/payment/modify/route.tsx:102-108 | the update sets the payment method of the cart with that id and changes nothing else |
| Tables.PlaceOrder | src/app/api/order/create/route.tsx:86-90 | the update turns the caller's PENDING cart with that id to ORDERED under its new owner and changes no other row |
| Tables.PlaceOrderTakes | src/app/api/order/create/route.tsx:86-90 | after the update, the PENDING cart is no longer in the table |
| Tables.SetLineSum | src/app/api/cart/add/route.tsx:83-105 | changing one line's subtotal moves its cart's line sum by the difference and no other cart's sum |
| Tables.RemoveLineSum | src/app/api/cart/add/route.tsx:148-165 | deleting a line takes its subtotal off its cart's line sum and no other cart's sum |
| Tables.AppendLineSum | src/app/api/cart/add/route.tsx:174-195 | a new line adds its subtotal to its cart's line sum and no other cart's sum |
| Tables.RemoveAfterSet | src/app/api/cart/add/route.tsx:124-143 | updating a line and then deleting it leaves the same lines as deleting it |
| Tables.AddToTotalTwice | src/app/api/cart/add/route.tsx:124-143 | two total updates of one cart are one update by their sum |
| Tables.SetLineKeepsIds | src/app/api/cart/add/route.tsx:83-105 | a line update keeps line ids unique |
| Tables.RemoveLineKeepsIds | src/app/api/cart/add/route.tsx:148-165 | a deletion keeps line ids unique |
| Tables.AppendKeepsIds | src/app/api/cart/add/route.tsx:174-195 | a new line with a fresh id keeps line ids unique |
| CartAdd.Authorize | src/app/api/cart/add/route.tsx:15-62 | 401 exactly without a token or user id; 400 exactly for a missing body field or no latest PENDING cart of the requested restaurant; 404 exactly for an unknown item; otherwise passes that cart and item |
| CartAdd.ChangeOf | src/app/api/cart/add/route.tsx:83-171 | the three `type` strings the route recognises, each to its own change |
| CartAdd.Mutate | src/app/api/cart/add/route.tsx:75-195 | answers 400 exactly when a line exists and `type` is unrecognised, with the store unchanged; otherwise 200; users, restaurants and items never change |
| CartAdd.AddToCart | src/app/api/cart/add/route.tsx:15-201 | any answer but 200 leaves the store as it was; the answer is 200, 400, 401 or 404; no cart is ever created |
| CartAdd.NewLineForAnyType | src/app/api/cart/add/route.tsx:174-195 | without a line, any `type` adds a one-unit line priced at the item and adds that price to the cart's lines |
| CartAdd.DecrementLastUnitLines | src/app/api/cart/add/route.tsx:106-143 | the last-unit decrement's lines are those of the route's line update followed by its deletion |
| CartAdd.DecrementLastUnitCarts | src/app/api/cart/add/route.tsx:106-143 | the last-unit decrement's totals are those of its two total updates, one after the other |
| CartAdd.AddLineKeepsTotals | src/app/api/cart/add/route.tsx:174-195 | a new line keeps every cart's total equal to the sum of its lines |
| CartAdd.IncrementLineKeepsTotals | src/app/api/cart/add/route.tsx:83-105 | an increment keeps every total equal to the sum of its lines |
| CartAdd.DecrementLineKeepsTotals | src/app/api/cart/add/route.tsx:106-123 | a decrement of a line of more than one unit keeps every total equal to the sum of its lines |
| CartAdd.DeleteLineKeepsTotals | src/app/api/cart/add/route.tsx:148-165 | a deletion keeps every total equal to the sum of its lines |
| CartAdd.AddLineKeepsLinePrices | src/app/api/cart/add/route.tsx:174-195 | the new line's subtotal is its quantity times its item's price, like every other line's |
| CartAdd.IncrementLineKeepsLinePrices | src/app/api/cart/add/route.tsx:83-105 | after an increment every subtotal is still quantity times item price |
| CartAdd.DecrementLineKeepsLinePrices | src/app/api/cart/add/route.tsx:106-123 | after a decrement every subtotal is still quantity times item price |
| CartAdd.DecrementLastUnitKeepsLinePrices | src/app/api/cart/add/route.tsx:124-143 | after the last-unit decrement every subtotal is still quantity times item price |
| CartAdd.DeleteLineKeepsLinePrices | src/app/api/cart/add/route.tsx:148-165 | after a deletion every subtotal is still quantity times item price |
| CartAdd.AddLineKeepsIds | src/app/api/cart/add/route.tsx:174-195 | a new line with a fresh id keeps line ids unique |
| CartAdd.DecrementLastUnitKeepsIds | src/app/api/cart/add/route.tsx:124-143 | the last-unit decrement keeps line ids unique |
| CartAdd.RemovalShortfall | src/app/api/cart/add/route.tsx:124-143 | taking a unit price and the line's subtotal off a matched total leaves it one unit price below the remaining lines' sum |
| CartAdd.RemovalBreaksTotals | src/app/api/cart/add/route.tsx:124-143 | with a non-zero unit price, that double subtraction breaks the totals invariant |
| CartAdd.RemovingDecrementBreaksTotal | src/app/api/cart/add/route.tsx:106-143 | after the last-unit decrement the cart's total is its lines' sum minus the item's price, so a priced item breaks the invariant |
| CartAdd.MutateKeepsLineIds | src/app/api/cart/add/route.tsx:75-195 | every branch keeps line ids unique, given a fresh id for a new line |
| CartAdd.MutateKeepsTotals | src/app/api/cart/add/route.tsx:75-195 | every branch except the last-unit decrement keeps each total equal to the sum of its lines |
| CartAdd.MutateKeepsLinePrices | src/app/api/cart/add/route.tsx:75-195 | every branch keeps each subtotal equal to quantity times item price |
| CartAdd.AddToCartKeepsLineIds | src/app/api/cart/add/route.tsx:15-201 | the route keeps line ids unique |
| CartAdd.AddToCartKeepsTotals | src/app/api/cart/add/route.tsx:15-201 | every request except one that reaches the last-unit decrement keeps every total equal to its lines' sum |
| CartAdd.AddToCartKeepsLinePrices | src/app/api/cart/add/route.tsx:15-201 | the route keeps each subtotal equal to quantity times item price |
| CartAdd.DecrementRemovalBreaksTotal | src/app/api/cart/add/route.tsx:106-147 | a request that reaches the last-unit decrement leaves its cart's total one item price below its lines' sum, breaking the invariant for a priced item |
| CartAdd.MutateMovesOneTotal | src/app/api/cart/add/route.tsx:75-195 | the writes change no cart but the one the request is for, and only its total |
| CartAdd.AddToTotalMoves | src/app/api/cart/add/route.tsx:93-100 | a total update changes only that cart's total |
| CartAdd.AddToCartKeepsCarts | src/app/api/cart/add/route.tsx:15-201 | the carts keep their places and every field but the total |
| CartAdd.OnlyTotalMovedAt | src/app/api/cart/add/route.tsx:75-195 | "only one total moved" means the same carts in the same places, equal but for the total, and other carts untouched |
| Server.Store.constructor | src/app/api/cart/add/route.tsx:7 | the store starts with the given tables |
| Server.Store.AddToCart | src/app/api/cart/add/route.tsx:15-201 | the statements leave the store and answer the response that `CartAdd.AddToCart` gives; they keep unique line ids and matching subtotals |
| Server.Store.ApplyChange | src/app/api/cart/add/route.tsx:75-195 | the branch's statements leave the store and response that `CartAdd.Mutate` gives |
| Server.Store.AddLine | src/app/api/cart/add/route.tsx:174-195 | the insert and total update give `CartAdd.AddLine` |
| Server.Store.IncrementLine | src/app/api/cart/add/route.tsx:83-105 | the line and total updates give `CartAdd.IncrementLine` |
| Server.Store.DecrementLine | src/app/api/cart/add/route.tsx:106-147 | the updates give `CartAdd.DecrementLine` on a line of more than one unit; with the deletion that follows, they give `CartAdd.DecrementLastUnit` |
| Server.Store.DeleteLine | src/app/api/cart/add/route.tsx:148-165 | the delete and total update give `CartAdd.DeleteLine` |
| Server.Store.CreateOrder | src/app/api/order/create/route.tsx:15-101 | the statements give `OrderCreate.CreateOrder` and keep the store's invariant |
| Server.Store.CancelOrder | src/app/api/order/cancel/route.tsx:15-86 | the statements give `OrderCancel.CancelOrder` and keep the store's invariant |
| Server.Store.ModifyPayment | src/app/api/order/payment/modify/route.tsx:15-118 | the statements give `PaymentModify.ModifyPayment` and keep the store's invariant |
| OrderCreate.Caller | src/app/api/order/create/route.tsx:15-38 | 401 exactly without a token or user id; otherwise passes the user with that id, and 404 when there is none |
| OrderCreate.CreateOrder | src/app/api/order/create/route.tsx:15-101 | only the carts change, and only on 200; 500 exactly for a proxy order without a phone number |
| OrderCreate.OrderSucceedsWhen | src/app/api/order/create/route.tsx:40-95 | 200 exactly when the caller exists, has a PENDING cart, and orders for themselves or names a known customer's phone |
| OrderCreate.OrderMovesOneCart | src/app/api/order/create/route.tsx:41-56 | a successful order turns the caller's first PENDING cart to ORDERED under its new owner, and leaves every cart it does not match as it was |
| OrderCreate.OrderedCartLeavesPending | src/app/api/order/create/route.tsx:53-56 | the ordered cart is no longer in the table as a PENDING cart |
| OrderCreate.SelfOrderKeepsOwners | src/app/api/order/create/route.tsx:40-62 | a self order changes no cart's owner |
| OrderCreate.ProxyOrderHandsOver | src/app/api/order/create/route.tsx:64-95 | a proxy order needs a phone number, and every changed cart now belongs to a user with that phone |
| OrderCreate.NoPendingCartNoOrder | src/app/api/order/create/route.tsx:41-49 | without a PENDING cart nothing changes, and the answer is 404 or 500 |
| OrderCancel.Canceller | src/app/api/order/cancel/route.tsx:15-54 | 400 exactly without a cart id; 401 exactly without a token or user id; 404 exactly for an unknown user; 403 exactly for a known user who is neither MANAGER nor ADMIN; passes exactly a known MANAGER or ADMIN |
| OrderCancel.CancelOrder | src/app/api/order/cancel/route.tsx:15-86 | only the carts change, and only on 200; a refused caller gets the guard's answer; a permitted caller gets 200 exactly when an ORDERED cart has that id, and 404 otherwise |
| OrderCancel.CancelChangesOnlyStatus | src/app/api/order/cancel/route.tsx:67-72 | a cancel sets the status of the carts with that id to CANCELLED and changes nothing else |
| OrderCancel.CancelReturnsUpdatedCart | src/app/api/order/cancel/route.tsx:67-80 | the response carries the cancelled cart as it now is in the table |
| OrderCancel.CancelTwiceFails | src/app/api/order/cancel/route.tsx:56-65 | cancelling the same cart again answers 404 and changes nothing |
| OrderCancel.OnlyOrderedCancellable | src/app/api/order/cancel/route.tsx:56-65 | a cart that is not ORDERED cannot be cancelled: 404 and no change |
| PaymentModify.Modifier | src/app/api/order/payment/modify/route.tsx:15-93 | 400 exactly for a missing field or claim; 403 exactly for a known user who is not ADMIN; 404 exactly for an unknown user or, for an ADMIN, an unknown customer; passes exactly a known ADMIN with a known customer, and passes that customer |
| PaymentModify.ModifyPayment | src/app/api/order/payment/modify/route.tsx:15-118 | only the carts change, and only on 200; after the guard, 404 when no COMPLETED cart has that id and 403 when it belongs to another customer; 200 exactly when the guard passes and the COMPLETED cart belongs to the customer |
| PaymentModify.PaymentChangesOnlyMethod | src/app/api/order/payment/modify/route.tsx:102-112 | a change sets the payment method of the carts with that id and nothing else |
| PaymentModify.SetPaymentMethodTwice | src/app/api/order/payment/modify/route.tsx:102-108 | setting the same method twice is setting it once |
| PaymentModify.SetPaymentMethodKeepsLookup | src/app/api/order/payment/modify/route.tsx:95-108 | the COMPLETED cart is still found after the update, now with the new method |
| PaymentModify.ModifyPaymentIdempotent | src/app/api/order/payment/modify/route.tsx:15-118 | repeating a successful request gives the same response and the same store |
| FetchRestaurants.Formatted | src/app/api/fetch/restaurants/route.tsx:8-18 | each field of the listed restaurant is the stored field it is renamed from |
| FetchRestaurants.FormatRestaurants | src/app/api/fetch/restaurants/route.tsx:8-18 | one entry per restaurant, in order |
| FetchRestaurants.FetchRestaurants | src/app/api/fetch/restaurants/route.tsx:20-76 | 401 exactly for a missing or undecodable token; 500 exactly for a token without a user id; 200 otherwise |
| FetchRestaurants.ListingIsVisible | src/app/api/fetch/restaurants/route.tsx:43-71 | every restaurant the caller may see is listed, and every listed entry is one they may see |
| FetchRestaurants.AdminSeesAll | src/app/api/fetch/restaurants/route.tsx:43-50 | an ADMIN gets every restaurant |
| FetchRestaurants.UnknownUserSeesAll | src/app/api/fetch/restaurants/route.tsx:38-69 | a caller with no user row gets every restaurant |
| FetchRestaurants.OthersSeeOwnCountry | src/app/api/fetch/restaurants/route.tsx:51-69 | any other user gets the restaurants of their own country, in order |
| FetchMenu.RestaurantName | src/app/api/fetch/menu/route.tsx:17-26 | the name of the item's restaurant, or empty when there is none |
| FetchMenu.MenuEntry | src/app/api/fetch/menu/route.tsx:17-26 | each menu field is the item field it is renamed from |
| FetchMenu.MapItemsToMenu | src/app/api/fetch/menu/route.tsx:17-26 | one entry per item, in order |
| FetchMenu.Reader | src/app/api/fetch/menu/route.tsx:30-90 | 401 exactly without a usable token or user id, or for a known user without a restaurant claim; 400 exactly for an unknown user or restaurant; passes exactly a known user with a known restaurant, and passes both |
| FetchMenu.FetchMenu | src/app/api/fetch/menu/route.tsx:28-151 | a refused caller gets the guard's answer; 200 carries a non-empty menu, and happens exactly when the branch's item query finds an item |
| FetchMenu.MenuIsTheRestaurants | src/app/api/fetch/menu/route.tsx:92-145 | every menu entry is the entry of an item of the restaurant in the token, in the caller's country unless the caller is an ADMIN, and names that restaurant |
| FetchMenu.AdminMenuIsComplete | src/app/api/fetch/menu/route.tsx:122-145 | an ADMIN's menu lists every item of the restaurant |
| FetchMenu.ForeignMenuIsEmpty | src/app/api/fetch/menu/route.tsx:92-120 | a non-ADMIN asking for a restaurant of another country gets 400 |
| FetchMenu.HomeMenuIsFull | src/app/api/fetch/menu/route.tsx:92-120 | in the user's own country the country filter drops nothing |
| Listings.Joined | src/app/api/cart/fetch/route.tsx:84-108 | each line is joined with its item; a line whose item exists is kept and every joined line is one of the lines |
| Listings.ViewOf | src/app/api/cart/fetch/route.tsx:84-108 | a cart with its lines and their items: exactly the cart's lines whose item exists |
| Listings.ViewsOf | src/app/api/order/fetch/route.tsx:97-117 | one view per cart, in order |
| Listings.Entries | src/app/api/cart/fetch/route.tsx:37-51 | one listing entry per line, with the item's fields, the line's quantity and the category "Null" |
| Listings.ListingIsTheCart | src/app/api/cart/fetch/route.tsx:37-51 | every listed entry is one of the cart's lines, and every line of the cart whose item exists is listed |
| CartFetch.FormatCartItems | src/app/api/cart/fetch/route.tsx:37-51 | only the first cart is listed, one entry per line, without a cart id; an empty result lists nothing |
| CartFetch.PendingCarts | src/app/api/cart/fetch/route.tsx:84-108 | exactly the user's PENDING carts |
| CartFetch.FetchCart | src/app/api/cart/fetch/route.tsx:53-114 | 401 exactly without a token or user id; 404 exactly for an unknown user |
| CartFetch.CartListingIsFirstPending | src/app/api/cart/fetch/route.tsx:84-108 | the listing is that of the user's first PENDING cart, or empty when there is none |
| CartFetch.CartListingShowsLines | src/app/api/cart/fetch/route.tsx:84-108 | the listing shows exactly the lines of that cart |
| OrderFetch.FormatCartItems | src/app/api/order/fetch/route.tsx:37-52 | only the first cart is listed, one entry per line, with its cart id |
| OrderFetch.OrderedCarts | src/app/api/order/fetch/route.tsx:97-117 | exactly the customer's ORDERED carts |
| OrderFetch.Reader | src/app/api/order/fetch/route.tsx:54-90 | 401 exactly without a token or user id; 404 exactly for an unknown user; 403 exactly for a known user who is neither MANAGER nor ADMIN; passes exactly a known MANAGER or ADMIN |
| OrderFetch.FetchOrders | src/app/api/order/fetch/route.tsx:54-121 | a refused caller gets the guard's answer; a permitted caller gets 200 exactly when the phone claim names a known customer, and 500 otherwise |
| OrderFetch.OrderListingIsFirstOrdered | src/app/api/order/fetch/route.tsx:92-117 | the listing is that of the customer's first ORDERED cart, or empty |
| OrderFetch.OrderListingIsOrdered | src/app/api/order/fetch/route.tsx:97-117 | every listed entry is a line of an ORDERED cart of the customer, tagged with that cart's id |
| OrderFetchLatest.FormatCartItems | src/app/api/order/fetch/latest/route.tsx:37-49 | the single cart's lines, one entry each, with its cart id; nothing without a cart |
| OrderFetchLatest.Reader | src/app/api/order/fetch/latest/route.tsx:51-101 | 401 exactly without a token or user id; 404 exactly for an unknown user; 403 exactly for a known user who is neither MANAGER nor ADMIN; 400 exactly for a permitted user without a phone claim; passes exactly a permitted user with one |
| OrderFetchLatest.FetchLatest | src/app/api/order/fetch/latest/route.tsx:51-141 | a refused caller gets the guard's answer; a permitted caller gets 200 exactly when the phone names a known customer, and 500 otherwise |
| OrderFetchLatest.LatestListingIsNewestCart | src/app/api/order/fetch/latest/route.tsx:106-131 | the listing shows lines of the customer's most recently updated cart, whatever its status, or nothing |
| Middleware.Decide | src/middleware.ts:10-38 | a protected path without a session goes to login; a session without the needed role goes to unauthorized; anything else passes |
| Middleware.ProtectedMeansPrefix | src/middleware.ts:10-23 | a path is protected exactly when one of the protected prefixes starts it |
| Middleware.StartsWithAnyMeans | src/middleware.ts:10-23 | the prefix test holds exactly when some listed prefix starts the path |
| Middleware.NoSessionNeverUnauthorized | src/middleware.ts:10-36 | without a session the guard never sends to the unauthorized page |
| Middleware.PrefixMatchExamples | src/middleware.ts:10-36 | the checks are prefix tests: `/cartx`, `/checkout-old` and `/update-payment/x` are guarded like their prefixes |
| CartPage.Incremented | src/app/cart/page.tsx:157-162 | the entries with that id get one more unit; the others stay as they were |
| CartPage.Decremented | src/app/cart/page.tsx:163-173 | the entries with that id get one unit less, never below zero; the others stay as they were |
| CartPage.Without | src/app/cart/page.tsx:174-178 | exactly the entries without that id remain |
| CartPage.IncrementTotals | src/app/cart/page.tsx:157-162 | on the page totals, an increment raises the item count by the number of matching entries and the subtotal by their prices |
| CartPage.DeleteTotals | src/app/cart/page.tsx:174-178 | on the page totals, a delete lowers the item count and the subtotal by exactly what the removed entries held |
| CartPage.SumsSplit | src/app/cart/page.tsx:235-239 | both totals add up over a concatenation |
| CartPage.DecrementUndoesIncrement | src/app/cart/page.tsx:157-173 | with no negative quantity, a decrement undoes an increment |
| CartPage.DecrementKeepsNonNegative | src/app/cart/page.tsx:163-173 | decrementing never produces a negative quantity |
| CartPage.DeleteIdempotent | src/app/cart/page.tsx:174-178 | deleting twice is deleting once |
| CartPage.WithoutSplit | src/app/cart/page.tsx:174-178 | the filter distributes over a concatenation |
| CartPage.ListedSubtotalIsLineSum | src/app/cart/page.tsx:235-237 | when every line's subtotal is quantity times price, the page's subtotal for a listed cart equals the sum of the cart's stored line subtotals |
| CartPage.Page.constructor | src/app/cart/page.tsx:81-82 | the page starts with no entries and loading |
| CartPage.Page.HandleQuantityChange | src/app/cart/page.tsx:119-187 | while the session loads nothing changes; signed out, loading ends; signed in, loading ends and the entries are updated for `type` on status 200 and left as they were otherwise |
| CartPage.Page.ShownQuantity | src/app/cart/page.tsx:239 | the loop's result is the sum of the quantities |
| CartPage.Page.ShownSubtotal | src/app/cart/page.tsx:235-237 | the loop's result is the sum of price times quantity |

## Left out

- Verifying and decoding the JSON Web Token (`src/lib/jwttoken.ts`) is not modelled. A token is missing, undecodable, or decoded claims.
- The database client and its failures are not modelled. A thrown error, a failed connection or a `$disconnect` would answer 500 through the routes' `catch` blocks; only the throws the routes' own code causes are modelled.
- Concurrent requests are not modelled. The routes run their statements without a transaction, so two requests could interleave between a read and a write. Each route here runs alone.
- Prices are integers. The source stores floating-point prices, and the page rounds the subtotal with `toFixed(2)`.
- The response body's JSON encoding, the `success` flags and the exact message texts are left out. Messages are named constructors.
- The payment method is any string. The database's enum check on it is not modelled.
- A request body that is not valid JSON is not modelled. It would make `request.json()` throw, which the routes answer with 500.
- The `updatedAt` timestamps are not maintained by the updates. They are data read by the latest-cart route.
- CartAdd.AddToCart: the cart-creation branch (`src/app/api/cart/add/route.tsx:64-73`) is left out. It cannot be reached: without a PENDING cart the restaurant check already answers 400.
- Listings.Joined: a line whose item is missing is dropped from a listing. The database's foreign keys keep this from happening, and they are not modelled.
- Middleware.Decide: the `config.matcher` list (`src/middleware.ts:41-52`) is left out. The guard is modelled for every path.
- The authentication route, the profile route and the login, unauthorized, update-payment, restaurant and menu pages are not part of this model. They are rendering or session glue outside the core.
- CartPage.Page.HandleQuantityChange: the HTTP call is a parameter, its status. A network error without a response is treated like a status other than 200. The alerts are left out.
- The cart page's loading effect (`src/app/cart/page.tsx:88-117`) and its order handler are left out. They only fetch data and render it.
- CartPage.Page.ShownSubtotal: the `toFixed(2)` rounding is not modelled.
