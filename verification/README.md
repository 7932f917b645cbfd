# QuickBites cart and order state, in Dafny

A model of the state logic of the QuickBites food-ordering storefront:

- the **store context**: the static menu, the session cart (a map from menu item id to quantity),
  its one-step increment and decrement, clearing, sign-out, and the two aggregates (total amount
  and total item count);
- the **cart page** and **checkout page**: the flat delivery-fee rule, the menu-ordered list of
  cart lines, the rows and buttons of the cart page, the order row and line-item snapshot the
  checkout inserts, and the rule that the cart is cleared only after both inserts succeed;
- the **admin dashboard** and **customer order list**: the status vocabulary and its display
  fallbacks, the local status patch after an admin write, the status patch applied on a push
  notification, and the join of fetched orders with their line items.

Everything is a pure function over immutable values, except the three loops of the source
(summing the cart twice and the "remove all of this item" button), which are methods with loop
invariants. Calls to the hosted data store and the identity provider are not modelled: their
answers are parameters (`DbResult` is `Ok(value)` or `Err(message)`, and a fetch answer is
`OrdersResponse`), and a signed-in user is an `Option<string>` holding the user id.

The subtotal both pages display is `CartTotals.CartAmount`, the amount the store context's
key-by-key loop computes, stated entry by entry through the menu. It equals the sum of the listed
line totals only when menu ids are distinct, which the shipped menu's are
(`Catalog.FoodListWellFormed`); the properties that need that equality say so in their `requires`.

Files: `wrappers.dfy` (Option, DbResult), `catalog.dfy` (menu), `sums.dfy` (order-independent
sums over a map), `cart.dfy` (cart operations), `cart_totals.dfy` (aggregates, cart lines,
subtotal), `pricing.dfy` (fee rule), `cart_page.dfy`, `checkout.dfy`, `orders.dfy` (order
records, join, status patch), `admin.dfy`, `my_orders.dfy`.

Points where the code's behaviour may surprise a reader:

- The total item count sums every stored quantity, not only positive ones; under the cart
  invariant (every stored quantity is at least 1) the two agree.
- The checkout handler itself does not refuse an empty cart; the page redirects to the cart
  whenever the subtotal is 0, so the form that triggers the handler is never shown then.
  `Checkout.SubmitFromPage` models that gate.
- A failed fetch on the customer list only leaves the previous list in place; nothing is shown
  to the user (the admin list shows an error).
- The newest-first ordering and the owner filter of the order queries are done by the store;
  the model keeps whatever order the store returned.

## Model

| member | source | states |
|---|---|---|
| `Catalog.FoodListWellFormed` | src/context/StoreContext.tsx:36-145 | The shipped menu has twelve entries, all ids distinct, all prices positive. |
| `Catalog.Find` | src/context/StoreContext.tsx:196 | The lookup finds an entry iff some entry has the id, and then returns the first entry with it. |
| `CartStore.AddToCart` | src/context/StoreContext.tsx:173-178 | The quantity of the id becomes the previous quantity plus one, an absent key counting as 0; every other key keeps its quantity; the cart invariant is preserved. |
| `CartStore.RemoveFromCart` | src/context/StoreContext.tsx:180-190 | A quantity above 1 drops by exactly one; a quantity of 1 or less removes the key instead of storing 0; an absent key leaves the cart unchanged; other keys are untouched; the invariant is preserved. |
| `CartStore.ClearCart` | src/context/StoreContext.tsx:213-215 | Afterwards no id has a quantity and the cart has no keys. |
| `CartStore.SignOut` | src/context/StoreContext.tsx:217-220 | Sign-out leaves the same empty cart as clearing it. |
| `CartStore.ReplayKeepsValid` | src/context/StoreContext.tsx:173-190 | Any sequence of adds and removes applied to a valid cart yields a valid cart. |
| `CartStore.ReachableCartsValid` | src/context/StoreContext.tsx:148 | Starting from the empty initial cart, every reachable cart stores only quantities of at least 1. |
| `CartStore.AddThenRemove` | src/context/StoreContext.tsx:173-190 | Adding one of an item and removing one returns exactly the original cart. |
| `CartStore.RemoveThenAdd` | src/context/StoreContext.tsx:180-190 | Removing one of a present item and adding one back returns exactly the original cart. |
| `CartStore.AddTimesQty` | src/context/StoreContext.tsx:173-178 | n adds raise the item's quantity by n and change nothing else. |
| `CartStore.RemoveTimesQty` | src/context/StoreContext.tsx:180-190 | n removes from quantity q leave q - n when n < q and delete the key when n >= q. |
| `CartStore.AddRemoveRoundTrip` | src/context/StoreContext.tsx:173-190 | Adding an item n times and then removing it n times restores the cart exactly, so the totals return to their prior values. |
| `Sums.MapSumRemove` | src/context/StoreContext.tsx:207-209 | A sum over the cart's keys does not depend on the order the keys are visited in. |
| `Sums.MapSumPositive` | src/context/StoreContext.tsx:205-211 | When every quantity is positive the item count is at least the number of keys, and 0 exactly for the empty cart. |
| `CartTotals.GetTotalCartItems` | src/context/StoreContext.tsx:205-211 | The loop returns the sum of all stored quantities; for a valid cart this is 0 iff the cart is empty. |
| `CartTotals.GetTotalCartAmount` | src/context/StoreContext.tsx:192-203 | The loop returns the sum of price times quantity over keys with positive quantity that the menu resolves (unknown ids add 0), which is the entry-by-entry amount for any menu and, with distinct menu ids, the sum of the displayed line totals. |
| `CartTotals.AmountIsLinesSubtotal` | src/context/StoreContext.tsx:192-203 | With distinct menu ids, the amount the store computes equals the sum of line totals over the cart lines in menu order. |
| `CartTotals.ContributionsSumIsCartAmount` | src/context/StoreContext.tsx:192-203 | For any menu, even one repeating an id, the key-by-key amount equals the entry-by-entry amount, each id priced by its first menu entry. |
| `CartTotals.CartAmountZeroIff` | src/context/StoreContext.tsx:192-203 | With positive prices the amount is never negative and is 0 exactly when no menu entry has a positive quantity. |
| `CartTotals.CartLines` | src/pages/PlaceOrder.tsx:22 | The cart lines are menu entries with positive quantity, every such entry appears, they keep menu order, and no id repeats when the menu has none. |
| `CartTotals.CartLinesMultiplicity` | src/pages/PlaceOrder.tsx:22 | Filtering keeps every copy: an entry occurs in the cart lines as often as in the menu when its quantity is positive, and never otherwise. |
| `CartTotals.LinesEmptyIff` | src/pages/Cart.tsx:14-16 | There are no cart lines iff no menu entry has a positive quantity. |
| `CartTotals.SubtotalZeroIff` | src/pages/PlaceOrder.tsx:106-109 | With positive prices the displayed subtotal is never negative and is 0 exactly when there are no cart lines, for any menu. |
| `Pricing.PriceCart` | src/pages/PlaceOrder.tsx:18-20 | The fee is 50 iff the subtotal is positive and 0 otherwise; the total is subtotal plus fee; with positive prices the fee and the total are 0 exactly for a cart with no lines. |
| `CartPage.RenderCart` | src/pages/Cart.tsx:10-50 | The empty state is shown iff no menu entry has a positive quantity; otherwise row i shows cart line i with its cart quantity (positive) and line total unit price times that quantity, the header count equals the number of lines, and the shared fee rule applies. |
| `CartPage.HeaderCountsDistinctItems` | src/pages/Cart.tsx:50 | The header counts distinct entries, never more than their total quantity. |
| `CartPage.OnStepClick` | src/pages/Cart.tsx:99-115 | "+" raises the row's quantity by exactly one and "-" lowers it by one or deletes it at 1; no other key changes. |
| `CartPage.OnTrashClick` | src/pages/Cart.tsx:125-131 | The button performs quantity-many removes of the item, which deletes its key and leaves every other key unchanged. |
| `Checkout.RenderCheckout` | src/pages/PlaceOrder.tsx:106-125 | The form is shown iff the subtotal is non-zero and a user is signed in; a zero subtotal always redirects. |
| `Checkout.InitialCheckoutState` | src/pages/PlaceOrder.tsx:15-33 | The page starts with payment on delivery ("cod"), no submission in flight, every field empty except the email prefilled from the signed-in user, so the form is not yet complete. |
| `Checkout.OrderRowFor` | src/pages/PlaceOrder.tsx:55-67 | The inserted order is pending, owned by the user, priced at the displayed total, carries the chosen payment method and the form's address and phone. |
| `Checkout.OrderItemsFor` | src/pages/PlaceOrder.tsx:74-81 | One line item per cart line, each with the new order id, the entry's id, name, image and unit price, and the cart quantity. |
| `Checkout.FailureMessage` | src/pages/PlaceOrder.tsx:95-100 | The failure message is the store's message when it is non-empty, and exactly "Something went wrong. Please try again." when it is empty. |
| `Checkout.Submit` | src/pages/PlaceOrder.tsx:39-104 | No user: nothing written, cart unchanged. Otherwise the order row is written first; the items are written only after it succeeds; either insert failing reports its message (or the fallback) and leaves the cart unchanged; the order is placed iff both succeed, and only then is the cart emptied. |
| `Checkout.SubmitFromPage` | src/pages/PlaceOrder.tsx:140-223 | A submission happens iff the form is on screen and every required field is filled, and then it never stops for a missing user. |
| `Checkout.ItemsTotalIsLinesSubtotal` | src/pages/PlaceOrder.tsx:74-81 | The inserted line items price out (unit price times quantity) to the subtotal of the cart lines. |
| `Checkout.StoredTotalMatchesItems` | src/pages/PlaceOrder.tsx:18-81 | With distinct menu ids, the stored order total equals the sum over its inserted line items plus the fee, and every inserted quantity is positive. |
| `Checkout.SubmittedCartIsNonEmpty` | src/pages/PlaceOrder.tsx:106-109 | With positive prices, any submission that happens is priced above the fee and inserts at least one line item. |
| `Checkout.CartClearedOnlyOnFullSuccess` | src/pages/PlaceOrder.tsx:71-100 | A non-empty cart ends empty iff the user is signed in and both inserts succeed; otherwise it is left as it was. |
| `Checkout.PlaceOrderExample` | src/pages/PlaceOrder.tsx:18-89 | Two of an entry at 100 and one at 50 give an order stored at 300, paid "cod", with two line items of quantities 2 and 1, and an empty cart. |
| `Orders.JoinItems` | src/pages/Admin.tsx:81-89 | Each fetched order keeps its place and gets its own items, or none when no items came back. |
| `Orders.SetStatus` | src/pages/Admin.tsx:113-115 | Orders with the id get the new status; all other orders are unchanged; no field but the status changes; length and order are kept. |
| `Orders.SetStatusUnknownId` | src/pages/MyOrders.tsx:124-130 | A patch for an id no order carries leaves the list unchanged. |
| `Orders.SetStatusLastWins` | src/pages/Admin.tsx:104-115 | Of two patches of the same order the later one wins. |
| `Orders.SetStatusCommutes` | src/pages/Admin.tsx:113-115 | Patches of different orders commute. |
| `Orders.SetStatusSameValue` | src/pages/MyOrders.tsx:124-130 | Patching an order to the status it already has changes nothing. |
| `Orders.PatchRows` | src/pages/Admin.tsx:106-109 | The stored effect of the status write: every row carrying the id takes the new status, and every other field and every other row is kept. |
| `Orders.PatchMatchesRejoin` | src/pages/Admin.tsx:81-89 | Patching the joined list in memory equals joining the patched rows with the same items answers: the in-place patch is a sound stand-in for a re-fetch. |
| `Admin.StatusOptionsWellFormed` | src/pages/Admin.tsx:34-41 | The selector offers six distinct values, "pending" first. |
| `Admin.FindOption` | src/pages/Admin.tsx:132 | The option found has the status as value; when none is found no option has it. |
| `Admin.StatusBadge` | src/pages/Admin.tsx:131-138 | A known status gets its own option; any other string gets the first option, "pending". |
| `Admin.ShownStatus` | src/pages/Admin.tsx:194 | An empty status is shown as "pending"; any other status is shown as is. |
| `Admin.MissingStatusShowsPending` | src/pages/Admin.tsx:194-223 | An order without a status is badged and selected as "pending". |
| `Admin.UpdateOrderStatus` | src/pages/Admin.tsx:104-129 | The write always sets the requested status; on an error the list is unchanged and a failure is shown; on success the matching orders alone take the new status. |
| `Admin.AnyTransitionAccepted` | src/pages/Admin.tsx:104-109 | Whatever an order's current status, any new status is written and shown; there is no transition rule. |
| `Admin.FetchAllOrders` | src/pages/Admin.tsx:72-102 | A store error keeps the previous list and shows an error; otherwise the fetched rows in fetched order, each with its own items or none; loading ends either way. |
| `Admin.AdminPatchMatchesRefetch` | src/pages/Admin.tsx:104-116 | After a successful write the patched dashboard list equals what fetching the written rows again would show. |
| `MyOrders.StyleFor` | src/pages/MyOrders.tsx:177 | A configured status gets its own style; any other string gets the pending style. |
| `MyOrders.LabelFor` | src/pages/MyOrders.tsx:193 | A labelled status gets its non-empty label; any other status is shown as the raw string. |
| `MyOrders.VocabulariesAgree` | src/pages/MyOrders.tsx:24-64 | The customer screen styles and labels exactly the six values the admin selector offers. |
| `MyOrders.FetchOrders` | src/pages/MyOrders.tsx:71-102 | Without a user nothing is queried and loading ends; a store error keeps the list; otherwise each fetched order gets its own items or none, in fetched order. |
| `MyOrders.SubscriptionFor` | src/pages/MyOrders.tsx:109-122 | A channel is opened iff a user is signed in, for update events on the orders table scoped to that user. |
| `MyOrders.ChannelAndFetchSameOwner` | src/pages/MyOrders.tsx:104-122 | A channel is open iff the fetch queried an owner, and it listens for that same owner. |
| `MyOrders.FetchedOrdersAreWatched` | src/pages/MyOrders.tsx:78-122 | When the store honours the query's owner filter, the channel forwards updates for every order the fetch shows. |
| `MyOrders.OnOrderUpdated` | src/pages/MyOrders.tsx:122-131 | The order with the notified id takes only the notified status; other orders are unchanged; an unknown id leaves the list unchanged; length and order are kept. |
| `MyOrders.AdminAndCustomerAgree` | src/pages/MyOrders.tsx:112-130 | After an admin status write succeeds and its row change reaches the customer, both screens show the new status for that order without a re-fetch. |
| `MyOrders.CustomerPatchMatchesRefetch` | src/pages/MyOrders.tsx:122-131 | Applying a pushed row change to the fetched list equals what fetching the changed rows again would show. |

## Left out

- Calls into the hosted data store (inserts, selects, updates, channel setup and teardown): their answers are parameters; the store's newest-first ordering and owner filtering are its own.
- Authentication (sign-in, session listener, the `user`/`session` state) and the admin-role check: external services; a signed-in user is a parameter.
- React state timing, effects, routing, toasts and markup beyond the decisions modelled; the menu categories list and the float `rating` field (display-only).
- Concurrency: double submission while a checkout is in flight, two admins racing on one order, dropped or reordered notifications.
- Date formatting of `created_at` (locale-dependent display).
- Browser validation of the email field's format: the model only checks that every required field is non-empty.
- JavaScript number precision: quantities and amounts are unbounded integers; the source's doubles lose precision beyond 2^53, far beyond any reachable cart.
- `MyOrders.StyleFor`: does not model lookups of inherited object keys (a status such as "constructor" finds a prototype member in `statusConfig` and `statusLabels`); the model treats every string outside the six values as unknown.
- `MyOrders.LabelFor`: same inherited-key caveat as `StyleFor`.
