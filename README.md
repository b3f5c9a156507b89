# Storefront checkout and order store, modelled in Dafny

This project models the checkout and order subsystem of a small web storefront:

- the cart page (`Cart.jsx`): which catalog products are listed, the delivery, tax and grand-total rule, the delivery label, and how the quantity box and the -/+ buttons turn input into `addToCart` deltas;
- the checkout page (`PlaceOrder.jsx`): when the form is shown, the login guard, the `for…in` loop that snapshots the cart into order items, the payload, and what happens to the cart and the `submitting` flag for each outcome;
- the server's order controller (`orderController.js`): placing an order, listing one user's orders, listing all orders, and overwriting an order's status, as operations of a class that holds the order collection and each user's stored cart.

Modules, one per concern:

| file | module | models |
|---|---|---|
| `shop.dfy` | `Shop` | shared types; the client cart; `ShopContext` with `addToCart` and `setCartItems` |
| `pricing.dfy` | `Pricing` | delivery charge, tax, grand total, delivery label |
| `cart_page.dfy` | `CartPage` | the `cartProducts` filter; the quantity box; the -/+ buttons |
| `place_order.dfy` | `Checkout` | form visibility; `find`; the order-item snapshot; `handlePlaceOrder` |
| `order_service.dfy` | `OrderService` | `OrderStore` with `placeOrder`, `allOrders`, `userOrders`, `updateStatus` |

Modelling decisions:

- The client cart is a JavaScript object, and the checkout loop visits its keys in insertion order. So the model keeps it as a sequence of `Entry(id, qty)` with distinct keys. `Qty` reads `cartItems[id] || 0`, so a missing key counts as 0. Product ids are 24-character store ids and are never array-index-like keys, so insertion order is the `for…in` order.
- `addToCart` lives in the shop context, whose code is not part of this model. It is taken to add the delta to the stored quantity with no clamping. An existing key keeps its place; a new key is appended.
- The subtotal (`getCartTotal`) is an input. All prices and totals are exact `real`s.
- The cart page and the checkout page spell out the same delivery and grand-total expressions (`Cart.jsx:25,35`, `PlaceOrder.jsx:41,43`). Both pages use the one definition in `Pricing`, so the two pages agree for every subtotal by construction.
- The quantity box's input is `Blank` (the empty string) or `Entered(Number(raw))`, where `None` stands for NaN.
- `handlePlaceOrder` is split at its `await`. `BeginPlaceOrder` covers the guard, the snapshot and the payload, and raises `submitting`. `FinishPlaceOrder` takes the server's answer, clears the cart only on success, and lowers `submitting`. `HandlePlaceOrder` runs both. An empty token string stands for a missing token.
- On the server, store-assigned ids come from a counter, `Date.now()` is the parameter `now`, and the authenticated caller's id is a parameter. A store call that throws is a parameter saying which call fails and with what message. For `placeOrder` this includes the case where the order is created and the cart clear then throws. The order is kept, the cart is not cleared, and the response reports failure.
- The request body may carry a `claimedUserId`; the handler never reads it.
- `find().sort({date: -1})` is modelled by `SortNewestFirst`. Its contract promises only what the store promises: newest first, and the same orders. Ties may come back in any order.

Where the design description and the code differ, the model follows the code:

- The -/+ buttons request deltas of exactly -1 and +1. No clamp is applied on the page; any clamping would be inside `addToCart`, which is not part of this model. Only the quantity box clamps to [0, 100].
- The checkout page has no client-side "cart is empty" rejection. It only hides the form when no catalog product has a positive quantity. `Checkout.FormShownIffItems` proves that a shown form always submits at least one item. The server rejects an empty or missing item list.
- `userOrders` and `allOrders` take no role check of their own. The routes gate them with middleware that is not part of this model.

## Model

| member | source | states |
|---|---|---|
| `Shop.Qty` | client/src/components/pages/Cart.jsx:55 | a key missing from the cart reads as quantity 0 |
| `Shop.AddDelta` | client/src/components/pages/Cart.jsx:67 | adding a delta changes exactly that id's quantity by the delta, leaves every other id's quantity alone, and adds the id to the keys |
| `Shop.AddDeltaKeepsKeysDistinct` | client/src/components/pages/Cart.jsx:67 | adding to a quantity never creates a duplicate key |
| `Shop.ShopContext.AddToCart` | client/src/components/pages/Cart.jsx:13 | the cart becomes the old cart with the delta added; the cart's keys stay distinct (its invariant `Valid`) |
| `Shop.ShopContext.SetCartItems` | client/src/components/pages/PlaceOrder.jsx:75 | the cart is replaced by the given one, which must have distinct keys like any JavaScript object |
| `Pricing.DeliveryCharge` | client/src/components/pages/Cart.jsx:22-25 | the charge is 0 or 100, and it is 0 exactly when the subtotal is 0 or at least 1999 (1999 itself is free) |
| `Pricing.Tax` | client/src/components/pages/Cart.jsx:35 | tax is exactly 18% of the subtotal, and between 0 and the subtotal for a non-negative subtotal |
| `Pricing.GrandTotal` | client/src/components/pages/Cart.jsx:35 | a zero subtotal costs 0; any other subtotal below 1999, negative ones included, totals 1.18·subtotal + 100; from 1999 up the total is 1.18·subtotal; a non-negative subtotal never totals less than itself |
| `Pricing.DeliveryLabelFor` | client/src/components/pages/Cart.jsx:26-30 | "0.00" exactly for a zero subtotal, "Free" exactly for a non-zero subtotal of at least 1999, otherwise the amount 100 |
| `Pricing.LabelMatchesCharge` | client/src/components/pages/Cart.jsx:25-30 | the label shows an amount exactly when the charge is non-zero, and then it shows that charge |
| `Pricing.WorkedExamples` | client/src/components/pages/Cart.jsx:25-35 | subtotal 2200 gives tax 396, free delivery and total 2596; subtotal 300 gives tax 54, delivery 100 and total 454 |
| `Pricing.ThresholdLowersTotal` | client/src/components/pages/Cart.jsx:25-35 | a positive subtotal below 1999 costs more in total than 1999 itself exactly when it lies less than 100/1.18 below 1999; 1998 is such a subtotal |
| `CartPage.CartProducts` | client/src/components/pages/Cart.jsx:20 | a product is listed exactly when it is in the catalog and its cart quantity (missing = 0) is positive |
| `CartPage.CartProductsAppend` | client/src/components/pages/Cart.jsx:20 | the filter distributes over concatenation, so listed products keep catalog order |
| `CartPage.Parsed` | client/src/components/pages/Cart.jsx:60 | a blank input parses as 0, and only a non-numeric input gives NaN |
| `CartPage.TargetQty` | client/src/components/pages/Cart.jsx:62-64 | the target is the floor of the number when that lies in [0, 100], 0 below, 100 above |
| `CartPage.QtyInputDelta` | client/src/components/pages/Cart.jsx:58-67 | no call exactly when the input is NaN or the target equals the current quantity; otherwise a non-zero delta with qty + delta = target; a blank input asks for 0 |
| `CartPage.HandleQtyInput` | client/src/components/pages/Cart.jsx:58-67 | NaN leaves the cart untouched; a number sets that product's quantity to the target; an unchanged target leaves the cart untouched; otherwise the new cart is the old one with target − old quantity added under that id; other products' quantities never change; cart keys stay distinct |
| `CartPage.Decrease` | client/src/components/pages/Cart.jsx:94 | the "-" button adds exactly -1 to that product's quantity |
| `CartPage.Increase` | client/src/components/pages/Cart.jsx:112 | the "+" button adds exactly +1 to that product's quantity |
| `Checkout.ShowsCheckoutForm` | client/src/components/pages/PlaceOrder.jsx:39 | the form is shown exactly when some catalog product has a positive cart quantity |
| `Checkout.Find` | client/src/components/pages/PlaceOrder.jsx:55 | returns the first catalog product with that id, and nothing exactly when no product has it |
| `Checkout.ItemFor` | client/src/components/pages/PlaceOrder.jsx:54-59 | a cart entry contributes at most one item; it contributes one exactly when its quantity is positive and some catalog product has its id, and that item carries the entry's quantity and a catalog product with that id |
| `Checkout.OrderItemsOf` | client/src/components/pages/PlaceOrder.jsx:52-61 | the snapshot has no more items than the cart has keys; its contents and order are stated by the lemmas `OrderItemsExact` and `OrderItemsAppend` |
| `Checkout.OrderItemsAppend` | client/src/components/pages/PlaceOrder.jsx:53-62 | the snapshot distributes over concatenation of carts, so items follow cart-key order |
| `Checkout.OrderItemsExact` | client/src/components/pages/PlaceOrder.jsx:52-62 | an item is in the snapshot exactly when a cart entry with a positive quantity resolves to that product and carries that quantity |
| `Checkout.OrderItemsAreCatalogCopies` | client/src/components/pages/PlaceOrder.jsx:55-58 | every item's product is an unmodified catalog product, and every item's quantity is positive |
| `Checkout.FormShownIffItems` | client/src/components/pages/PlaceOrder.jsx:39-62 | a shown form always snapshots at least one item; with distinct cart keys, a non-empty snapshot means the form is shown |
| `Checkout.BuildOrderItems` | client/src/components/pages/PlaceOrder.jsx:52-62 | the loop's result is exactly the specified snapshot of the cart |
| `Checkout.PlaceOrderPage.constructor` | client/src/components/pages/PlaceOrder.jsx:19-31 | the form starts blank and `submitting` starts false |
| `Checkout.PlaceOrderPage.BeginPlaceOrder` | client/src/components/pages/PlaceOrder.jsx:45-72 | without a token nothing is sent and `submitting` is unchanged; with one, `submitting` is true and the payload is the form, the snapshot and the grand total, with no user id; when the form is shown the payload has at least one item |
| `Checkout.PlaceOrderPage.FinishPlaceOrder` | client/src/components/pages/PlaceOrder.jsx:74-85 | the cart is emptied exactly on a success response and unchanged on a failure or an exception; `submitting` ends false |
| `Checkout.PlaceOrderPage.HandlePlaceOrder` | client/src/components/pages/PlaceOrder.jsx:45-86 | without a token nothing changes; otherwise the payload is built from the cart as it was, `submitting` ends false, the cart is cleared only on success, and the catalog is untouched |
| `OrderService.SortNewestFirst` | backend/controllers/orderController.js:46 | the result is ordered by date, newest first, and holds exactly the input orders |
| `OrderService.OwnedBy` | backend/controllers/orderController.js:67 | an order is selected exactly when it is stored and its userId is the given user |
| `OrderService.OwnedByAppend` | backend/controllers/orderController.js:67 | the selection distributes over concatenation of order lists |
| `OrderService.AppendedOrderVisibility` | backend/controllers/orderController.js:65-67 | an appended order joins its owner's selection at the end and no other user's |
| `OrderService.WithStatus` | backend/controllers/orderController.js:81 | the collection keeps its length, and every order keeps its id and owner; the lemmas `WithStatusFrame`, `WithStatusUnknownId` and `WithStatusTouchesAtMostOne` state that only the matching order's status changes |
| `OrderService.WithStatusFrame` | backend/controllers/orderController.js:81 | only the status of the order with that id changes; all other fields and all other orders stay the same |
| `OrderService.WithStatusUnknownId` | backend/controllers/orderController.js:81-86 | an id that matches no order changes nothing |
| `OrderService.WithStatusTouchesAtMostOne` | backend/controllers/orderController.js:81 | with distinct ids, at most one order is changed |
| `OrderService.OrderStore.PlaceOrder` | backend/controllers/orderController.js:5-41 | missing or empty items fail with "Cart is empty" and change nothing; otherwise exactly one order is appended with a fresh id, the caller's id (never a body field), the submitted items, address and amount, payment false, status "Order Placed", method "Testing order" and the current date; on success it is returned and the caller's stored cart (if the user exists) is emptied with all other carts unchanged; a failed create changes nothing; a failed cart clear keeps the order and the cart and reports failure |
| `OrderService.OrderStore.AllOrders` | backend/controllers/orderController.js:44-59 | on success returns every stored order, newest first; a store failure returns its message |
| `OrderService.OrderStore.UserOrders` | backend/controllers/orderController.js:62-74 | on success returns exactly the caller's orders, newest first, and no order of any other user |
| `OrderService.OrderStore.UpdateStatus` | backend/controllers/orderController.js:77-94 | on success the collection becomes the status-updated one and the reply is "Status Updated Successfully", even when no order has that id; a store failure changes nothing |

## Left out

- `getCartTotal`, the subtotal computation in the shop context, is not part of this model: the subtotal is an input.
- Floating-point rounding of `price * qty`, of `* 0.18` and of the sums is not modelled; all arithmetic is exact over `real`.
- Display formatting (`toFixed(2)`, the currency symbol) is not modelled. The delivery label is an enum: zero amount, "Free", or an amount.
- `CartPage.QtyInputDelta`: a typed "Infinity" or "-Infinity" (which the page clamps to 100 or 0) is not representable, because the input is a finite real or NaN.
- The delete button's `removeFromCart` is not modelled, because its body is in the shop context, which is not part of this model.
- The shop context's own persistence and synchronisation of the cart with the server are not modelled.
- JSX rendering, CSS classes, `toast` notifications and `navigate` calls are UI only and are not modelled.
- The transport (`axios`, `backendUrl`, the token header) is not modelled. The server's answer is a parameter of `FinishPlaceOrder`.
- An exception thrown while building the payload (before the request) is not modelled.
- The browser's `required` checks on the address form are not modelled; the address is carried as entered.
- The double-submit guard is modelled only as the values of `submitting`. Concurrent submissions are not modelled.
- The Razorpay integration is not modelled: it is disabled in the routes and only an image remains on the page.
- The authentication and admin middleware (`backend/routes/orderRoute.js:14-20`) are not part of this model. The caller's id is a parameter, and the admin gate on listing and status updates is not encoded.
- Store internals are abstracted. Ids come from a counter. A store call that throws, including a cast error from a malformed order id, is a fault parameter. The error message text is that parameter.
- Item lists that are neither missing nor an array are not modelled; items are an optional sequence.
- `OrderService.SortNewestFirst`: the order of orders with equal dates is not specified, as the store does not specify it.
