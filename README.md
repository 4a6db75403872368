# KhayaMusha delivery store, modelled in Dafny

This project models the client-side store of a food-delivery demo and the four components
that hold rule logic beside it.

The store is one object. It holds the logged-in user, the cart, the order list, the current
order and the restaurant and driver selections, and its actions replace those fields:

- `addToCart`, `removeFromCart` and `clearCart` act on the cart;
- `placeOrder` creates a pending order priced by the cart;
- `rateOrder` records ratings on an order;
- `login`, `signup` and `logout` manage the session;
- `selectRestaurant` and `selectDriver` set the selections.

After an order is placed, a chain of four timer callbacks moves it through
`pending -> accepted -> preparing -> delivering -> delivered`. The accepting callback draws
a random driver in 1..3.

The four components are:

- the cart panel: subtotal, the flat 25 delivery fee, total, and the place-order handler;
- the order-tracking panel: the five-step progress display, the rating form and its reset;
- the menu card's quantity stepper, which never drops below 1;
- the five-star rating widget.

Layout, one module per part of the program:

- `wrappers.dfy` (`Wrappers`): `Option`, standing for `null` / `undefined`.
- `cart_lines.dfy` (`CartLines`): the pure cart computations of the store. A cart is a
  keyed multiset; `QuantityOf` gives the multiplicity of each key.
- `orders.dfy` (`Orders`): the status enum and its order, the order and user records, the
  values `placeOrder`, the timer callbacks and `rateOrder` compute, and the lifecycle
  invariant `Tracked`.
- `store.dfy` (`Store`): class `DeliveryStore`, with one field per store field. The field
  `scheduled` holds the timer callbacks that are armed but have not run. `FireTimer(k, draw)`
  runs the k-th one, with the random draw as a parameter.
- `cart_view.dfy` (`CartView`), `order_tracking.dfy` (`OrderTracking`),
  `menu_item_card.dfy` (`MenuItemCard`), `rating_stars.dfy` (`RatingStars`): the components.
  Component state is a class. A toast is returned as a value.

Modelling choices:

- JavaScript truthiness is written out: a selected restaurant id of 0 is falsy, and a driver
  rating of 0 or `undefined` is not stored.
- Each timer callback writes `{...state.currentOrder, status}`, whatever order is current at
  that moment. This is kept as written. `CurrentOrder` has a third case, `Fragment`, for
  what the spread of a `null` current order gives after a logout: an object with a status
  (and a driver id) but no id.
- `rateOrder`'s order id is an `Option`: the current order's id is `undefined` for a
  fragment, and no order's id equals `undefined`. The tracking panel never renders for a
  fragment, because it finds no restaurant for it. So its Submit button (`PressSubmit`)
  only ever passes a real id. The bare rating handler (`SubmitRating`) is modelled for any
  current order.
- The tracking panel's reset effect runs after each render in which the current order's id
  has changed, and before the next user event. So the star clicks, the Submit button and the
  rating handler require that `Sync` has already run for the current id
  (`lastOrderId == IdOf(current)`). These are the effect-ordering guarantees React gives.
- Clock readings (`Date.now()`, `toISOString()`) are parameters.
- The lifecycle invariant holds after `placeOrder` only when the new id is not already an
  order id. Two orders placed in the same millisecond would break it. The contract says
  this as a condition; it does not require fresh ids from callers.

## Model

| member | source | states |
|---|---|---|
| CartLines.FindMenuItem | app/lib/store.ts:262 | `find` gives nothing exactly when no catalogue entry has the id; otherwise the first catalogue entry with that id |
| CartLines.AddLine | app/lib/store.ts:260-279 | an id outside the catalogue leaves the cart unchanged; an id already in the cart raises those lines by the quantity in place, same length, same order, other lines unchanged; a new id appends one line at the end |
| CartLines.AddLineQuantities | app/lib/store.ts:266-278 | as a keyed multiset, adding q of a catalogue item raises that key's quantity by q and leaves every other key's quantity unchanged |
| CartLines.AddLineTotal | app/lib/store.ts:266-278 | on a cart with one line per id, adding q of a catalogue item raises the order total by its price times q |
| CartLines.AddLineWellFormed | app/lib/store.ts:264-278 | addToCart keeps "at most one line per menu item, each in the catalogue", and keeps quantities positive when q >= 1 |
| CartLines.RemoveLines | app/lib/store.ts:281-286 | the filtered cart holds exactly the old lines whose id differs, and is no longer |
| CartLines.RemoveConcat | app/lib/store.ts:284 | filtering distributes over concatenation, so the kept lines stay in their original order |
| CartLines.RemoveSingle | app/lib/store.ts:284 | one line is dropped exactly when it carries the id |
| CartLines.RemoveAbsent | app/lib/store.ts:284 | removing an id the cart does not hold leaves the cart unchanged |
| CartLines.RemoveQuantities | app/lib/store.ts:281-286 | as a keyed multiset, the removed key's quantity becomes 0 and every other key's is unchanged |
| CartLines.RemoveWellFormed | app/lib/store.ts:281-286 | removeFromCart keeps the cart invariant and positive quantities |
| CartLines.OrderTotalConcat | app/lib/store.ts:297-300 | the order total of a concatenation of carts is the sum of their totals |
| CartLines.OrderTotal | app/lib/store.ts:297-300 | definition: left to right, the sum of each line's catalogue price (0 when missing) times its quantity; the lemmas above are about it |
| CartLines.PositiveTotal | app/lib/store.ts:297-300 | with positive prices and quantities of catalogue items, a non-empty cart has a positive total, and any cart a non-negative one |
| Orders.Rank | app/lib/store.ts:47 | each status has a position below 5 in the fixed lifecycle order |
| Orders.CanPlaceOrder | app/lib/store.ts:295 | definition: a user, a truthy selected restaurant and a non-empty cart |
| Orders.NewOrder | app/lib/store.ts:302-312 | definition: the clock reading as id, the user's id, the restaurant, no driver, a copy of the cart as items, pending, the cart's total, the timestamp and the address; no ratings |
| Orders.Retarget | app/lib/store.ts:326 | definition: the order with the callback's status, and the drawn driver when the callback assigns one; every other field kept |
| Orders.StepOrders | app/lib/store.ts:325-327 | definition: every order with the callback's id retargeted, the others kept, in order |
| Orders.Next | app/lib/store.ts:321-374 | the status a callback moves to is exactly one position further on |
| Orders.Respread | app/lib/store.ts:328-332 | re-spreading the current order never leaves it empty, even when it was null |
| Orders.FireAdvancesOne | app/lib/store.ts:324-334 | under the lifecycle invariant, a callback moves every order with its id exactly one status forward, sets the drawn driver on acceptance, changes nothing else on them, and leaves all other orders unchanged |
| Orders.FirePreservesTracked | app/lib/store.ts:321-374 | running any armed callback and arming its successor keeps the lifecycle invariant |
| Orders.ChainOrder | app/lib/store.ts:336-371 | each callback except the delivering one arms one successor for the same order, which writes the next status |
| Orders.RateOrders | app/lib/store.ts:381-389 | definition: every order with the id gets the user rating, and the driver rating when truthy; the others kept, in order |
| Orders.RateOrdersSpec | app/lib/store.ts:379-391 | rateOrder changes only orders with that id: the user rating is set, the driver rating only when truthy, the count and all other orders unchanged; the lifecycle invariant carries over |
| Orders.PlacePreservesTracked | app/lib/store.ts:302-318 | appending a pending order with a fresh id and arming its accepting callback keeps the lifecycle invariant |
| Store.MockMenuItems | app/lib/store.ts:121-178 | the catalogue's prices are positive whole numbers and its ids are distinct |
| Store.DeliveryStore.constructor | app/lib/store.ts:211-220 | the initial store: no user, orders, cart, selections, current order or armed callbacks; the mock catalogue |
| Store.DeliveryStore.Login | app/lib/store.ts:223-238 | signs in the test user exactly for the test credentials and reports whether it did; otherwise nothing changes |
| Store.DeliveryStore.Signup | app/lib/store.ts:240-247 | the user becomes the given data with the clock reading as id |
| Store.DeliveryStore.Logout | app/lib/store.ts:249-257 | clears the user, cart, both selections and the current order; the order list is outside its frame |
| Store.DeliveryStore.AddToCart | app/lib/store.ts:260-279 | the cart becomes `AddLine` of the old cart and the cart invariant is kept |
| Store.DeliveryStore.RemoveFromCart | app/lib/store.ts:281-286 | the cart becomes the filtered old cart and the cart invariant is kept |
| Store.DeliveryStore.ClearCart | app/lib/store.ts:288-290 | the cart becomes empty |
| Store.DeliveryStore.PlaceOrder | app/lib/store.ts:292-377 | with no user, no truthy restaurant or an empty cart, it returns nothing and changes nothing; otherwise it returns the new order (pending, no driver, items the old cart, total the cart's price, the address given), appends it, makes it current, empties the cart and arms the accepting callback |
| Store.DeliveryStore.FireTimer | app/lib/store.ts:321-374 | a callback writes its status on the orders with its id and re-spreads the current order whatever its id; acceptance also sets the drawn driver as selected driver; the successor is armed; under the lifecycle invariant the matching orders move exactly one status forward and the others stay unchanged |
| Store.DeliveryStore.RateOrder | app/lib/store.ts:379-391 | the orders become the rated orders, with the count unchanged; the current order is outside its frame |
| Store.DeliveryStore.SelectRestaurant | app/lib/store.ts:394-399 | the selection is set; a truthy id empties the cart and null or 0 keeps it |
| Store.DeliveryStore.SelectDriver | app/lib/store.ts:401-403 | the selected driver is set |
| CartView.CartItems | app/components/cart/cart.tsx:17-23 | one priced entry per cart line |
| CartView.Subtotal | app/components/cart/cart.tsx:25-27 | definition: left to right, the sum of price times quantity over the joined entries |
| CartView.DeliveryFee | app/components/cart/cart.tsx:29 | definition: 25 when the subtotal is positive, otherwise 0 |
| CartView.SubtotalIsOrderTotal | app/components/cart/cart.tsx:25-27 | the panel's subtotal equals the total the store computes for the same cart, missing items counting 0 |
| CartView.DisplayedTotal | app/components/cart/cart.tsx:29-30 | the total exceeds the subtotal by the 25 fee exactly when the subtotal is positive, and equals it otherwise |
| CartView.StoredTotalLeavesOutFee | app/components/cart/cart.tsx:25-30 | the total stored on a placed order is the displayed subtotal; the displayed total exceeds it by the delivery fee |
| CartView.NonEmptyCartPaysFee | app/components/cart/cart.tsx:29 | in the store's catalogue, a non-empty cart of known items with quantities of at least 1 always pays the 25 fee |
| CartView.LeadingSpace | app/components/cart/cart.tsx:44 | the leading run that `trim` removes is whitespace and is followed by a non-space or the end |
| CartView.TrailingSpace | app/components/cart/cart.tsx:44 | the trailing run that `trim` removes is whitespace and is preceded by a non-space or the start |
| CartView.Trim | app/components/cart/cart.tsx:44 | definition: the address with its leading and trailing whitespace runs removed |
| CartView.TrimEmptyIffBlank | app/components/cart/cart.tsx:44-51 | the trimmed address is empty exactly when every character is whitespace |
| CartView.CartPanel.constructor | app/components/cart/cart.tsx:14 | the address starts as the user's address, or empty without a user |
| CartView.CartPanel.EditAddress | app/components/cart/cart.tsx:127 | the address becomes the typed text |
| CartView.CartPanel.HandlePlaceOrder | app/components/cart/cart.tsx:34-61 | without a user it asks to log in; with a blank address it asks for one; in both cases the store is unchanged; otherwise the store places the order with the untrimmed address, and success is reported exactly when an order was placed |
| OrderTracking.FindStep | app/components/orders/order-tracking.tsx:38 | `findIndex` gives -1 exactly when no step matches; otherwise the first matching position |
| OrderTracking.CurrentStepIndex | app/components/orders/order-tracking.tsx:38 | definition: the first step whose key is the current order's status, or -1 |
| OrderTracking.IsCompleted | app/components/orders/order-tracking.tsx:82 | definition: a step is completed when its index is at most the current step index |
| OrderTracking.IsCurrent | app/components/orders/order-tracking.tsx:83 | definition: a step is current when its index is the current step index |
| OrderTracking.StepIndexIsRank | app/components/orders/order-tracking.tsx:30-38 | the step index is -1 exactly without a current order, and otherwise the status's place in the lifecycle |
| OrderTracking.CountsUpTo | app/components/orders/order-tracking.tsx:82-83 | with step index c, exactly c+1 steps are completed and one is current (none when c is -1) |
| OrderTracking.ProgressDisplay | app/components/orders/order-tracking.tsx:30-38 | for any current order, the steps up to its status's place in the lifecycle are completed and no later one; the one current step is its status; the completed count is index + 1; without a current order no step is completed or current |
| OrderTracking.AdvanceCompletesOneMore | app/components/orders/order-tracking.tsx:82 | moving the status one step forward completes exactly one more step |
| OrderTracking.CallbackShowsItsStatus | app/lib/store.ts:328-331 | after any callback the panel shows that callback's status, whichever order was current |
| OrderTracking.RatingFormShown | app/components/orders/order-tracking.tsx:167 | definition: the panel renders (a current order whose restaurant is found), the status is delivered, and the order is not yet rated |
| OrderTracking.DriverOf | app/components/orders/order-tracking.tsx:20 | definition: the current order's driver id, if any |
| OrderTracking.DriverShown | app/components/orders/order-tracking.tsx:179 | definition: the rating form shows, the driver id is truthy, and a driver with that id is in the list |
| OrderTracking.SubmitDisabled | app/components/orders/order-tracking.tsx:186 | definition: Submit is disabled while the food rating is 0 |
| OrderTracking.RatingFormCondition | app/components/orders/order-tracking.tsx:167 | the rating form shows exactly for a delivered, not yet rated current order whose restaurant is found |
| OrderTracking.TrackingPanel.constructor | app/components/orders/order-tracking.tsx:14-16 | both ratings start at 0 and nothing is rated |
| OrderTracking.TrackingPanel.Sync | app/components/orders/order-tracking.tsx:53-57 | when the current order's id differs from the last one, both ratings reset to 0 and the rated flag to false; otherwise nothing changes |
| OrderTracking.TrackingPanel.ClickUserStar | app/components/orders/order-tracking.tsx:167-176 | while the rating form shows, clicking star i sets the food rating to i+1, which enables submission; at any other time the stars do not exist and nothing changes |
| OrderTracking.TrackingPanel.ClickDriverStar | app/components/orders/order-tracking.tsx:167-182 | while the rating form shows and the current order's truthy driver id is found among the drivers, clicking star i sets the driver rating to i+1; otherwise these stars do not exist and nothing changes |
| OrderTracking.TrackingPanel.SubmitRating | app/components/orders/order-tracking.tsx:40-50 | without a current order nothing changes; otherwise the store rates the current id with both ratings, and the panel records that it rated |
| OrderTracking.TrackingPanel.PressSubmit | app/components/orders/order-tracking.tsx:167-186 | the store is asked to rate exactly when the form shows and a food rating is chosen; it is then asked to rate the id of a whole current order that shows Delivered, with a food rating in 1..5, and the form closes; otherwise nothing changes |
| MenuItemCard.Decreased | app/components/restaurants/menu-item-card.tsx:19 | the decreased quantity is at least 1 and not above a valid old quantity |
| MenuItemCard.PressesKeepAtLeastOne | app/components/restaurants/menu-item-card.tsx:16-19 | from 1, no sequence of presses brings the quantity below 1 |
| MenuItemCard.PressesBound | app/components/restaurants/menu-item-card.tsx:18-19 | the quantity never exceeds the start plus the number of presses |
| MenuItemCard.StepperRoundTrip | app/components/restaurants/menu-item-card.tsx:18-19 | minus undoes plus; plus undoes minus above 1; minus stays at 1 |
| MenuItemCard.Card.constructor | app/components/restaurants/menu-item-card.tsx:16 | the quantity starts at 1 |
| MenuItemCard.Card.IncreaseQuantity | app/components/restaurants/menu-item-card.tsx:18 | adds exactly 1 |
| MenuItemCard.Card.DecreaseQuantity | app/components/restaurants/menu-item-card.tsx:19 | the quantity becomes `max(1, q-1)` and stays at least 1 |
| MenuItemCard.Card.Add | app/components/restaurants/menu-item-card.tsx:40 | the store's cart becomes `AddLine` with the card's item and current quantity, which is at least 1 |
| RatingStars.IsFilled | app/components/ui/rating-stars.tsx:30 | definition: star i (from 0) is filled when i is below the rating |
| RatingStars.Row | app/components/ui/rating-stars.tsx:26-30 | star i of the row is filled exactly when i < rating |
| RatingStars.Stars | app/components/ui/rating-stars.tsx:26 | exactly 5 stars are drawn |
| RatingStars.FilledCount | app/components/ui/rating-stars.tsx:26-30 | a rating r fills exactly r stars, clamped to 0..5 |
| RatingStars.HandleClick | app/components/ui/rating-stars.tsx:19-22 | a read-only widget or one without a callback reports nothing; otherwise a click on star i reports i+1, which lies in 1..5 |
| RatingStars.ClickFillsThrough | app/components/ui/rating-stars.tsx:19-30 | after a click on star i of an editable widget, stars 0..i are filled and no others |

## Left out

- Timer delays (5 s, 10 s, 15 s, 10 s): time is not modelled. Any armed callback may run next, so the model allows more interleavings of different orders' chains than the real delays do.
- `Math.random`: the driver draw is a parameter in 1..3.
- `Date.now()` and `toISOString()`: the order and user ids and the timestamp are parameters.
- The `persist` middleware and localStorage: foreign-library persistence.
- `setUserLocation` and `userLocation`: floating-point coordinates that the rest of the core never reads.
- Restaurant and driver `rating` fields and `toFixed` currency formatting: floating point, display only.
- Toasts: returned as a value by the place-order handler and not modelled in the tracking panel.
- Rendering, labels and icons: the observable predicates are `IsCompleted`, `IsCurrent`, `RatingFormShown` and `SubmitDisabled`. The remaining render output is not modelled. This includes the cart's per-line remove button and the "Place Order" button's `disabled={!user}`.
- The driver lookup in the tracking panel is modelled only in `DriverShown`, which gates the driver's stars. Its other uses are rendering and are left out: the map, the "on the way" text and the driver card.
- `NaN` and non-integer quantities or prices: every number here is an integer.
- The map component, the geolocation hook, the order history and the layout-only components: outside the core.
- Store.DeliveryStore.PlaceOrder: the lifecycle invariant is promised afterwards only when the new order's id is fresh. Nothing in the source guarantees two clock readings differ.
- Store.DeliveryStore.FireTimer: the "exactly one status forward" promise holds only under the lifecycle invariant. With a repeated order id, two chains write the same orders. A step can then leave an order's status where it was, or move it backwards: an accepting callback also turns a delivering order with that id back to accepted.
- CartLines.AddLineTotal: stated for carts with at most one line per id, the invariant the store keeps. On a cart with duplicate ids, the in-place merge raises every matching line.
