# Storefront logic, modelled in Dafny

This project models the logic in a small skincare storefront built with
Next.js. Most of the site is UI and HTTP glue. The logic modelled here is:

- **Checkout** (`app/checkout/page.tsx`):
  - the address form's validation schema;
  - the parcel the courier is asked to quote for;
  - the debounced, numbered shipping-rate requests, whose id is checked once, when the headers of an answer arrive;
  - the choice of the first returned quote;
  - the order body that is posted when the customer places the order.
- **Home page product carousel** (`components/sections/Products.tsx`): a window of one or four cards whose start index wraps around at both ends and is clamped when the viewport or the product list changes.
- **Quantity stepper** (`components/ui/Stepper.tsx`).
- **Navbar** (`components/ui/Navbar.tsx`):
  - the cart total;
  - the list of navigation links;
  - the menu and cart panels, which exclude each other;
  - the page scroll lock and the click-outside rule.
- **Order confirmation page** (`app/order-success/page.tsx`): a poller. It stops on a 404, on a finished workflow status or on an air waybill number, and after 30 seconds. It clears the cart only once.
- **Catalog page** (`app/shop-our-products/page.tsx`):
  - which products are listed;
  - whether a card shows a promo price or a regular price.

Files, one module each unless noted:

| file | module | models |
|---|---|---|
| util.dfy | Util | `Option`, `Result`, JavaScript truthiness, `filter`, `findIndex`, `find` |
| cart.dfy | Cart | the cart line shared by the navbar and checkout |
| navbar.dfy | Navbar | cart total, nav-link filter, class `NavPanels` |
| stepper.dfy | Stepper | the stepper's enable rules and emitted values |
| catalog.dfy | Catalog | product visibility and the price shown on a card (both listing pages) |
| carousel.dfy | Carousel | class `ProductCarousel` and its index arithmetic |
| order_success.dfy | OrderSuccess | the stop rule and class `OrderPoller` |
| checkout_form.dfy | CheckoutForm | form schema, geography lookups, order body |
| parcel.dfy | Parcel | `parcelMetrics` |
| checkout.dfy | Checkout | the quote plan and class `CheckoutPage` |

Some parts of the source change state step by step. Each of these is a class
whose methods say, after `old` state, what every changed field now holds:
- the checkout page's request counter, fee, selected service and stored quotes;
- the carousel index;
- the navbar panels;
- the order poller.

Each class has a `Valid()` invariant, and every public step keeps it.
`OrderPoller.ClearOnceEffect` is a helper step that `FetchSettled` ends
with. It keeps only the clear-once part of the invariant. The pure
parts are functions, and lemmas state their properties.

Timers, network answers and browser events are discrete method calls. For
example, when the debounce timer elapses the page calls `DebounceElapsed`,
and an answer is three events: `RateFailed` (the fetch threw), `RateHeadersArrived`
(the response arrived, and the id is checked) and `RateBodyRead` (the body was read).
Ghost sets record which requests were actually posted and are still
unanswered, and which are having their body read. An answer can arrive
only for a request that was posted, and only once. The
geography library (countries, states, cities) is a list of `CountryInfo`
passed in. The rate endpoint's answer, the stored order number and
`window.innerWidth` are parameters.

Money, weights and dimensions are exact `real` numbers, not floats.
Quantities and indices are integers.

The source behaves as follows, and the model keeps it as written:
- The code stores the quote in a variable named `cheapestRate`, but it takes the first quote returned and never sorts the list (`RateBodyRead`).
- The request id is compared with the counter only once, when the answer's headers arrive, before the body is read (app/checkout/page.tsx:229-230).
  - An answer superseded by then is dropped, but the request's `finally` block still clears `isCalculating`, even while a newer request is pending (`RateHeadersArrived`).
  - An answer superseded while its body is being read is still used. Its rates, service and fee replace the page's, although the address has changed and a newer request is pending. `SupersededBodyApplied` plays this sequence out (`RateBodyRead`).
- The debounce effect zeroes the fee for an incomplete address but leaves the selected service in place. The items effect clears both (`RunDebounceEffect`, `ItemsChanged`).
- Products.tsx (130-150) chooses the card price with the same rules as the catalog page, so both are modelled by `Catalog.PriceShown`.

## Model

| member | source | states |
|---|---|---|
| Catalog.VisibleProducts | app/shop-our-products/page.tsx:18-21 | The listing: the fetched products filtered by "neither hidden nor disabled". VisibleProductsSpec states its properties. |
| Catalog.VisibleProductsSpec | app/shop-our-products/page.tsx:18-21 | A product is displayed iff it is neither hidden nor disabled. The listing keeps the fetched order: a concatenation filters part by part, and a list with nothing to hide is shown whole. |
| Catalog.PriceShown | components/sections/Products.tsx:130-150 | A promo tag appears only for a promo product, and its original price is non-zero. A product without a first option shows the regular price 0. A product that is not a promo always shows the regular price. |
| Catalog.PromoDisplayIff | app/shop-our-products/page.tsx:67-68 | Promo display iff `isPromo` holds and the first option's original price is present and non-zero. An original price of 0 falls back to the regular display. |
| Catalog.PromoSalePrice | app/shop-our-products/page.tsx:78-82 | The promo sale price is currentPrice, else unitPrice, else 0. The struck-through price is originalPrice. |
| Catalog.RegularPrice | app/shop-our-products/page.tsx:88 | The regular price is the first option's unitPrice, or 0 when the variants, options or unitPrice are missing. |
| Carousel.ItemsToShow | components/sections/Products.tsx:33 | One card below 640 px, otherwise four, and no other count. |
| Carousel.MaxIndex | components/sections/Products.tsx:45 | The last start index is never negative, is at least n − itemsToShow, and is either 0 or exactly n − itemsToShow. |
| Carousel.NextIndex | components/sections/Products.tsx:51-53 | The state updater of the next button. NextSteps and PrevNextInverse state its properties. |
| Carousel.PrevIndex | components/sections/Products.tsx:47-49 | The state updater of the previous button. PrevSteps and PrevNextInverse state its properties. |
| Carousel.ClampIndex | components/sections/Products.tsx:35-37 | The resize handler's updater `Math.min(prev, maxIndex)`. ClampInRange states its properties. |
| Carousel.NextSteps | components/sections/Products.tsx:51-53 | Next adds one, and wraps to 0 from maxIndex or beyond. |
| Carousel.PrevSteps | components/sections/Products.tsx:47-49 | Prev subtracts one, and wraps to maxIndex from 0 or below. |
| Carousel.PrevNextInverse | components/sections/Products.tsx:47-53 | From any index in [0, maxIndex], Prev and Next stay in that range and each undoes the other. |
| Carousel.ClampInRange | components/sections/Products.tsx:35-37 | The clamp takes any non-negative index into [0, maxIndex], never increases it, leaves an index already in range unchanged, and takes an index past maxIndex to exactly maxIndex. |
| Carousel.ShowNavigation | components/sections/Products.tsx:55 | The arrows are shown iff n > itemsToShow, which is exactly when maxIndex > 0. |
| Carousel.ProductCarousel.constructor | components/sections/Products.tsx:12-40 | After the initial state and the mount run of the resize handler: index 0, no products, and itemsToShow chosen from the window width (1 below 640 px, else 4). |
| Carousel.ProductCarousel.UpdateItemsToShow | components/sections/Products.tsx:32-38 | Sets itemsToShow from the width and clamps the index to the new maxIndex, which restores the invariant. |
| Carousel.ProductCarousel.LoadProducts | components/sections/Products.tsx:16-43 | Keeps only the visible products. When their number changes it re-runs the resize handler; otherwise the window is unchanged. |
| Carousel.ProductCarousel.HandlePrev | components/sections/Products.tsx:47-49 | The index becomes PrevIndex of the old one and stays within [0, maxIndex]. |
| Carousel.ProductCarousel.HandleNext | components/sections/Products.tsx:51-53 | The index becomes NextIndex of the old one and stays within [0, maxIndex]. |
| Stepper.MinOf | components/ui/Stepper.tsx:9 | `min` defaults to 1. |
| Stepper.DecrementDisabled | components/ui/Stepper.tsx:10 | `isMin`: the decrement button is disabled iff value ≤ min. |
| Stepper.IncrementDisabled | components/ui/Stepper.tsx:11 | `isMax`: the increment button is disabled iff a max is given and value ≥ max. |
| Stepper.Decremented | components/ui/Stepper.tsx:21 | The value the decrement button emits, `Math.max(min, value − 1)`. DecrementStaysAboveMin and WholeDecrementStepsByOne state its properties. |
| Stepper.Incremented | components/ui/Stepper.tsx:33 | The value the increment button emits, value + 1. WholeIncrementWithinMax and FractionalIncrementPassesMax state its properties. |
| Stepper.DecrementStaysAboveMin | components/ui/Stepper.tsx:10-22 | Decrement never emits less than min. When enabled (value > min) it emits less than value, and it emits exactly value − 1 iff that is not below min. Otherwise it emits exactly min. |
| Stepper.WholeDecrementStepsByOne | components/ui/Stepper.tsx:21 | For whole numbers, an enabled decrement emits value − 1, with a given min or the default 1. |
| Stepper.NoMaxNeverDisabled | components/ui/Stepper.tsx:11 | With no max, increment is never disabled. |
| Stepper.WholeIncrementWithinMax | components/ui/Stepper.tsx:11-34 | For whole value and max, an enabled increment never emits more than max. |
| Stepper.FractionalIncrementPassesMax | components/ui/Stepper.tsx:33-34 | The whole-number condition is needed: at 4.5 with max 5, increment is enabled and emits 5.5. |
| Cart.PayPrice | app/checkout/page.tsx:331 | A line is paid at its currentPrice when present, else at its unitPrice. |
| Cart.LineTotal | components/ui/Navbar.tsx:28 | A line's total: its pay price times its quantity. |
| Navbar.CartTotal | components/ui/Navbar.tsx:25-31 | The cart total, a left fold of line totals from 0. CartTotalAppend and CartTotalCons state its properties. |
| Navbar.CartTotalAppend | components/ui/Navbar.tsx:25-31 | The total of two carts put together is the sum of their totals. |
| Navbar.CartTotalCons | components/ui/Navbar.tsx:25-31 | The empty cart totals 0. Each line adds (currentPrice ?? unitPrice) × quantity. |
| Navbar.ListedNavItems | components/ui/Navbar.tsx:38 | The configured nav items that are not hidden. ListedNavItemsSpec states its properties. |
| Navbar.ListedNavItemsSpec | components/ui/Navbar.tsx:38 | A nav item is listed iff it is not hidden, in configuration order, and an item without a status is always listed. |
| Navbar.Badge | components/ui/Navbar.tsx:126 | The badge shows 0 until mounted, then cartCount. |
| Navbar.BodyOverflow | components/ui/Navbar.tsx:50-52 | The body is set to "hidden" iff the menu or the cart is open. |
| Navbar.NavPanels.constructor | components/ui/Navbar.tsx:19-20 | Both panels start closed, and the page is not locked. |
| Navbar.NavPanels.Mount | components/ui/Navbar.tsx:81-83 | Sets mounted. |
| Navbar.NavPanels.PressMenuButton | components/ui/Navbar.tsx:100-104 | Toggles the menu and closes the cart. The page is locked iff the menu is now open. The menu and cart are never both open. |
| Navbar.NavPanels.PressCartButton | components/ui/Navbar.tsx:116-121 | Toggles the cart, closes the menu and resets the swipe. The page is locked iff the cart is now open. |
| Navbar.NavPanels.PressAnywhere | components/ui/Navbar.tsx:55-69 | A press outside the shown cart panel closes the cart and resets the swipe. Otherwise only a press off a swipe row resets the swipe. A press outside the open menu closes the menu. |
| Navbar.NavPanels.CloseCart | components/ui/Navbar.tsx:164 | Closes the cart, keeps the invariant, and leaves the lock to the menu. |
| Navbar.NavPanels.CloseMenu | components/ui/Navbar.tsx:144 | Closes the menu, keeps the invariant, and leaves the lock to the cart. |
| Navbar.NavPanels.SwipeRow | components/ui/Navbar.tsx:192-199 | Swiping a row of the shown cart panel opens it, without touching the panels. |
| OrderSuccess.StopsPollingIff | app/order-success/page.tsx:44-50 | Polling stops iff the workflow status is one of the four done statuses, or an awbNumber is present. |
| OrderSuccess.StopsPolling | app/order-success/page.tsx:44-50 | Polling stops when the status is in `doneStatuses` or the awbNumber is truthy. StopsPollingIff states it case by case. |
| OrderSuccess.PendingPaymentKeepsPolling | app/order-success/page.tsx:44-50 | For example, an order awaiting payment with no air waybill keeps the page polling. |
| OrderSuccess.OrderPoller.constructor | app/order-success/page.tsx:12-18 | Loading, with no order, not started, and nothing fetched. |
| OrderSuccess.OrderPoller.Start | app/order-success/page.tsx:20-66 | With no stored order number, nothing is fetched, no timer starts and loading ends. Otherwise one fetch, the interval and the timeout start. |
| OrderSuccess.OrderPoller.IntervalTick | app/order-success/page.tsx:62 | Issues a fetch iff the interval is still running. |
| OrderSuccess.OrderPoller.TimeoutElapsed | app/order-success/page.tsx:63-66 | A pending timeout stops the interval for good: no later tick fetches. |
| OrderSuccess.OrderPoller.FetchSettled | app/order-success/page.tsx:27-58 | A 404 stops both timers. Another error status, or a thrown fetch, leaves the timers and the order alone. A received order replaces the old one and stops both timers on a done status or an awbNumber. Loading ends in every case. |
| OrderSuccess.OrderPoller.ClearOnceEffect | app/order-success/page.tsx:74-80 | Cart and checkout are cleared at most once, and only once an order has been received. |
| OrderSuccess.OrderPoller.Unmount | app/order-success/page.tsx:68-71 | Cleanup stops both timers. |
| CheckoutForm.FormErrors | app/checkout/page.tsx:38-74 | The set of messages the schema reports, one per failed field rule plus the city refinement. FormAcceptedIff, PostcodeRule and CityRule state its properties. |
| CheckoutForm.FormAcceptedIff | app/checkout/page.tsx:38-74 | The form passes with no message iff every rule holds: full name, country code, address line 1, state and country are non-empty; the e-mail is valid; the phone number has at least 6 characters; the postcode is 5 digits; and a city is picked whenever the chosen state has cities. |
| CheckoutForm.PostcodeRule | app/checkout/page.tsx:48-51 | The postcode passes iff it is exactly 5 characters, all digits. |
| CheckoutForm.CityRule | app/checkout/page.tsx:54-74 | A city is demanded iff the chosen state of the chosen country has at least one city and no city was picked. An unknown country never demands one. |
| CheckoutForm.CitiesOf | app/checkout/page.tsx:56-67 | The cities of the named state of the named country, or none. CitiesOfSpec states its properties. |
| CheckoutForm.CitiesOfSpec | app/checkout/page.tsx:56-67 | The cities consulted belong to a state of that name in a country of that name. With no such country, or no such state, there are none. |
| CheckoutForm.CitiesOfFound | app/checkout/page.tsx:56-67 | Conversely, when the first country of that name has a first state of that name, the cities consulted are exactly that state's cities. |
| CheckoutForm.CountryIso | app/checkout/page.tsx:126-128 | The ISO code is never empty. It is the found country's code when that code is non-empty, and "MY" when no country is found or the found code is empty. |
| CheckoutForm.ItemEntries | app/checkout/page.tsx:320-334 | There is one order entry per cart line, in cart order. |
| CheckoutForm.Courier | app/checkout/page.tsx:296-319 | The `easyparcel` part of the body. CourierSpec states its properties. |
| CheckoutForm.AssembleOrder | app/checkout/page.tsx:284-335 | The refusal, or the order body built from the form values, the selected service, the stored quotes and the cart. AssembleOrderSpec states its properties. |
| CheckoutForm.AssembleOrderSpec | app/checkout/page.tsx:284-335 | Submission is refused, with its message, iff no service is selected. Otherwise phone = countryCode ++ phoneNumber, a missing addressLine2 or city becomes "", country is "MY", and each line's total is (currentPrice ?? unitPrice) × quantity. |
| CheckoutForm.OrderBodyCarriesForm | app/checkout/page.tsx:300-312 | An accepted body carries the name, e-mail, first address line, a present second line, state, postcode and the three prices exactly as given. |
| CheckoutForm.CourierSpec | app/checkout/page.tsx:296-319 | The courier fields come from the first stored quote for the selected service, or are empty when none matches. The serviceId is always the selected one. |
| CheckoutForm.ItemTotalsMatchCart | app/checkout/page.tsx:333 | The order's line totals sum to the navbar's cart total. |
| CheckoutForm.SubtotalIsSumOfLines | app/checkout/page.tsx:310-333 | With the navbar total as subtotal, the body's subtotal equals the sum of its lines. |
| Parcel.Ceil | app/checkout/page.tsx:140-142 | `Math.ceil`: the least integer that is not below x. |
| Parcel.AddLine | app/checkout/page.tsx:132-144 | The reducer step: adds the line's weight × quantity (a zero quantity counts as 1), and takes the larger of the running and the ceiled item size on each axis. |
| Parcel.ParcelMetrics | app/checkout/page.tsx:130-152 | `parcelMetrics`: the reduce over the cart from the all-zero parcel. ParcelWeight, ParcelSize and WeightlessCart state its properties. |
| Parcel.ParcelWeight | app/checkout/page.tsx:130-152 | Parcel weight is the sum of weight × quantity, with a zero quantity counted as 1 and a missing weight as 0. The empty cart gives all zeros. |
| Parcel.ParcelSize | app/checkout/page.tsx:140-150 | Each dimension is the largest ceiled item size, starting from 0. It is at least every item's size, and equals 0 or one of them. |
| Parcel.WeightlessCart | app/checkout/page.tsx:134-139 | A cart with no weights gives a parcel of weight 0. |
| Checkout.AddressIncomplete | app/checkout/page.tsx:191-196 | The destination lacks a state, a country or a 5-character postcode. The same test gates the debounce effect at lines 259-264, with the ISO code as the country. |
| Checkout.PlanQuote | app/checkout/page.tsx:191-223 | The quote is cleared iff a state, country or 5-character postcode is missing, or the state is not in the loaded list. It is skipped iff the weight is ≤ 0. Otherwise the body carries the Johor pick-up, the destination, and the parcel's weight and sizes. |
| Checkout.WeightlessCartNotQuoted | app/checkout/page.tsx:206-211 | A cart with no weights is never quoted. |
| Checkout.PlaceOrderEnabled | app/checkout/page.tsx:794 | Place Order is enabled iff the page is not submitting, not calculating, and has a service selected. |
| Checkout.EnabledButtonSubmits | app/checkout/page.tsx:794 | Whenever Place Order is enabled, submission is accepted. |
| Checkout.CheckoutPage.constructor | app/checkout/page.tsx:83-168 | After the first render and its mount effects: the Malaysian states are loaded, the state is empty, the fee is 0, no service is selected and no request has been made. |
| Checkout.CheckoutPage.RunDebounceEffect | app/checkout/page.tsx:258-282 | For an incomplete address the fee becomes 0 and no timer is armed, with the service untouched. Otherwise a timer is armed for the current address. |
| Checkout.CheckoutPage.AddressEdited | app/checkout/page.tsx:120-128 | Records the watched postcode, state and country ISO code. The debounce effect (lines 258-282) re-runs only if one of the three changed; otherwise the timer and fee stay as they were. |
| Checkout.CheckoutPage.ItemsChanged | app/checkout/page.tsx:156-159 | Changing the items sets the fee to 0 and the service to none, then re-arms the timer for the current address. |
| Checkout.CheckoutPage.TakeRequestId | app/checkout/page.tsx:187 | The new id is one more than the counter, and greater than every id issued before. |
| Checkout.CheckoutPage.CalculateShippingRate | app/checkout/page.tsx:185-223 | Takes a fresh id. It clears the fee and service as PlanQuote says, changes nothing for a weightless parcel, or returns PlanQuote's body with calculation pending. Only in that last case is the request recorded as posted and unanswered. |
| Checkout.CheckoutPage.DebounceElapsed | app/checkout/page.tsx:268-274 | An armed timer, which always holds the current address, fires one calculation with a fresh id, and the outcome follows PlanQuote. An incomplete or unknown destination clears the fee and service and sends nothing. A weightless parcel changes nothing and sends nothing. Otherwise PlanQuote's body is sent, with calculation pending, and the request is recorded as posted. With no timer, nothing happens. |
| Checkout.CheckoutPage.RateFailed | app/checkout/page.tsx:224-228 | Only a posted request, before its headers or during its body read, can fail. The failure records the shipping error whatever its id, by `finally` ends the calculation, and settles the request. Rates, fee and service are untouched. |
| Checkout.CheckoutPage.RateHeadersArrived | app/checkout/page.tsx:229 | Headers arrive only for a posted, unanswered request, and at most once. The answer goes on to have its body read iff its id is still the latest. A superseded answer ends there, and `finally` clears `isCalculating` even while the newer request is pending. Rates, fee and service are untouched. |
| Checkout.CheckoutPage.RateBodyRead | app/checkout/page.tsx:230-252 | Only an answer whose headers passed the id check is read, and the id is not checked again. An unreadable body or error status records the error and changes nothing else. An empty list gives fee 0 and no service. Otherwise the list is stored and its first quote selected, with its fee. The calculation always ends. |
| Checkout.CheckoutPage.Submit | app/checkout/page.tsx:284-335 | Runs only after the schema reports nothing (`form.handleSubmit`, line 439), and returns AssembleOrder of the page state. A refusal shows its message. An accepted body names a service found among the stored quotes and carries a 5-character postcode, a state, a name and a valid e-mail. |
| Checkout.CheckoutPage.OrderFailed | app/checkout/page.tsx:351-368 | A failed order shows its message and ends submitting. |
| Checkout.SupersededBodyApplied | app/checkout/page.tsx:229-246 | Request 1 for postcode 81200 passes the id check, then the postcode becomes 81300 and request 2 is sent. Reading body 1 afterwards leaves the page showing 81200's fee 7 and its service, with the counter at 2 and no calculation pending. |

## Left out

- The product API routes and `lib/getProducts.ts`: SQL run by a hosted database, plus field copying. The order proxy routes: HTTP forwarding to a configured backend.
- I/O: `fetch`, JSON parsing, `localStorage`, `window.location` and the redirect to payment. Their results are method parameters (`RateResponse`, `FetchOutcome`, the stored order number).
- Wall-clock time: the 400 ms debounce and the 5 s and 30 s timers are events, not durations. React's effect scheduling is folded into the handler that triggers each effect, in declaration order.
- Floating point: `toFixed(2)` and `parseFloat` rounding of fees and prices, NaN, and the carousel's `translateX` percentages. Amounts are exact reals.
- Libraries: the country-state-city lookups are a list passed in. The e-mail syntax check is the parameter `isEmail`. react-hook-form's field handling is not modelled.
- The checkout cities effect (app/checkout/page.tsx:170-179). It fills the city dropdown, and it clears the form's city whenever the selected state is not found. The model treats the city as a form value the user sets, so this reset is not captured. The `status=error` message effect is UI. Neither effect is modelled.
- The JSX markup, CSS, the `hydrated` flag and the order confirmation's rendering.
- The stores' own code is not modelled. The store fields the pages read are page fields (for example `CheckoutPage.items` and `shippingFee`, read at app/checkout/page.tsx:76-77). `swipeOpen` stands for the cart store's swipe state, and `cartClears` counts calls of `clearCart`/`clearCheckout`.
- Products.tsx reads `item.variants[0]?.options[0]` without guarding a missing `variants` or `options` array. That page would throw there, but the model treats a missing array as empty, as the catalog page does.
- Parcel.ParcelWeight: a quantity that is missing or not a number cannot be represented, because cart quantities are integers. Only the zero case of `Number(q) || 1` is modelled.
- Navbar.NavPanels.PressAnywhere: the browser's ordering of the capturing mousedown handler relative to a button's click handler is not modelled. Each event is handled on its own.
- An order lookup answering with the JSON body `null` would reset the order to null. It is not modelled: a received order is always present.
- String lengths (the 5-character postcode, the 6-character phone minimum, the non-empty fields) count Unicode characters. JavaScript's `.length` and the schema count UTF-16 code units. The two differ only for characters outside the Basic Multilingual Plane, such as emoji.
