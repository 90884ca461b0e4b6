# Checkout wizard and order-status progression

This project models two pieces of sequential logic from an e-commerce site, in Dafny, and proves properties of them.

- **The checkout page** (`frontend/src/pages/Checkout.js`). This is a three-step wizard: Customer Information, Payment Method, Confirm Order.
  - The model covers the customer-information validator, the step counter, and the Back, Next and Place Order enable rules.
  - It also covers the two payment paths: the Razorpay gateway for UPI and card, and cash on delivery.
  - The page is the class `Checkout.CheckoutPage`. Its fields are the component state (`activeStep`, `paymentMethod`, `loading`, `error`, `customerInfo`) and the cart of the cart context.
  - Every external call is an input: gateway script load, create-order, create-cod-order, verify-payment, the modal callbacks.
  - Each call the page makes is recorded in the ghost trace `effects`, in order.
- **The order manager** (`backend/services/order_manager.py`). It creates orders, updates their status, and runs monitoring passes.
  - Each pass has three sweeps: pending → confirmed, processing → shipped, shipped → delivered.
  - The `orders` collection is a `map` field of the class `OrderManager.OrderManager`. The methods update it in place.
  - The calls to the SMS service are appended to an `outbox`.
  - Each sweep is a `for` loop over the ids the database returns. The loop is proved against `OrderRun`, the sweeps and the pass as the code runs them.
  - As the code runs them, a shipped or delivered SMS raises `KeyError` in formatting whenever it is due: the SMS channel is on and the customer has a phone (`OrderModel.NotificationRaisesExactly`). That ends the pass (see "## Findings"). `OrderModel` holds the intended behaviour, with every template filled in, and the properties of a whole pass are proved about it. `OrderRun` states when the two agree and where they part.

Files:

| file | contents |
|---|---|
| `wrappers.dfy` | `Option` |
| `customer_validation.dfy` | the form record, the email and phone shape checks as string predicates, and `validateCustomerInfo` |
| `checkout.dfy` | the page class, its event handlers and its button rules |
| `checkout_scenarios.dfy` | whole sessions on a fresh page, driven only through the handlers |
| `order_model.dfy` | statuses, order records, configuration, SMS templates, and the intended per-order, per-table and SMS effect of each sweep and of a pass |
| `order_run.dfy` | the sweeps and the pass as the code runs them, where a template that cannot be filled in raises and ends the pass |
| `order_manager.dfy` | the manager class with its loop-based sweeps |

Whitespace in the email expression is the JavaScript class `\s`, written out character by character (`CustomerValidation.IsSpace`). The configuration of `backend/config.py` is the value `OrderModel.DefaultConfig`. The three service stubs of the manager are the value `OrderModel.Stubs`. A pass can also be given other services.

## Model

| member | source | states |
|---|---|---|
| CustomerValidation.CustomerInfo.Set | frontend/src/pages/Checkout.js:50-55 | Changing one input field changes that field of the form and leaves the other three unchanged. |
| CustomerValidation.EmailPatternCharacterized | frontend/src/pages/Checkout.js:67-70 | The email expression accepts a string exactly when it has one `@`, a non-empty whitespace-free part before it, and a part after it free of whitespace and `@` that holds a `.` with a character on each side. |
| CustomerValidation.MatchIsWellFormed | frontend/src/pages/Checkout.js:67 | Any match of the email expression yields the part-by-part shape above. |
| CustomerValidation.WellFormedMatches | frontend/src/pages/Checkout.js:67 | Every string of that shape has a match of the email expression. |
| CustomerValidation.PhonePatternCharacterized | frontend/src/pages/Checkout.js:71 | The phone expression accepts exactly the ten-character strings of digits `0`..`9`. |
| CustomerValidation.Validate | frontend/src/pages/Checkout.js:61-76 | An empty field gives the missing-fields error. With every field filled, a malformed email gives the email error. The check passes exactly when everything is filled, the email matches and the phone matches. |
| CustomerValidation.EmptyFieldReportedFirst | frontend/src/pages/Checkout.js:62-66 | Any empty field yields the "fill in all required fields" error, whatever the email and phone hold. |
| CustomerValidation.ValidateAccepts | frontend/src/pages/Checkout.js:61-76 | Validation passes if and only if all four fields are non-empty, the email is well formed and the phone is ten digits. |
| CustomerValidation.ValidateRejectsEmail | frontend/src/pages/Checkout.js:67-70 | With every field filled, the email error is reported exactly when the email is malformed, before the phone is looked at. |
| CustomerValidation.ValidateRejectsPhone | frontend/src/pages/Checkout.js:71-74 | With the fields filled and a good email, the phone error is reported exactly when the phone is not ten digits. |
| Checkout.CreateOrderError | frontend/src/pages/Checkout.js:113-116 | Every create-order failure is shown as "Failed to create order: " followed by the cause. An HTTP error shows the server's `error` field, or "Failed to create order" when that field is empty. A thrown error shows its own message. |
| Checkout.LoadingDisablesButtons | frontend/src/pages/Checkout.js:386-408 | While loading, Back, Next and Place Order are all disabled. |
| Checkout.ButtonsWhenIdle | frontend/src/pages/Checkout.js:386-408 | On a step in 0..2 and not loading, Back is enabled exactly off step 0 and Next exactly below the last step. Place Order is enabled exactly on the last step with a method chosen. One of Next and Place Order is enabled unless the last step has no method. |
| Checkout.CodErrorShown | frontend/src/pages/Checkout.js:220-231 | A failed COD request shows the alert exactly when its message is non-empty, the server's `error` field or the thrown message. An HTTP error without an `error` field shows no alert. |
| Checkout.PlaceOrderEnabled | frontend/src/pages/Checkout.js:393-400 | Place Order is enabled exactly on the last step, with a method chosen and while not loading. It is never enabled together with Next. |
| Checkout.StepAfterNext | frontend/src/pages/Checkout.js:78-83 | Next stays on the step exactly when it is step 0 and validation fails; otherwise it advances by one. |
| Checkout.OptionsFor | frontend/src/pages/Checkout.js:138-195 | The gateway options carry the created order's id, amount and currency and the customer's name, email and phone as prefill. Only UPI gets the collect flow to the merchant handle. |
| Checkout.StepStaysInRange | frontend/src/pages/Checkout.js:386-409 | From any step in 0..2, an enabled Back or Next leads to a step in 0..2. |
| Checkout.CheckoutPage.constructor | frontend/src/pages/Checkout.js:30-42 | A new page is on step 0 with no payment method, no error, not loading, a blank form and the cart's items. |
| Checkout.CheckoutPage.CartEffect | frontend/src/pages/Checkout.js:44-48 | An empty cart leads to the cart page; a non-empty cart leads nowhere. |
| Checkout.CheckoutPage.HandleCustomerInfoChange | frontend/src/pages/Checkout.js:50-55 | The form gets the typed value in the named field; the other fields and the rest of the page stay. |
| Checkout.CheckoutPage.HandlePaymentMethodChange | frontend/src/pages/Checkout.js:57-59 | The chosen method becomes the payment method. |
| Checkout.CheckoutPage.ValidateCustomerInfo | frontend/src/pages/Checkout.js:61-76 | Returns true exactly when validation passes. Otherwise the error becomes the message of the first failing check; when it passes, the error is left as it was. |
| Checkout.CheckoutPage.HandleNext | frontend/src/pages/Checkout.js:78-83 | Step 0 advances only when validation passes; otherwise it stays and shows the validation message. Every other step advances unconditionally, without looking at the payment method. |
| Checkout.CheckoutPage.HandleBack | frontend/src/pages/Checkout.js:85-87 | The step goes back by one. |
| Checkout.CheckoutPage.HandleCashOnDelivery | frontend/src/pages/Checkout.js:206-235 | Makes exactly one create-cod-order call. Success empties the cart and navigates to the success page with the COD order id. Failure keeps the cart and shows the error's message. Loading ends false. |
| Checkout.CheckoutPage.HandlePayment | frontend/src/pages/Checkout.js:120-204 | Outcome by outcome (`PaymentSettled`), with loading false at the end. COD makes only the create-cod-order call and opens no modal. Success empties the cart, clears the error and navigates; failure keeps the cart and shows the COD error. Otherwise the cart stays. A missing SDK shows "Razorpay SDK failed to load" after the script load alone. A failed create-order shows its prefixed error, with no modal. A created order clears the error and opens one more modal with that order's options. |
| Checkout.CheckoutPage.OnPaymentHandler | frontend/src/pages/Checkout.js:150-177 | Calls verify-payment with the gateway response. Only a 'success' status empties the cart and navigates with the order and payment ids. A rejected call shows the verification error. Any other status changes nothing. |
| Checkout.CheckoutPage.OnPaymentDismissed | frontend/src/pages/Checkout.js:178-183 | Closing the modal shows "Payment cancelled" and ends loading; the cart stays. |
| Checkout.CheckoutPage.ClickBack | frontend/src/pages/Checkout.js:386-391 | Back moves one step back unless on step 0 or loading, and the step stays in 0..2. |
| Checkout.CheckoutPage.ClickNext | frontend/src/pages/Checkout.js:401-409 | Next acts as `handleNext` unless loading or on the last step, and the step stays in 0..2. The error changes only when step 0 fails validation. |
| Checkout.CheckoutPage.ClickPlaceOrder | frontend/src/pages/Checkout.js:393-400 | Without a method, while loading or off the last step nothing changes. When enabled, the click has exactly the outcome of `handlePayment` (`PaymentSettled`) and loading ends false. Any change of the cart is its emptying by a successful COD order. |
| CheckoutScenarios.ShopperIsValid | frontend/src/pages/Checkout.js:61-76 | A concrete well-formed form passes validation. |
| CheckoutScenarios.ShortPhoneRefused | frontend/src/pages/Checkout.js:71-74 | The same form with a five-digit phone gets the phone error. |
| CheckoutScenarios.PastDetails | frontend/src/pages/Checkout.js:78-83 | Filling in a valid form and Next reaches the payment step with no error and the cart intact. |
| CheckoutScenarios.ReachConfirm | frontend/src/pages/Checkout.js:78-83 | Filling in a valid form, Next, choosing a method and Next reaches 'Confirm Order' with no error and the cart intact. |
| CheckoutScenarios.CashOnDeliverySucceeds | frontend/src/pages/Checkout.js:206-229 | An accepted COD order empties the cart, shows no error and opens no modal. |
| CheckoutScenarios.CashOnDeliveryRefused | frontend/src/pages/Checkout.js:220-231 | A refused COD order shows the server's message and keeps the cart. |
| CheckoutScenarios.CardSdkMissing | frontend/src/pages/Checkout.js:131-134 | A script that fails to load shows the SDK message, opens no modal and keeps the cart. |
| CheckoutScenarios.CardOrderRefused | frontend/src/pages/Checkout.js:113-116 | A refused create-order shows the server's text behind the fixed prefix and keeps the cart. |
| CheckoutScenarios.UpiPaid | frontend/src/pages/Checkout.js:165-172 | A UPI payment verified as 'success' empties the cart. |
| CheckoutScenarios.UpiNotVerified | frontend/src/pages/Checkout.js:164-173 | A verify answer other than 'success' keeps the cart and shows no error. |
| CheckoutScenarios.UpiDismissed | frontend/src/pages/Checkout.js:178-183 | Closing the modal shows "Payment cancelled" and keeps the cart. |
| CheckoutScenarios.DoubleSubmit | frontend/src/pages/Checkout.js:197-203 | Once the modal is open, Place Order is enabled again, and a second click opens a second modal. |
| CheckoutScenarios.ShortPhoneBlocksNext | frontend/src/pages/Checkout.js:78-80 | A short phone keeps the wizard on step 0 with the phone message. |
| CheckoutScenarios.NextWithoutPaymentMethod | frontend/src/pages/Checkout.js:78-83 | Next on the payment step reaches 'Confirm Order' with no method chosen, where Place Order is disabled. |
| OrderModel.AdvancesIsForward | backend/services/order_manager.py:54-103 | The three sweep moves go forward and never lead to processing or cancelled. |
| OrderModel.FieldRendered | backend/config.py:49-51 | Every `{field}` piece of a template appears, braces and key, in the template's text. |
| OrderModel.FieldsNamedInText | backend/config.py:49-51 | Every field a template names is written as `{key}` in that template's text. |
| OrderModel.FieldsOfTemplate | backend/config.py:49-51 | The fields each template names are exactly its `{field}` pieces: `order_id` and `delivery_date` for confirmation, `order_id`, `courier` and `tracking_url` for shipped, `order_id` and `feedback_url` for delivered. |
| OrderModel.OnlyConfirmationFormats | backend/config.py:49-51 | Of the three templates, only the confirmation one names no field outside the four that `_send_status_notification` passes: `order_id`, `amount`, `tracking_url`, `delivery_date`. The shipped template names `courier` and the delivered one `feedback_url`. |
| OrderModel.SmsTemplate | backend/services/order_manager.py:140-147 | A template exists exactly for confirmed, shipped and delivered. |
| OrderModel.Notification | backend/services/order_manager.py:122-138 | A notification is at most one SMS. There is one exactly when the SMS channel is on, the status has a template and the customer has a phone, and it goes to that phone with that status. |
| OrderModel.NotificationRaisesExactly | backend/services/order_manager.py:124-134 | Formatting raises exactly when a shipped or delivered SMS is due to a phone over the SMS channel. |
| OrderModel.PendingSendsNothing | backend/services/order_manager.py:174-177 | The pending notification of order creation sends nothing and never raises. |
| OrderModel.NewOrder | backend/services/order_manager.py:164-172 | A new order is pending with "Order placed successfully" and both times set to now, whatever status the input carried. The customer and the other fields are copied. |
| OrderModel.WithStatus | backend/services/order_manager.py:109-115 | The update sets the status, last-updated time and message, and keeps the creation time, the customer and the other fields. |
| OrderModel.UpdateStatus | backend/services/order_manager.py:105-117 | A status update keeps the set of orders. It changes only the order with that id, by `WithStatus`. A missing id changes nothing. |
| OrderModel.AfterVisit | backend/services/order_manager.py:54-103 | A visited order that is due moves to the sweep's target with its message and the current time. An order that is not due is unchanged. The customer is kept either way. |
| OrderModel.AfterSweep | backend/services/order_manager.py:40-103 | A sweep, guard included, leaves an order unchanged or moves an order of its source status to its target with its message and the current time. |
| OrderModel.SweepTable | backend/services/order_manager.py:40-103 | A sweep neither adds nor removes orders. |
| OrderModel.VisitNotesSound | backend/services/order_manager.py:119-138 | A sweep sends no more SMS than orders scanned. Each uses the sweep's target status, which has a template, and goes to the phone of an order the sweep moved. |
| OrderModel.AfterPass | backend/services/order_manager.py:33-35 | A pass keeps an order's creation time, customer and other fields. An order it changes gets the pass's time. |
| OrderModel.PassTable | backend/services/order_manager.py:33-35 | A whole pass keeps the set of orders and treats each order on its own, by the three sweeps in order. |
| OrderModel.PassNotes | backend/services/order_manager.py:33-35 | A whole pass sends at most three SMS per order scanned. |
| OrderModel.ConfirmSweepDisabled | backend/services/order_manager.py:40-43 | With auto-confirmation off, the pending sweep changes nothing and sends nothing. |
| OrderModel.ConfirmSweepExact | backend/services/order_manager.py:40-60 | With auto-confirmation on, a pending order is confirmed if and only if it was created strictly before now minus the delay and its payment verifies; otherwise it is unchanged. |
| OrderModel.ShipSweepExact | backend/services/order_manager.py:62-80 | With the shipped template filled in, a processing order is shipped if and only if its last update is strictly older than the processing interval and the inventory check passes; otherwise it is unchanged. |
| OrderModel.DeliverSweepExact | backend/services/order_manager.py:82-103 | With the delivered template filled in, a shipped order is delivered if and only if shipping updates are on, its last update is strictly older than the shipping interval and the courier answers 'delivered'; otherwise it is unchanged. |
| OrderModel.PassAdvancesAtMostOnce | backend/services/order_manager.py:33-35 | A pass leaves confirmed, delivered and cancelled orders alone and never produces processing. Status moves forward by at most one of the three moves: an order shipped in the pass has a fresh last-updated time and is not delivered in the same pass. |
| OrderModel.StubsNeverDeliver | backend/services/order_manager.py:159-162 | With the courier stub answering 'in_transit', no pass ever makes an order delivered. |
| OrderModel.DefaultConfigIntervals | backend/config.py:77-88 | The configured intervals meet the precondition of the pass lemmas, and auto-confirmation is on. |
| OrderRun.ConfirmNeverRaises | backend/services/order_manager.py:54-60 | Visiting an order in the pending sweep never raises. |
| OrderRun.RunVisits | backend/services/order_manager.py:54-103 | The loop of a sweep as written keeps the set of orders and sends at most one SMS per id scanned. |
| OrderRun.RunVisitsStep | backend/services/order_manager.py:54-103 | Once the loop has raised, one more id changes nothing. Otherwise that id's order, if present, becomes `AfterVisit` of its queried document. The loop raises exactly when that visit raises, and the SMS of that visit is sent unless it raises. |
| OrderRun.RunVisitsAt | backend/services/order_manager.py:54-103 | The loop leaves each order either unchanged or as one visit leaves it. An id not scanned is unchanged. When the loop does not raise, every scanned order is visited. |
| OrderRun.RunVisitsStaysRaised | backend/services/order_manager.py:32-103 | Once a visit has raised, the rest of the scan changes nothing. |
| OrderRun.RunVisitsRaises | backend/services/order_manager.py:119-134 | The loop ends in the exception exactly when some scanned order raises. |
| OrderRun.StopsAtFirstRaise | backend/services/order_manager.py:31-134 | If the order at a position raises, the loop raises, and every order whose id is not at or before that position is unchanged. |
| OrderRun.RunVisitsQuiet | backend/services/order_manager.py:54-103 | If no scanned order raises, the loop does not raise and sends exactly the SMS of every visit, in scan order. |
| OrderRun.RunSweep | backend/services/order_manager.py:40-103 | A sweep as written keeps the set of orders. With its flag off it changes nothing, sends nothing and does not raise. |
| OrderRun.RunPass | backend/services/order_manager.py:31-38 | A pass as written keeps the set of orders. |
| OrderRun.RunSweepAt | backend/services/order_manager.py:40-103 | A sweep as written leaves each order unchanged or as `AfterSweep` leaves it. When it does not raise, every order is as `AfterSweep` leaves it. |
| OrderRun.RunSweepAgrees | backend/services/order_manager.py:40-138 | When no visit raises, a sweep as written has exactly the intended table and SMS, and does not raise. |
| OrderRun.ConfirmRunIsIntended | backend/services/order_manager.py:40-60 | The pending sweep as written always has exactly the intended table and SMS. |
| OrderRun.SilentSweep | backend/services/order_manager.py:119-138 | With the SMS channel off or no customer phone, a sweep as written is the intended sweep, and the table stays without phones. |
| OrderRun.RunPassAgrees | backend/services/order_manager.py:31-38 | With the SMS channel off or no customer phone, a pass as written is the whole intended pass: `PassTable` and `PassNotes`, with no exception. |
| OrderRun.ShipmentsSilent | backend/services/order_manager.py:62-134 | The shipping and delivery loops as written never send an SMS. |
| OrderRun.ShipmentsSendNothing | backend/services/order_manager.py:62-134 | The shipping and delivery sweeps as written never send an SMS. |
| OrderRun.ConfirmationsOnly | backend/services/order_manager.py:54-138 | Every SMS of the pending loop is an order confirmation. |
| OrderRun.RunPassOnlyConfirms | backend/services/order_manager.py:31-138 | Every SMS of a pass as written is an order confirmation. |
| OrderRun.RunPassAt | backend/services/order_manager.py:31-38 | For each order, a pass as written stops somewhere along the chain of the three sweeps: unchanged, after one, after two, or after all three. |
| OrderRun.RunPassAdvancesAtMostOnce | backend/services/order_manager.py:31-38 | A pass as written moves an order at most one status forward, and leaves confirmed, delivered and cancelled orders alone. |
| OrderRun.RunPassStubsNeverDeliver | backend/services/order_manager.py:159-162 | With the stub services, no pass as written makes an order delivered. |
| OrderRun.PackedShipRaises | backend/services/order_manager.py:62-134 | A processing order with a phone, two hours after its last update, is due for shipping under the default configuration, and its shipped SMS raises. |
| OrderRun.PackedOnlyShips | backend/services/order_manager.py:40-103 | Such an order waits for neither the confirmation nor the delivery sweep. |
| OrderRun.PairConfirmChangesNothing | backend/services/order_manager.py:40-60 | Two such orders: the pending sweep as written changes nothing and sends nothing. |
| OrderRun.PairShipStopsAtFirst | backend/services/order_manager.py:73-134 | Two such orders: the processing sweep as written ships the first and raises, and leaves the second as it was. |
| OrderRun.PairIntendedConfirm | backend/services/order_manager.py:40-60 | Two such orders: the intended pending sweep changes nothing and sends nothing. |
| OrderRun.PairIntendedShip | backend/services/order_manager.py:62-80 | Two such orders: the intended processing sweep ships both and texts both. |
| OrderRun.PairIntendedDeliver | backend/services/order_manager.py:82-103 | Two such orders, once shipped: the intended delivery sweep sends nothing. |
| OrderRun.PairIntendedShipsBoth | backend/services/order_manager.py:31-38 | Two such orders: the whole intended pass ships the second order and sends two SMS. |
| OrderRun.FirstShipmentStopsPass | backend/services/order_manager.py:31-134 | Two such orders: a pass as written raises with the first shipped, the second still processing and no SMS sent, where the whole intended pass ships both and sends two SMS. |
| OrderManager.OrderManager.constructor | backend/services/order_manager.py:9-13 | A manager starts from the given table with no SMS sent. |
| OrderManager.OrderManager.CreateOrder | backend/services/order_manager.py:164-178 | Inserts the new pending order under the assigned id. Returns that id exactly when it is non-empty, otherwise None. Sends no SMS. |
| OrderManager.OrderManager.SendStatusNotification | backend/services/order_manager.py:122-138 | Raises exactly when the template cannot be filled in for an SMS that is due. Otherwise it appends exactly the notification the status and customer call for. |
| OrderManager.OrderManager.UpdateOrderStatus | backend/services/order_manager.py:105-120 | The table becomes the status update of that id, and the write stands even when the notification raises. The updated order's customer is notified unless the notification raises. A missing id changes nothing, sends nothing and does not raise. |
| OrderManager.OrderManager.VisitOne | backend/services/order_manager.py:54-103 | One loop iteration leaves the visited order as `AfterVisit` leaves it, raises exactly when that visit raises, and otherwise appends its notification. |
| OrderManager.OrderManager.Visit | backend/services/order_manager.py:54-103 | The loop over the scan leaves the table, the outbox and the exception exactly as `RunVisits` says: in scan order, up to and including the first visit that raises. |
| OrderManager.OrderManager.ProcessPendingOrders | backend/services/order_manager.py:40-60 | The table, outbox and exception become those of the pending sweep as written, which is a no-op when auto-confirmation is off. |
| OrderManager.OrderManager.UpdateProcessingOrders | backend/services/order_manager.py:62-80 | The table, outbox and exception become those of the processing sweep as written. |
| OrderManager.OrderManager.UpdateShippingStatus | backend/services/order_manager.py:82-103 | The table, outbox and exception become those of the shipping sweep as written, which is a no-op when shipping updates are off. |
| OrderManager.OrderManager.MonitorPass | backend/services/order_manager.py:31-38 | One pass with the stubs leaves the table, outbox and exception of `RunPass`: the three sweeps in order, each skipped once an earlier one raised. No order becomes delivered. |

## Left out

- Threading: `start_monitoring`, `stop_monitoring`, the `while self.running` loop with its one-minute sleep, and the `print` in the handler that catches a pass's exception (backend/services/order_manager.py:15-38). The model covers one pass of the loop, `MonitorPass`; its `raised` result is the exception that handler catches.
- The clock: each pass reads one integer-second clock value `now`. The source calls `datetime.utcnow()` again for every query and every update, so its timestamps within one pass can differ by fractions of a second.
- The database: `find` is a filter over a `scan` of every stored id, taken in the database's order. Each visit reads the order as the query returned it, and `find_one_and_update` is the map update.
- MonitorPass: it is stated for the stub services, the only ones the source's pass can call. The sweep methods take any `Services`.
- CreateOrder: requires an id not already in the table. The database assigns a fresh `_id`, and a duplicate-key error from `insert_one` is not modelled.
- An order document whose `customer` key holds a value other than a sub-document: `customer` is either absent or a record with an optional phone.
- SMS text: a notification is recorded as the phone and the status. Whether `template.format(...)` succeeds is modelled, by the set of fields each template names against the four keyword arguments it is given. The formatted text itself, the tracking URL and the `strftime` delivery date are not.
- Network I/O on the page: the `fetch` calls, the Razorpay script injection and the `window.Razorpay` modal. Their results are the parameters `sdkLoaded`, `CreateOrderOutcome`, `CodOutcome` and `VerifyOutcome`, and the calls appear only in the ghost `effects` trace.
- `getCartTotal` and the cart context: the cart context's source is not part of this model. The amount sent to create-order and create-cod-order is recorded as the cart's items at the time of the call. `clearCart` is the only cart operation, and it empties the sequence.
- HandlePayment: it is one atomic event from the click to its `finally`. The renders in between, with `loading` true, are not modelled; while they last every button is disabled, so no click can come in. A callback of a modal opened earlier could still fire in that window, and that interleaving is not modelled.
- The gateway modal's lifetime: `openedOrders` lists every modal opened and never shrinks. Its callbacks may fire in any order, any number of times.
- The unused `orderData` state, the theme, the key, and the display name and description options.
- `backend/routes/payment_routes.py`, `app.py`, `add_sample_products.py` and the rendering-only pages: the Flask routes, Razorpay signature checks, SQLAlchemy CRUD, seed data and human-facing pages are not part of this model.

Behaviour of the code that the model keeps as it is:

- `loading` goes back to false in `finally` as soon as the modal is opened, so Place Order is enabled again while the modal is open, and a second click opens a second modal (`CheckoutScenarios.DoubleSubmit`).
- `handleNext` does not check `paymentMethod`. Next on the payment step reaches 'Confirm Order' with no method chosen; there only Place Order is disabled (`CheckoutScenarios.NextWithoutPaymentMethod`).
- The verify-payment handler acts only on a 'success' status. Any other status shows no error and leaves the cart (`CheckoutScenarios.UpiNotVerified`).
- A non-ok COD response without an `error` field throws `new Error(undefined)`, whose message is the empty string. The page stores that empty error, and the alert is not shown (`Checkout.CodErrorShown`).
- A successful Next does not clear an earlier error. A validation message stays on screen after the form is corrected.

## Findings

| source | as written | input that shows it | evidently intended | confidence | as-written member | corrected member |
|---|---|---|---|---|---|---|
| backend/services/order_manager.py:127-134 with backend/config.py:50-51 | `template.format` is given `order_id`, `amount`, `tracking_url` and `delivery_date` only. The shipped template names `{courier}` and the delivered one `{feedback_url}`, so their SMS raise `KeyError` after the order has been written. The exception leaves the sweep's loop and the rest of the pass. Because `time.sleep(60)` is inside the same `try` (backend/services/order_manager.py:32-36), the next pass starts at once and ships the next order; what is lost is every shipped and delivered SMS and the one-minute rhythm of passes. | Default configuration, stub services, clock 7200, and two processing orders "a" and "b", both last updated at 0 and both with a phone. A pass ships "a" and raises; "b" stays processing and no SMS is sent. | Every due order is shipped and its customer texted: a pass ships "a" and "b" and sends two SMS. | not executed | OrderRun.FirstShipmentStopsPass | OrderModel.PassTable |
