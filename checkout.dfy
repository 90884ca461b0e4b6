/**
 * The checkout wizard of frontend/src/pages/Checkout.js: the step counter,
 * the button enable rules and the two payment paths (gateway and cash on
 * delivery). Network calls, the gateway script and the gateway modal are
 * external: their results are parameters, and the calls themselves are
 * recorded in the ghost trace `effects`.
 */
module Checkout {
  import opened Wrappers
  import opened CustomerValidation

  /** `PAYMENT_METHODS`: 'upi', 'card', 'cod'. The empty `paymentMethod` is `None`. */
  datatype PaymentMethod = Upi | Card | Cod

  /** `steps.length - 1`: the index of 'Confirm Order'. */
  const LastStep := 2
  const OrderCurrency := "INR"
  /** The merchant handle of the UPI collect flow. */
  const MerchantVpa := "7735587118@fam"
  const SdkLoadFailed := "Razorpay SDK failed to load"
  const VerificationFailed := "Payment verification failed"
  const PaymentCancelled := "Payment cancelled"

  /** The create-order response `{id, amount, currency}`. */
  datatype GatewayOrder = GatewayOrder(id: string, amount: int, currency: string)

  /** What `createOrder()` ends with. */
  datatype CreateOrderOutcome =
    | OrderCreated(order: GatewayOrder)
      /** A non-ok response; `errorField` is `data.error`, "" when absent. */
    | CreateOrderHttpError(errorField: string)
      /** `fetch` or `response.json()` rejected with this message. */
    | CreateOrderThrew(message: string)

  /** What the create-cod-order request ends with. */
  datatype CodOutcome =
    | CodCreated(orderId: string)
    | CodHttpError(errorField: string)
    | CodThrew(message: string)

  /** What the verify-payment request ends with: a JSON body with this `status` ("" when absent), or a rejection. */
  datatype VerifyOutcome = VerifyAnswered(status: string) | VerifyThrew

  /** The gateway's handler argument. */
  datatype PaymentResponse = PaymentResponse(paymentId: string, orderId: string, signature: string)

  datatype UpiCollect = UpiCollect(flow: string, vpa: string)

  /** The gateway options that depend on the order and the customer. */
  datatype GatewayOptions = GatewayOptions(
    amount: int, currency: string, orderId: string,
    prefillName: string, prefillEmail: string, prefillContact: string,
    upi: Option<UpiCollect>)

  datatype SuccessState = PaidOnline(paymentId: string) | CashOnDelivery
  datatype Route = CartPage | OrderSuccess(orderId: string, state: SuccessState)

  /** The external calls the page makes, in the order it makes them. */
  datatype Effect<Item> =
    | LoadGatewayScript
      /** POST create-order; the amount is the cart total of `items`. */
    | CreateOrder(items: seq<Item>, currency: string, customer: CustomerInfo)
    | OpenGateway(options: GatewayOptions)
    | VerifyPayment(response: PaymentResponse)
      /** POST create-cod-order; the amount is the cart total of `items`. */
    | CreateCodOrder(items: seq<Item>, customer: CustomerInfo)
    | Navigate(route: Route)

  /** `'Failed to create order: ' + error.message` for a failed `createOrder()`. */
  function CreateOrderError(o: CreateOrderOutcome): (m: string)
    requires !o.OrderCreated?
    ensures |m| >= 24 && m[..24] == "Failed to create order: "
    ensures o.CreateOrderHttpError? ==> m[24..] == if o.errorField == "" then "Failed to create order" else o.errorField
    ensures o.CreateOrderThrew? ==> m[24..] == o.message
  {
    "Failed to create order: " +
      match o
      case CreateOrderHttpError(e) => if e == "" then "Failed to create order" else e
      case CreateOrderThrew(msg) => msg
  }

  /** `error.message` for a failed COD request; `new Error(undefined)` has the empty message. */
  function CodError(o: CodOutcome): (m: string)
    requires !o.CodCreated?
    ensures o.CodHttpError? ==> m == o.errorField
    ensures o.CodThrew? ==> m == o.message
  {
    match o
    case CodHttpError(e) => e
    case CodThrew(msg) => msg
  }

  /** The `options` built in `handlePayment`; only UPI gets the collect flow. */
  function OptionsFor(order: GatewayOrder, info: CustomerInfo, m: Option<PaymentMethod>): (r: GatewayOptions)
    ensures r.orderId == order.id && r.amount == order.amount && r.currency == order.currency
    ensures r.prefillName == info.name && r.prefillEmail == info.email && r.prefillContact == info.phone
    ensures r.upi.Some? <==> m == Some(Upi)
    ensures r.upi.Some? ==> r.upi.value == UpiCollect("collect", MerchantVpa)
  {
    GatewayOptions(order.amount, order.currency, order.id, info.name, info.email, info.phone,
      if m == Some(Upi) then Some(UpiCollect("collect", MerchantVpa)) else None)
  }

  /** `error && <Alert>`: the empty message is falsy and shows nothing. */
  predicate ErrorShown(error: Option<string>)
    ensures ErrorShown(error) <==> error != None && error != Some("")
  {
    error.Some? && error.value != ""
  }

  /** Back: `disabled={activeStep === 0 || loading}`. */
  predicate BackEnabled(step: int, loading: bool)
    ensures BackEnabled(step, loading) <==> step != 0 && !loading
  {
    !(step == 0 || loading)
  }

  /** Next is rendered instead of Place Order below the last step, `disabled={loading}`. */
  predicate NextEnabled(step: int, loading: bool)
    ensures NextEnabled(step, loading) <==> step != LastStep && !loading
  {
    step != LastStep && !loading
  }

  /** Place Order is rendered at the last step, in place of Next, `disabled={!paymentMethod || loading}`. */
  predicate PlaceOrderEnabled(step: int, m: Option<PaymentMethod>, loading: bool)
    ensures PlaceOrderEnabled(step, m, loading) <==> step == LastStep && m.Some? && !loading
    ensures PlaceOrderEnabled(step, m, loading) ==> !NextEnabled(step, loading)
  {
    step == LastStep && !(m.None? || loading)
  }

  /** The step after `handleNext`: step 0 advances only on valid information, other steps always. */
  function StepAfterNext(step: int, info: CustomerInfo): (r: int)
    ensures r == step || r == step + 1
    ensures r == step <==> step == 0 && Validate(info).Some?
  {
    if step == 0 && Validate(info).Some? then step else step + 1
  }

  /** While `handlePayment` runs, every button of the wizard is disabled. */
  lemma LoadingDisablesButtons(step: int, m: Option<PaymentMethod>)
    ensures !BackEnabled(step, true) && !NextEnabled(step, true) && !PlaceOrderEnabled(step, m, true)
  {
  }

  /** On a step in 0..2 and not loading: Back everywhere but step 0, Next below the last step, Place Order on it once a method is chosen. */
  lemma ButtonsWhenIdle(step: int, m: Option<PaymentMethod>)
    requires 0 <= step <= LastStep
    ensures BackEnabled(step, false) <==> step > 0
    ensures NextEnabled(step, false) <==> step < LastStep
    ensures PlaceOrderEnabled(step, m, false) <==> step == LastStep && m.Some?
    ensures NextEnabled(step, false) || PlaceOrderEnabled(step, m, false) || (step == LastStep && m.None?)
  {
  }

  /** A failed COD request shows an alert exactly when its message is non-empty: an HTTP error without an `error` field shows none. */
  lemma CodErrorShown(o: CodOutcome)
    requires !o.CodCreated?
    ensures ErrorShown(Some(CodError(o))) <==> (o.CodHttpError? && o.errorField != "") || (o.CodThrew? && o.message != "")
    ensures o == CodHttpError("") ==> !ErrorShown(Some(CodError(o)))
  {
  }

  /** The buttons keep the step inside 0..2: Back never leaves step 0, Next never leaves the last step. */
  lemma StepStaysInRange(step: int, info: CustomerInfo, loading: bool)
    requires 0 <= step <= LastStep
    ensures BackEnabled(step, loading) ==> 0 <= step - 1 < LastStep
    ensures NextEnabled(step, loading) ==> 0 <= StepAfterNext(step, info) <= LastStep
  {
  }

  /** The checkout page component and the cart it shows. */
  class CheckoutPage<Item> {
    /** `cartItems` of the cart context; `clearCart()` empties it. */
    var cart: seq<Item>
    var activeStep: int
    var paymentMethod: Option<PaymentMethod>
    var loading: bool
    var error: Option<string>
    var customerInfo: CustomerInfo
    /** The orders whose gateway modal has been opened; their callbacks may still fire. */
    var openedOrders: seq<GatewayOrder>
    ghost var effects: seq<Effect<Item>>

    /** What the buttons maintain: the step is one of the three steps. */
    ghost predicate Valid()
      reads this
    {
      0 <= activeStep <= LastStep
    }

    constructor (items: seq<Item>)
      ensures Valid()
      ensures cart == items && activeStep == 0 && paymentMethod == None && !loading && error == None
      ensures customerInfo == Blank && openedOrders == [] && effects == []
    {
      cart := items;
      activeStep := 0;
      paymentMethod := None;
      loading := false;
      error := None;
      customerInfo := Blank;
      openedOrders := [];
      effects := [];
    }

    /** The cart-emptiness effect: an empty cart sends the shopper to the cart page. */
    method CartEffect()
      modifies this`effects
      ensures effects == old(effects) + (if cart == [] then [Navigate(CartPage)] else [])
    {
      if cart == [] {
        effects := effects + [Navigate(CartPage)];
      }
    }

    method HandleCustomerInfoChange(field: Field, value: string)
      modifies this`customerInfo
      ensures customerInfo == old(customerInfo).Set(field, value)
      ensures customerInfo.Get(field) == value
      ensures forall g :: g != field ==> customerInfo.Get(g) == old(customerInfo).Get(g)
    {
      customerInfo := customerInfo.Set(field, value);
    }

    method HandlePaymentMethodChange(m: PaymentMethod)
      modifies this`paymentMethod
      ensures paymentMethod == Some(m)
    {
      paymentMethod := Some(m);
    }

    /** `validateCustomerInfo`: sets the message of the first failing check and leaves `error` alone otherwise. */
    method ValidateCustomerInfo() returns (ok: bool)
      modifies this`error
      ensures ok <==> Validate(customerInfo) == None
      ensures error == if ok then old(error) else Some(Validate(customerInfo).value.Message())
    {
      var v := Validate(customerInfo);
      if v.Some? {
        error := Some(v.value.Message());
        return false;
      }
      return true;
    }

    /**
     * `handleNext`: on step 0 a failed validation keeps the step; every other
     * step advances without a check (in particular step 1 does not look at
     * `paymentMethod`). A successful Next does not clear an earlier error.
     */
    method HandleNext()
      modifies this`activeStep, this`error
      ensures activeStep == StepAfterNext(old(activeStep), customerInfo)
      ensures old(activeStep) == 0 && Validate(customerInfo).Some? ==>
        error == Some(Validate(customerInfo).value.Message())
      ensures !(old(activeStep) == 0 && Validate(customerInfo).Some?) ==> error == old(error)
    {
      if activeStep == 0 {
        var ok := ValidateCustomerInfo();
        if !ok {
          return;
        }
      }
      activeStep := activeStep + 1;
    }

    /** `handleBack`: no guard of its own; the button's disabled flag is the guard. */
    method HandleBack()
      modifies this`activeStep
      ensures activeStep == old(activeStep) - 1
    {
      activeStep := activeStep - 1;
    }

    /**
     * `handleCashOnDelivery`: one create-cod-order request; success empties
     * the cart and navigates to the success page with the order id, failure
     * sets `error` to the error's message; `loading` ends false.
     */
    method HandleCashOnDelivery(outcome: CodOutcome)
      modifies this`cart, this`error, this`loading, this`effects
      ensures !loading
      ensures outcome.CodCreated? ==>
        (cart == [] && error == old(error)
         && effects == old(effects) + [CreateCodOrder(old(cart), customerInfo),
                                       Navigate(OrderSuccess(outcome.orderId, CashOnDelivery))])
      ensures !outcome.CodCreated? ==>
        (cart == old(cart) && error == Some(CodError(outcome))
         && effects == old(effects) + [CreateCodOrder(old(cart), customerInfo)])
    {
      effects := effects + [CreateCodOrder(cart, customerInfo)];
      if outcome.CodCreated? {
        cart := [];
        effects := effects + [Navigate(OrderSuccess(outcome.orderId, CashOnDelivery))];
      } else {
        error := Some(CodError(outcome));
      }
      loading := false;
    }

    /**
     * What `handlePayment` leaves behind, outcome by outcome. Cash on
     * delivery opens no modal and empties the cart exactly when the order is
     * created. Otherwise the cart stays; a missing SDK or a failed order
     * creation sets its message; a created order opens one more modal with
     * the order's options.
     */
    twostate predicate PaymentSettled(sdkLoaded: bool, created: CreateOrderOutcome, cod: CodOutcome)
      reads this
    {
      (paymentMethod == Some(Cod) ==>
        openedOrders == old(openedOrders)
        && (cod.CodCreated? ==>
              (cart == [] && error == None
               && effects == old(effects) + [CreateCodOrder(old(cart), customerInfo),
                                             Navigate(OrderSuccess(cod.orderId, CashOnDelivery))]))
        && (!cod.CodCreated? ==>
              (cart == old(cart) && error == Some(CodError(cod))
               && effects == old(effects) + [CreateCodOrder(old(cart), customerInfo)])))
      && (paymentMethod != Some(Cod) ==> cart == old(cart))
      && (paymentMethod != Some(Cod) && !sdkLoaded ==>
        error == Some(SdkLoadFailed) && openedOrders == old(openedOrders)
        && effects == old(effects) + [LoadGatewayScript])
      && (paymentMethod != Some(Cod) && sdkLoaded && !created.OrderCreated? ==>
        error == Some(CreateOrderError(created)) && openedOrders == old(openedOrders)
        && effects == old(effects) + [LoadGatewayScript, CreateOrder(cart, OrderCurrency, customerInfo)])
      && (paymentMethod != Some(Cod) && sdkLoaded && created.OrderCreated? ==>
        error == None && openedOrders == old(openedOrders) + [created.order]
        && effects == old(effects) + [LoadGatewayScript, CreateOrder(cart, OrderCurrency, customerInfo),
                                      OpenGateway(OptionsFor(created.order, customerInfo, paymentMethod))])
    }

    /**
     * `handlePayment`: `loading` is set for the duration and `error` is
     * cleared first; the outcome is `PaymentSettled`, and `loading` is false
     * again as soon as the modal is open.
     */
    method HandlePayment(sdkLoaded: bool, created: CreateOrderOutcome, cod: CodOutcome)
      modifies this`cart, this`error, this`loading, this`openedOrders, this`effects
      ensures !loading
      ensures PaymentSettled(sdkLoaded, created, cod)
    {
      loading := true;
      error := None;
      if paymentMethod == Some(Cod) {
        HandleCashOnDelivery(cod);
        loading := false;
        return;
      }
      effects := effects + [LoadGatewayScript];
      if !sdkLoaded {
        error := Some(SdkLoadFailed);
        loading := false;
        return;
      }
      effects := effects + [CreateOrder(cart, OrderCurrency, customerInfo)];
      if !created.OrderCreated? {
        error := Some(CreateOrderError(created));
        loading := false;
        return;
      }
      var options := OptionsFor(created.order, customerInfo, paymentMethod);
      effects := effects + [OpenGateway(options)];
      openedOrders := openedOrders + [created.order];
      loading := false;
    }

    /**
     * The gateway's `handler` for the modal opened for `openedOrders[k]`:
     * verify-payment is called with the gateway's response. Only a `status` of
     * 'success' empties the cart and navigates; a rejected request sets the
     * verification error; any other status changes nothing.
     */
    method OnPaymentHandler(k: nat, response: PaymentResponse, verify: VerifyOutcome)
      requires k < |openedOrders|
      modifies this`cart, this`error, this`effects
      ensures verify == VerifyAnswered("success") ==>
        cart == [] && error == old(error)
        && effects == old(effects) + [VerifyPayment(response),
                                      Navigate(OrderSuccess(openedOrders[k].id, PaidOnline(response.paymentId)))]
      ensures verify != VerifyAnswered("success") ==>
        cart == old(cart) && effects == old(effects) + [VerifyPayment(response)]
      ensures verify == VerifyThrew ==> error == Some(VerificationFailed)
      ensures verify.VerifyAnswered? && verify.status != "success" ==> error == old(error)
    {
      effects := effects + [VerifyPayment(response)];
      match verify
      case VerifyAnswered(status) =>
        if status == "success" {
          cart := [];
          effects := effects + [Navigate(OrderSuccess(openedOrders[k].id, PaidOnline(response.paymentId)))];
        }
      case VerifyThrew =>
        error := Some(VerificationFailed);
    }

    /** The modal's `ondismiss`: the cancellation message, and `loading` false; the cart stays. */
    method OnPaymentDismissed()
      requires |openedOrders| > 0
      modifies this`error, this`loading
      ensures error == Some(PaymentCancelled) && !loading
    {
      error := Some(PaymentCancelled);
      loading := false;
    }

    /** A click on Back: ignored while the button is disabled. */
    method ClickBack()
      requires Valid()
      modifies this`activeStep
      ensures Valid()
      ensures activeStep == if BackEnabled(old(activeStep), loading) then old(activeStep) - 1 else old(activeStep)
    {
      if BackEnabled(activeStep, loading) {
        HandleBack();
      }
    }

    /** A click on Next: ignored while loading; not rendered on the last step. */
    method ClickNext()
      requires Valid()
      modifies this`activeStep, this`error
      ensures Valid()
      ensures NextEnabled(old(activeStep), loading) ==> activeStep == StepAfterNext(old(activeStep), customerInfo)
      ensures !NextEnabled(old(activeStep), loading) ==> activeStep == old(activeStep)
      ensures error == if NextEnabled(old(activeStep), loading) && old(activeStep) == 0 && Validate(customerInfo).Some?
                       then Some(Validate(customerInfo).value.Message()) else old(error)
    {
      if NextEnabled(activeStep, loading) {
        HandleNext();
      }
    }

    /** A click on Place Order: ignored unless on the last step with a method chosen and not loading. */
    method ClickPlaceOrder(sdkLoaded: bool, created: CreateOrderOutcome, cod: CodOutcome)
      requires Valid()
      modifies this`cart, this`error, this`loading, this`openedOrders, this`effects
      ensures Valid()
      ensures !PlaceOrderEnabled(activeStep, paymentMethod, old(loading)) ==>
        cart == old(cart) && error == old(error) && loading == old(loading)
        && openedOrders == old(openedOrders) && effects == old(effects)
      ensures PlaceOrderEnabled(activeStep, paymentMethod, old(loading)) ==> !loading && PaymentSettled(sdkLoaded, created, cod)
      ensures cart != old(cart) ==> cart == [] && paymentMethod == Some(Cod) && cod.CodCreated?
    {
      if PlaceOrderEnabled(activeStep, paymentMethod, loading) {
        HandlePayment(sdkLoaded, created, cod);
      }
    }
  }
}
