/**
 * Whole checkout sessions on a fresh page, each driven only through the
 * page's own event handlers and buttons, with the outcomes of the external
 * calls fixed in advance.
 */
module CheckoutScenarios {
  import opened Wrappers
  import opened CustomerValidation
  import opened Checkout

  const Shopper := CustomerInfo("Asha", "asha@example.com", "9876543210", "12 MG Road")
  const ShortPhone := "98765"
  const Order1 := GatewayOrder("order_1", 49900, "INR")
  const Order2 := GatewayOrder("order_2", 49900, "INR")
  const Paid := PaymentResponse("pay_1", "order_1", "sig")

  predicate Lower(s: string)
  {
    forall i :: 0 <= i < |s| ==> 'a' <= s[i] <= 'z'
  }

  lemma LowerIsPlain(s: string)
    requires Lower(s)
    ensures Plain(s)
  {
  }

  /** Three runs of `[^\s@]` around an `@` and a `.` match the email pattern. */
  lemma EmailWitness(s: string, at: nat, dot: nat)
    requires at + 1 < dot < |s| - 1 && 0 < at && s[at] == '@' && s[dot] == '.'
    requires Plain(s[..at]) && Plain(s[at + 1..dot]) && Plain(s[dot + 1..])
    ensures MatchesEmailPattern(s)
  {
  }

  /** The sample shopper passes every check of the form. */
  lemma ShopperIsValid()
    ensures Validate(Shopper) == None
  {
    ShopperEmailMatches();
    ShopperPhoneMatches();
  }

  lemma ShopperEmailMatches()
    ensures MatchesEmailPattern(Shopper.email)
  {
    var e := Shopper.email;
    assert e[..4] == "asha";
    assert e[5..12] == "example";
    assert e[13..] == "com";
    LowerIsPlain("asha");
    LowerIsPlain("example");
    LowerIsPlain("com");
    EmailWitness(e, 4, 12);
  }

  lemma ShopperPhoneMatches()
    ensures MatchesPhonePattern(Shopper.phone)
  {
    var p := Shopper.phone;
    assert p == "98765" + "43210";
    FiveDigits("98765");
    FiveDigits("43210");
    PhonePatternCharacterized(p);
  }

  lemma FiveDigits(s: string)
    requires |s| == 5 && IsDigit(s[0]) && IsDigit(s[1]) && IsDigit(s[2]) && IsDigit(s[3]) && IsDigit(s[4])
    ensures forall i :: 0 <= i < |s| ==> IsDigit(s[i])
  {
  }

  /** A five-digit phone is refused with the phone message, the other fields being fine. */
  lemma ShortPhoneRefused()
    ensures Validate(Shopper.(phone := ShortPhone)) == Some(InvalidPhone)
  {
    ShopperIsValid();
    PhonePatternCharacterized(ShortPhone);
  }

  /** The server's error text follows the fixed prefix. */
  lemma RefusalMessage()
    ensures CreateOrderError(CreateOrderHttpError("Amount too small")) == "Failed to create order: Amount too small"
  {
    assert "Failed to create order: " + "Amount too small" == "Failed to create order: Amount too small";
  }

  /** Fills in the form field by field, as the four text inputs do. */
  method FillIn(page: CheckoutPage<int>, info: CustomerInfo)
    modifies page`customerInfo
    ensures page.customerInfo == info
  {
    page.HandleCustomerInfoChange(Name, info.name);
    page.HandleCustomerInfoChange(Email, info.email);
    page.HandleCustomerInfoChange(Phone, info.phone);
    page.HandleCustomerInfoChange(Address, info.address);
  }

  /** Fill in and Next: valid information reaches the payment step. */
  method PastDetails(items: seq<int>, info: CustomerInfo) returns (page: CheckoutPage<int>)
    requires Validate(info) == None
    ensures fresh(page)
    ensures page.Valid() && page.activeStep == 1 && page.paymentMethod == None
    ensures page.cart == items && page.customerInfo == info && !page.loading
    ensures page.error == None && page.openedOrders == []
  {
    page := new CheckoutPage(items);
    FillIn(page, info);
    page.ClickNext();
  }

  /** Fill in, Next, choose a method, Next: the page is on 'Confirm Order'. */
  method ReachConfirm(items: seq<int>, info: CustomerInfo, m: PaymentMethod) returns (page: CheckoutPage<int>)
    requires Validate(info) == None
    ensures fresh(page)
    ensures page.Valid() && page.activeStep == LastStep && page.paymentMethod == Some(m)
    ensures page.cart == items && page.customerInfo == info && !page.loading
    ensures page.error == None && page.openedOrders == []
  {
    page := PastDetails(items, info);
    page.HandlePaymentMethodChange(m);
    page.ClickNext();
  }

  /** The sample shopper on the payment step. */
  method ShopperPastDetails(items: seq<int>) returns (page: CheckoutPage<int>)
    ensures fresh(page)
    ensures page.Valid() && page.activeStep == 1 && page.paymentMethod == None
    ensures page.cart == items && page.customerInfo == Shopper && !page.loading
    ensures page.error == None && page.openedOrders == []
  {
    ShopperIsValid();
    page := PastDetails(items, Shopper);
  }

  /** The sample shopper on 'Confirm Order' with method `m`. */
  method ShopperAtConfirm(items: seq<int>, m: PaymentMethod) returns (page: CheckoutPage<int>)
    ensures fresh(page)
    ensures page.Valid() && page.activeStep == LastStep && page.paymentMethod == Some(m)
    ensures page.cart == items && page.customerInfo == Shopper && !page.loading
    ensures page.error == None && page.openedOrders == []
  {
    ShopperIsValid();
    page := ReachConfirm(items, Shopper, m);
  }

  /** Cash on delivery accepted by the server: the cart is emptied and no error is shown. */
  method CashOnDeliverySucceeds(items: seq<int>) returns (cart: seq<int>, error: Option<string>, modals: nat)
    ensures cart == [] && error == None && modals == 0
  {
    var page := ShopperAtConfirm(items, Cod);
    page.ClickPlaceOrder(false, CreateOrderThrew("unused"), CodCreated("17"));
    cart, error, modals := page.cart, page.error, |page.openedOrders|;
  }

  /** Cash on delivery refused: the server's message is shown and the cart stays. */
  method CashOnDeliveryRefused(items: seq<int>) returns (cart: seq<int>, error: Option<string>)
    ensures cart == items && error == Some("Out of stock")
  {
    var page := ShopperAtConfirm(items, Cod);
    page.ClickPlaceOrder(true, OrderCreated(Order1), CodHttpError("Out of stock"));
    cart, error := page.cart, page.error;
  }

  /** The gateway script does not load: no modal, the SDK message, the cart stays. */
  method CardSdkMissing(items: seq<int>) returns (cart: seq<int>, error: Option<string>, modals: nat)
    ensures cart == items && error == Some("Razorpay SDK failed to load") && modals == 0
  {
    var page := ShopperAtConfirm(items, Card);
    page.ClickPlaceOrder(false, OrderCreated(Order1), CodCreated("unused"));
    cart, error, modals := page.cart, page.error, |page.openedOrders|;
  }

  /** The server refuses to create the gateway order: its message is prefixed, the cart stays. */
  method CardOrderRefused(items: seq<int>) returns (cart: seq<int>, error: Option<string>)
    ensures cart == items && error == Some("Failed to create order: Amount too small")
  {
    var page := ShopperAtConfirm(items, Card);
    page.ClickPlaceOrder(true, CreateOrderHttpError("Amount too small"), CodCreated("unused"));
    RefusalMessage();
    cart, error := page.cart, page.error;
  }

  /** UPI paid and verified: the cart is emptied once the verify call answers 'success'. */
  method UpiPaid(items: seq<int>) returns (cart: seq<int>, error: Option<string>)
    ensures cart == [] && error == None
  {
    var page := ShopperAtConfirm(items, Upi);
    page.ClickPlaceOrder(true, OrderCreated(Order1), CodCreated("unused"));
    page.OnPaymentHandler(0, Paid, VerifyAnswered("success"));
    cart, error := page.cart, page.error;
  }

  /** UPI paid but the verify call answers another status: nothing happens, the cart stays. */
  method UpiNotVerified(items: seq<int>) returns (cart: seq<int>, error: Option<string>)
    ensures cart == items && error == None
  {
    var page := ShopperAtConfirm(items, Upi);
    page.ClickPlaceOrder(true, OrderCreated(Order1), CodCreated("unused"));
    page.OnPaymentHandler(0, Paid, VerifyAnswered("failed"));
    cart, error := page.cart, page.error;
  }

  /** The shopper closes the UPI modal: the cancellation message, the cart stays. */
  method UpiDismissed(items: seq<int>) returns (cart: seq<int>, error: Option<string>)
    ensures cart == items && error == Some("Payment cancelled")
  {
    var page := ShopperAtConfirm(items, Upi);
    page.ClickPlaceOrder(true, OrderCreated(Order1), CodCreated("unused"));
    page.OnPaymentDismissed();
    cart, error := page.cart, page.error;
  }

  /**
   * While the first modal is open Place Order is enabled again, so a second
   * click creates a second gateway order and opens a second modal.
   */
  method DoubleSubmit(items: seq<int>) returns (enabledAgain: bool, modals: nat)
    ensures enabledAgain && modals == 2
  {
    var page := ShopperAtConfirm(items, Card);
    page.ClickPlaceOrder(true, OrderCreated(Order1), CodCreated("unused"));
    enabledAgain := PlaceOrderEnabled(page.activeStep, page.paymentMethod, page.loading);
    page.ClickPlaceOrder(true, OrderCreated(Order2), CodCreated("unused"));
    modals := |page.openedOrders|;
  }

  /** A short phone keeps the wizard on the first step with the phone message. */
  method ShortPhoneBlocksNext(items: seq<int>) returns (step: int, error: Option<string>)
    ensures step == 0 && error == Some("Please enter a valid 10-digit phone number")
  {
    var page := new CheckoutPage(items);
    FillIn(page, Shopper.(phone := ShortPhone));
    ShortPhoneRefused();
    page.ClickNext();
    step, error := page.activeStep, page.error;
  }

  /**
   * Next on the payment step does not look at the payment method: the page
   * reaches 'Confirm Order' with none chosen, and there Place Order is disabled.
   */
  method NextWithoutPaymentMethod(items: seq<int>) returns (step: int, placeOrder: bool)
    ensures step == LastStep && !placeOrder
  {
    var page := ShopperPastDetails(items);
    page.ClickNext();
    step := page.activeStep;
    placeOrder := PlaceOrderEnabled(page.activeStep, page.paymentMethod, page.loading);
  }
}
