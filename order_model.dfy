/**
 * The order records of backend/services/order_manager.py and the rules of
 * its monitoring sweeps, as functions on values: the next state of one
 * order, of the whole table, and the SMS notifications a sweep sends.
 * Times are whole seconds.
 */
module OrderModel {
  import opened Wrappers

  /** The string form of the database key, `str(result.inserted_id)`. */
  type OrderId = string

  /** `ORDER_STATUSES` of backend/config.py. */
  datatype Status = Pending | Confirmed | Processing | Shipped | Delivered | Cancelled

  /** Position on the forward path pending, confirmed, processing, shipped, delivered. */
  function Rank(s: Status): nat
  {
    match s
    case Pending => 0
    case Confirmed => 1
    case Processing => 2
    case Shipped => 3
    case Delivered => 4
    case Cancelled => 5
  }

  /** The three moves the sweeps make. */
  predicate Advances(from: Status, to: Status)
  {
    (from == Pending && to == Confirmed) || (from == Processing && to == Shipped)
    || (from == Shipped && to == Delivered)
  }

  lemma AdvancesIsForward(from: Status, to: Status)
    requires Advances(from, to)
    ensures Rank(from) < Rank(to) && to != Processing && to != Cancelled
  {
  }

  /** The `customer` sub-document; `phone` is `None` when the key is missing. */
  datatype Customer = Customer(phone: Option<string>)

  /** A stored order: the fields the manager reads and writes, and the rest of the document. */
  datatype Order = Order(
    status: Status, createdAt: int, lastUpdated: int, statusMessage: string,
    customer: Option<Customer>, details: map<string, string>)

  /** The `order_data` passed to `create_order`; it may already carry the keys that `create_order` overrides. */
  datatype OrderData = OrderData(
    customer: Option<Customer>, details: map<string, string>,
    status: Option<Status>, statusMessage: Option<string>,
    createdAt: Option<int>, lastUpdated: Option<int>)

  /** The parts of `AUTO_UPDATE_CONFIG` the manager reads; `smsChannel` is `'sms' in notification_channels`. */
  datatype AutoUpdateConfig = AutoUpdateConfig(
    enableAutoConfirmation: bool, confirmationDelay: int, enableShippingUpdates: bool,
    smsChannel: bool, processingInterval: int, shippingInterval: int)

  /** The values in backend/config.py. */
  const DefaultConfig := AutoUpdateConfig(true, 300, true, true, 3600, 7200)

  /** The payment, inventory and courier checks the sweeps consult. */
  datatype Services = Services(
    paymentVerified: Order -> bool, inventoryAvailable: Order -> bool, shippingStatus: Order -> string)

  /** `_verify_payment`, `_check_inventory` and `_check_shipping_status` as written. */
  const Stubs := Services(o => true, o => true, o => "in_transit")

  /** One `send_sms` call: the phone it goes to and the status whose template it uses. */
  datatype Sms = Sms(phone: string, status: Status)

  /** The `{...}` fields a template can name. */
  datatype Placeholder = OrderIdField | AmountField | TrackingUrlField | DeliveryDateField | CourierField | FeedbackUrlField
  {
    /** The keyword the field is written with, `{order_id}` and so on. */
    function Key(): string
    {
      match this
      case OrderIdField => "order_id"
      case AmountField => "amount"
      case TrackingUrlField => "tracking_url"
      case DeliveryDateField => "delivery_date"
      case CourierField => "courier"
      case FeedbackUrlField => "feedback_url"
    }

    /** `{key}` occurs in `t` at position `i`. */
    predicate NamedAt(t: string, i: int)
    {
      0 <= i && i + |Key()| + 2 <= |t| && t[i..i + |Key()| + 2] == "{" + Key() + "}"
    }

    /** `{key}` occurs in `t`. */
    ghost predicate NamedIn(t: string)
    {
      exists i :: NamedAt(t, i)
    }
  }

  /** The keyword arguments `_send_status_notification` passes to `template.format`. */
  const FormatArguments: set<Placeholder> := {OrderIdField, AmountField, TrackingUrlField, DeliveryDateField}

  /** A piece of a template: literal text, or a `{key}` field that `format` fills in. */
  datatype Segment = Literal(text: string) | Field(field: Placeholder)

  function Piece(s: Segment): string
  {
    match s
    case Literal(t) => t
    case Field(f) => "{" + f.Key() + "}"
  }

  /** The template string written out. */
  function Render(segs: seq<Segment>): string
  {
    if segs == [] then "" else Piece(segs[0]) + Render(segs[1..])
  }

  lemma SliceAfter(a: string, b: string, i: nat, n: nat)
    requires i + n <= |b|
    ensures (a + b)[|a| + i..|a| + i + n] == b[i..i + n]
  {
  }

  /** Every field segment of a template shows up as `{key}` in its text. */
  lemma {:induction false} FieldRendered(segs: seq<Segment>, f: Placeholder)
    requires Field(f) in segs
    ensures f.NamedIn(Render(segs))
  {
    var p, t, rest := "{" + f.Key() + "}", Render(segs), Render(segs[1..]);
    assert t == Piece(segs[0]) + rest;
    if segs[0] == Field(f) {
      assert t[0..|p|] == p;
      assert f.NamedAt(t, 0);
    } else {
      assert Field(f) in segs[1..];
      FieldRendered(segs[1..], f);
      var i :| f.NamedAt(rest, i);
      SliceAfter(Piece(segs[0]), rest, i, |p|);
      assert f.NamedAt(t, |Piece(segs[0])| + i);
    }
  }

  /** The keys of `SMS_CONFIG['templates']` that `_get_sms_template` can return. */
  datatype SmsTemplateKey = OrderConfirmed | OrderShipped | OrderDelivered
  {
    /** The template of backend/config.py, piece by piece. */
    function Template(): seq<Segment>
    {
      match this
      case OrderConfirmed =>
        [Literal("Good news! Order #"), Field(OrderIdField),
         Literal(" is confirmed and being processed. Est. delivery: "), Field(DeliveryDateField)]
      case OrderShipped =>
        [Literal("Your order #"), Field(OrderIdField), Literal(" has been shipped via "), Field(CourierField),
         Literal("! Track at: "), Field(TrackingUrlField)]
      case OrderDelivered =>
        [Literal("Order #"), Field(OrderIdField), Literal(" has been delivered! Rate your experience: "),
         Field(FeedbackUrlField)]
    }

    function Text(): string
    {
      Render(Template())
    }

    /** The fields the template names, as `FieldsOfTemplate` reads them off `Template()`. */
    function Fields(): set<Placeholder>
    {
      match this
      case OrderConfirmed => {OrderIdField, DeliveryDateField}
      case OrderShipped => {OrderIdField, CourierField, TrackingUrlField}
      case OrderDelivered => {OrderIdField, FeedbackUrlField}
    }

    /** `template.format(...)` succeeds: every field it names is among the arguments; otherwise it raises `KeyError`. */
    predicate Formats()
    {
      Fields() <= FormatArguments
    }
  }

  /** `Fields()` is exactly the set of field segments of the template. */
  lemma FieldsOfTemplate(k: SmsTemplateKey)
    ensures k.Fields() == set s | s in k.Template() && s.Field? :: s.field
  {
    var t := k.Template();
    assert t[1] == Field(OrderIdField) && t[3].Field?;
    if k == OrderShipped {
      assert t[5] == Field(TrackingUrlField);
    }
  }

  /** Every field of `Fields()` is written as `{key}` in the template's text. */
  lemma FieldsNamedInText(k: SmsTemplateKey)
    ensures forall f :: f in k.Fields() ==> f.NamedIn(k.Text())
  {
    FieldsOfTemplate(k);
    forall f | f in k.Fields()
      ensures f.NamedIn(k.Text())
    {
      var s :| s in k.Template() && s.Field? && s.field == f;
      FieldRendered(k.Template(), f);
    }
  }

  /** Only the confirmation template can be filled in; the other two name `courier` or `feedback_url`. */
  lemma OnlyConfirmationFormats(k: SmsTemplateKey)
    ensures k.Formats() <==> k == OrderConfirmed
  {
  }

  /** `_get_sms_template`: the template for a status, if there is one. */
  function SmsTemplate(s: Status): (r: Option<SmsTemplateKey>)
    ensures r.Some? <==> s == Confirmed || s == Shipped || s == Delivered
  {
    match s
    case Confirmed => Some(OrderConfirmed)
    case Shipped => Some(OrderShipped)
    case Delivered => Some(OrderDelivered)
    case _ => None
  }

  /** A truthy `order['customer']['phone']`. */
  predicate HasPhone(o: Order)
  {
    o.customer.Some? && o.customer.value.phone.Some? && o.customer.value.phone.value != ""
  }

  /**
   * The SMS `_send_status_notification(order, status)` sets out to send: one,
   * to the customer's phone, exactly when the SMS channel is on, the status
   * has a template and the customer has a phone. Whether the template can be
   * filled in is `NotificationRaises`.
   */
  function Notification(cfg: AutoUpdateConfig, o: Order, s: Status): (r: seq<Sms>)
    ensures |r| <= 1
    ensures r != [] <==> cfg.smsChannel && (s == Confirmed || s == Shipped || s == Delivered) && HasPhone(o)
    ensures r != [] ==> r[0] == Sms(o.customer.value.phone.value, s)
  {
    if cfg.smsChannel && SmsTemplate(s).Some? && HasPhone(o)
    then [Sms(o.customer.value.phone.value, s)]
    else []
  }

  /** `template.format(...)` raises `KeyError` before `send_sms` is reached. */
  predicate NotificationRaises(cfg: AutoUpdateConfig, o: Order, s: Status)
  {
    cfg.smsChannel && SmsTemplate(s).Some? && HasPhone(o) && !SmsTemplate(s).value.Formats()
  }

  /** The notification raises exactly for a shipped or delivered status sent to a phone over SMS. */
  lemma NotificationRaisesExactly(cfg: AutoUpdateConfig, o: Order, s: Status)
    ensures NotificationRaises(cfg, o, s) <==> Notification(cfg, o, s) != [] && (s == Shipped || s == Delivered)
  {
    OnlyConfirmationFormats(OrderConfirmed);
    OnlyConfirmationFormats(OrderShipped);
    OnlyConfirmationFormats(OrderDelivered);
  }

  /** The pending notification of `create_order` neither sends anything nor raises. */
  lemma PendingSendsNothing(cfg: AutoUpdateConfig, o: Order)
    ensures Notification(cfg, o, Pending) == [] && !NotificationRaises(cfg, o, Pending)
  {
  }

  /**
   * The document `create_order` inserts, `{**order_data, created_at,
   * last_updated, status, status_message}`: whatever status the input
   * carries, a new order is pending with the placement message and the
   * current time, and keeps the customer and the other fields.
   */
  function NewOrder(data: OrderData, now: int): (o: Order)
    ensures o.status == Pending && o.statusMessage == "Order placed successfully"
    ensures o.createdAt == now && o.lastUpdated == now
    ensures o.customer == data.customer && o.details == data.details
  {
    Order(Pending, now, now, "Order placed successfully", data.customer, data.details)
  }

  /** The `$set` of `update_order_status`: status, time and message change, nothing else. */
  function WithStatus(o: Order, s: Status, message: string, now: int): (r: Order)
    ensures r.status == s && r.lastUpdated == now && r.statusMessage == message
    ensures r.createdAt == o.createdAt && r.customer == o.customer && r.details == o.details
  {
    o.(status := s, lastUpdated := now, statusMessage := message)
  }

  /** `find_one_and_update` on the table: only the order with this id changes; a missing id matches nothing. */
  function UpdateStatus(orders: map<OrderId, Order>, id: OrderId, s: Status, message: string, now: int): (r: map<OrderId, Order>)
    ensures r.Keys == orders.Keys
    ensures forall other :: other in orders && other != id ==> r[other] == orders[other]
    ensures id in orders ==> r[id] == WithStatus(orders[id], s, message, now)
  {
    if id in orders then orders[id := WithStatus(orders[id], s, message, now)] else orders
  }

  /** The three sweeps of one monitoring pass, in the order they run. */
  datatype Sweep = ConfirmPending | ShipProcessing | DeliverShipped
  {
    function Source(): Status
    {
      match this
      case ConfirmPending => Pending
      case ShipProcessing => Processing
      case DeliverShipped => Shipped
    }

    function Target(): Status
    {
      match this
      case ConfirmPending => Confirmed
      case ShipProcessing => Shipped
      case DeliverShipped => Delivered
    }

    function Message(): string
    {
      match this
      case ConfirmPending => "Payment verified and order confirmed"
      case ShipProcessing => "Order has been shipped"
      case DeliverShipped => "Order has been delivered"
    }
  }

  /** The configuration flag that guards the sweep; the processing sweep has none. */
  predicate Enabled(sw: Sweep, cfg: AutoUpdateConfig)
  {
    match sw
    case ConfirmPending => cfg.enableAutoConfirmation
    case ShipProcessing => true
    case DeliverShipped => cfg.enableShippingUpdates
  }

  /** The `find` query of the sweep: the status, and a time strictly older than `now` minus the delay. */
  predicate Queried(sw: Sweep, cfg: AutoUpdateConfig, now: int, o: Order)
  {
    o.status == sw.Source() &&
    match sw
    case ConfirmPending => o.createdAt < now - cfg.confirmationDelay
    case ShipProcessing => o.lastUpdated < now - cfg.processingInterval
    case DeliverShipped => o.lastUpdated < now - cfg.shippingInterval
  }

  /** The check made on each order the query returns. */
  predicate Checked(sw: Sweep, svc: Services, o: Order)
  {
    match sw
    case ConfirmPending => svc.paymentVerified(o)
    case ShipProcessing => svc.inventoryAvailable(o)
    case DeliverShipped => svc.shippingStatus(o) == "delivered"
  }

  /** The loop body updates the order. */
  predicate Due(sw: Sweep, cfg: AutoUpdateConfig, svc: Services, now: int, o: Order)
  {
    Queried(sw, cfg, now, o) && Checked(sw, svc, o)
  }

  /** `scan` lists every stored id once: the order in which the database returns matching documents. */
  predicate IsScan(scan: seq<OrderId>, orders: map<OrderId, Order>)
  {
    (forall i, j :: 0 <= i < j < |scan| ==> scan[i] != scan[j])
    && (forall i :: 0 <= i < |scan| ==> scan[i] in orders)
    && (forall id :: id in orders ==> id in scan)
  }

  /** A scan of a table is a scan of any table with the same ids. */
  lemma ScanSameKeys(scan: seq<OrderId>, a: map<OrderId, Order>, b: map<OrderId, Order>)
    requires IsScan(scan, a) && a.Keys == b.Keys
    ensures IsScan(scan, b)
  {
  }

  /** One order after the loop of a sweep has visited it: a due order is moved to the target, any other stays. */
  function AfterVisit(sw: Sweep, cfg: AutoUpdateConfig, svc: Services, now: int, o: Order): (r: Order)
    ensures Due(sw, cfg, svc, now, o) ==> r == WithStatus(o, sw.Target(), sw.Message(), now)
    ensures !Due(sw, cfg, svc, now, o) ==> r == o
    ensures r.customer == o.customer
  {
    if Due(sw, cfg, svc, now, o) then WithStatus(o, sw.Target(), sw.Message(), now) else o
  }

  /** One order after a sweep, including its configuration guard: unchanged, or moved from the sweep's source to its target. */
  function AfterSweep(sw: Sweep, cfg: AutoUpdateConfig, svc: Services, now: int, o: Order): (r: Order)
    ensures r == o || (o.status == sw.Source() && r == WithStatus(o, sw.Target(), sw.Message(), now))
    ensures r.customer == o.customer
  {
    if Enabled(sw, cfg) then AfterVisit(sw, cfg, svc, now, o) else o
  }

  /** The table after a sweep: every order as `AfterSweep` leaves it. */
  function SweepTable(orders: map<OrderId, Order>, sw: Sweep, cfg: AutoUpdateConfig, svc: Services, now: int): (r: map<OrderId, Order>)
    ensures r.Keys == orders.Keys
  {
    map id | id in orders :: AfterSweep(sw, cfg, svc, now, orders[id])
  }

  /** The SMS call `update_order_status` makes when the loop visits `o`: none unless `o` is due. */
  function VisitNote(sw: Sweep, cfg: AutoUpdateConfig, svc: Services, now: int, o: Order): seq<Sms>
  {
    if Due(sw, cfg, svc, now, o) then Notification(cfg, AfterVisit(sw, cfg, svc, now, o), sw.Target()) else []
  }

  /** The SMS calls of the loop over `scan`, in scan order. */
  function VisitNotes(scan: seq<OrderId>, orders: map<OrderId, Order>, sw: Sweep, cfg: AutoUpdateConfig, svc: Services, now: int): seq<Sms>
  {
    if scan == [] then []
    else
      var id := scan[|scan| - 1];
      VisitNotes(scan[..|scan| - 1], orders, sw, cfg, svc, now)
      + if id in orders then VisitNote(sw, cfg, svc, now, orders[id]) else []
  }

  /** Scanning one more id appends that id's notification. */
  lemma VisitNotesStep(scan: seq<OrderId>, i: nat, orders: map<OrderId, Order>, sw: Sweep, cfg: AutoUpdateConfig, svc: Services, now: int)
    requires i < |scan|
    ensures VisitNotes(scan[..i + 1], orders, sw, cfg, svc, now)
      == VisitNotes(scan[..i], orders, sw, cfg, svc, now)
         + if scan[i] in orders then VisitNote(sw, cfg, svc, now, orders[scan[i]]) else []
  {
    assert scan[..i + 1][..i] == scan[..i];
  }

  /** The SMS calls of a sweep, including its configuration guard. */
  function SweepNotes(scan: seq<OrderId>, orders: map<OrderId, Order>, sw: Sweep, cfg: AutoUpdateConfig, svc: Services, now: int): seq<Sms>
  {
    if Enabled(sw, cfg) then VisitNotes(scan, orders, sw, cfg, svc, now) else []
  }

  /** `m` is an SMS the sweep may send: its target status, to the phone of an order it moves. */
  ghost predicate SentBySweep(m: Sms, orders: map<OrderId, Order>, sw: Sweep, cfg: AutoUpdateConfig, svc: Services, now: int)
  {
    m.status == sw.Target() && SmsTemplate(m.status).Some?
    && exists id :: id in orders && Due(sw, cfg, svc, now, orders[id]) && HasPhone(orders[id])
                    && m.phone == orders[id].customer.value.phone.value
  }

  /**
   * Every SMS a sweep sends uses the sweep's target status, which has a
   * template, and goes to the phone of an order the sweep moved; there are
   * no more of them than orders scanned.
   */
  lemma {:induction false} VisitNotesSound(scan: seq<OrderId>, orders: map<OrderId, Order>, sw: Sweep, cfg: AutoUpdateConfig, svc: Services, now: int)
    ensures |VisitNotes(scan, orders, sw, cfg, svc, now)| <= |scan|
    ensures forall m :: m in VisitNotes(scan, orders, sw, cfg, svc, now) ==> SentBySweep(m, orders, sw, cfg, svc, now)
  {
    if scan != [] {
      var init, id := scan[..|scan| - 1], scan[|scan| - 1];
      VisitNotesSound(init, orders, sw, cfg, svc, now);
      var last := if id in orders then VisitNote(sw, cfg, svc, now, orders[id]) else [];
      assert VisitNotes(scan, orders, sw, cfg, svc, now) == VisitNotes(init, orders, sw, cfg, svc, now) + last;
      forall m | m in last ensures SentBySweep(m, orders, sw, cfg, svc, now) {
        assert AfterVisit(sw, cfg, svc, now, orders[id]).customer == orders[id].customer;
      }
    }
  }

  /** One order after a whole pass: the three sweeps in order, at one clock reading. Only the status fields change. */
  function AfterPass(cfg: AutoUpdateConfig, svc: Services, now: int, o: Order): (r: Order)
    ensures r.createdAt == o.createdAt && r.customer == o.customer && r.details == o.details
    ensures r != o ==> r.lastUpdated == now
  {
    AfterSweep(DeliverShipped, cfg, svc, now,
      AfterSweep(ShipProcessing, cfg, svc, now,
        AfterSweep(ConfirmPending, cfg, svc, now, o)))
  }

  /** The table after a whole pass: the same orders, each treated on its own. */
  function PassTable(orders: map<OrderId, Order>, cfg: AutoUpdateConfig, svc: Services, now: int): (r: map<OrderId, Order>)
    ensures r.Keys == orders.Keys
    ensures forall id :: id in orders ==> r[id] == AfterPass(cfg, svc, now, orders[id])
  {
    SweepTable(SweepTable(SweepTable(orders, ConfirmPending, cfg, svc, now), ShipProcessing, cfg, svc, now),
      DeliverShipped, cfg, svc, now)
  }

  /** The SMS calls of a whole pass: each sweep's, against the table the previous sweeps left; at most three per order scanned. */
  function PassNotes(scan: seq<OrderId>, orders: map<OrderId, Order>, cfg: AutoUpdateConfig, svc: Services, now: int): (r: seq<Sms>)
    ensures |r| <= 3 * |scan|
  {
    var afterConfirm := SweepTable(orders, ConfirmPending, cfg, svc, now);
    var afterShip := SweepTable(afterConfirm, ShipProcessing, cfg, svc, now);
    VisitNotesSound(scan, orders, ConfirmPending, cfg, svc, now);
    VisitNotesSound(scan, afterConfirm, ShipProcessing, cfg, svc, now);
    VisitNotesSound(scan, afterShip, DeliverShipped, cfg, svc, now);
    SweepNotes(scan, orders, ConfirmPending, cfg, svc, now)
    + SweepNotes(scan, afterConfirm, ShipProcessing, cfg, svc, now)
    + SweepNotes(scan, afterShip, DeliverShipped, cfg, svc, now)
  }

  /** The pending sweep does nothing when auto-confirmation is off. */
  lemma ConfirmSweepDisabled(orders: map<OrderId, Order>, cfg: AutoUpdateConfig, svc: Services, now: int, scan: seq<OrderId>)
    requires !cfg.enableAutoConfirmation
    ensures SweepTable(orders, ConfirmPending, cfg, svc, now) == orders
    ensures SweepNotes(scan, orders, ConfirmPending, cfg, svc, now) == []
  {
  }

  /** With auto-confirmation on, a pending order is confirmed exactly when it is older than the delay and its payment verifies. */
  lemma ConfirmSweepExact(orders: map<OrderId, Order>, cfg: AutoUpdateConfig, svc: Services, now: int, id: OrderId)
    requires cfg.enableAutoConfirmation && id in orders && orders[id].status == Pending
    ensures SweepTable(orders, ConfirmPending, cfg, svc, now)[id].status == Confirmed <==>
      orders[id].createdAt < now - cfg.confirmationDelay && svc.paymentVerified(orders[id])
    ensures SweepTable(orders, ConfirmPending, cfg, svc, now)[id].status != Confirmed ==>
      SweepTable(orders, ConfirmPending, cfg, svc, now)[id] == orders[id]
  {
  }

  /** A processing order is shipped exactly when its last update is older than the interval and the inventory check passes. */
  lemma ShipSweepExact(orders: map<OrderId, Order>, cfg: AutoUpdateConfig, svc: Services, now: int, id: OrderId)
    requires id in orders && orders[id].status == Processing
    ensures SweepTable(orders, ShipProcessing, cfg, svc, now)[id].status == Shipped <==>
      orders[id].lastUpdated < now - cfg.processingInterval && svc.inventoryAvailable(orders[id])
    ensures SweepTable(orders, ShipProcessing, cfg, svc, now)[id].status != Shipped ==>
      SweepTable(orders, ShipProcessing, cfg, svc, now)[id] == orders[id]
  {
  }

  /** A shipped order is delivered exactly when shipping updates are on, it is older than the interval and the courier says 'delivered'; otherwise it is unchanged. */
  lemma DeliverSweepExact(orders: map<OrderId, Order>, cfg: AutoUpdateConfig, svc: Services, now: int, id: OrderId)
    requires id in orders && orders[id].status == Shipped
    ensures SweepTable(orders, DeliverShipped, cfg, svc, now)[id].status == Delivered <==>
      cfg.enableShippingUpdates && orders[id].lastUpdated < now - cfg.shippingInterval
      && svc.shippingStatus(orders[id]) == "delivered"
    ensures SweepTable(orders, DeliverShipped, cfg, svc, now)[id].status != Delivered ==>
      SweepTable(orders, DeliverShipped, cfg, svc, now)[id] == orders[id]
  {
  }

  /**
   * A pass leaves confirmed, delivered and cancelled orders alone, never
   * creates a processing order, and changes a status only along one forward
   * move. Since an update resets `last_updated` to the pass's clock, an
   * order shipped in this pass is not delivered in the same pass.
   */
  lemma {:induction false} PassAdvancesAtMostOnce(cfg: AutoUpdateConfig, svc: Services, now: int, o: Order)
    requires cfg.shippingInterval >= 0
    ensures o.status in {Confirmed, Delivered, Cancelled} ==> AfterPass(cfg, svc, now, o) == o
    ensures AfterPass(cfg, svc, now, o).status == o.status || Advances(o.status, AfterPass(cfg, svc, now, o).status)
    ensures AfterPass(cfg, svc, now, o).status == Processing ==> o.status == Processing
    ensures Rank(AfterPass(cfg, svc, now, o).status) >= Rank(o.status)
  {
    var o1 := AfterSweep(ConfirmPending, cfg, svc, now, o);
    var o2 := AfterSweep(ShipProcessing, cfg, svc, now, o1);
    if o2 != o1 {
      assert o2.lastUpdated == now;
      assert !Queried(DeliverShipped, cfg, now, o2);
    }
  }

  /** With the courier stub answering 'in_transit', no pass ever delivers an order. */
  lemma StubsNeverDeliver(cfg: AutoUpdateConfig, now: int, o: Order)
    ensures AfterPass(cfg, Stubs, now, o).status == Delivered ==> o.status == Delivered
  {
    var o2 := AfterSweep(ShipProcessing, cfg, Stubs, now, AfterSweep(ConfirmPending, cfg, Stubs, now, o));
    assert !Checked(DeliverShipped, Stubs, o2);
  }

  /** The default configuration meets the precondition of the pass lemmas. */
  lemma DefaultConfigIntervals()
    ensures DefaultConfig.shippingInterval >= 0 && DefaultConfig.enableAutoConfirmation
  {
  }
}
