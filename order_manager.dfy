/**
 * `OrderManager` of backend/services/order_manager.py: the `orders`
 * collection as a map updated in place, the calls to the SMS service as an
 * outbox, and one monitoring pass as three loops over the query results. A
 * `KeyError` raised while formatting an SMS is a `raised` result that the
 * callers pass on, as the exception propagates in the code.
 */
module OrderManager {
  import opened Wrappers
  import opened OrderModel
  import opened OrderRun

  lemma AppendAssociates<T>(a: seq<T>, b: seq<T>, c: seq<T>)
    ensures (a + b) + c == a + (b + c)
  {
  }

  class OrderManager {
    const config: AutoUpdateConfig
    /** `db.orders`, keyed by `_id`. */
    var orders: map<OrderId, Order>
    /** The `sms_service.send_sms` calls made so far; a template that fails to format sends nothing. */
    var outbox: seq<Sms>

    constructor (config: AutoUpdateConfig, orders: map<OrderId, Order>)
      ensures this.config == config && this.orders == orders && outbox == []
    {
      this.config := config;
      this.orders := orders;
      outbox := [];
    }

    /**
     * `create_order`: inserts the new pending order under the key the
     * database assigns and returns that key when it is truthy. The pending
     * notification it then attempts has no template, so no SMS is sent.
     */
    method CreateOrder(data: OrderData, now: int, insertedId: OrderId) returns (r: Option<string>)
      requires insertedId !in orders
      modifies this`orders, this`outbox
      ensures orders == old(orders)[insertedId := NewOrder(data, now)]
      ensures orders[insertedId].status == Pending && orders[insertedId].statusMessage == "Order placed successfully"
      ensures r == if insertedId != "" then Some(insertedId) else None
      ensures outbox == old(outbox)
    {
      var order := NewOrder(data, now);
      orders := orders[insertedId := order];
      if insertedId != "" {
        var raised := SendStatusNotification(order, Pending);
        return Some(insertedId);
      }
      return None;
    }

    /** `_send_status_notification`: sends the SMS, or raises when its template cannot be filled in. */
    method SendStatusNotification(order: Order, status: Status) returns (raised: bool)
      modifies this`outbox
      ensures raised == NotificationRaises(config, order, status)
      ensures outbox == old(outbox) + if raised then [] else Notification(config, order, status)
    {
      raised := false;
      if config.smsChannel {
        var template := SmsTemplate(status);
        if template.Some? && HasPhone(order) {
          if !template.value.Formats() {
            return true;
          }
          outbox := outbox + [Sms(order.customer.value.phone.value, status)];
        }
      }
    }

    /**
     * `update_order_status`: sets status, `last_updated` and status message of
     * the order with this id, if there is one, then notifies its customer;
     * the write stands when the notification raises.
     */
    method UpdateOrderStatus(id: OrderId, status: Status, message: string, now: int) returns (raised: bool)
      modifies this`orders, this`outbox
      ensures orders == UpdateStatus(old(orders), id, status, message, now)
      ensures raised == (id in old(orders) && NotificationRaises(config, orders[id], status))
      ensures outbox == old(outbox) + if id in old(orders) && !raised then Notification(config, orders[id], status) else []
    {
      raised := false;
      if id in orders {
        var order := WithStatus(orders[id], status, message, now);
        orders := orders[id := order];
        if order.customer.Some? {
          raised := SendStatusNotification(order, status);
        }
      }
    }

    /** The loop body of a sweep: a due order is updated, and its customer notified. */
    method VisitOne(sw: Sweep, svc: Services, now: int, id: OrderId) returns (raised: bool)
      requires id in orders
      modifies this`orders, this`outbox
      ensures orders == old(orders)[id := AfterVisit(sw, config, svc, now, old(orders)[id])]
      ensures raised == Raises(sw, config, svc, now, old(orders)[id])
      ensures raised ==> outbox == old(outbox)
      ensures !raised ==> outbox == old(outbox) + VisitNote(sw, config, svc, now, old(orders)[id])
    {
      raised := false;
      if Due(sw, config, svc, now, orders[id]) {
        raised := UpdateOrderStatus(id, sw.Target(), sw.Message(), now);
      }
    }

    /** The loop shared by the three sweeps: due orders in `scan` are updated until a notification raises. */
    method Visit(sw: Sweep, svc: Services, now: int, scan: seq<OrderId>) returns (raised: bool)
      requires IsScan(scan, orders)
      modifies this`orders, this`outbox
      ensures orders == RunVisits(scan, old(orders), sw, config, svc, now).table
      ensures outbox == old(outbox) + RunVisits(scan, old(orders), sw, config, svc, now).sent
      ensures raised == RunVisits(scan, old(orders), sw, config, svc, now).raised
    {
      ghost var before := orders;
      for i := 0 to |scan|
        invariant orders == RunVisits(scan[..i], before, sw, config, svc, now).table
        invariant outbox == old(outbox) + RunVisits(scan[..i], before, sw, config, svc, now).sent
        invariant !RunVisits(scan[..i], before, sw, config, svc, now).raised
      {
        RunVisitsStep(scan, i, before, sw, config, svc, now);
        RunVisitsAt(scan[..i], before, sw, config, svc, now, scan[i]);
        var stopped := VisitOne(sw, svc, now, scan[i]);
        if stopped {
          RunVisitsStaysRaised(scan, before, sw, config, svc, now, i + 1);
          return true;
        }
        AppendAssociates(old(outbox), RunVisits(scan[..i], before, sw, config, svc, now).sent,
                         VisitNote(sw, config, svc, now, before[scan[i]]));
      }
      assert scan[..|scan|] == scan;
      return false;
    }

    /** `_process_pending_orders`: a no-op unless auto-confirmation is on. */
    method ProcessPendingOrders(svc: Services, now: int, scan: seq<OrderId>) returns (raised: bool)
      requires IsScan(scan, orders)
      modifies this`orders, this`outbox
      ensures orders == RunSweep(scan, old(orders), ConfirmPending, config, svc, now).table
      ensures outbox == old(outbox) + RunSweep(scan, old(orders), ConfirmPending, config, svc, now).sent
      ensures raised == RunSweep(scan, old(orders), ConfirmPending, config, svc, now).raised
    {
      if !config.enableAutoConfirmation {
        return false;
      }
      raised := Visit(ConfirmPending, svc, now, scan);
    }

    /** `_update_processing_orders`. */
    method UpdateProcessingOrders(svc: Services, now: int, scan: seq<OrderId>) returns (raised: bool)
      requires IsScan(scan, orders)
      modifies this`orders, this`outbox
      ensures orders == RunSweep(scan, old(orders), ShipProcessing, config, svc, now).table
      ensures outbox == old(outbox) + RunSweep(scan, old(orders), ShipProcessing, config, svc, now).sent
      ensures raised == RunSweep(scan, old(orders), ShipProcessing, config, svc, now).raised
    {
      raised := Visit(ShipProcessing, svc, now, scan);
    }

    /** `_update_shipping_status`: a no-op unless shipping updates are on. */
    method UpdateShippingStatus(svc: Services, now: int, scan: seq<OrderId>) returns (raised: bool)
      requires IsScan(scan, orders)
      modifies this`orders, this`outbox
      ensures orders == RunSweep(scan, old(orders), DeliverShipped, config, svc, now).table
      ensures outbox == old(outbox) + RunSweep(scan, old(orders), DeliverShipped, config, svc, now).sent
      ensures raised == RunSweep(scan, old(orders), DeliverShipped, config, svc, now).raised
    {
      if !config.enableShippingUpdates {
        return false;
      }
      raised := Visit(DeliverShipped, svc, now, scan);
    }

    /**
     * One iteration of the monitoring loop, with the manager's own checks,
     * at one clock reading: the pending, processing and shipping sweeps in
     * that order, the later ones skipped once one raises.
     */
    method MonitorPass(now: int, scan: seq<OrderId>) returns (raised: bool)
      requires IsScan(scan, orders)
      modifies this`orders, this`outbox
      ensures orders == RunPass(scan, old(orders), config, Stubs, now).table
      ensures outbox == old(outbox) + RunPass(scan, old(orders), config, Stubs, now).sent
      ensures raised == RunPass(scan, old(orders), config, Stubs, now).raised
      ensures forall id :: id in orders ==> (orders[id].status == Delivered ==> old(orders)[id].status == Delivered)
    {
      ghost var before, sent := orders, outbox;
      RunPassStubsNeverDeliver(scan, before, config, now);
      ghost var c := RunSweep(scan, before, ConfirmPending, config, Stubs, now);
      raised := ProcessPendingOrders(Stubs, now, scan);
      if raised {
        return;
      }
      ScanSameKeys(scan, before, orders);
      ghost var s := RunSweep(scan, orders, ShipProcessing, config, Stubs, now);
      raised := UpdateProcessingOrders(Stubs, now, scan);
      AppendAssociates(sent, c.sent, s.sent);
      if raised {
        return;
      }
      ScanSameKeys(scan, before, orders);
      ghost var d := RunSweep(scan, orders, DeliverShipped, config, Stubs, now);
      raised := UpdateShippingStatus(Stubs, now, scan);
      AppendAssociates(sent, c.sent + s.sent, d.sent);
    }
  }
}
