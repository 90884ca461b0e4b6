/**
 * The sweeps of backend/services/order_manager.py as the code runs them.
 * `_send_status_notification` fills its template with `order_id`, `amount`,
 * `tracking_url` and `delivery_date` only, so the shipped and delivered
 * templates, which name `courier` and `feedback_url`, raise `KeyError`. The
 * order has already been written by then; the exception leaves the sweep's
 * loop and the rest of the pass, and `_monitor_orders` catches it.
 * `OrderModel.SweepTable` and `OrderModel.PassTable` are the behaviour with
 * every template filled in; `RunSweepAgrees` and `RunPassAgrees` say when the
 * two coincide.
 */
module OrderRun {
  import opened Wrappers
  import opened OrderModel

  /** Visiting this order makes `update_order_status` raise: it is due, and the SMS to its customer cannot be formatted. */
  predicate Raises(sw: Sweep, cfg: AutoUpdateConfig, svc: Services, now: int, o: Order)
  {
    Due(sw, cfg, svc, now, o) && NotificationRaises(cfg, o, sw.Target())
  }

  predicate RaisesAt(id: OrderId, orders: map<OrderId, Order>, sw: Sweep, cfg: AutoUpdateConfig, svc: Services, now: int)
  {
    id in orders && Raises(sw, cfg, svc, now, orders[id])
  }

  /** The confirmation template can always be filled in, so the pending sweep never raises. */
  lemma ConfirmNeverRaises(cfg: AutoUpdateConfig, svc: Services, now: int, o: Order)
    ensures !Raises(ConfirmPending, cfg, svc, now, o)
  {
    OnlyConfirmationFormats(OrderConfirmed);
  }

  /** What a sweep leaves behind: the table, the SMS it sent, and whether it ended in the exception. */
  datatype SweepRun = SweepRun(table: map<OrderId, Order>, sent: seq<Sms>, raised: bool)

  /**
   * The loop of a sweep as written, over the documents the query returned:
   * each id in turn is visited against its order in `orders`; once a visit
   * raises, the loop is left and the later ids are not visited.
   */
  function RunVisits(scan: seq<OrderId>, orders: map<OrderId, Order>, sw: Sweep, cfg: AutoUpdateConfig, svc: Services, now: int): (r: SweepRun)
    ensures r.table.Keys == orders.Keys
    ensures |r.sent| <= |scan|
  {
    if scan == [] then SweepRun(orders, [], false)
    else
      var r, id := RunVisits(scan[..|scan| - 1], orders, sw, cfg, svc, now), scan[|scan| - 1];
      if r.raised || id !in orders then r
      else
        var o := orders[id];
        SweepRun(r.table[id := AfterVisit(sw, cfg, svc, now, o)],
                 r.sent + (if Raises(sw, cfg, svc, now, o) then [] else VisitNote(sw, cfg, svc, now, o)),
                 Raises(sw, cfg, svc, now, o))
  }

  /** Visiting one more id of the scan. */
  lemma RunVisitsStep(scan: seq<OrderId>, i: nat, orders: map<OrderId, Order>, sw: Sweep, cfg: AutoUpdateConfig, svc: Services, now: int)
    requires i < |scan|
    ensures var r, next := RunVisits(scan[..i], orders, sw, cfg, svc, now), RunVisits(scan[..i + 1], orders, sw, cfg, svc, now);
      (r.raised || scan[i] !in orders ==> next == r)
      && (!r.raised && scan[i] in orders ==>
            var o := orders[scan[i]];
            next.table == r.table[scan[i] := AfterVisit(sw, cfg, svc, now, o)]
            && next.raised == Raises(sw, cfg, svc, now, o)
            && next.sent == if next.raised then r.sent else r.sent + VisitNote(sw, cfg, svc, now, o))
  {
    assert scan[..i + 1][..i] == scan[..i];
  }

  /** An order is untouched until its id is visited, then as `AfterVisit` makes it; a loop that does not raise visits every id. */
  lemma {:induction false} RunVisitsAt(scan: seq<OrderId>, orders: map<OrderId, Order>, sw: Sweep, cfg: AutoUpdateConfig, svc: Services, now: int, x: OrderId)
    requires x in orders
    ensures var r := RunVisits(scan, orders, sw, cfg, svc, now);
      (r.table[x] == orders[x] || r.table[x] == AfterVisit(sw, cfg, svc, now, orders[x]))
      && (x !in scan ==> r.table[x] == orders[x])
      && (x in scan && !r.raised ==> r.table[x] == AfterVisit(sw, cfg, svc, now, orders[x]))
  {
    if scan != [] {
      var init := scan[..|scan| - 1];
      RunVisitsAt(init, orders, sw, cfg, svc, now, x);
      assert scan == init + [scan[|scan| - 1]];
    }
  }

  /** Once the loop has raised, the rest of the scan changes nothing. */
  lemma {:induction false} RunVisitsStaysRaised(scan: seq<OrderId>, orders: map<OrderId, Order>, sw: Sweep, cfg: AutoUpdateConfig, svc: Services, now: int, k: nat)
    requires k <= |scan|
    ensures RunVisits(scan[..k], orders, sw, cfg, svc, now).raised ==>
      RunVisits(scan, orders, sw, cfg, svc, now) == RunVisits(scan[..k], orders, sw, cfg, svc, now)
  {
    if k < |scan| {
      var init := scan[..|scan| - 1];
      RunVisitsStaysRaised(init, orders, sw, cfg, svc, now, k);
      assert init[..k] == scan[..k];
    } else {
      assert scan[..k] == scan;
    }
  }

  /** The loop ends in the exception exactly when some order of the scan raises. */
  lemma {:induction false} RunVisitsRaises(scan: seq<OrderId>, orders: map<OrderId, Order>, sw: Sweep, cfg: AutoUpdateConfig, svc: Services, now: int)
    ensures RunVisits(scan, orders, sw, cfg, svc, now).raised <==> exists j :: 0 <= j < |scan| && RaisesAt(scan[j], orders, sw, cfg, svc, now)
  {
    if scan != [] {
      var init, id := scan[..|scan| - 1], scan[|scan| - 1];
      RunVisitsRaises(init, orders, sw, cfg, svc, now);
      if exists j :: 0 <= j < |scan| && RaisesAt(scan[j], orders, sw, cfg, svc, now) {
        var j :| 0 <= j < |scan| && RaisesAt(scan[j], orders, sw, cfg, svc, now);
        if j < |init| {
          assert init[j] == scan[j];
        } else {
          assert scan[j] == id;
        }
      } else {
        assert !RaisesAt(id, orders, sw, cfg, svc, now);
        assert forall j :: 0 <= j < |init| ==> init[j] == scan[j];
      }
    }
  }

  /** The ids before the first one that raises are all visited; the first one is written; the ones after it are not visited. */
  lemma StopsAtFirstRaise(scan: seq<OrderId>, orders: map<OrderId, Order>, sw: Sweep, cfg: AutoUpdateConfig, svc: Services, now: int, i: nat)
    requires i < |scan| && RaisesAt(scan[i], orders, sw, cfg, svc, now)
    ensures RunVisits(scan, orders, sw, cfg, svc, now).raised
    ensures forall x :: x in orders && x !in scan[..i + 1] ==> RunVisits(scan, orders, sw, cfg, svc, now).table[x] == orders[x]
  {
    RunVisitsStep(scan, i, orders, sw, cfg, svc, now);
    RunVisitsStaysRaised(scan, orders, sw, cfg, svc, now, i + 1);
    forall x | x in orders && x !in scan[..i + 1]
      ensures RunVisits(scan, orders, sw, cfg, svc, now).table[x] == orders[x]
    {
      RunVisitsAt(scan[..i + 1], orders, sw, cfg, svc, now, x);
    }
  }

  /** A loop in which no visit raises sends the SMS of every visit. */
  lemma {:induction false} RunVisitsQuiet(scan: seq<OrderId>, orders: map<OrderId, Order>, sw: Sweep, cfg: AutoUpdateConfig, svc: Services, now: int)
    requires forall j :: 0 <= j < |scan| ==> !RaisesAt(scan[j], orders, sw, cfg, svc, now)
    ensures !RunVisits(scan, orders, sw, cfg, svc, now).raised
    ensures RunVisits(scan, orders, sw, cfg, svc, now).sent == VisitNotes(scan, orders, sw, cfg, svc, now)
  {
    if scan != [] {
      var init := scan[..|scan| - 1];
      assert forall j :: 0 <= j < |init| ==> init[j] == scan[j];
      RunVisitsQuiet(init, orders, sw, cfg, svc, now);
      assert !RaisesAt(scan[|scan| - 1], orders, sw, cfg, svc, now);
    }
  }

  /** A sweep as written, including its configuration guard. */
  function RunSweep(scan: seq<OrderId>, orders: map<OrderId, Order>, sw: Sweep, cfg: AutoUpdateConfig, svc: Services, now: int): (r: SweepRun)
    ensures r.table.Keys == orders.Keys
    ensures !Enabled(sw, cfg) ==> r == SweepRun(orders, [], false)
  {
    if Enabled(sw, cfg) then RunVisits(scan, orders, sw, cfg, svc, now) else SweepRun(orders, [], false)
  }

  /** One pass as written: a sweep that raises ends the pass, the later sweeps do not run. */
  function RunPass(scan: seq<OrderId>, orders: map<OrderId, Order>, cfg: AutoUpdateConfig, svc: Services, now: int): (r: SweepRun)
    ensures r.table.Keys == orders.Keys
  {
    var c := RunSweep(scan, orders, ConfirmPending, cfg, svc, now);
    if c.raised then c
    else
      var s := RunSweep(scan, c.table, ShipProcessing, cfg, svc, now);
      if s.raised then SweepRun(s.table, c.sent + s.sent, true)
      else
        var d := RunSweep(scan, s.table, DeliverShipped, cfg, svc, now);
        SweepRun(d.table, c.sent + s.sent + d.sent, d.raised)
  }

  /** A sweep leaves each order unchanged or as `AfterSweep` makes it, and a sweep that does not raise treats every order. */
  lemma RunSweepAt(scan: seq<OrderId>, orders: map<OrderId, Order>, sw: Sweep, cfg: AutoUpdateConfig, svc: Services, now: int, id: OrderId)
    requires IsScan(scan, orders) && id in orders
    ensures var r := RunSweep(scan, orders, sw, cfg, svc, now).table[id];
      r == orders[id] || r == AfterSweep(sw, cfg, svc, now, orders[id])
    ensures !RunSweep(scan, orders, sw, cfg, svc, now).raised ==>
      RunSweep(scan, orders, sw, cfg, svc, now).table[id] == AfterSweep(sw, cfg, svc, now, orders[id])
  {
    RunVisitsAt(scan, orders, sw, cfg, svc, now, id);
  }

  /** When no visit raises, the sweep as written is the sweep with every template filled in. */
  lemma RunSweepAgrees(scan: seq<OrderId>, orders: map<OrderId, Order>, sw: Sweep, cfg: AutoUpdateConfig, svc: Services, now: int)
    requires IsScan(scan, orders)
    requires forall j :: 0 <= j < |scan| ==> !RaisesAt(scan[j], orders, sw, cfg, svc, now)
    ensures RunSweep(scan, orders, sw, cfg, svc, now)
      == SweepRun(SweepTable(orders, sw, cfg, svc, now), SweepNotes(scan, orders, sw, cfg, svc, now), false)
  {
    if Enabled(sw, cfg) {
      var r := RunSweep(scan, orders, sw, cfg, svc, now);
      RunVisitsQuiet(scan, orders, sw, cfg, svc, now);
      forall id | id in orders
        ensures r.table[id] == SweepTable(orders, sw, cfg, svc, now)[id]
      {
        RunSweepAt(scan, orders, sw, cfg, svc, now, id);
      }
    }
  }

  /** `_process_pending_orders` never raises and does exactly what it is meant to. */
  lemma ConfirmRunIsIntended(scan: seq<OrderId>, orders: map<OrderId, Order>, cfg: AutoUpdateConfig, svc: Services, now: int)
    requires IsScan(scan, orders)
    ensures RunSweep(scan, orders, ConfirmPending, cfg, svc, now)
      == SweepRun(SweepTable(orders, ConfirmPending, cfg, svc, now), SweepNotes(scan, orders, ConfirmPending, cfg, svc, now), false)
  {
    forall j | 0 <= j < |scan|
      ensures !RaisesAt(scan[j], orders, ConfirmPending, cfg, svc, now)
    {
      ConfirmNeverRaises(cfg, svc, now, orders[scan[j]]);
    }
    RunSweepAgrees(scan, orders, ConfirmPending, cfg, svc, now);
  }

  /** An SMS channel that is off, or no customer with a phone: no notification can raise. */
  predicate Silent(cfg: AutoUpdateConfig, orders: map<OrderId, Order>)
  {
    !cfg.smsChannel || forall id :: id in orders ==> !HasPhone(orders[id])
  }

  lemma SilentSweep(scan: seq<OrderId>, orders: map<OrderId, Order>, sw: Sweep, cfg: AutoUpdateConfig, svc: Services, now: int)
    requires IsScan(scan, orders) && Silent(cfg, orders)
    ensures RunSweep(scan, orders, sw, cfg, svc, now)
      == SweepRun(SweepTable(orders, sw, cfg, svc, now), SweepNotes(scan, orders, sw, cfg, svc, now), false)
    ensures Silent(cfg, SweepTable(orders, sw, cfg, svc, now))
  {
    RunSweepAgrees(scan, orders, sw, cfg, svc, now);
  }

  /** Where nothing can raise, a pass as written is the whole pass with every template filled in. */
  lemma RunPassAgrees(scan: seq<OrderId>, orders: map<OrderId, Order>, cfg: AutoUpdateConfig, svc: Services, now: int)
    requires IsScan(scan, orders) && Silent(cfg, orders)
    ensures RunPass(scan, orders, cfg, svc, now)
      == SweepRun(PassTable(orders, cfg, svc, now), PassNotes(scan, orders, cfg, svc, now), false)
  {
    var afterConfirm := SweepTable(orders, ConfirmPending, cfg, svc, now);
    var afterShip := SweepTable(afterConfirm, ShipProcessing, cfg, svc, now);
    SilentSweep(scan, orders, ConfirmPending, cfg, svc, now);
    ScanSameKeys(scan, orders, afterConfirm);
    SilentSweep(scan, afterConfirm, ShipProcessing, cfg, svc, now);
    ScanSameKeys(scan, orders, afterShip);
    SilentSweep(scan, afterShip, DeliverShipped, cfg, svc, now);
    var p := PassTable(orders, cfg, svc, now);
    var t := SweepTable(afterShip, DeliverShipped, cfg, svc, now);
    assert t == p;
  }

  /** A shipping or delivery loop as written sends nothing: such an SMS is exactly one that raises. */
  lemma {:induction false} ShipmentsSilent(scan: seq<OrderId>, orders: map<OrderId, Order>, sw: Sweep, cfg: AutoUpdateConfig, svc: Services, now: int)
    requires sw != ConfirmPending
    ensures RunVisits(scan, orders, sw, cfg, svc, now).sent == []
  {
    if scan != [] {
      var id := scan[|scan| - 1];
      ShipmentsSilent(scan[..|scan| - 1], orders, sw, cfg, svc, now);
      if id in orders && Due(sw, cfg, svc, now, orders[id]) {
        NotificationRaisesExactly(cfg, AfterVisit(sw, cfg, svc, now, orders[id]), sw.Target());
      }
    }
  }

  /** The shipping and delivery sweeps as written never send an SMS. */
  lemma ShipmentsSendNothing(scan: seq<OrderId>, orders: map<OrderId, Order>, sw: Sweep, cfg: AutoUpdateConfig, svc: Services, now: int)
    requires sw != ConfirmPending
    ensures RunSweep(scan, orders, sw, cfg, svc, now).sent == []
  {
    ShipmentsSilent(scan, orders, sw, cfg, svc, now);
  }

  /** Every SMS the confirmation loop sends is an order confirmation. */
  lemma {:induction false} ConfirmationsOnly(scan: seq<OrderId>, orders: map<OrderId, Order>, cfg: AutoUpdateConfig, svc: Services, now: int)
    ensures forall m :: m in RunVisits(scan, orders, ConfirmPending, cfg, svc, now).sent ==> m.status == Confirmed
  {
    if scan != [] {
      ConfirmationsOnly(scan[..|scan| - 1], orders, cfg, svc, now);
    }
  }

  /** Every SMS of a pass as written is an order confirmation. */
  lemma RunPassOnlyConfirms(scan: seq<OrderId>, orders: map<OrderId, Order>, cfg: AutoUpdateConfig, svc: Services, now: int)
    ensures forall m :: m in RunPass(scan, orders, cfg, svc, now).sent ==> m.status == Confirmed
  {
    var c := RunSweep(scan, orders, ConfirmPending, cfg, svc, now);
    ConfirmationsOnly(scan, orders, cfg, svc, now);
    ShipmentsSendNothing(scan, c.table, ShipProcessing, cfg, svc, now);
    var s := RunSweep(scan, c.table, ShipProcessing, cfg, svc, now);
    ShipmentsSendNothing(scan, s.table, DeliverShipped, cfg, svc, now);
  }

  /** Per order, a pass as written stops somewhere along the chain of the three sweeps. */
  lemma RunPassAt(scan: seq<OrderId>, orders: map<OrderId, Order>, cfg: AutoUpdateConfig, svc: Services, now: int, id: OrderId)
    requires IsScan(scan, orders) && id in orders
    ensures var o := orders[id];
      var o1 := AfterSweep(ConfirmPending, cfg, svc, now, o);
      var o2 := AfterSweep(ShipProcessing, cfg, svc, now, o1);
      var r := RunPass(scan, orders, cfg, svc, now).table[id];
      r == o || r == o1 || r == o2 || r == AfterSweep(DeliverShipped, cfg, svc, now, o2)
  {
    var c := RunSweep(scan, orders, ConfirmPending, cfg, svc, now);
    RunSweepAt(scan, orders, ConfirmPending, cfg, svc, now, id);
    if !c.raised {
      ScanSameKeys(scan, orders, c.table);
      var s := RunSweep(scan, c.table, ShipProcessing, cfg, svc, now);
      RunSweepAt(scan, c.table, ShipProcessing, cfg, svc, now, id);
      if !s.raised {
        ScanSameKeys(scan, orders, s.table);
        RunSweepAt(scan, s.table, DeliverShipped, cfg, svc, now, id);
      }
    }
  }

  /** A pass as written moves an order at most one status forward, as the whole pass does. */
  lemma RunPassAdvancesAtMostOnce(scan: seq<OrderId>, orders: map<OrderId, Order>, cfg: AutoUpdateConfig, svc: Services, now: int, id: OrderId)
    requires IsScan(scan, orders) && id in orders && cfg.shippingInterval >= 0
    ensures var o, r := orders[id], RunPass(scan, orders, cfg, svc, now).table[id];
      (r.status == o.status || Advances(o.status, r.status))
      && (o.status == Confirmed || o.status == Delivered || o.status == Cancelled ==> r == o)
  {
    RunPassAt(scan, orders, cfg, svc, now, id);
    var o := orders[id];
    var o1 := AfterSweep(ConfirmPending, cfg, svc, now, o);
    var o2 := AfterSweep(ShipProcessing, cfg, svc, now, o1);
    PassAdvancesAtMostOnce(cfg, svc, now, o);
    assert AfterPass(cfg, svc, now, o) == AfterSweep(DeliverShipped, cfg, svc, now, o2);
  }

  /** With the stub services no pass as written delivers an order. */
  lemma RunPassStubsNeverDeliver(scan: seq<OrderId>, orders: map<OrderId, Order>, cfg: AutoUpdateConfig, now: int)
    requires IsScan(scan, orders)
    ensures forall id :: id in orders ==>
      (RunPass(scan, orders, cfg, Stubs, now).table[id].status == Delivered ==> orders[id].status == Delivered)
  {
    forall id | id in orders
      ensures RunPass(scan, orders, cfg, Stubs, now).table[id].status == Delivered ==> orders[id].status == Delivered
    {
      RunPassAt(scan, orders, cfg, Stubs, now, id);
      StubsNeverDeliver(cfg, now, orders[id]);
      var o := orders[id];
      var o2 := AfterSweep(ShipProcessing, cfg, Stubs, now, AfterSweep(ConfirmPending, cfg, Stubs, now, o));
      assert AfterPass(cfg, Stubs, now, o) == AfterSweep(DeliverShipped, cfg, Stubs, now, o2);
    }
  }

  const Reachable := Some(Customer(Some("9876543210")))
  const Packed := Order(Processing, 0, 0, "Order is being processed", Reachable, map[])
  const Pair := map["a" := Packed, "b" := Packed]
  const PairScan := ["a", "b"]

  /** Packed orders are due for shipping two hours on, and shipping one raises. */
  lemma PackedShipRaises()
    ensures Due(ShipProcessing, DefaultConfig, Stubs, 7200, Packed)
    ensures Raises(ShipProcessing, DefaultConfig, Stubs, 7200, Packed)
    ensures VisitNote(ShipProcessing, DefaultConfig, Stubs, 7200, Packed) == [Sms("9876543210", Shipped)]
  {
    NotificationRaisesExactly(DefaultConfig, AfterVisit(ShipProcessing, DefaultConfig, Stubs, 7200, Packed), Shipped);
  }

  /** A packed order waits for neither the confirmation nor the delivery sweep. */
  lemma PackedOnlyShips()
    ensures !Due(ConfirmPending, DefaultConfig, Stubs, 7200, Packed)
    ensures var shipped := AfterVisit(ShipProcessing, DefaultConfig, Stubs, 7200, Packed);
      shipped.status == Shipped && !Due(DeliverShipped, DefaultConfig, Stubs, 7200, shipped)
  {
  }

  lemma PairConfirmChangesNothing()
    ensures RunSweep(PairScan, Pair, ConfirmPending, DefaultConfig, Stubs, 7200) == SweepRun(Pair, [], false)
  {
    PackedOnlyShips();
    RunVisitsStep(PairScan, 0, Pair, ConfirmPending, DefaultConfig, Stubs, 7200);
    RunVisitsStep(PairScan, 1, Pair, ConfirmPending, DefaultConfig, Stubs, 7200);
    assert PairScan[..0] == [] && PairScan[..2] == PairScan;
  }

  lemma PairShipStopsAtFirst()
    ensures var shipped := AfterVisit(ShipProcessing, DefaultConfig, Stubs, 7200, Packed);
      RunSweep(PairScan, Pair, ShipProcessing, DefaultConfig, Stubs, 7200) == SweepRun(Pair["a" := shipped], [], true)
  {
    PackedShipRaises();
    RunVisitsStep(PairScan, 0, Pair, ShipProcessing, DefaultConfig, Stubs, 7200);
    RunVisitsStaysRaised(PairScan, Pair, ShipProcessing, DefaultConfig, Stubs, 7200, 1);
    assert PairScan[..0] == [];
  }

  lemma PairIntendedConfirm()
    ensures SweepTable(Pair, ConfirmPending, DefaultConfig, Stubs, 7200) == Pair
    ensures SweepNotes(PairScan, Pair, ConfirmPending, DefaultConfig, Stubs, 7200) == []
  {
    PackedOnlyShips();
    VisitNotesStep(PairScan, 0, Pair, ConfirmPending, DefaultConfig, Stubs, 7200);
    VisitNotesStep(PairScan, 1, Pair, ConfirmPending, DefaultConfig, Stubs, 7200);
    assert PairScan[..0] == [] && PairScan[..2] == PairScan;
  }

  lemma PairIntendedShip()
    ensures var shipped := AfterVisit(ShipProcessing, DefaultConfig, Stubs, 7200, Packed);
      SweepTable(Pair, ShipProcessing, DefaultConfig, Stubs, 7200) == map["a" := shipped, "b" := shipped]
    ensures |SweepNotes(PairScan, Pair, ShipProcessing, DefaultConfig, Stubs, 7200)| == 2
  {
    PackedShipRaises();
    VisitNotesStep(PairScan, 0, Pair, ShipProcessing, DefaultConfig, Stubs, 7200);
    VisitNotesStep(PairScan, 1, Pair, ShipProcessing, DefaultConfig, Stubs, 7200);
    assert PairScan[..0] == [] && PairScan[..2] == PairScan;
  }

  lemma PairIntendedDeliver()
    ensures var shipped := AfterVisit(ShipProcessing, DefaultConfig, Stubs, 7200, Packed);
      SweepNotes(PairScan, map["a" := shipped, "b" := shipped], DeliverShipped, DefaultConfig, Stubs, 7200) == []
  {
    PackedOnlyShips();
    var shipped := AfterVisit(ShipProcessing, DefaultConfig, Stubs, 7200, Packed);
    VisitNotesStep(PairScan, 0, map["a" := shipped, "b" := shipped], DeliverShipped, DefaultConfig, Stubs, 7200);
    VisitNotesStep(PairScan, 1, map["a" := shipped, "b" := shipped], DeliverShipped, DefaultConfig, Stubs, 7200);
    assert PairScan[..0] == [] && PairScan[..2] == PairScan;
  }

  lemma PairIntendedShipsBoth()
    ensures PassTable(Pair, DefaultConfig, Stubs, 7200)["b"].status == Shipped
    ensures |PassNotes(PairScan, Pair, DefaultConfig, Stubs, 7200)| == 2
  {
    PackedOnlyShips();
    PairIntendedConfirm();
    PairIntendedShip();
    PairIntendedDeliver();
  }

  /**
   * Two processing orders, due for shipping, both with a phone: the first is
   * marked shipped and raises, so the second stays processing and no SMS
   * goes out, where the whole pass would ship both and text both customers.
   */
  lemma FirstShipmentStopsPass()
    ensures var run := RunPass(PairScan, Pair, DefaultConfig, Stubs, 7200);
      run.raised && run.table["a"].status == Shipped && run.table["b"].status == Processing && run.sent == []
      && PassTable(Pair, DefaultConfig, Stubs, 7200)["b"].status == Shipped
      && |PassNotes(PairScan, Pair, DefaultConfig, Stubs, 7200)| == 2
  {
    PairConfirmChangesNothing();
    PairShipStopsAtFirst();
    PairIntendedShipsBoth();
  }
}
