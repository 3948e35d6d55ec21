/** What settlement guarantees over whole runs: conservation, single refunds and the status rule. */
module SettlementLaws {
  import opened Prelude
  import opened OrderTypes
  import opened Settlement

  function Amount(x: real): real { x }

  // ---------- How rejections change lists and sums ----------

  /** The part of a list of rejections done so far: what remains charged, item by item. */
  lemma {:induction false} MarkSums(items: seq<Item>, idxs: seq<nat>, v: Id)
    requires Rejectable(items, v, idxs) && idxs != []
    ensures var n := |idxs| - 1;
      && MarkRejected(items, idxs) == MarkRejected(items, idxs[..n])[idxs[n] := Reject(items[idxs[n]])]
      && Sum(MarkRejected(items, idxs), LiveGoods)
        == Sum(MarkRejected(items, idxs[..n]), LiveGoods) - items[idxs[n]].totalPrice
      && Sum(MarkRejected(items, idxs), LiveFabric)
        == Sum(MarkRejected(items, idxs[..n]), LiveFabric) - items[idxs[n]].externalFabric
  {
    var n := |idxs| - 1;
    var k := idxs[n];
    var prior := MarkRejected(items, idxs[..n]);
    assert idxs == idxs[..n] + [k];
    assert k !in idxs[..n];
    assert prior[k] == items[k];
    SumUpdate(prior, k, Reject(items[k]), LiveGoods);
    SumUpdate(prior, k, Reject(items[k]), LiveFabric);
  }

  lemma FailFirstFees(ships: seq<Shipment>, p: Shipment -> bool)
    requires forall s :: p(s) ==> !s.rejected
    ensures Sum(FailFirst(ships, p), LiveFee)
         == Sum(ships, LiveFee) - if Find(ships, p).Some? then ships[Find(ships, p).value].fee else 0.0
  {
    match Find(ships, p)
    case None =>
    case Some(k) => SumUpdate(ships, k, Fail(ships[k]), LiveFee);
  }

  /** Later states of a shipment list: the same shipments, with nothing taken back. */
  ghost predicate Progress(a: seq<Shipment>, b: seq<Shipment>) {
    && |a| == |b|
    && forall k :: 0 <= k < |a| ==>
         && b[k].vendor == a[k].vendor && b[k].transfer == a[k].transfer && b[k].fee == a[k].fee
         && (a[k].rejected ==> b[k].rejected) && (a[k].confirmed ==> b[k].confirmed)
  }

  lemma FailFirstProgress(ships: seq<Shipment>, p: Shipment -> bool)
    ensures Progress(ships, FailFirst(ships, p))
    ensures forall k :: 0 <= k < |ships| && FailFirst(ships, p)[k] != ships[k] ==> p(ships[k])
  {
  }

  lemma {:induction false} FailLegsProgress(ships: seq<Shipment>, items: seq<Item>, v: Id, idxs: seq<nat>)
    requires forall i :: 0 <= i < |idxs| ==> idxs[i] < |items|
    ensures Progress(ships, FailLegs(ships, items, v, idxs))
    ensures forall k :: 0 <= k < |ships| && ships[k].transfer.None? ==> FailLegs(ships, items, v, idxs)[k] == ships[k]
  {
    if idxs != [] {
      var n := |idxs| - 1;
      FailLegsProgress(ships, items, v, idxs[..n]);
      var prior := FailLegs(ships, items, v, idxs[..n]);
      match items[idxs[n]].appliedFabric
      case None =>
      case Some(fabric) => FailFirstProgress(prior, LiveLegFor(v, fabric));
    }
  }

  lemma ShipmentsAfterProgress(s: OrderState, v: Id, idxs: seq<nat>)
    requires forall i :: 0 <= i < |idxs| ==> idxs[i] < |s.items|
    ensures Progress(s.shipments, ShipmentsAfter(s, v, idxs))
  {
    FailLegsProgress(s.shipments, s.items, v, idxs);
    FailFirstProgress(FailLegs(s.shipments, s.items, v, idxs), LiveGarmentOf(v));
  }

  // ---------- Conservation ----------

  ghost predicate Covered(items: seq<Item>, ships: seq<Shipment>) {
    forall i :: 0 <= i < |items| ==> Find(ships, GarmentOf(items[i].vendor)).Some?
  }

  /** A garment shipment is rejected only once its vendor has nothing left to ship in it. */
  ghost predicate EmptiedBeforeRejected(items: seq<Item>, ships: seq<Shipment>) {
    forall k :: 0 <= k < |ships| && ships[k].transfer.None? && ships[k].rejected ==> !HasActive(items, ships[k].vendor)
  }

  ghost predicate NonNegative(items: seq<Item>, ships: seq<Shipment>) {
    && (forall i :: 0 <= i < |items| ==> ValidItem(items[i]))
    && (forall k :: 0 <= k < |ships| ==> ships[k].fee >= 0.0)
  }

  /** The settlement invariant: the books match the live entries, and refunds plus total match the charge. */
  ghost predicate Settled(s: OrderState) {
    && NonNegative(s.items, s.shipments)
    && s.total == Charge(s.items, s.shipments)
    && s.shippingFee == Sum(s.shipments, LiveFee)
    && s.subtotal == Sum(s.items, LiveGoods) + Sum(s.items, Fabric)
    && Sum(s.refunds, Amount) + s.total == FullCharge(s.items, s.shipments)
    && EmptiedBeforeRejected(s.items, s.shipments)
  }

  lemma ChargeBounds(items: seq<Item>, ships: seq<Shipment>)
    requires NonNegative(items, ships)
    ensures Sum(items, LiveGoods) >= 0.0 && Sum(items, LiveFabric) >= 0.0 && Sum(ships, LiveFee) >= 0.0
    ensures Sum(items, Fabric) >= 0.0
  {
    SumNonNegative(items, LiveGoods);
    SumNonNegative(items, LiveFabric);
    SumNonNegative(items, Fabric);
    SumNonNegative(ships, LiveFee);
  }

  // Rejecting does not touch what the order once cost.
  lemma FullChargeKept(s: OrderState, v: Id, idxs: seq<nat>)
    requires forall i :: 0 <= i < |idxs| ==> idxs[i] < |s.items|
    ensures FullCharge(MarkRejected(s.items, idxs), ShipmentsAfter(s, v, idxs)) == FullCharge(s.items, s.shipments)
    ensures Sum(MarkRejected(s.items, idxs), Fabric) == Sum(s.items, Fabric)
  {
    ShipmentsAfterProgress(s, v, idxs);
    SumSame(s.items, MarkRejected(s.items, idxs), Goods, Goods);
    SumSame(s.items, MarkRejected(s.items, idxs), Fabric, Fabric);
    SumSame(s.shipments, ShipmentsAfter(s, v, idxs), Fee, Fee);
  }

  lemma {:induction false} RefundIsNonNegative(items: seq<Item>, v: Id, idxs: seq<nat>)
    requires Rejectable(items, v, idxs) && forall i :: 0 <= i < |items| ==> ValidItem(items[i])
    ensures Sum(MarkRejected(items, idxs), LiveGoods) <= Sum(items, LiveGoods)
    ensures Sum(MarkRejected(items, idxs), LiveFabric) <= Sum(items, LiveFabric)
  {
    if idxs == [] {
      assert MarkRejected(items, idxs) == items;
    } else {
      MarkSums(items, idxs, v);
      RefundIsNonNegative(items, v, idxs[..|idxs| - 1]);
    }
  }

  lemma {:induction false} ProgressFees(a: seq<Shipment>, b: seq<Shipment>)
    requires Progress(a, b) && forall k :: 0 <= k < |a| ==> a[k].fee >= 0.0
    ensures Sum(b, LiveFee) <= Sum(a, LiveFee)
  {
    if a != [] {
      ProgressFees(a[..|a| - 1], b[..|b| - 1]);
    }
  }

  lemma AppendRefund(refunds: seq<real>, amount: real)
    requires amount >= 0.0
    ensures Sum(Refunded(refunds, amount), Amount) == Sum(refunds, Amount) + amount
  {
    SumAppend(refunds, amount, Amount);
  }

  lemma EmptiedAfter(s: OrderState, v: Id, idxs: seq<nat>)
    requires EmptiedBeforeRejected(s.items, s.shipments) && Rejectable(s.items, v, idxs)
    ensures EmptiedBeforeRejected(MarkRejected(s.items, idxs), ShipmentsAfter(s, v, idxs))
  {
    var items, ships := MarkRejected(s.items, idxs), ShipmentsAfter(s, v, idxs);
    var legs := FailLegs(s.shipments, s.items, v, idxs);
    FailLegsProgress(s.shipments, s.items, v, idxs);
    FailFirstProgress(legs, LiveGarmentOf(v));
    forall k | 0 <= k < |ships| && ships[k].transfer.None? && ships[k].rejected
      ensures !HasActive(items, ships[k].vendor)
    {
      if s.shipments[k].rejected {
        assert !HasActive(s.items, ships[k].vendor);
        assert forall i :: 0 <= i < |items| && !items[i].rejected ==>
          !s.items[i].rejected && s.items[i].vendor == items[i].vendor;
      }
    }
  }

  /**
    Rejecting items keeps the books exact. The total and the shipping fee are lowered by exactly what
    is refunded, so neither clamp at zero binds.
   */
  lemma RejectItemsSettles(s: OrderState, v: Id, idxs: seq<nat>)
    requires Settled(s) && Rejectable(s.items, v, idxs)
    ensures Settled(RejectItems(s, v, idxs))
    ensures var s' := RejectItems(s, v, idxs);
      && s.total - (Charge(s.items, s.shipments) - Charge(s'.items, s'.shipments)) == s'.total >= 0.0
      && s.shippingFee - (Sum(s.shipments, LiveFee) - Sum(s'.shipments, LiveFee)) == s'.shippingFee >= 0.0
      && Progress(s.shipments, s'.shipments)
  {
    var s' := RejectItems(s, v, idxs);
    var refund := Charge(s.items, s.shipments) - Charge(s'.items, s'.shipments);
    ShipmentsAfterProgress(s, v, idxs);
    assert NonNegative(s'.items, s'.shipments);
    ChargeBounds(s'.items, s'.shipments);
    RefundIsNonNegative(s.items, v, idxs);
    ProgressFees(s.shipments, s'.shipments);
    FullChargeKept(s, v, idxs);
    AppendRefund(s.refunds, refund);
    EmptiedAfter(s, v, idxs);
  }

  /** A vendor whose first shipment on the order is a garment; its rejection never unwinds a transfer. */
  predicate SellsGarments(ships: seq<Shipment>, v: Id) {
    match Find(ships, OwnedBy(v))
    case None => true
    case Some(k) => ships[k].transfer.None?
  }

  predicate GarmentAction(ships: seq<Shipment>, a: Action) {
    match a
    case AutoRejectStale => false
    case RejectShipmentBy(v) => SellsGarments(ships, v)
    case _ => true
  }

  lemma SettledMeansCharged(s: OrderState, s': OrderState)
    requires Settled(s) && s'.items == s.items && |s'.shipments| == |s.shipments|
    requires forall k :: 0 <= k < |s.shipments| ==>
      && s'.shipments[k].fee == s.shipments[k].fee && s'.shipments[k].rejected == s.shipments[k].rejected
      && s'.shipments[k].transfer == s.shipments[k].transfer && s'.shipments[k].vendor == s.shipments[k].vendor
    requires s' == s.(shipments := s'.shipments, status := s'.status)
    ensures Settled(s')
  {
    SumSame(s.shipments, s'.shipments, LiveFee, LiveFee);
    SumSame(s.shipments, s'.shipments, Fee, Fee);
  }

  lemma StepSettles(s: OrderState, a: Action)
    requires Settled(s) && GarmentAction(s.shipments, a)
    ensures Settled(Step(s, a)) && Progress(s.shipments, Step(s, a).shipments)
  {
    match a
    case ConfirmBy(v) => SettledMeansCharged(s, Step(s, a));
    case Courier(k, status) => SettledMeansCharged(s, Step(s, a));
    case PaymentReported => SettledMeansCharged(s, Step(s, a));
    case RejectItemBy(v, id) =>
      var i := Find(s.items, ItemOf(v, id));
      if i.Some? && Step(s, a) != s {
        RejectItemsSettles(s, v, [i.value]);
      }
    case RejectShipmentBy(v) => RejectShipmentSettles(s, v);
  }

  lemma RejectShipmentSettles(s: OrderState, v: Id)
    requires Settled(s) && SellsGarments(s.shipments, v)
    ensures Settled(RejectShipment(s, v)) && Progress(s.shipments, RejectShipment(s, v).shipments)
  {
    if RejectShipment(s, v) != s {
      RejectItemsSettles(s, v, ActiveItems(s.items, v));
    }
  }

  lemma ProgressFinds(a: seq<Shipment>, b: seq<Shipment>, v: Id)
    requires Progress(a, b)
    ensures SellsGarments(a, v) == SellsGarments(b, v)
    ensures Find(a, GarmentOf(v)) == Find(b, GarmentOf(v))
  {
    var i, j := Find(a, OwnedBy(v)), Find(b, OwnedBy(v));
    if i.Some? { assert OwnedBy(v)(b[i.value]); }
    if j.Some? { assert OwnedBy(v)(a[j.value]); }
    if i.Some? && j.Some? {
      assert !(i.value < j.value) && !(j.value < i.value);
    }
    var g, h := Find(a, GarmentOf(v)), Find(b, GarmentOf(v));
    if g.Some? { assert GarmentOf(v)(b[g.value]); }
    if h.Some? { assert GarmentOf(v)(a[h.value]); }
    if g.Some? && h.Some? {
      assert !(g.value < h.value) && !(h.value < g.value);
    }
  }

  /**
    Over every run of confirmations, item and garment-shipment rejections and courier updates, the
    total is the live charge, refunds plus total are the original charge, and no clamp binds.
   */
  lemma {:induction false} SettlementConserves(s: OrderState, actions: seq<Action>)
    requires Settled(s) && forall i :: 0 <= i < |actions| ==> GarmentAction(s.shipments, actions[i])
    ensures Settled(Run(s, actions)) && Progress(s.shipments, Run(s, actions).shipments)
  {
    if actions != [] {
      var n := |actions| - 1;
      SettlementConserves(s, actions[..n]);
      var a, before := actions[n], Run(s, actions[..n]);
      assert GarmentAction(s.shipments, a);
      if a.RejectShipmentBy? {
        ProgressFinds(s.shipments, before.shipments, a.vendor);
      }
      StepSettles(before, a);
    }
  }

  function RefundedValue(it: Item): real { if it.rejected then it.totalPrice + it.externalFabric else 0.0 }

  function RefundedFee(s: Shipment): real { if s.rejected then s.fee else 0.0 }

  /** Everything rejected has been refunded exactly once, and nothing else has. */
  lemma RefundedExactlyOnce(s: OrderState)
    requires Settled(s)
    ensures Sum(s.refunds, Amount) == Sum(s.items, RefundedValue) + Sum(s.shipments, RefundedFee)
  {
    SumSplit(s.items, s.shipments);
  }

  lemma SumSplit(items: seq<Item>, ships: seq<Shipment>)
    ensures FullCharge(items, ships) == Charge(items, ships) + Sum(items, RefundedValue) + Sum(ships, RefundedFee)
  {
    SumOfSums(ships, Fee, LiveFee, RefundedFee);
    ItemSplit(items);
  }

  lemma {:induction false} ItemSplit(items: seq<Item>)
    ensures Sum(items, Goods) + Sum(items, Fabric)
         == Sum(items, LiveGoods) + Sum(items, LiveFabric) + Sum(items, RefundedValue)
  {
    if items != [] {
      ItemSplit(items[..|items| - 1]);
    }
  }

  /** An order all of whose shipments are rejected has nothing left to charge: all of it was refunded. */
  lemma CancelledMeansRefunded(s: OrderState)
    requires Settled(s) && Covered(s.items, s.shipments) && AllRejected(s.shipments)
    ensures s.total == 0.0 && Sum(s.refunds, Amount) == FullCharge(s.items, s.shipments)
  {
    forall it | it in s.items ensures it.rejected {
      var i :| 0 <= i < |s.items| && s.items[i] == it;
      var k := Find(s.shipments, GarmentOf(it.vendor)).value;
      assert !HasActive(s.items, s.shipments[k].vendor);
    }
    SumZero(s.items, LiveGoods);
    SumZero(s.items, LiveFabric);
    SumZero(s.shipments, LiveFee);
  }

  lemma ProgressFurther(a: seq<Shipment>, b: seq<Shipment>, c: seq<Shipment>)
    requires Progress(a, b) && Progress(b, c)
    ensures Progress(a, c)
  {
  }

  // The items of an order keep their prices and their vendors.
  ghost predicate SameGoods(a: seq<Item>, b: seq<Item>) {
    |a| == |b| && forall i :: 0 <= i < |a| ==> b[i].(rejected := a[i].rejected) == a[i]
  }

  lemma {:induction false} ItemsPersist(s: OrderState, actions: seq<Action>)
    ensures SameGoods(s.items, Run(s, actions).items)
  {
    if actions != [] {
      var before := Run(s, actions[..|actions| - 1]);
      ItemsPersist(s, actions[..|actions| - 1]);
      if actions[|actions| - 1].AutoRejectStale? {
        AutoRejectKeepsItems(before, 0, false);
      }
    }
  }

  lemma {:induction false} AutoRejectKeepsItems(s: OrderState, k: nat, changed: bool)
    requires k <= |s.shipments|
    ensures AutoRejectFrom(s, k, changed).items == s.items
    decreases |s.shipments| - k
  {
    if k < |s.shipments| {
      var ship := s.shipments[k];
      if ship.confirmed || ship.rejected || (ship.transfer.Some? && ship.refundClaimed) {
        AutoRejectKeepsItems(s, k + 1, changed);
      } else if ship.transfer.None? {
        AutoRejectKeepsItems(RejectStale(s, k), k + 1, true);
      }
    }
  }

  function AllRejectedOf(items: seq<Item>, v: Id): seq<Item> {
    seq(|items|, i requires 0 <= i < |items| => if items[i].vendor == v then Reject(items[i]) else items[i])
  }

  // Rejecting all of a vendor's active items leaves all of its items rejected.
  lemma MarkActive(items: seq<Item>, v: Id)
    ensures MarkRejected(items, ActiveItems(items, v)) == AllRejectedOf(items, v)
    ensures !HasActive(MarkRejected(items, ActiveItems(items, v)), v)
  {
    var idxs := ActiveItems(items, v);
    forall i | 0 <= i < |items|
      ensures MarkRejected(items, idxs)[i] == if items[i].vendor == v then Reject(items[i]) else items[i]
    {
      if i in idxs {
        var j :| 0 <= j < |idxs| && idxs[j] == i;
      }
    }
  }

  lemma RunOne(s: OrderState, a: Action)
    ensures Run(s, [a]) == Step(s, a)
  {
    assert [a][..0] == [];
    assert Run(s, [a][..0]) == s;
  }

  lemma RunTwo(s: OrderState, a: Action, b: Action)
    ensures Run(s, [a, b]) == Step(Step(s, a), b)
  {
    assert [a, b][..1] == [a];
    RunOne(s, a);
  }
}
