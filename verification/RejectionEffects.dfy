/** Which items and shipments of an order a step touches, read off their own fields. */
module RejectionEffects {
  import opened Prelude
  import opened OrderTypes
  import opened Settlement
  import opened SettlementLaws
  import opened RefundLaws

  // ---------- Rejecting items ----------

  /** No two live legs carry the same fabric to the same tailor. */
  predicate OneLiveLeg(ships: seq<Shipment>) {
    forall j, k :: 0 <= j < k < |ships| && !ships[j].rejected && !ships[k].rejected && ships[j].transfer.Some? ==>
      ships[j].transfer != ships[k].transfer
  }

  /** The fabric of some item that is live in `a` and rejected in `b` travels in the shipment to its tailor. */
  predicate FedRejected(a: seq<Item>, b: seq<Item>, ship: Shipment)
    requires |a| == |b|
  {
    exists i :: 0 <= i < |a| && !a[i].rejected && b[i].rejected && a[i].appliedFabric.Some?
      && ship.transfer == Some(Transfer(a[i].vendor, a[i].appliedFabric.value))
  }

  /** A garment shipment whose vendor has no live item. */
  predicate Emptied(items: seq<Item>, ship: Shipment) {
    ship.transfer.None? && forall i :: 0 <= i < |items| && items[i].vendor == ship.vendor ==> items[i].rejected
  }

  /** `b` is the shipment list `a` with just the live shipments that `fails` selects rejected. */
  ghost predicate FailsJust(a: seq<Shipment>, b: seq<Shipment>, fails: Shipment -> bool) {
    && |b| == |a|
    && forall k :: 0 <= k < |a| ==>
         b[k] == if !a[k].rejected && fails(a[k]) then a[k].(rejected := true, status := Failed) else a[k]
  }

  /** The leg's fabric is one of an item at `idxs`. */
  function FedBy(items: seq<Item>, v: Id, idxs: seq<nat>): Shipment -> bool {
    (s: Shipment) =>
      exists j :: 0 <= j < |idxs| && idxs[j] < |items| && items[idxs[j]].appliedFabric.Some?
        && s.transfer == Some(Transfer(v, items[idxs[j]].appliedFabric.value))
  }

  lemma FedByNext(items: seq<Item>, v: Id, idxs: seq<nat>, s: Shipment)
    requires idxs != [] && forall i :: 0 <= i < |idxs| ==> idxs[i] < |items|
    ensures var n := |idxs| - 1; var it := items[idxs[n]];
      FedBy(items, v, idxs)(s)
      <==> FedBy(items, v, idxs[..n])(s)
           || (it.appliedFabric.Some? && s.transfer == Some(Transfer(v, it.appliedFabric.value)))
  {
    var n := |idxs| - 1;
    if FedBy(items, v, idxs)(s) {
      var j :| 0 <= j < |idxs| && items[idxs[j]].appliedFabric.Some?
        && s.transfer == Some(Transfer(v, items[idxs[j]].appliedFabric.value));
      if j < n { assert idxs[..n][j] == idxs[j]; }
    }
    if FedBy(items, v, idxs[..n])(s) {
      var j :| 0 <= j < n && idxs[..n][j] < |items| && items[idxs[..n][j]].appliedFabric.Some?
        && s.transfer == Some(Transfer(v, items[idxs[..n][j]].appliedFabric.value));
      assert idxs[..n][j] == idxs[j];
    }
  }

  /** Failing the first live leg for a fabric fails all of them, there being one. */
  lemma OneLegFails(ships: seq<Shipment>, v: Id, fabric: Id, k: nat)
    requires OneLiveLeg(ships) && k < |ships|
    ensures var after := FailFirst(ships, LiveLegFor(v, fabric));
      |after| == |ships|
      && after[k] == if !ships[k].rejected && ships[k].transfer == Some(Transfer(v, fabric)) then Fail(ships[k])
                     else ships[k]
  {
    var leg := Find(ships, LiveLegFor(v, fabric));
    if !ships[k].rejected && ships[k].transfer == Some(Transfer(v, fabric)) {
      assert LiveLegFor(v, fabric)(ships[k]);
      assert LiveLegFor(v, fabric)(ships[leg.value]);
    }
  }

  lemma {:induction false} LegsFail(ships: seq<Shipment>, items: seq<Item>, v: Id, idxs: seq<nat>)
    requires OneLiveLeg(ships) && forall i :: 0 <= i < |idxs| ==> idxs[i] < |items|
    ensures FailsJust(ships, FailLegs(ships, items, v, idxs), FedBy(items, v, idxs))
    ensures OneLiveLeg(FailLegs(ships, items, v, idxs))
  {
    if idxs != [] {
      var n := |idxs| - 1;
      var prior, it := FailLegs(ships, items, v, idxs[..n]), items[idxs[n]];
      LegsFail(ships, items, v, idxs[..n]);
      forall k | 0 <= k < |ships|
        ensures |FailLegs(ships, items, v, idxs)| == |ships|
        ensures FailLegs(ships, items, v, idxs)[k]
             == if !ships[k].rejected && FedBy(items, v, idxs)(ships[k]) then Fail(ships[k]) else ships[k]
      {
        FedByNext(items, v, idxs, ships[k]);
        if it.appliedFabric.Some? { OneLegFails(prior, v, it.appliedFabric.value, k); }
      }
    }
  }

  lemma FedIsFedRejected(items: seq<Item>, v: Id, idxs: seq<nat>, s: Shipment)
    requires Rejectable(items, v, idxs)
    ensures FedBy(items, v, idxs)(s) <==> FedRejected(items, MarkRejected(items, idxs), s)
  {
    var after := MarkRejected(items, idxs);
    if FedBy(items, v, idxs)(s) {
      var j :| 0 <= j < |idxs| && items[idxs[j]].appliedFabric.Some?
        && s.transfer == Some(Transfer(v, items[idxs[j]].appliedFabric.value));
      assert after[idxs[j]].rejected;
    }
    if FedRejected(items, after, s) {
      var i :| 0 <= i < |items| && !items[i].rejected && after[i].rejected && items[i].appliedFabric.Some?
        && s.transfer == Some(Transfer(items[i].vendor, items[i].appliedFabric.value));
      assert i in idxs;
      var j :| 0 <= j < |idxs| && idxs[j] == i;
    }
  }

  lemma EmptiedGarmentFails(ships: seq<Shipment>, v: Id, k: nat)
    requires OneGarment(ships) && k < |ships|
    ensures var after := FailFirst(ships, LiveGarmentOf(v));
      |after| == |ships|
      && after[k] == if !ships[k].rejected && ships[k].transfer.None? && ships[k].vendor == v then Fail(ships[k])
                     else ships[k]
  {
    var g := Find(ships, LiveGarmentOf(v));
    if !ships[k].rejected && ships[k].transfer.None? && ships[k].vendor == v {
      assert LiveGarmentOf(v)(ships[k]);
      assert LiveGarmentOf(v)(ships[g.value]);
    }
  }

  /** What a rejection of items of `v` fails: the legs of the items rejected now, and `v`'s emptied garment. */
  function NoLongerNeeded(a: seq<Item>, b: seq<Item>, v: Id): Shipment -> bool
    requires |a| == |b|
  {
    (s: Shipment) => FedRejected(a, b, s) || (s.vendor == v && Emptied(b, s))
  }

  /**
    Rejecting items of a vendor rejects those items and no others, and fails just the live shipments no longer
    needed; everything else stays as it is.
   */
  lemma RejectionFails(s: OrderState, v: Id, idxs: seq<nat>)
    requires Rejectable(s.items, v, idxs) && OneLiveLeg(s.shipments) && OneGarment(s.shipments)
    ensures var s' := RejectItems(s, v, idxs);
      && |s'.items| == |s.items|
      && (forall i :: 0 <= i < |s.items| ==>
            s'.items[i] == if i in idxs then s.items[i].(rejected := true) else s.items[i])
      && FailsJust(s.shipments, s'.shipments, NoLongerNeeded(s.items, s'.items, v))
  {
    var items, legs := MarkRejected(s.items, idxs), FailLegs(s.shipments, s.items, v, idxs);
    LegsFail(s.shipments, s.items, v, idxs);
    forall k | 0 <= k < |s.shipments|
      ensures |ShipmentsAfter(s, v, idxs)| == |s.shipments|
      ensures ShipmentsAfter(s, v, idxs)[k]
           == if !s.shipments[k].rejected && NoLongerNeeded(s.items, items, v)(s.shipments[k]) then Fail(s.shipments[k])
              else s.shipments[k]
    {
      FedIsFedRejected(s.items, v, idxs, s.shipments[k]);
      if s.shipments[k].transfer.None? && s.shipments[k].vendor == v { LiveOfVendor(items, v, s.shipments[k]); }
      if !HasActive(items, v) { EmptiedGarmentFails(legs, v, k); }
    }
  }

  lemma LiveOfVendor(items: seq<Item>, v: Id, ship: Shipment)
    requires ship.transfer.None? && ship.vendor == v
    ensures Emptied(items, ship) <==> !HasActive(items, v)
  {
  }

  // ---------- The handlers ----------

  /** On the way, or with the customer. */
  predicate Gone(ship: Shipment) {
    ship.status == Shipped || ship.status == InTransit
  }

  /** The vendor's garment keeps it from rejecting an item: it was rejected, is on the way, or has arrived. */
  predicate GarmentKeeps(ships: seq<Shipment>, v: Id) {
    exists k :: 0 <= k < |ships| && ships[k].transfer.None? && ships[k].vendor == v
      && (ships[k].rejected || Gone(ships[k]) || ships[k].status == Delivered)
  }

  lemma TheGarment(ships: seq<Shipment>, v: Id, k: nat)
    requires OneGarment(ships) && k < |ships| && ships[k].transfer.None? && ships[k].vendor == v
    ensures Find(ships, GarmentOf(v)) == Some(k)
  {
    assert GarmentOf(v)(ships[k]);
    assert GarmentOf(v)(ships[Find(ships, GarmentOf(v)).value]);
  }

  lemma TheItem(items: seq<Item>, v: Id, i: nat)
    requires i < |items| && items[i].vendor == v
    requires forall j, k :: 0 <= j < k < |items| ==> items[j].id != items[k].id
    ensures Find(items, ItemOf(v, items[i].id)) == Some(i)
  {
    assert ItemOf(v, items[i].id)(items[i]);
    assert ItemOf(v, items[i].id)(items[Find(items, ItemOf(v, items[i].id)).value]);
  }

  /**
    Rejecting an item of `v` is refused if and only if it is rejected already or the vendor's garment keeps it;
    otherwise that item alone is rejected, and what is no longer needed fails.
   */
  lemma ItemRejectionFails(s: OrderState, v: Id, i: nat)
    requires i < |s.items| && s.items[i].vendor == v
    requires forall j, k :: 0 <= j < k < |s.items| ==> s.items[j].id != s.items[k].id
    requires OneLiveLeg(s.shipments) && OneGarment(s.shipments)
    ensures var s' := RejectOrderItem(s, v, s.items[i].id);
      if s.items[i].rejected || GarmentKeeps(s.shipments, v) then s' == s
      else s'.items == s.items[i := s.items[i].(rejected := true)]
           && FailsJust(s.shipments, s'.shipments, NoLongerNeeded(s.items, s'.items, v))
  {
    TheItem(s.items, v, i);
    RefusedIff(s, v, i);
    if !s.items[i].rejected && !GarmentKeeps(s.shipments, v) {
      RejectionFails(s, v, [i]);
      assert RejectOrderItem(s, v, s.items[i].id) == RejectItems(s, v, [i]);
    }
  }

  lemma RefusedIff(s: OrderState, v: Id, i: nat)
    requires i < |s.items| && Find(s.items, ItemOf(v, s.items[i].id)) == Some(i) && OneGarment(s.shipments)
    ensures ItemRefused(s, v, s.items[i].id) <==> s.items[i].rejected || GarmentKeeps(s.shipments, v)
  {
    if GarmentKeeps(s.shipments, v) {
      var k :| 0 <= k < |s.shipments| && s.shipments[k].transfer.None? && s.shipments[k].vendor == v
        && (s.shipments[k].rejected || Gone(s.shipments[k]) || s.shipments[k].status == Delivered);
      TheGarment(s.shipments, v, k);
    } else {
      NotKept(s.shipments, v);
    }
  }

  lemma NotKept(ships: seq<Shipment>, v: Id)
    requires !GarmentKeeps(ships, v)
    ensures var g := Find(ships, GarmentOf(v));
      g.Some? ==> !ships[g.value].rejected && !Gone(ships[g.value]) && ships[g.value].status != Delivered
  {
    var g := Find(ships, GarmentOf(v));
    if g.Some? { assert GarmentOf(v)(ships[g.value]); }
  }

  /**
    Declining a garment shipment is refused if and only if it is rejected already or on the way; otherwise all
    of the vendor's items are rejected, and what is no longer needed fails.
   */
  lemma ShipmentRejectionFails(s: OrderState, v: Id, k: nat)
    requires k < |s.shipments| && s.shipments[k].transfer.None? && Find(s.shipments, OwnedBy(v)) == Some(k)
    requires OneLiveLeg(s.shipments) && OneGarment(s.shipments)
    ensures var s' := RejectShipment(s, v);
      if s.shipments[k].rejected || Gone(s.shipments[k]) then s' == s
      else && |s'.items| == |s.items|
           && (forall i :: 0 <= i < |s.items| ==>
                 s'.items[i] == if s.items[i].vendor == v then s.items[i].(rejected := true) else s.items[i])
           && FailsJust(s.shipments, s'.shipments, NoLongerNeeded(s.items, s'.items, v))
  {
    if !s.shipments[k].rejected && !Gone(s.shipments[k]) {
      var idxs := ActiveItems(s.items, v);
      RejectionFails(s, v, idxs);
      assert RejectShipment(s, v) == RejectItems(s, v, idxs);
    }
  }

  /** Only items of `v` changed, and just what is no longer needed failed. */
  ghost predicate DecidedBy(s: OrderState, s': OrderState, v: Id) {
    && |s'.items| == |s.items|
    && (forall i :: 0 <= i < |s.items| && s.items[i].vendor != v ==> s'.items[i] == s.items[i])
    && FailsJust(s.shipments, s'.shipments, NoLongerNeeded(s.items, s'.items, v))
  }

  /** What a decision leaves of a shipment on the way. */
  ghost predicate CallsBackLegs(s: OrderState, s': OrderState, k: nat)
    requires k < |s.shipments|
  {
    && |s'.items| == |s.items| && |s'.shipments| == |s.shipments|
    && (s'.shipments[k].rejected <==> FedRejected(s.items, s'.items, s.shipments[k]))
    && (s.shipments[k].transfer.None? ==>
          forall i :: 0 <= i < |s.items| && s.items[i].vendor == s.shipments[k].vendor ==> s'.items[i] == s.items[i])
  }

  lemma NothingCalledBack(s: OrderState, k: nat)
    requires k < |s.shipments| && !s.shipments[k].rejected
    ensures CallsBackLegs(s, s, k)
  {
  }

  lemma DecisionCallsBack(s: OrderState, s': OrderState, v: Id, k: nat)
    requires DecidedBy(s, s', v) && k < |s.shipments| && !s.shipments[k].rejected
    requires s.shipments[k].transfer.None? ==> s.shipments[k].vendor != v
    ensures CallsBackLegs(s, s', k)
  {
  }

  lemma ItemCallsBack(s: OrderState, v: Id, i: nat, k: nat)
    requires i < |s.items| && s.items[i].vendor == v
    requires forall j, n :: 0 <= j < n < |s.items| ==> s.items[j].id != s.items[n].id
    requires OneLiveLeg(s.shipments) && OneGarment(s.shipments)
    requires k < |s.shipments| && !s.shipments[k].rejected && Gone(s.shipments[k])
    ensures CallsBackLegs(s, RejectOrderItem(s, v, s.items[i].id), k)
  {
    ItemRejectionFails(s, v, i);
    if s.items[i].rejected || GarmentKeeps(s.shipments, v) {
      NothingCalledBack(s, k);
    } else {
      DecisionCallsBack(s, RejectOrderItem(s, v, s.items[i].id), v, k);
    }
  }

  lemma ShipmentCallsBack(s: OrderState, v: Id, g: nat, k: nat)
    requires g < |s.shipments| && s.shipments[g].transfer.None? && Find(s.shipments, OwnedBy(v)) == Some(g)
    requires OneLiveLeg(s.shipments) && OneGarment(s.shipments)
    requires k < |s.shipments| && !s.shipments[k].rejected && Gone(s.shipments[k])
    ensures CallsBackLegs(s, RejectShipment(s, v), k)
  {
    ShipmentRejectionFails(s, v, g);
    assert OwnedBy(v)(s.shipments[g]);
    if s.shipments[g].rejected || Gone(s.shipments[g]) {
      NothingCalledBack(s, k);
    } else {
      DecisionCallsBack(s, RejectShipment(s, v), v, k);
    }
  }

  /**
    Of what is on the way, a vendor's decision on an item or a garment rejects just the legs of items it rejects;
    no garment on the way is rejected, nor any item in it.
   */
  lemma OnlyLegsAreCalledBack(s: OrderState, a: Action, k: nat)
    requires (a.RejectItemBy? || a.RejectShipmentBy?) && GarmentAction(s.shipments, a)
    requires forall j, n :: 0 <= j < n < |s.items| ==> s.items[j].id != s.items[n].id
    requires OneLiveLeg(s.shipments) && OneGarment(s.shipments)
    requires k < |s.shipments| && !s.shipments[k].rejected && Gone(s.shipments[k])
    ensures CallsBackLegs(s, Step(s, a), k)
  {
    match a
    case RejectItemBy(v, id) =>
      match Find(s.items, ItemOf(v, id)) {
        case None => NothingCalledBack(s, k);
        case Some(i) =>
          assert ItemOf(v, id)(s.items[i]);
          ItemCallsBack(s, v, i, k);
      }
    case RejectShipmentBy(v) =>
      match Find(s.shipments, OwnedBy(v)) {
        case None => NothingCalledBack(s, k);
        case Some(g) => ShipmentCallsBack(s, v, g, k);
      }
  }

  // ---------- Fabric legs, stale shipments and reports ----------

  /** Declining a live fabric leg fails it and the live garment of the tailor it goes to, and rejects no item. */
  lemma UnwindFails(s: OrderState, k: nat)
    requires k < |s.shipments| && s.shipments[k].transfer.Some? && !s.shipments[k].rejected && OneGarment(s.shipments)
    ensures var s' := Unwind(s, k); var tailor := s.shipments[k].transfer.value.destination;
      && s'.items == s.items && |s'.shipments| == |s.shipments|
      && forall j :: 0 <= j < |s.shipments| ==>
           var ship := s.shipments[j];
           s'.shipments[j] == if j == k || (ship.transfer.None? && ship.vendor == tailor && !ship.rejected)
             then ship.(rejected := true, status := Failed) else ship
  {
    var failed, tailor := s.shipments[k := Fail(s.shipments[k])], s.shipments[k].transfer.value.destination;
    assert OneGarment(failed);
    forall j | 0 <= j < |failed|
      ensures |FailFirst(failed, LiveGarmentOf(tailor))| == |failed|
      ensures FailFirst(failed, LiveGarmentOf(tailor))[j]
           == if !failed[j].rejected && failed[j].transfer.None? && failed[j].vendor == tailor then Fail(failed[j])
              else failed[j]
    {
      EmptiedGarmentFails(failed, tailor, j);
    }
  }

  /** A pass that meets no unclaimed leg fails just the garments that were neither confirmed nor rejected. */
  lemma PassFails(s: OrderState)
    requires s.status == InReview
    requires forall k :: 0 <= k < |s.shipments| && s.shipments[k].transfer.Some? ==>
      s.shipments[k].confirmed || s.shipments[k].rejected || s.shipments[k].refundClaimed
    ensures var s' := AutoReject(s);
      && s'.items == s.items && |s'.shipments| == |s.shipments|
      && forall k :: 0 <= k < |s.shipments| ==>
           var ship := s.shipments[k];
           s'.shipments[k] == if ship.transfer.None? && !ship.confirmed && !ship.rejected
             then ship.(rejected := true, status := Failed, refundClaimed := true) else ship
  {
    assert forall k :: 0 <= k < |s.shipments| ==> !OpenLeg()(s.shipments[k]);
    assert Find(s.shipments, OpenLeg()) == None;
    PassShape(s);
    StaleShips(s, |s.shipments|);
  }

  /**
    Rejecting a stale garment refunds the live items of its vendor and its fee, if anything, unless that was claimed
    before; it rejects nothing else.
   */
  lemma StaleRefund(s: OrderState, k: nat)
    requires k < |s.shipments|
    ensures var ship, s' := s.shipments[k], RejectStale(s, k);
      var due := Sum(s.items, LiveGoodsOf(ship.vendor)) + ship.fee;
      && s'.items == s.items
      && s'.shipments == s.shipments[k := ship.(rejected := true, status := Failed, refundClaimed := true)]
      && s'.refunds == (if ship.refundClaimed || due <= 0.0 then s.refunds else s.refunds + [due])
  {
  }

  /**
    A report of the courier on a shipment sets that shipment's status; the order is completed if everything is
    delivered then, travelling if something is on the way, and as it was otherwise.
   */
  lemma ReportMoves(s: OrderState, k: nat, status: ShipmentStatus)
    requires k < |s.shipments| && (status == InTransit || status == Delivered || status == Failed)
    ensures var s' := CourierUpdate(s, k, status);
      && s'.shipments == s.shipments[k := s.shipments[k].(status := status)] && s'.items == s.items
      && s'.status == (if status == Delivered && OthersDelivered(s.shipments, k) then Completed
                       else if SomeGone(s'.shipments) then Travelling else s.status)
  {
    var ships := s.shipments[k := s.shipments[k].(status := status)];
    if AllDelivered(ships) {
      assert ships[k].status == Delivered;
      forall j | 0 <= j < |ships| && j != k ensures s.shipments[j].status == Delivered {
        assert ships[j].status == Delivered;
      }
    }
    if SomeGone(ships) {
      var j :| 0 <= j < |ships| && Gone(ships[j]);
      assert Dispatched(ships[j]);
    }
    if SomeDispatched(ships) {
      var j :| 0 <= j < |ships| && Dispatched(ships[j]);
      assert Gone(ships[j]);
    }
  }

  predicate OthersDelivered(ships: seq<Shipment>, k: nat) {
    forall j :: 0 <= j < |ships| && j != k ==> ships[j].status == Delivered
  }

  predicate SomeGone(ships: seq<Shipment>) {
    exists k :: 0 <= k < |ships| && Gone(ships[k])
  }
}
