/** The order handlers: they update an order's items, shipments and totals in place, and its ledger. */
module OrderService {
  import opened Prelude
  import opened OrderTypes
  import opened Settlement
  import opened SettlementLaws
  import L = EarningsLedger
  import LedgerLaws
  import opened LedgerService

  datatype Reply = Done(refund: real, cancelled: bool) | Refused

  /** Settling what a rejection marked is the rejection. */
  lemma SettlesAsRejection(s: OrderState, marked: OrderState, v: Id, idxs: seq<nat>, goods: real, fees: real,
                           refund: real)
    requires forall i :: 0 <= i < |idxs| ==> idxs[i] < |s.items|
    requires marked == s.(items := MarkRejected(s.items, idxs), shipments := ShipmentsAfter(s, v, idxs))
    requires goods == Sum(s.items, LiveGoods) - Sum(marked.items, LiveGoods)
    requires fees == Sum(s.shipments, LiveFee) - Sum(marked.shipments, LiveFee)
    requires refund == Charge(s.items, s.shipments) - Charge(marked.items, marked.shipments)
    ensures Settlement.Settle(marked, marked.items, marked.shipments, goods, fees, refund)
      == Settlement.RejectItems(s, v, idxs)
  {
  }

  class Order {
    const id: Id
    const ledger: Ledger
    var items: seq<Item>
    var shipments: seq<Shipment>
    var subtotal: real
    var shippingFee: real
    var total: real
    var status: OrderStatus
    var refunds: seq<real>

    function State(): OrderState
      reads this
    {
      OrderState(items, shipments, subtotal, shippingFee, total, status, refunds)
    }

    /** Places an order: the totals are the sums of its items and shipment fees. */
    constructor (id: Id, ledger: Ledger, items: seq<Item>, shipments: seq<Shipment>)
      requires NonNegative(items, shipments)
      requires forall i :: 0 <= i < |items| ==> !items[i].rejected
      requires forall k :: 0 <= k < |shipments| ==> !shipments[k].rejected
      ensures this.id == id && this.ledger == ledger && Settled(State()) && status == Unpaid
      ensures State().items == items && State().shipments == shipments && refunds == []
      ensures total == FullCharge(items, shipments)
    {
      this.id, this.ledger, this.items, this.shipments := id, ledger, items, shipments;
      status, refunds := Unpaid, [];
      subtotal := Sum(items, Goods) + Sum(items, Fabric);
      shippingFee := Sum(shipments, Fee);
      total := Sum(items, Goods) + Sum(items, Fabric) + Sum(shipments, Fee);
      new;
      SumAgree(items, LiveGoods, Goods);
      SumAgree(items, LiveFabric, Fabric);
      SumAgree(shipments, LiveFee, Fee);
    }

    // Refunds the customer; nothing is issued for a non-positive amount.
    method IssueRefund(amount: real)
      modifies this`refunds
      ensures refunds == Refunded(old(refunds), amount)
    {
      if amount <= 0.0 { return; }
      refunds := refunds + [amount];
    }

    // Lowers the totals by the goods, fees and refund of what was rejected, never below zero.
    method LowerTotals(goods: real, fees: real, refund: real)
      modifies this`subtotal, this`shippingFee, this`total
      ensures subtotal == Max0(old(subtotal) - goods)
      ensures shippingFee == Max0(old(shippingFee) - fees)
      ensures total == Max0(old(total) - refund)
    {
      subtotal := Max0(subtotal - goods);
      shippingFee := Max0(shippingFee - fees);
      total := Max0(total - refund);
    }

    // Cancels the order if no shipment is left, or moves it on if the rest are all confirmed.
    method DeriveStatus() returns (cancelled: bool)
      modifies this`status
      ensures status == NextStatus(old(status), shipments)
      ensures cancelled == (|shipments| > 0 && AllRejected(shipments))
    {
      cancelled := |shipments| > 0 && forall k :: 0 <= k < |shipments| ==> shipments[k].rejected;
      if cancelled {
        status := Cancelled;
      } else if |shipments| > 0 && forall k :: 0 <= k < |shipments| ==>
          shipments[k].rejected || shipments[k].confirmed {
        status := Processing;
      }
    }

    // Lowers the totals, derives the status and refunds the customer for what was rejected.
    method Settle(goods: real, fees: real, refund: real) returns (cancelled: bool)
      modifies this`subtotal, this`shippingFee, this`total, this`status, this`refunds
      ensures State() == Settlement.Settle(old(State()), items, shipments, goods, fees, refund)
      ensures cancelled == (|shipments| > 0 && AllRejected(shipments))
    {
      LowerTotals(goods, fees, refund);
      cancelled := DeriveStatus();
      IssueRefund(refund);
    }

    method ReverseVendors(u: Id, v: Id)
      requires L.Valid(ledger.State())
      modifies ledger
      ensures ledger.State() == ReversedVendors(old(ledger.State()), id, [u, v])
      ensures L.Valid(ledger.State())
    {
      TwoReversals(ledger.State(), id, u, v);
      ledger.Reverse(L.Scope(id, Some(u), None));
      ledger.Reverse(L.Scope(id, Some(v), None));
    }

    // Fails the first shipment that `p` selects, if any, and returns its fee.
    method FailOne(p: Shipment -> bool) returns (fee: real)
      modifies this`shipments
      ensures shipments == FailFirst(old(shipments), p)
      ensures fee == var k := Find(old(shipments), p); if k.None? then 0.0 else old(shipments)[k.value].fee
    {
      fee := 0.0;
      var k := Find(shipments, p);
      if k.Some? {
        fee := shipments[k.value].fee;
        shipments := shipments[k.value := Fail(shipments[k.value])];
      }
    }

    // Marks one item rejected and fails the fabric leg that fed it, adding to what was rejected.
    method MarkOne(ghost s: OrderState, v: Id, idxs: seq<nat>, n: nat, goods: real, refund: real, legFees: real)
      returns (goods': real, refund': real, legFees': real)
      requires n < |idxs| && MarkedUpTo(s, v, idxs, n, items, shipments, goods, refund, legFees)
      modifies this`items, this`shipments
      ensures MarkedUpTo(s, v, idxs, n + 1, items, shipments, goods', refund', legFees')
    {
      MarkNext(s, v, idxs, n, items, shipments, goods, refund, legFees);
      var it := items[idxs[n]];
      items := items[idxs[n] := it.(rejected := true)];
      goods' := goods + it.totalPrice;
      refund' := refund + (it.totalPrice + it.externalFabric);
      legFees' := legFees;
      if it.appliedFabric.Some? {
        var fee := FailOne(LiveLegFor(v, it.appliedFabric.value));
        legFees' := legFees + fee;
      }
    }

    // Marks the items rejected and fails the fabric legs that fed them, adding up what they cost.
    method MarkItems(v: Id, idxs: seq<nat>) returns (goods: real, refund: real, legFees: real)
      requires Rejectable(items, v, idxs)
      modifies this`items, this`shipments
      ensures MarkedUpTo(old(State()), v, idxs, |idxs|, items, shipments, goods, refund, legFees)
    {
      ghost var s := State();
      goods, refund, legFees := 0.0, 0.0, 0.0;
      MarkStarts(s, v, idxs);
      for n := 0 to |idxs|
        invariant MarkedUpTo(s, v, idxs, n, items, shipments, goods, refund, legFees)
      {
        goods, refund, legFees := MarkOne(s, v, idxs, n, goods, refund, legFees);
      }
    }

    // The vendor's garment shipment fails once the vendor has no active item left.
    method FailEmptiedGarment(v: Id) returns (fee: real)
      modifies this`shipments
      ensures shipments == if HasActive(items, v) then old(shipments) else FailFirst(old(shipments), LiveGarmentOf(v))
      ensures fee == Sum(old(shipments), LiveFee) - Sum(shipments, LiveFee)
    {
      fee := 0.0;
      if !exists i :: 0 <= i < |items| && items[i].vendor == v && !items[i].rejected {
        FailFirstFees(shipments, LiveGarmentOf(v));
        fee := FailOne(LiveGarmentOf(v));
      }
    }

    /**
      Rejects the items at `idxs` of vendor `v`: fails what they no longer need, lowers the totals,
      refunds the customer and reverses each item's earnings.
     */
    method RejectItems(v: Id, idxs: seq<nat>) returns (refund: real, cancelled: bool)
      requires Rejectable(items, v, idxs) && L.Valid(ledger.State())
      modifies this, ledger
      ensures State() == Settlement.RejectItems(old(State()), v, idxs)
      ensures ledger.State() == LedgerLaws.ReversedEach(old(ledger.State()), id, ItemIds(old(items), idxs))
      ensures L.Valid(ledger.State())
      ensures refund == Charge(old(items), old(shipments)) - Charge(items, shipments)
      ensures cancelled == (|shipments| > 0 && AllRejected(shipments))
    {
      var ids := ItemIds(items, idxs);
      refund, cancelled := RejectInOrder(v, idxs);
      ReverseEach(ids);
    }

    // The order's side of a rejection, before any earnings are reversed.
    method RejectInOrder(v: Id, idxs: seq<nat>) returns (refund: real, cancelled: bool)
      requires Rejectable(items, v, idxs)
      modifies this
      ensures State() == Settlement.RejectItems(old(State()), v, idxs)
      ensures refund == Charge(old(items), old(shipments)) - Charge(items, shipments)
      ensures cancelled == (|shipments| > 0 && AllRejected(shipments))
    {
      ghost var s := State();
      var goods, fees;
      goods, fees, refund := MarkAndFail(v, idxs);
      SettlesAsRejection(s, State(), v, idxs, goods, fees, refund);
      cancelled := Settle(goods, fees, refund);
    }

    // Marks the items and fails every shipment they leave without a purpose.
    method MarkAndFail(v: Id, idxs: seq<nat>) returns (goods: real, fees: real, refund: real)
      requires Rejectable(items, v, idxs)
      modifies this`items, this`shipments
      ensures items == MarkRejected(old(items), idxs) && shipments == ShipmentsAfter(old(State()), v, idxs)
      ensures goods == Sum(old(items), LiveGoods) - Sum(items, LiveGoods)
      ensures fees == Sum(old(shipments), LiveFee) - Sum(shipments, LiveFee)
      ensures refund == Charge(old(items), old(shipments)) - Charge(items, shipments)
    {
      ghost var s := State();
      var itemsRefund, legFees;
      goods, itemsRefund, legFees := MarkItems(v, idxs);
      ghost var legs := shipments;
      var garmentFee := FailEmptiedGarment(v);
      Rejected(s, v, idxs, items, legs, goods, itemsRefund, legFees, shipments, garmentFee);
      fees := legFees + garmentFee;
      refund := itemsRefund + legFees + garmentFee;
    }

    method ReverseEach(ids: seq<Id>)
      requires L.Valid(ledger.State())
      modifies ledger
      ensures ledger.State() == LedgerLaws.ReversedEach(old(ledger.State()), id, ids)
      ensures L.Valid(ledger.State())
    {
      ghost var l := ledger.State();
      for n := 0 to |ids|
        invariant L.Valid(ledger.State()) && ledger.State() == LedgerLaws.ReversedEach(l, id, ids[..n])
      {
        assert ids[..n + 1][..n] == ids[..n];
        ledger.Reverse(L.Scope(id, None, Some(ids[n])));
      }
      assert ids[..|ids|] == ids;
    }

    /** A vendor declines a single item. */
    method RejectOrderItem(v: Id, itemId: Id) returns (reply: Reply)
      requires L.Valid(ledger.State())
      modifies this, ledger
      ensures State() == Settlement.RejectOrderItem(old(State()), v, itemId)
      ensures L.Valid(ledger.State())
      ensures reply.Refused? <==> ItemRefused(old(State()), v, itemId)
      ensures reply.Refused? ==> ledger.State() == old(ledger.State())
      ensures reply.Done? ==>
        && reply.refund == Charge(old(items), old(shipments)) - Charge(items, shipments)
        && ledger.State() == L.Reversed(old(ledger.State()), {LedgerLaws.ItemScope(id, itemId)})
    {
      var i := Find(items, ItemOf(v, itemId));
      if i.None? || items[i.value].rejected { return Refused; }
      var g := Find(shipments, GarmentOf(v));
      if g.Some? {
        var s := shipments[g.value];
        if s.rejected || s.status == Shipped || s.status == InTransit || s.status == Delivered { return Refused; }
      }
      assert ItemIds(items, [i.value]) == [itemId];
      LedgerLaws.OneReversal(ledger.State(), id, itemId);
      var refund, cancelled := RejectItems(v, [i.value]);
      return Done(refund, cancelled);
    }

    // Fails a declined fabric leg and the tailor's garment, and refunds the tailor's items.
    method UnwindFabricTransfer(k: nat) returns (refund: real, cancelled: bool)
      requires k < |shipments| && shipments[k].transfer.Some? && L.Valid(ledger.State())
      modifies this, ledger
      ensures State() == Settlement.Unwind(old(State()), k)
      ensures ledger.State() == ReversedVendors(old(ledger.State()), id, UnwindVendors(old(shipments)[k]))
      ensures L.Valid(ledger.State())
    {
      var fabricVendor, tailor := shipments[k].vendor, shipments[k].transfer.value.destination;
      var legFee := shipments[k].fee;
      shipments := shipments[k := Fail(shipments[k])];
      var garmentFee := FailOne(LiveGarmentOf(tailor));
      var goods := Sum(items, GoodsOf(tailor));
      refund := goods + Sum(items, FabricOf(tailor)) + (legFee + garmentFee);
      cancelled := Settle(goods, legFee + garmentFee, refund);
      ReverseVendors(fabricVendor, tailor);
    }

    /** A vendor declines its whole shipment; declining a fabric leg unwinds the transfer. */
    method RejectVendorShipment(v: Id) returns (reply: Reply)
      requires L.Valid(ledger.State())
      modifies this, ledger
      ensures State() == RejectShipment(old(State()), v)
      ensures L.Valid(ledger.State())
      ensures reply.Refused? <==> ShipmentRefused(old(State()), v)
      ensures reply.Refused? ==> ledger.State() == old(ledger.State())
      ensures var k := Find(old(shipments), OwnedBy(v));
        reply.Done? ==> (ledger.State() ==
          if old(shipments)[k.value].transfer.Some?
          then ReversedVendors(old(ledger.State()), id, UnwindVendors(old(shipments)[k.value]))
          else LedgerLaws.ReversedEach(old(ledger.State()), id, ItemIds(old(items), ActiveItems(old(items), v))))
    {
      var k := Find(shipments, OwnedBy(v));
      if k.None? || shipments[k.value].rejected || shipments[k.value].status == Shipped
         || shipments[k.value].status == InTransit { return Refused; }
      var refund, cancelled;
      if shipments[k.value].transfer.Some? {
        refund, cancelled := UnwindFabricTransfer(k.value);
      } else {
        // The shipment is always failed by now: the fallback that fails it once more has nothing to do.
        ShipmentIsFailed(State(), v, k.value);
        refund, cancelled := RejectItems(v, ActiveItems(items, v));
        assert shipments[k.value].rejected;
      }
      return Done(refund, cancelled);
    }

    /** A vendor confirms its shipment; its upfront earnings are dated for release. */
    method ConfirmVendorShipment(v: Id, releaseDate: int) returns (confirmed: bool)
      requires L.Valid(ledger.State())
      modifies this`shipments, this`status, ledger
      ensures State() == Confirm(old(State()), v)
      ensures confirmed ==> ledger.State() == L.Scheduled(old(ledger.State()), id, v, releaseDate)
      ensures !confirmed ==> State() == old(State()) && ledger.State() == old(ledger.State())
      ensures L.Valid(ledger.State())
    {
      var k := Find(shipments, OwnedBy(v));
      if k.None? || shipments[k.value].confirmed || shipments[k.value].rejected { return false; }
      shipments := shipments[k.value := shipments[k.value].(confirmed := true)];
      if forall j :: 0 <= j < |shipments| ==> shipments[j].rejected || shipments[j].confirmed {
        status := Processing;
      }
      ledger.ScheduleUpfront(id, v, releaseDate);
      return true;
    }

    /** The courier reports on a shipment: the order follows, and its earnings are dated once all is delivered. */
    method UpdateFromCourier(k: nat, reported: ShipmentStatus, releaseDate: int)
      requires L.Valid(ledger.State())
      modifies this`shipments, this`status, ledger
      ensures State() == CourierUpdate(old(State()), k, reported)
      ensures ledger.State() == if k < |shipments| && Reported(reported) && AllDelivered(shipments)
        then L.Delivered(old(ledger.State()), id, releaseDate) else old(ledger.State())
      ensures L.Valid(ledger.State())
    {
      if k >= |shipments| { return; }
      if reported != InTransit && reported != Delivered && reported != Failed { return; }
      shipments := shipments[k := shipments[k].(status := reported)];
      if forall j :: 0 <= j < |shipments| ==> shipments[j].status == Delivered {
        status := Completed;
        ledger.ScheduleOnDelivery(id, releaseDate);
      } else if exists j :: 0 <= j < |shipments| && Dispatched(shipments[j]) {
        status := Travelling;
      }
    }

    // The stale garment shipment `k`: its refund is claimed on the shipment, then issued.
    method RejectStaleGarment(k: nat)
      requires k < |shipments| && L.Valid(ledger.State())
      modifies this, ledger
      ensures State() == RejectStale(old(State()), k)
      ensures var ship := old(shipments)[k];
        ledger.State() == ReversedVendors(old(ledger.State()), id, if ship.refundClaimed then [] else [ship.vendor])
      ensures L.Valid(ledger.State())
    {
      var ship := shipments[k];
      shipments := shipments[k := Fail(ship)];
      var goods := Sum(items, LiveGoodsOf(ship.vendor));
      var refund := goods + ship.fee;
      LowerTotals(goods, ship.fee, refund);
      if !ship.refundClaimed {
        shipments := shipments[k := shipments[k].(refundClaimed := true)];
        IssueRefund(refund);
        ledger.Reverse(L.Scope(id, Some(ship.vendor), None));
      }
    }

    // One shipment of the auto-reject pass; `stop` once a fabric transfer has been unwound.
    method AutoRejectOne(k: nat, changed: bool) returns (changed': bool, stop: bool)
      requires k < |shipments| && L.Valid(ledger.State())
      modifies this, ledger
      ensures |shipments| == |old(shipments)| && L.Valid(ledger.State())
      ensures AutoRejectFrom(old(State()), k, changed)
           == if stop then State() else AutoRejectFrom(State(), k + 1, changed')
      ensures ReversedVendors(old(ledger.State()), id, AutoReversals(old(State()), k))
           == ReversedVendors(ledger.State(), id, if stop then [] else AutoReversals(State(), k + 1))
    {
      var ship := shipments[k];
      changed', stop := changed, false;
      if ship.confirmed || ship.rejected { return; }
      if ship.transfer.Some? {
        if ship.refundClaimed { return; }
        shipments := shipments[k := ship.(refundClaimed := true)];
        var refund, cancelled := UnwindFabricTransfer(k);
        return changed, true;
      }
      ghost var rest := AutoReversals(RejectStale(State(), k), k + 1);
      ReverseFirst(ledger.State(), id, ship.vendor, rest);
      ReverseFirst(ledger.State(), id, ship.vendor, []);
      assert [ship.vendor] + [] == [ship.vendor] && [] + rest == rest;
      RejectStaleGarment(k);
      changed' := true;
    }

    /** The cron pass that rejects every unconfirmed shipment of an order still in review. */
    method AutoRejectStaleShipments()
      requires L.Valid(ledger.State())
      modifies this, ledger
      ensures State() == AutoReject(old(State()))
      ensures L.Valid(ledger.State())
      ensures ledger.State() == ReversedVendors(old(ledger.State()), id,
        if old(status) == InReview then AutoReversals(old(State()), 0) else [])
    {
      if status != InReview { return; }
      var k, changed := 0, false;
      while k < |shipments|
        invariant k <= |shipments| && L.Valid(ledger.State())
        invariant AutoRejectFrom(State(), k, changed) == AutoRejectFrom(old(State()), 0, false)
        invariant ReversedVendors(ledger.State(), id, AutoReversals(State(), k))
               == ReversedVendors(old(ledger.State()), id, AutoReversals(old(State()), 0))
        decreases |shipments| - k
      {
        var stop;
        changed, stop := AutoRejectOne(k, changed);
        if stop { return; }
        k := k + 1;
      }
      if changed {
        var cancelled := DeriveStatus();
      }
    }
  }

  /** Reversing an order's earnings for one vendor after another. */
  function ReversedVendors(l: L.LedgerState, o: Id, vs: seq<Id>): L.LedgerState
    decreases vs
  {
    if vs == [] then l else ReversedVendors(L.Reversed(l, {L.Scope(o, Some(vs[0]), None)}), o, vs[1..])
  }

  function UnwindVendors(leg: Shipment): seq<Id>
    requires leg.transfer.Some?
  {
    [leg.vendor, leg.transfer.value.destination]
  }

  /** The vendors whose earnings an auto-reject pass reverses, in order. */
  function AutoReversals(s: OrderState, k: nat): seq<Id>
    requires k <= |s.shipments|
    decreases |s.shipments| - k
  {
    if k == |s.shipments| then []
    else
      var ship := s.shipments[k];
      if ship.confirmed || ship.rejected then AutoReversals(s, k + 1)
      else if ship.transfer.Some? then if ship.refundClaimed then AutoReversals(s, k + 1) else UnwindVendors(ship)
      else (if ship.refundClaimed then [] else [ship.vendor]) + AutoReversals(RejectStale(s, k), k + 1)
  }

  lemma TwoReversals(l: L.LedgerState, o: Id, u: Id, v: Id)
    ensures ReversedVendors(l, o, [u, v])
         == L.Reversed(L.Reversed(l, {L.Scope(o, Some(u), None)}), {L.Scope(o, Some(v), None)})
  {
    ReverseFirst(l, o, u, [v]);
    ReverseFirst(L.Reversed(l, {L.Scope(o, Some(u), None)}), o, v, []);
    assert [u] + [v] == [u, v] && [v] + [] == [v];
  }

  lemma ReverseFirst(l: L.LedgerState, o: Id, v: Id, vs: seq<Id>)
    ensures ReversedVendors(l, o, [v] + vs) == ReversedVendors(L.Reversed(l, {L.Scope(o, Some(v), None)}), o, vs)
  {
    assert ([v] + vs)[1..] == vs;
  }

  // ---------- The marking loop ----------

  ghost predicate MarkedUpTo(s: OrderState, v: Id, idxs: seq<nat>, n: nat,
                             items: seq<Item>, ships: seq<Shipment>, goods: real, refund: real, legFees: real) {
    && n <= |idxs| && Rejectable(s.items, v, idxs)
    && items == MarkRejected(s.items, idxs[..n])
    && ships == FailLegs(s.shipments, s.items, v, idxs[..n])
    && goods == Sum(s.items, LiveGoods) - Sum(items, LiveGoods)
    && refund == goods + Sum(s.items, LiveFabric) - Sum(items, LiveFabric)
    && legFees == Sum(s.shipments, LiveFee) - Sum(ships, LiveFee)
  }

  lemma MarkStarts(s: OrderState, v: Id, idxs: seq<nat>)
    requires Rejectable(s.items, v, idxs)
    ensures MarkedUpTo(s, v, idxs, 0, s.items, s.shipments, 0.0, 0.0, 0.0)
  {
    assert MarkRejected(s.items, []) == s.items;
  }

  lemma MarkNext(s: OrderState, v: Id, idxs: seq<nat>, n: nat,
                 items: seq<Item>, ships: seq<Shipment>, goods: real, refund: real, legFees: real)
    requires MarkedUpTo(s, v, idxs, n, items, ships, goods, refund, legFees) && n < |idxs|
    ensures idxs[n] < |items|
    ensures var it := items[idxs[n]];
      var leg := if it.appliedFabric.None? then None else Find(ships, LiveLegFor(v, it.appliedFabric.value));
      MarkedUpTo(s, v, idxs, n + 1, items[idxs[n] := it.(rejected := true)],
        if it.appliedFabric.None? then ships else FailFirst(ships, LiveLegFor(v, it.appliedFabric.value)),
        goods + it.totalPrice, refund + (it.totalPrice + it.externalFabric),
        legFees + if leg.None? then 0.0 else ships[leg.value].fee)
  {
    assert idxs[..n + 1][..n] == idxs[..n] && idxs[n] !in idxs[..n];
    assert items[idxs[n]] == s.items[idxs[n]];
    MarkSums(s.items, idxs[..n + 1], v);
    if items[idxs[n]].appliedFabric.Some? {
      FailFirstFees(ships, LiveLegFor(v, items[idxs[n]].appliedFabric.value));
    }
  }

  // What the loop and the emptied garment add up to is the rejection of the items.
  lemma Rejected(s: OrderState, v: Id, idxs: seq<nat>, items: seq<Item>, legs: seq<Shipment>,
                 goods: real, itemsRefund: real, legFees: real, ships: seq<Shipment>, garmentFee: real)
    requires MarkedUpTo(s, v, idxs, |idxs|, items, legs, goods, itemsRefund, legFees)
    requires ships == if HasActive(items, v) then legs else FailFirst(legs, LiveGarmentOf(v))
    requires garmentFee == Sum(legs, LiveFee) - Sum(ships, LiveFee)
    ensures items == MarkRejected(s.items, idxs) && ships == ShipmentsAfter(s, v, idxs)
    ensures goods == Sum(s.items, LiveGoods) - Sum(items, LiveGoods)
    ensures legFees + garmentFee == Sum(s.shipments, LiveFee) - Sum(ships, LiveFee)
    ensures itemsRefund + legFees + garmentFee == Charge(s.items, s.shipments) - Charge(items, ships)
  {
    MarkEnds(s, v, idxs, items, legs, goods, itemsRefund, legFees);
  }

  lemma MarkEnds(s: OrderState, v: Id, idxs: seq<nat>, items: seq<Item>, legs: seq<Shipment>,
                 goods: real, itemsRefund: real, legFees: real)
    requires MarkedUpTo(s, v, idxs, |idxs|, items, legs, goods, itemsRefund, legFees)
    ensures items == MarkRejected(s.items, idxs) && legs == FailLegs(s.shipments, s.items, v, idxs)
  {
    assert idxs[..|idxs|] == idxs;
  }

  /** Rejecting all of a vendor's active items always fails the vendor's shipment. */
  lemma ShipmentIsFailed(s: OrderState, v: Id, k: nat)
    requires k < |s.shipments| && Find(s.shipments, OwnedBy(v)) == Some(k)
    requires s.shipments[k].transfer.None? && !s.shipments[k].rejected
    ensures var ships := ShipmentsAfter(s, v, ActiveItems(s.items, v));
      |ships| == |s.shipments| && ships[k].rejected
  {
    var idxs := ActiveItems(s.items, v);
    MarkActive(s.items, v);
    FailLegsProgress(s.shipments, s.items, v, idxs);
    FirstOwnedFails(s.shipments, FailLegs(s.shipments, s.items, v, idxs), v, k);
  }

  lemma FirstOwnedFails(ships: seq<Shipment>, legs: seq<Shipment>, v: Id, k: nat)
    requires k < |ships| && Find(ships, OwnedBy(v)) == Some(k) && ships[k].transfer.None? && !ships[k].rejected
    requires Progress(ships, legs)
    requires forall j :: 0 <= j < |ships| && ships[j].transfer.None? ==> legs[j] == ships[j]
    ensures |FailFirst(legs, LiveGarmentOf(v))| == |ships| && FailFirst(legs, LiveGarmentOf(v))[k].rejected
  {
    assert OwnedBy(v)(ships[k]) && forall j :: 0 <= j < k ==> !OwnedBy(v)(ships[j]);
    assert LiveGarmentOf(v)(legs[k]);
    var g := Find(legs, LiveGarmentOf(v));
    assert g.Some? && g.value == k;
  }
}
