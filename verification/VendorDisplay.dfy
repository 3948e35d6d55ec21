/** The money breakdown shown to a vendor, and how it agrees with the vendor's earnings. */
module VendorDisplay {
  import opened Prelude
  import opened OrderTypes
  import opened Settlement
  import SettlementLaws
  import opened L = EarningsLedger
  import opened LedgerLaws

  // ---------- The displayed breakdown ----------

  function ShownGoods(v: Id): Item -> real {
    (it: Item) => if it.vendor == v && !it.rejected then it.totalPrice else 0.0
  }

  function ShownNet(st: Settings, v: Id): Item -> real {
    (it: Item) => if it.vendor == v && !it.rejected then it.totalPrice - Commission(st, it.totalPrice) else 0.0
  }

  /** The vendor's subtotal, commission and net over its items that are still on the order. */
  method ComputeVendorBreakdown(items: seq<Item>, v: Id, st: Settings)
    returns (subtotal: real, commission: real, net: real)
    ensures subtotal == Sum(items, ShownGoods(v))
    ensures net == Sum(items, ShownNet(st, v))
    ensures commission == subtotal - net
  {
    subtotal, commission := 0.0, 0.0;
    for i := 0 to |items|
      invariant subtotal == Sum(items[..i], ShownGoods(v))
      invariant subtotal - commission == Sum(items[..i], ShownNet(st, v))
    {
      assert items[..i + 1][..i] == items[..i];
      if items[i].vendor == v && !items[i].rejected {
        var gross := items[i].totalPrice;
        subtotal := subtotal + gross;
        commission := commission + Commission(st, gross);
      }
    }
    assert items[..|items|] == items;
    net := subtotal - commission;
  }

  /** Rejecting an item of a vendor takes its price off what the vendor is shown, and its net off the net. */
  lemma RejectionLowersShown(items: seq<Item>, i: nat, v: Id, st: Settings)
    requires i < |items| && !items[i].rejected
    ensures var items', it := items[i := items[i].(rejected := true)], items[i];
      && Sum(items', ShownGoods(v)) == Sum(items, ShownGoods(v)) - (if it.vendor == v then it.totalPrice else 0.0)
      && Sum(items', ShownNet(st, v))
         == Sum(items, ShownNet(st, v))
            - (if it.vendor == v then it.totalPrice - Commission(st, it.totalPrice) else 0.0)
  {
    var it' := items[i].(rejected := true);
    SumUpdate(items, i, it', ShownGoods(v));
    SumUpdate(items, i, it', ShownNet(st, v));
  }

  // ---------- What the ledger still holds for an item ----------

  function LinkedNet(o: Id, item: Id, v: Id): Earning -> real {
    (e: Earning) => if e.order == o && e.item == Some(item) && e.vendor == v then e.net else 0.0
  }

  /** What vendor `v` still has on its earnings for one item of the order. */
  function ItemNet(l: LedgerState, o: Id, item: Id, v: Id): real {
    Sum(l.earnings, LinkedNet(o, item, v))
  }

  function GoodsNet(st: Settings, it: Item, v: Id): real {
    if it.vendor == v then it.totalPrice - Commission(st, it.totalPrice) else 0.0
  }

  function FabricNet(st: Settings, fv: FabricVendors, it: Item, v: Id): real {
    if PaysFabricVendor(fv, it) && fv[it.appliedFabric.value] == v
    then it.externalFabric - Commission(st, it.externalFabric) else 0.0
  }

  /** What an item is worth to vendor `v`, as its seller and as the vendor of its fabric. */
  function Worth(st: Settings, fv: FabricVendors, it: Item, v: Id): real {
    GoodsNet(st, it, v) + FabricNet(st, fv, it, v)
  }

  function Expected(st: Settings, fv: FabricVendors, it: Item, v: Id): real {
    if it.rejected then 0.0 else Worth(st, fv, it, v)
  }

  predicate ItemAgrees(l: LedgerState, o: Id, st: Settings, fv: FabricVendors, it: Item, v: Id) {
    ItemNet(l, o, it.id, v) == Expected(st, fv, it, v)
  }

  /** Item by item and vendor by vendor, the ledger holds what the live items are worth. */
  ghost predicate Agrees(l: LedgerState, o: Id, st: Settings, fv: FabricVendors, items: seq<Item>) {
    forall i, v :: 0 <= i < |items| ==> ItemAgrees(l, o, st, fv, items[i], v)
  }

  lemma ItemEarningsNet(o: Id, bespoke: bool, st: Settings, fv: FabricVendors, it: Item, item: Id, v: Id)
    requires ValidSettings(st) && ValidItem(it)
    ensures Sum(ItemEarnings(o, bespoke, st, fv, it), LinkedNet(o, item, v))
         == if it.id == item then Worth(st, fv, it, v) else 0.0
  {
    var goods, fabric := GoodsEarnings(o, bespoke, st, it), FabricEarnings(o, st, fv, it);
    GoodsEarningsSplit(o, bespoke, st, it);
    FabricEarningsSplit(o, st, fv, it);
    SumConcat(goods, fabric, LinkedNet(o, item, v));
    if it.id == item && it.vendor == v {
      SumAgree(goods, LinkedNet(o, item, v), Net);
    } else {
      SumZero(goods, LinkedNet(o, item, v));
    }
    if fabric != [] {
      SumOne(fabric[0], LinkedNet(o, item, v));
    }
  }

  lemma LastItemNet(o: Id, bespoke: bool, st: Settings, fv: FabricVendors, items: seq<Item>, item: Id, v: Id)
    requires items != [] && ValidSettings(st) && ValidItem(items[|items| - 1])
    ensures var n := |items| - 1;
      Sum(OrderEarnings(o, bespoke, st, fv, items), LinkedNet(o, item, v))
      == Sum(OrderEarnings(o, bespoke, st, fv, items[..n]), LinkedNet(o, item, v))
       + if items[n].id == item then Worth(st, fv, items[n], v) else 0.0
  {
    var n := |items| - 1;
    SumConcat(OrderEarnings(o, bespoke, st, fv, items[..n]), ItemEarnings(o, bespoke, st, fv, items[n]),
              LinkedNet(o, item, v));
    ItemEarningsNet(o, bespoke, st, fv, items[n], item, v);
  }

  // A running total that one step alone adds to.
  lemma {:induction false} OnlyStep(total: nat -> real, n: nat, k: nat, w: real)
    requires total(0) == 0.0 && forall i :: 0 <= i < n ==> total(i + 1) == total(i) + if i == k then w else 0.0
    ensures total(n) == if k < n then w else 0.0
  {
    if n > 0 { OnlyStep(total, n - 1, k, w); }
  }

  /** What the earnings of the first `n` items hold for one item. */
  function NetUpTo(o: Id, bespoke: bool, st: Settings, fv: FabricVendors, items: seq<Item>, item: Id,
                   v: Id): nat -> real {
    (n: nat) => if n <= |items| then Sum(OrderEarnings(o, bespoke, st, fv, items[..n]), LinkedNet(o, item, v)) else 0.0
  }

  lemma OneWithId(items: seq<Item>, k: nat, i: nat)
    requires k < |items| && i < |items| && ValidItems(items)
    ensures items[i].id == items[k].id <==> i == k
    ensures ValidItem(items[i])
  {
  }

  lemma NetStep(o: Id, bespoke: bool, st: Settings, fv: FabricVendors, items: seq<Item>, k: nat, v: Id, i: nat)
    requires ValidSettings(st) && k < |items| && i < |items| && ValidItems(items)
    ensures var total := NetUpTo(o, bespoke, st, fv, items, items[k].id, v);
      total(i + 1) == total(i) + if i == k then Worth(st, fv, items[k], v) else 0.0
  {
    var first := items[..i + 1];
    assert first[..i] == items[..i] && first[i] == items[i];
    OneWithId(items, k, i);
    LastItemNet(o, bespoke, st, fv, first, items[k].id, v);
  }

  lemma OrderEarningsNet(o: Id, bespoke: bool, st: Settings, fv: FabricVendors, items: seq<Item>, k: nat, v: Id)
    requires ValidSettings(st) && k < |items| && ValidItems(items)
    ensures NetUpTo(o, bespoke, st, fv, items, items[k].id, v)(|items|) == Worth(st, fv, items[k], v)
  {
    var total := NetUpTo(o, bespoke, st, fv, items, items[k].id, v);
    forall i | 0 <= i < |items| ensures total(i + 1) == total(i) + if i == k then Worth(st, fv, items[k], v) else 0.0 {
      NetStep(o, bespoke, st, fv, items, k, v, i);
    }
    OnlyStep(total, |items|, k, Worth(st, fv, items[k], v));
  }

  /** Recording a fresh order establishes the agreement. */
  lemma RecordingAgrees(l: LedgerState, o: Id, bespoke: bool, st: Settings, fv: FabricVendors, items: seq<Item>)
    requires ValidSettings(st) && ValidItems(items) && forall i :: 0 <= i < |items| ==> !items[i].rejected
    requires o in l.books && !l.books[o].recorded && !HasEarnings(l, o)
    ensures Agrees(Recorded(l, o, bespoke, st, fv, items), o, st, fv, items)
  {
    if items != [] {
      var es := OrderEarnings(o, bespoke, st, fv, items);
      forall i, v | 0 <= i < |items|
        ensures ItemAgrees(Recorded(l, o, bespoke, st, fv, items), o, st, fv, items[i], v)
      {
        SumConcat(l.earnings, es, LinkedNet(o, items[i].id, v));
        SumZero(l.earnings, LinkedNet(o, items[i].id, v));
        OrderEarningsNet(o, bespoke, st, fv, items, i, v);
        assert items[..|items|] == items;
      }
    }
  }

  // ---------- Reversals and releases ----------

  lemma {:induction false} ReversalNet(es: seq<Earning>, o: Id, item: Id, other: Id, v: Id)
    ensures Sum(Remaining(es, {ItemScope(o, item)}), LinkedNet(o, other, v))
         == if other == item then 0.0 else Sum(es, LinkedNet(o, other, v))
  {
    var scs := {ItemScope(o, item)};
    if es != [] {
      var n := |es| - 1;
      var e := es[n];
      ReversalNet(es[..n], o, item, other, v);
      RemainingStep(es, scs);
      assert CoveredBy(scs, e) == Covers(ItemScope(o, item), e);
      if CoveredBy(scs, e) && !e.released {
        assert Remaining(es, scs) == Remaining(es[..n], scs);
      } else {
        SumAppend(Remaining(es[..n], scs), ClawedBack(e, scs), LinkedNet(o, other, v));
      }
    }
  }

  lemma {:induction false} ReversedEachNet(l: LedgerState, o: Id, ids: seq<Id>, other: Id, v: Id)
    ensures ItemNet(ReversedEach(l, o, ids), o, other, v) == if other in ids then 0.0 else ItemNet(l, o, other, v)
  {
    if ids != [] {
      var n := |ids| - 1;
      ReversedEachNet(l, o, ids[..n], other, v);
      ReversalNet(ReversedEach(l, o, ids[..n]).earnings, o, ids[n], other, v);
      assert ids == ids[..n] + [ids[n]];
    }
  }

  lemma ReleaseKeepsNet(l: LedgerState, now: int, o: Id, item: Id, v: Id)
    ensures ItemNet(Released(l, now), o, item, v) == ItemNet(l, o, item, v)
  {
    SumSame(l.earnings, Released(l, now).earnings, LinkedNet(o, item, v), LinkedNet(o, item, v));
  }

  /** Rejecting items and reversing each one's earnings keeps the agreement. */
  lemma RejectionAgrees(s: OrderState, l: LedgerState, o: Id, st: Settings, fv: FabricVendors, v: Id, idxs: seq<nat>)
    requires Agrees(l, o, st, fv, s.items) && ValidItems(s.items) && Rejectable(s.items, v, idxs)
    ensures Agrees(ReversedEach(l, o, ItemIds(s.items, idxs)), o, st, fv, RejectItems(s, v, idxs).items)
  {
    forall i, u | 0 <= i < |s.items|
      ensures ItemAgrees(ReversedEach(l, o, ItemIds(s.items, idxs)), o, st, fv, MarkRejected(s.items, idxs)[i], u)
    {
      assert ItemAgrees(l, o, st, fv, s.items[i], u);
      MarkedItemAgrees(s.items, l, o, st, fv, v, idxs, i, u);
    }
  }

  lemma MarkedItemAgrees(items: seq<Item>, l: LedgerState, o: Id, st: Settings, fv: FabricVendors,
                         v: Id, idxs: seq<nat>, i: nat, u: Id)
    requires ValidItems(items) && Rejectable(items, v, idxs) && i < |items| && ItemAgrees(l, o, st, fv, items[i], u)
    ensures ItemAgrees(ReversedEach(l, o, ItemIds(items, idxs)), o, st, fv, MarkRejected(items, idxs)[i], u)
  {
    var ids := ItemIds(items, idxs);
    ReversedEachNet(l, o, ids, items[i].id, u);
    if i in idxs {
      var j :| 0 <= j < |idxs| && idxs[j] == i;
      assert ids[j] == items[i].id;
    } else {
      assert items[i].id !in ids;
    }
  }

  // ---------- Runs ----------

  /** What may happen to a recorded order and its earnings. */
  datatype Event =
    | ItemRejected(vendor: Id, item: Id)
    | ShipmentRejected(vendor: Id)
    | EarningsReleased(now: int)

  function OrderAfter(s: OrderState, ev: Event): OrderState {
    match ev
    case ItemRejected(v, id) => RejectOrderItem(s, v, id)
    case ShipmentRejected(v) => RejectShipment(s, v)
    case EarningsReleased(_) => s
  }

  function LedgerAfter(s: OrderState, l: LedgerState, o: Id, ev: Event): LedgerState {
    match ev
    case ItemRejected(v, id) => if ItemRefused(s, v, id) then l else Reversed(l, {ItemScope(o, id)})
    case ShipmentRejected(v) => if ShipmentRefused(s, v) then l
      else ReversedEach(l, o, ItemIds(s.items, ActiveItems(s.items, v)))
    case EarningsReleased(now) => Released(l, now)
  }

  function RunOrder(s: OrderState, evs: seq<Event>): OrderState {
    if evs == [] then s else OrderAfter(RunOrder(s, evs[..|evs| - 1]), evs[|evs| - 1])
  }

  function RunLedger(s: OrderState, l: LedgerState, o: Id, evs: seq<Event>): LedgerState {
    if evs == [] then l
    else LedgerAfter(RunOrder(s, evs[..|evs| - 1]), RunLedger(s, l, o, evs[..|evs| - 1]), o, evs[|evs| - 1])
  }

  predicate NoTransfers(ships: seq<Shipment>, ev: Event) {
    ev.ShipmentRejected? ==> SettlementLaws.SellsGarments(ships, ev.vendor)
  }

  lemma EventAgrees(s: OrderState, l: LedgerState, o: Id, st: Settings, fv: FabricVendors, ev: Event)
    requires Agrees(l, o, st, fv, s.items) && ValidItems(s.items) && NoTransfers(s.shipments, ev)
    ensures Agrees(LedgerAfter(s, l, o, ev), o, st, fv, OrderAfter(s, ev).items)
    ensures SettlementLaws.SameGoods(s.items, OrderAfter(s, ev).items)
    ensures SettlementLaws.Progress(s.shipments, OrderAfter(s, ev).shipments)
  {
    match ev
    case ItemRejected(v, id) => if !ItemRefused(s, v, id) { ItemRejectionAgrees(s, l, o, st, fv, v, id); }
    case ShipmentRejected(v) => if !ShipmentRefused(s, v) { ShipmentRejectionAgrees(s, l, o, st, fv, v); }
    case EarningsReleased(now) => ReleaseAgrees(s.items, l, o, st, fv, now);
  }

  lemma ReleaseAgrees(items: seq<Item>, l: LedgerState, o: Id, st: Settings, fv: FabricVendors, now: int)
    requires Agrees(l, o, st, fv, items)
    ensures Agrees(Released(l, now), o, st, fv, items)
  {
    forall i, u | 0 <= i < |items| ensures ItemAgrees(Released(l, now), o, st, fv, items[i], u) {
      assert ItemAgrees(l, o, st, fv, items[i], u);
      ReleaseKeepsNet(l, now, o, items[i].id, u);
    }
  }

  lemma ShipmentRejectionAgrees(s: OrderState, l: LedgerState, o: Id, st: Settings, fv: FabricVendors, v: Id)
    requires Agrees(l, o, st, fv, s.items) && ValidItems(s.items)
    requires !ShipmentRefused(s, v) && SettlementLaws.SellsGarments(s.shipments, v)
    ensures Agrees(ReversedEach(l, o, ItemIds(s.items, ActiveItems(s.items, v))), o, st, fv, RejectShipment(s, v).items)
    ensures SettlementLaws.SameGoods(s.items, RejectShipment(s, v).items)
    ensures SettlementLaws.Progress(s.shipments, RejectShipment(s, v).shipments)
  {
    RejectionAgrees(s, l, o, st, fv, v, ActiveItems(s.items, v));
    SettlementLaws.ShipmentsAfterProgress(s, v, ActiveItems(s.items, v));
  }

  lemma ItemRejectionAgrees(s: OrderState, l: LedgerState, o: Id, st: Settings, fv: FabricVendors, v: Id, id: Id)
    requires Agrees(l, o, st, fv, s.items) && ValidItems(s.items) && !ItemRefused(s, v, id)
    ensures Agrees(Reversed(l, {ItemScope(o, id)}), o, st, fv, RejectOrderItem(s, v, id).items)
    ensures SettlementLaws.SameGoods(s.items, RejectOrderItem(s, v, id).items)
    ensures SettlementLaws.Progress(s.shipments, RejectOrderItem(s, v, id).shipments)
  {
    var i := Find(s.items, ItemOf(v, id)).value;
    assert ItemIds(s.items, [i]) == [id];
    OneReversal(l, o, id);
    RejectionAgrees(s, l, o, st, fv, v, [i]);
    SettlementLaws.ShipmentsAfterProgress(s, v, [i]);
  }

  /** The ledger agrees with the order, which is a later state of the order as it was recorded. */
  ghost predicate InAgreement(s0: OrderState, s: OrderState, l: LedgerState, o: Id, st: Settings, fv: FabricVendors) {
    && Agrees(l, o, st, fv, s.items)
    && SettlementLaws.SameGoods(s0.items, s.items)
    && SettlementLaws.Progress(s0.shipments, s.shipments)
  }

  lemma StaysInAgreement(s0: OrderState, s: OrderState, l: LedgerState, o: Id, st: Settings, fv: FabricVendors,
                         ev: Event)
    requires InAgreement(s0, s, l, o, st, fv) && ValidItems(s0.items) && NoTransfers(s0.shipments, ev)
    ensures InAgreement(s0, OrderAfter(s, ev), LedgerAfter(s, l, o, ev), o, st, fv)
  {
    if ev.ShipmentRejected? {
      SettlementLaws.ProgressFinds(s0.shipments, s.shipments, ev.vendor);
    }
    SameValid(s0.items, s.items);
    EventAgrees(s, l, o, st, fv, ev);
    SettlementLaws.ProgressFurther(s0.shipments, s.shipments, OrderAfter(s, ev).shipments);
    SameFurther(s0.items, s.items, OrderAfter(s, ev).items);
  }

  lemma SameValid(a: seq<Item>, b: seq<Item>)
    requires ValidItems(a) && SettlementLaws.SameGoods(a, b)
    ensures ValidItems(b)
  {
    assert forall i :: 0 <= i < |b| ==> ValidItem(a[i]) ==> ValidItem(b[i]);
  }

  lemma SameFurther(a: seq<Item>, b: seq<Item>, c: seq<Item>)
    requires SettlementLaws.SameGoods(a, b) && SettlementLaws.SameGoods(b, c)
    ensures SettlementLaws.SameGoods(a, c)
  {
  }

  lemma {:induction false} RunAgrees(s: OrderState, l: LedgerState, o: Id, st: Settings, fv: FabricVendors,
                                     evs: seq<Event>)
    requires Agrees(l, o, st, fv, s.items) && ValidItems(s.items)
    requires forall i :: 0 <= i < |evs| ==> NoTransfers(s.shipments, evs[i])
    ensures InAgreement(s, RunOrder(s, evs), RunLedger(s, l, o, evs), o, st, fv)
  {
    if evs != [] {
      var n := |evs| - 1;
      RunAgrees(s, l, o, st, fv, evs[..n]);
      StaysInAgreement(s, RunOrder(s, evs[..n]), RunLedger(s, l, o, evs[..n]), o, st, fv, evs[n]);
    }
  }

  // ---------- Display against ledger ----------

  /** What vendor `v`'s earnings hold for its own items. */
  function OwnNet(l: LedgerState, o: Id, v: Id): Item -> real {
    (it: Item) => if it.vendor == v then ItemNet(l, o, it.id, v) else 0.0
  }

  /** The net of fabric that vendor `v` supplied to its own live items. */
  function OwnFabric(st: Settings, fv: FabricVendors, v: Id): Item -> real {
    (it: Item) => if it.vendor == v && !it.rejected then FabricNet(st, fv, it, v) else 0.0
  }

  lemma DisplayGap(l: LedgerState, o: Id, st: Settings, fv: FabricVendors, items: seq<Item>, v: Id)
    requires Agrees(l, o, st, fv, items)
    ensures Sum(items, OwnNet(l, o, v)) == Sum(items, ShownNet(st, v)) + Sum(items, OwnFabric(st, fv, v))
  {
    forall it | it in items ensures OwnNet(l, o, v)(it) == ShownNet(st, v)(it) + OwnFabric(st, fv, v)(it) {
      var i :| 0 <= i < |items| && items[i] == it;
      assert ItemAgrees(l, o, st, fv, items[i], v);
    }
    SumOfSums(items, OwnNet(l, o, v), ShownNet(st, v), OwnFabric(st, fv, v));
  }

  /**
    From recording on, over every run of rejections with their reversals and of releases, the net
    displayed to a vendor is what its earnings hold for its own items, if and only if none of its live
    items earns it anything for fabric it supplied itself.
   */
  lemma DisplayMatchesLedger(l: LedgerState, o: Id, bespoke: bool, st: Settings, fv: FabricVendors,
                             s: OrderState, evs: seq<Event>, v: Id)
    requires ValidSettings(st) && ValidItems(s.items) && forall i :: 0 <= i < |s.items| ==> !s.items[i].rejected
    requires o in l.books && !l.books[o].recorded && !HasEarnings(l, o)
    requires forall i :: 0 <= i < |evs| ==> NoTransfers(s.shipments, evs[i])
    ensures var l' := RunLedger(s, Recorded(l, o, bespoke, st, fv, s.items), o, evs);
      var items := RunOrder(s, evs).items;
      Sum(items, ShownNet(st, v)) == Sum(items, OwnNet(l', o, v))
      <==> forall it :: it in items && it.vendor == v && !it.rejected ==> FabricNet(st, fv, it, v) == 0.0
  {
    var recorded := Recorded(l, o, bespoke, st, fv, s.items);
    RecordingAgrees(l, o, bespoke, st, fv, s.items);
    RunAgrees(s, recorded, o, st, fv, evs);
    DisplayGap(RunLedger(s, recorded, o, evs), o, st, fv, RunOrder(s, evs).items, v);
    OwnFabricZero(st, fv, s.items, RunOrder(s, evs).items, v);
  }

  lemma OwnFabricZero(st: Settings, fv: FabricVendors, before: seq<Item>, items: seq<Item>, v: Id)
    requires ValidSettings(st) && ValidItems(before) && SettlementLaws.SameGoods(before, items)
    ensures Sum(items, OwnFabric(st, fv, v)) == 0.0
      <==> forall it :: it in items && it.vendor == v && !it.rejected ==> FabricNet(st, fv, it, v) == 0.0
  {
    forall it | it in items ensures OwnFabric(st, fv, v)(it) >= 0.0 {
      var i :| 0 <= i < |items| && items[i] == it;
      assert ValidItem(before[i]);
    }
    SumNonNegative(items, OwnFabric(st, fv, v));
    if forall it :: it in items && it.vendor == v && !it.rejected ==> FabricNet(st, fv, it, v) == 0.0 {
      SumZero(items, OwnFabric(st, fv, v));
    } else {
      var it :| it in items && it.vendor == v && !it.rejected && FabricNet(st, fv, it, v) != 0.0;
      assert OwnFabric(st, fv, v)(it) > 0.0;
    }
  }

  /** A tailor that sews in its own fabric: it earns 18 for the fabric besides what it is shown. */
  lemma OwnFabricIsNotShown()
    ensures var st, fv := Settings(false, 10.0, 0.0, 0.0), map[7 := 1];
      var s := OrderState([Item(1, 1, 100.0, 20.0, Some(7), false, false)], [], 120.0, 0.0, 120.0, InReview, []);
      var recorded := Recorded(LedgerState([], map[], map[1 := Books(false, 0.0, 0.0)]), 1, false, st, fv, s.items);
      Sum(s.items, ShownNet(st, 1)) != Sum(s.items, OwnNet(recorded, 1, 1))
  {
    var st, fv := Settings(false, 10.0, 0.0, 0.0), map[7 := 1];
    var it := Item(1, 1, 100.0, 20.0, Some(7), false, false);
    var s := OrderState([it], [], 120.0, 0.0, 120.0, InReview, []);
    assert it in s.items && FabricNet(st, fv, it, 1) == 18.0;
    DisplayMatchesLedger(LedgerState([], map[], map[1 := Books(false, 0.0, 0.0)]), 1, false, st, fv, s, [], 1);
  }
}
