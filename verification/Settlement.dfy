/**
  Settlement of a multi-vendor order: what confirming, rejecting an item, rejecting a shipment,
  unwinding a declined fabric transfer and auto-rejecting stale shipments do to the order.
 */
module Settlement {
  import opened Prelude
  import opened OrderTypes

  datatype ShipmentStatus = Waiting | ReadyToShip | Shipped | InTransit | Delivered | Failed

  datatype OrderStatus = Unpaid | InReview | Processing | Travelling | Completed | Cancelled | Returned

  /** The leg that carries a fabric vendor's fabric to the tailor. */
  datatype Transfer = Transfer(destination: Id, fabric: Id)

  /** A garment shipment to the customer, or a fabric transfer. */
  datatype Shipment = Shipment(
    vendor: Id,
    transfer: Option<Transfer>,
    fee: real,
    confirmed: bool,
    rejected: bool,
    refundClaimed: bool,
    status: ShipmentStatus)

  /** `refunds` lists the amounts refunded to the customer, oldest first. */
  datatype OrderState = OrderState(
    items: seq<Item>,
    shipments: seq<Shipment>,
    subtotal: real,
    shippingFee: real,
    total: real,
    status: OrderStatus,
    refunds: seq<real>)

  // ---------- Which entries an operation looks for ----------

  function OwnedBy(v: Id): Shipment -> bool { (s: Shipment) => s.vendor == v }

  function GarmentOf(v: Id): Shipment -> bool { (s: Shipment) => s.transfer.None? && s.vendor == v }

  function LiveGarmentOf(v: Id): Shipment -> bool {
    (s: Shipment) => s.transfer.None? && s.vendor == v && !s.rejected
  }

  function LiveLegFor(v: Id, fabric: Id): Shipment -> bool {
    (s: Shipment) => s.transfer == Some(Transfer(v, fabric)) && !s.rejected
  }

  function ItemOf(v: Id, id: Id): Item -> bool { (it: Item) => it.id == id && it.vendor == v }

  predicate HasActive(items: seq<Item>, v: Id) {
    exists i :: 0 <= i < |items| && items[i].vendor == v && !items[i].rejected
  }

  predicate AllRejected(ships: seq<Shipment>) {
    forall k :: 0 <= k < |ships| ==> ships[k].rejected
  }

  predicate RestConfirmed(ships: seq<Shipment>) {
    forall k :: 0 <= k < |ships| ==> ships[k].rejected || ships[k].confirmed
  }

  // ---------- What the customer is still charged for ----------

  function Goods(it: Item): real { it.totalPrice }

  function Fabric(it: Item): real { it.externalFabric }

  function Fee(s: Shipment): real { s.fee }

  function LiveGoods(it: Item): real { if it.rejected then 0.0 else it.totalPrice }

  function LiveFabric(it: Item): real { if it.rejected then 0.0 else it.externalFabric }

  function LiveFee(s: Shipment): real { if s.rejected then 0.0 else s.fee }

  /** The price of everything on the order that has not been rejected. */
  function Charge(items: seq<Item>, ships: seq<Shipment>): real {
    Sum(items, LiveGoods) + Sum(items, LiveFabric) + Sum(ships, LiveFee)
  }

  /** What the order cost when it was placed. */
  function FullCharge(items: seq<Item>, ships: seq<Shipment>): real {
    Sum(items, Goods) + Sum(items, Fabric) + Sum(ships, Fee)
  }

  // ---------- Rejecting items ----------

  function Reject(it: Item): Item { it.(rejected := true) }

  function Fail(s: Shipment): Shipment { s.(rejected := true, status := Failed) }

  function MarkRejected(items: seq<Item>, idxs: seq<nat>): seq<Item> {
    seq(|items|, i requires 0 <= i < |items| => if i in idxs then Reject(items[i]) else items[i])
  }

  function FailFirst(ships: seq<Shipment>, p: Shipment -> bool): seq<Shipment> {
    match Find(ships, p)
    case None => ships
    case Some(k) => ships[k := Fail(ships[k])]
  }

  /** Fails the fabric leg, if any, that feeds an item of vendor `v`. */
  function FailLeg(ships: seq<Shipment>, it: Item, v: Id): seq<Shipment> {
    match it.appliedFabric
    case None => ships
    case Some(fabric) => FailFirst(ships, LiveLegFor(v, fabric))
  }

  function FailLegs(ships: seq<Shipment>, items: seq<Item>, v: Id, idxs: seq<nat>): seq<Shipment>
    requires forall i :: 0 <= i < |idxs| ==> idxs[i] < |items|
  {
    if idxs == [] then ships
    else
      var n := |idxs| - 1;
      FailLeg(FailLegs(ships, items, v, idxs[..n]), items[idxs[n]], v)
  }

  /** Distinct positions of active items of vendor `v`. */
  ghost predicate Rejectable(items: seq<Item>, v: Id, idxs: seq<nat>) {
    && (forall i :: 0 <= i < |idxs| ==> idxs[i] < |items| && items[idxs[i]].vendor == v && !items[idxs[i]].rejected)
    && (forall i, j :: 0 <= i < j < |idxs| ==> idxs[i] != idxs[j])
  }

  function ItemIds(items: seq<Item>, idxs: seq<nat>): seq<Id>
    requires forall i :: 0 <= i < |idxs| ==> idxs[i] < |items|
  {
    seq(|idxs|, i requires 0 <= i < |idxs| => items[idxs[i]].id)
  }

  function NextStatus(status: OrderStatus, ships: seq<Shipment>): OrderStatus {
    if |ships| > 0 && AllRejected(ships) then Cancelled
    else if |ships| > 0 && RestConfirmed(ships) then Processing
    else status
  }

  function Refunded(refunds: seq<real>, amount: real): seq<real> {
    if amount <= 0.0 then refunds else refunds + [amount]
  }

  /** Shipments after the items at `idxs` are rejected: their fabric legs, and an emptied garment shipment. */
  function ShipmentsAfter(s: OrderState, v: Id, idxs: seq<nat>): seq<Shipment>
    requires forall i :: 0 <= i < |idxs| ==> idxs[i] < |s.items|
  {
    var legs := FailLegs(s.shipments, s.items, v, idxs);
    if HasActive(MarkRejected(s.items, idxs), v) then legs else FailFirst(legs, LiveGarmentOf(v))
  }

  /** The order once its items and shipments have changed and what was rejected has been refunded. */
  function Settle(s: OrderState, items: seq<Item>, ships: seq<Shipment>, goods: real, fees: real,
                  refund: real): OrderState {
    OrderState(items, ships, Max0(s.subtotal - goods), Max0(s.shippingFee - fees), Max0(s.total - refund),
               NextStatus(s.status, ships), Refunded(s.refunds, refund))
  }

  /** The order with some items and shipments rejected, and settled by the drop in its live amounts. */
  function Reduced(s: OrderState, items: seq<Item>, ships: seq<Shipment>): OrderState {
    Settle(s, items, ships,
      Sum(s.items, LiveGoods) - Sum(items, LiveGoods),
      Sum(s.shipments, LiveFee) - Sum(ships, LiveFee),
      Charge(s.items, s.shipments) - Charge(items, ships))
  }

  /** Rejecting items refunds exactly the drop in what the customer is charged for. */
  function RejectItems(s: OrderState, v: Id, idxs: seq<nat>): OrderState
    requires forall i :: 0 <= i < |idxs| ==> idxs[i] < |s.items|
  {
    Reduced(s, MarkRejected(s.items, idxs), ShipmentsAfter(s, v, idxs))
  }

  predicate Dispatched(s: Shipment) {
    s.status == Shipped || s.status == InTransit
  }

  /** Why a vendor may not reject an item: it is not theirs, is rejected already, or has left. */
  predicate ItemRefused(s: OrderState, v: Id, id: Id) {
    var i, g := Find(s.items, ItemOf(v, id)), Find(s.shipments, GarmentOf(v));
    || i.None?
    || s.items[i.value].rejected
    || (g.Some? && (s.shipments[g.value].rejected || Dispatched(s.shipments[g.value])
                    || s.shipments[g.value].status == Delivered))
  }

  function RejectOrderItem(s: OrderState, v: Id, id: Id): OrderState {
    if ItemRefused(s, v, id) then s else RejectItems(s, v, [Find(s.items, ItemOf(v, id)).value])
  }

  function ActiveItems(items: seq<Item>, v: Id): (idxs: seq<nat>)
    ensures forall i :: 0 <= i < |idxs| ==> idxs[i] < |items| && items[idxs[i]].vendor == v && !items[idxs[i]].rejected
    ensures forall i, j :: 0 <= i < j < |idxs| ==> idxs[i] < idxs[j]
    ensures forall k :: 0 <= k < |items| && items[k].vendor == v && !items[k].rejected ==> k in idxs
  {
    if items == [] then []
    else
      var n := |items| - 1;
      ActiveItems(items[..n], v) + if items[n].vendor == v && !items[n].rejected then [n] else []
  }

  // ---------- Unwinding a fabric transfer ----------

  function GoodsOf(v: Id): Item -> real { (it: Item) => if it.vendor == v then it.totalPrice else 0.0 }

  function FabricOf(v: Id): Item -> real { (it: Item) => if it.vendor == v then it.externalFabric else 0.0 }

  /** Declining fabric leg `k` fails it and its tailor's garment. */
  function UnwindShips(ships: seq<Shipment>, k: nat): seq<Shipment>
    requires k < |ships| && ships[k].transfer.Some?
  {
    FailFirst(ships[k := Fail(ships[k])], LiveGarmentOf(ships[k].transfer.value.destination))
  }

  function UnwindFees(ships: seq<Shipment>, k: nat): real
    requires k < |ships| && ships[k].transfer.Some?
  {
    var failed := ships[k := Fail(ships[k])];
    var g := Find(failed, LiveGarmentOf(ships[k].transfer.value.destination));
    ships[k].fee + if g.Some? then failed[g.value].fee else 0.0
  }

  /** All of the tailor's items are refunded, whatever became of them before, and both fees. */
  function UnwindRefund(s: OrderState, k: nat): real
    requires k < |s.shipments| && s.shipments[k].transfer.Some?
  {
    var tailor := s.shipments[k].transfer.value.destination;
    Sum(s.items, GoodsOf(tailor)) + Sum(s.items, FabricOf(tailor)) + UnwindFees(s.shipments, k)
  }

  function Unwind(s: OrderState, k: nat): OrderState
    requires k < |s.shipments| && s.shipments[k].transfer.Some?
  {
    Settle(s, s.items, UnwindShips(s.shipments, k), Sum(s.items, GoodsOf(s.shipments[k].transfer.value.destination)),
           UnwindFees(s.shipments, k), UnwindRefund(s, k))
  }

  predicate ShipmentRefused(s: OrderState, v: Id) {
    var k := Find(s.shipments, OwnedBy(v));
    k.None? || s.shipments[k.value].rejected || Dispatched(s.shipments[k.value])
  }

  function RejectShipment(s: OrderState, v: Id): OrderState {
    if ShipmentRefused(s, v) then s
    else
      var k := Find(s.shipments, OwnedBy(v)).value;
      if s.shipments[k].transfer.Some? then Unwind(s, k) else RejectItems(s, v, ActiveItems(s.items, v))
  }

  // ---------- Confirming, and rejecting stale shipments ----------

  function Confirm(s: OrderState, v: Id): OrderState {
    match Find(s.shipments, OwnedBy(v))
    case None => s
    case Some(k) =>
      if s.shipments[k].confirmed || s.shipments[k].rejected then s
      else
        var ships := s.shipments[k := s.shipments[k].(confirmed := true)];
        s.(shipments := ships, status := if RestConfirmed(ships) then Processing else s.status)
  }

  function LiveGoodsOf(v: Id): Item -> real {
    (it: Item) => if it.vendor == v && !it.rejected then it.totalPrice else 0.0
  }

  /** Auto-rejecting the stale garment shipment `k`; the refund is claimed on the shipment first. */
  function RejectStale(s: OrderState, k: nat): OrderState
    requires k < |s.shipments|
  {
    var ship := s.shipments[k];
    var goods := Sum(s.items, LiveGoodsOf(ship.vendor));
    var refund := goods + ship.fee;
    s.(shipments := s.shipments[k := Fail(ship).(refundClaimed := true)],
       subtotal := Max0(s.subtotal - goods),
       shippingFee := Max0(s.shippingFee - ship.fee),
       total := Max0(s.total - refund),
       refunds := if ship.refundClaimed then s.refunds else Refunded(s.refunds, refund))
  }

  /** The auto-reject pass from shipment `k` on; an unclaimed stale fabric leg ends it by unwinding. */
  function AutoRejectFrom(s: OrderState, k: nat, changed: bool): OrderState
    requires k <= |s.shipments|
    decreases |s.shipments| - k
  {
    if k == |s.shipments| then
      if changed then s.(status := NextStatus(s.status, s.shipments)) else s
    else
      var ship := s.shipments[k];
      if ship.confirmed || ship.rejected then AutoRejectFrom(s, k + 1, changed)
      else if ship.transfer.Some? then
        if ship.refundClaimed then AutoRejectFrom(s, k + 1, changed)
        else Unwind(s.(shipments := s.shipments[k := ship.(refundClaimed := true)]), k)
      else AutoRejectFrom(RejectStale(s, k), k + 1, true)
  }

  function AutoReject(s: OrderState): OrderState {
    if s.status == InReview then AutoRejectFrom(s, 0, false) else s
  }

  // ---------- Courier reports ----------

  /** The statuses a courier report can set; others are ignored. */
  predicate Reported(status: ShipmentStatus) {
    status == InTransit || status == Delivered || status == Failed
  }

  predicate AllDelivered(ships: seq<Shipment>) {
    forall k :: 0 <= k < |ships| ==> ships[k].status == Delivered
  }

  predicate SomeDispatched(ships: seq<Shipment>) {
    exists k :: 0 <= k < |ships| && Dispatched(ships[k])
  }

  function StatusOnReport(status: OrderStatus, ships: seq<Shipment>): OrderStatus {
    if AllDelivered(ships) then Completed else if SomeDispatched(ships) then Travelling else status
  }

  /** The courier reports a new status for a shipment; the order follows, whatever its status was. */
  function CourierUpdate(s: OrderState, k: nat, status: ShipmentStatus): OrderState {
    if k >= |s.shipments| || !Reported(status) then s
    else
      var ships := s.shipments[k := s.shipments[k].(status := status)];
      s.(shipments := ships, status := StatusOnReport(s.status, ships))
  }

  // ---------- A payment reported again ----------

  /** A payment is reported whenever the provider repeats it or the customer comes back: the order goes into review. */
  function PaymentReport(s: OrderState): OrderState {
    s.(status := InReview)
  }

  // ---------- Runs ----------

  datatype Action =
    | ConfirmBy(vendor: Id)
    | RejectItemBy(vendor: Id, item: Id)
    | RejectShipmentBy(vendor: Id)
    | AutoRejectStale
    | Courier(shipment: nat, status: ShipmentStatus)
    | PaymentReported

  function Step(s: OrderState, a: Action): OrderState {
    match a
    case ConfirmBy(v) => Confirm(s, v)
    case RejectItemBy(v, id) => RejectOrderItem(s, v, id)
    case RejectShipmentBy(v) => RejectShipment(s, v)
    case AutoRejectStale => AutoReject(s)
    case Courier(k, status) => CourierUpdate(s, k, status)
    case PaymentReported => PaymentReport(s)
  }

  function Run(s: OrderState, actions: seq<Action>): OrderState {
    if actions == [] then s else Step(Run(s, actions[..|actions| - 1]), actions[|actions| - 1])
  }
}
