/** Every refund against what the customer is owed, over whole runs with unwinds and auto-rejects. */
module RefundLaws {
  import opened Prelude
  import opened OrderTypes
  import opened Settlement
  import opened SettlementLaws

  // ---------- What is still due ----------

  function Value(it: Item): real {
    it.totalPrice + it.externalFabric
  }

  /** An item the customer will not get: it was rejected, or the garment shipment it travels in was. */
  predicate Dropped(ships: seq<Shipment>, it: Item) {
    it.rejected || var g := Find(ships, GarmentOf(it.vendor)); g.Some? && ships[g.value].rejected
  }

  function Kept(ships: seq<Shipment>): Item -> real {
    (it: Item) => if Dropped(ships, it) then 0.0 else Value(it)
  }

  /** The price of what the customer will still get. */
  function Due(items: seq<Item>, ships: seq<Shipment>): real {
    Sum(items, Kept(ships)) + Sum(ships, LiveFee)
  }

  /** What was refunded beyond the price of what was dropped; negative if too little was. */
  function Excess(s: OrderState): real {
    Sum(s.refunds, Amount) + Due(s.items, s.shipments) - FullCharge(s.items, s.shipments)
  }

  predicate OneGarment(ships: seq<Shipment>) {
    forall j, k | 0 <= j < k < |ships| :: ships[j].transfer.None? && ships[k].transfer.None? ==>
        ships[j].vendor != ships[k].vendor
  }

  /** Prices are not negative, and every item's vendor has exactly one garment shipment. */
  ghost predicate Orderly(s: OrderState) {
    NonNegative(s.items, s.shipments) && Covered(s.items, s.shipments) && OneGarment(s.shipments)
  }

  /** A refund is claimed only on a shipment that was rejected. */
  predicate ClaimsRejected(ships: seq<Shipment>) {
    forall k :: 0 <= k < |ships| && ships[k].refundClaimed ==> ships[k].rejected
  }

  /** One refund: what it pays beyond the drop in what is due, and what it does to the totals. */
  ghost predicate Pays(s: OrderState, s': OrderState, extra: real) {
    var paid := Sum(s'.refunds, Amount) - Sum(s.refunds, Amount);
    && FullCharge(s'.items, s'.shipments) == FullCharge(s.items, s.shipments)
    && paid == Due(s.items, s.shipments) - Due(s'.items, s'.shipments) + extra
    && s'.total == Max0(s.total - paid)
    && s'.shippingFee == Max0(s.shippingFee - (Sum(s.shipments, LiveFee) - Sum(s'.shipments, LiveFee)))
  }

  lemma PaysByRefund(s: OrderState, s': OrderState, refund: real, extra: real)
    requires refund >= 0.0 && s'.refunds == Refunded(s.refunds, refund) && s'.total == Max0(s.total - refund)
    requires s'.shippingFee == Max0(s.shippingFee - (Sum(s.shipments, LiveFee) - Sum(s'.shipments, LiveFee)))
    requires FullCharge(s'.items, s'.shipments) == FullCharge(s.items, s.shipments)
    requires refund == Due(s.items, s.shipments) - Due(s'.items, s'.shipments) + extra
    ensures Pays(s, s', extra)
  {
    AppendRefund(s.refunds, refund);
  }

  lemma PaysBySettling(s: OrderState, items: seq<Item>, ships: seq<Shipment>, goods: real, fees: real, refund: real,
                       extra: real)
    requires refund >= 0.0 && FullCharge(items, ships) == FullCharge(s.items, s.shipments)
    requires fees == Sum(s.shipments, LiveFee) - Sum(ships, LiveFee)
    requires refund == Due(s.items, s.shipments) - Due(items, ships) + extra
    ensures Pays(s, Settle(s, items, ships, goods, fees, refund), extra)
  {
    PaysByRefund(s, Settle(s, items, ships, goods, fees, refund), refund, extra);
  }

  lemma DueNonNegative(s: OrderState)
    requires NonNegative(s.items, s.shipments)
    ensures Due(s.items, s.shipments) >= 0.0 && Sum(s.shipments, LiveFee) >= 0.0
  {
    forall it | it in s.items ensures Kept(s.shipments)(it) >= 0.0 {
      var i :| 0 <= i < |s.items| && s.items[i] == it;
    }
    SumNonNegative(s.items, Kept(s.shipments));
    SumNonNegative(s.shipments, LiveFee);
  }

  /** Which garments are rejected decides what is dropped. */
  lemma SameGarments(a: seq<Shipment>, b: seq<Shipment>, it: Item)
    requires Progress(a, b)
    requires var g := Find(a, GarmentOf(it.vendor)); g.Some? ==> b[g.value].rejected == a[g.value].rejected
    ensures Dropped(b, it) == Dropped(a, it)
  {
    ProgressFinds(a, b, it.vendor);
  }

  lemma OrderlyLater(s: OrderState, s': OrderState)
    requires Orderly(s) && SameGoods(s.items, s'.items) && Progress(s.shipments, s'.shipments)
    ensures Orderly(s')
  {
    forall i | 0 <= i < |s'.items|
        ensures ValidItem(s'.items[i]) && Find(s'.shipments, GarmentOf(s'.items[i].vendor)).Some? {
      assert ValidItem(s.items[i]);
      ProgressFinds(s.shipments, s'.shipments, s.items[i].vendor);
    }
  }

  // ---------- Rejecting items ----------

  function LiveValue(it: Item): real {
    if it.rejected then 0.0 else Value(it)
  }

  lemma LiveValueSum(items: seq<Item>)
    ensures Sum(items, LiveValue) == Sum(items, LiveGoods) + Sum(items, LiveFabric)
  {
    SumOfSums(items, LiveValue, LiveGoods, LiveFabric);
  }

  lemma RejectionDrops(s: OrderState, v: Id, idxs: seq<nat>, g: nat)
    requires Orderly(s) && Rejectable(s.items, v, idxs)
    requires Find(s.shipments, GarmentOf(v)) == Some(g) && g < |s.shipments| && !s.shipments[g].rejected
    ensures var items, ships := MarkRejected(s.items, idxs), ShipmentsAfter(s, v, idxs);
      Sum(s.items, Kept(s.shipments)) - Sum(items, Kept(ships)) == Sum(s.items, LiveValue) - Sum(items, LiveValue)
  {
    var items, ships := MarkRejected(s.items, idxs), ShipmentsAfter(s, v, idxs);
    forall i | 0 <= i < |items|
      ensures Kept(s.shipments)(s.items[i]) - Kept(ships)(items[i]) == LiveValue(s.items[i]) - LiveValue(items[i])
    {
      ShipmentsAfterProgress(s, v, idxs);
      if i !in idxs && !s.items[i].rejected {
        OthersKept(s, v, idxs, i);
      }
    }
    SumDrops(s.items, items, Kept(s.shipments), Kept(ships), LiveValue, LiveValue);
  }

  /** An item that is not rejected now keeps its garment shipment as it was. */
  lemma OthersKept(s: OrderState, v: Id, idxs: seq<nat>, i: nat)
    requires OneGarment(s.shipments) && Rejectable(s.items, v, idxs)
    requires i < |s.items| && i !in idxs && !s.items[i].rejected
    ensures Dropped(ShipmentsAfter(s, v, idxs), s.items[i]) == Dropped(s.shipments, s.items[i])
  {
    var items, ships := MarkRejected(s.items, idxs), ShipmentsAfter(s, v, idxs);
    var legs := FailLegs(s.shipments, s.items, v, idxs);
    FailLegsProgress(s.shipments, s.items, v, idxs);
    FailFirstProgress(legs, LiveGarmentOf(v));
    ShipmentsAfterProgress(s, v, idxs);
    if s.items[i].vendor == v {
      assert items[i].vendor == v && !items[i].rejected;
      assert HasActive(items, v);
    }
    SameGarments(s.shipments, ships, s.items[i]);
  }

  lemma RejectionDue(s: OrderState, v: Id, idxs: seq<nat>, g: nat)
    requires Orderly(s) && Rejectable(s.items, v, idxs)
    requires Find(s.shipments, GarmentOf(v)) == Some(g) && g < |s.shipments| && !s.shipments[g].rejected
    ensures var items, ships := MarkRejected(s.items, idxs), ShipmentsAfter(s, v, idxs);
      Charge(s.items, s.shipments) - Charge(items, ships) == Due(s.items, s.shipments) - Due(items, ships) >= 0.0
  {
    RejectionDrops(s, v, idxs, g);
    LiveValueSum(s.items);
    LiveValueSum(MarkRejected(s.items, idxs));
    ShipmentsAfterProgress(s, v, idxs);
    RefundIsNonNegative(s.items, v, idxs);
    ProgressFees(s.shipments, ShipmentsAfter(s, v, idxs));
  }

  lemma RejectItemsPays(s: OrderState, v: Id, idxs: seq<nat>, g: nat)
    requires Orderly(s) && Rejectable(s.items, v, idxs)
    requires Find(s.shipments, GarmentOf(v)) == Some(g) && g < |s.shipments| && !s.shipments[g].rejected
    ensures Pays(s, RejectItems(s, v, idxs), 0.0)
  {
    RejectionDue(s, v, idxs, g);
    FullChargeKept(s, v, idxs);
    PaysExactly(s, MarkRejected(s.items, idxs), ShipmentsAfter(s, v, idxs));
    assert RejectItems(s, v, idxs) == Reduced(s, MarkRejected(s.items, idxs), ShipmentsAfter(s, v, idxs));
  }

  lemma PaysExactly(s: OrderState, items: seq<Item>, ships: seq<Shipment>)
    requires FullCharge(items, ships) == FullCharge(s.items, s.shipments)
    requires Charge(s.items, s.shipments) - Charge(items, ships)
      == Due(s.items, s.shipments) - Due(items, ships) >= 0.0
    ensures Pays(s, Reduced(s, items, ships), 0.0)
  {
    PaysBySettling(s, items, ships, Sum(s.items, LiveGoods) - Sum(items, LiveGoods),
                   Sum(s.shipments, LiveFee) - Sum(ships, LiveFee),
                   Charge(s.items, s.shipments) - Charge(items, ships), 0.0);
  }

  // ---------- Unwinding a fabric leg ----------

  function ValueOf(v: Id): Item -> real {
    (it: Item) => if it.vendor == v then Value(it) else 0.0
  }

  /** What an unwind refunds a second time: the tailor's items that were dropped, and refunded, before. */
  function Twice(ships: seq<Shipment>, v: Id): Item -> real {
    (it: Item) => if it.vendor == v && Dropped(ships, it) then Value(it) else 0.0
  }

  lemma UnwindDrops(s: OrderState, k: nat)
    requires Orderly(s) && k < |s.shipments| && s.shipments[k].transfer.Some?
    ensures var tailor, ships := s.shipments[k].transfer.value.destination, UnwindShips(s.shipments, k);
      Sum(s.items, ValueOf(tailor)) == Sum(s.items, Kept(s.shipments)) - Sum(s.items, Kept(ships))
          + Sum(s.items, Twice(s.shipments, tailor))
  {
    var tailor, ships := s.shipments[k].transfer.value.destination, UnwindShips(s.shipments, k);
    forall i | 0 <= i < |s.items|
      ensures ValueOf(tailor)(s.items[i]) - Twice(s.shipments, tailor)(s.items[i])
           == Kept(s.shipments)(s.items[i]) - Kept(ships)(s.items[i])
    {
      UnwindDropped(s, k, s.items[i]);
    }
    SumDrops(s.items, s.items, ValueOf(tailor), Twice(s.shipments, tailor), Kept(s.shipments), Kept(ships));
  }

  lemma UnwindProgress(ships: seq<Shipment>, k: nat)
    requires k < |ships| && ships[k].transfer.Some?
    ensures Progress(ships, UnwindShips(ships, k))
  {
    var failed := ships[k := Fail(ships[k])];
    FailFirstProgress(failed, LiveGarmentOf(ships[k].transfer.value.destination));
    ProgressFurther(ships, failed, UnwindShips(ships, k));
  }

  lemma UnwindDropped(s: OrderState, k: nat, it: Item)
    requires Orderly(s) && k < |s.shipments| && s.shipments[k].transfer.Some? && it in s.items
    ensures var tailor := s.shipments[k].transfer.value.destination;
      Dropped(UnwindShips(s.shipments, k), it) == (it.vendor == tailor || Dropped(s.shipments, it))
  {
    var tailor, ships := s.shipments[k].transfer.value.destination, UnwindShips(s.shipments, k);
    var failed := s.shipments[k := Fail(s.shipments[k])];
    var i :| 0 <= i < |s.items| && s.items[i] == it;
    var g := Find(s.shipments, GarmentOf(it.vendor)).value;
    assert GarmentOf(it.vendor)(s.shipments[g]);
    UnwindProgress(s.shipments, k);
    if it.vendor == tailor {
      ProgressFinds(s.shipments, ships, it.vendor);
      if !failed[g].rejected {
        SoleGarment(failed, tailor, g);
      }
    } else {
      FailFirstProgress(failed, LiveGarmentOf(tailor));
      SameGarments(s.shipments, ships, it);
    }
  }

  lemma SoleGarment(ships: seq<Shipment>, v: Id, g: nat)
    requires OneGarment(ships) && g < |ships| && LiveGarmentOf(v)(ships[g])
    ensures FailFirst(ships, LiveGarmentOf(v)) == ships[g := Fail(ships[g])]
  {
    var k := Find(ships, LiveGarmentOf(v)).value;
    assert LiveGarmentOf(v)(ships[k]);
    assert k == g;
  }

  lemma ValueNonNegative(s: OrderState, v: Id)
    requires NonNegative(s.items, s.shipments)
    ensures Sum(s.items, ValueOf(v)) >= 0.0
  {
    forall it | it in s.items ensures ValueOf(v)(it) >= 0.0 {
      var i :| 0 <= i < |s.items| && s.items[i] == it;
    }
    SumNonNegative(s.items, ValueOf(v));
  }

  lemma UnwindAmounts(s: OrderState, k: nat)
    requires k < |s.shipments| && s.shipments[k].transfer.Some? && !s.shipments[k].rejected
    ensures var tailor := s.shipments[k].transfer.value.destination;
      && UnwindFees(s.shipments, k) == Sum(s.shipments, LiveFee) - Sum(UnwindShips(s.shipments, k), LiveFee)
      && Sum(s.items, ValueOf(tailor)) == Sum(s.items, GoodsOf(tailor)) + Sum(s.items, FabricOf(tailor))
  {
    var tailor := s.shipments[k].transfer.value.destination;
    SumUpdate(s.shipments, k, Fail(s.shipments[k]), LiveFee);
    FailFirstFees(s.shipments[k := Fail(s.shipments[k])], LiveGarmentOf(tailor));
    SumOfSums(s.items, ValueOf(tailor), GoodsOf(tailor), FabricOf(tailor));
  }

  lemma UnwindDue(s: OrderState, k: nat)
    requires Orderly(s) && k < |s.shipments| && s.shipments[k].transfer.Some? && !s.shipments[k].rejected
    ensures var tailor, ships := s.shipments[k].transfer.value.destination, UnwindShips(s.shipments, k);
      UnwindRefund(s, k) == Due(s.items, s.shipments) - Due(s.items, ships) + Sum(s.items, Twice(s.shipments, tailor))
      && UnwindRefund(s, k) >= 0.0
  {
    UnwindAmounts(s, k);
    UnwindDrops(s, k);
    UnwindProgress(s.shipments, k);
    ValueNonNegative(s, s.shipments[k].transfer.value.destination);
    ProgressFees(s.shipments, UnwindShips(s.shipments, k));
  }

  /** Unwinding a live leg refunds what it drops, and once more what was dropped of the tailor's items before. */
  lemma UnwindPays(s: OrderState, k: nat)
    requires Orderly(s) && k < |s.shipments| && s.shipments[k].transfer.Some? && !s.shipments[k].rejected
    ensures Pays(s, Unwind(s, k), Sum(s.items, Twice(s.shipments, s.shipments[k].transfer.value.destination)))
  {
    var tailor, ships := s.shipments[k].transfer.value.destination, UnwindShips(s.shipments, k);
    UnwindDue(s, k);
    UnwindAmounts(s, k);
    UnwindProgress(s.shipments, k);
    SumSame(s.shipments, ships, Fee, Fee);
    PaysBySettling(s, s.items, ships, Sum(s.items, GoodsOf(tailor)), UnwindFees(s.shipments, k), UnwindRefund(s, k),
                   Sum(s.items, Twice(s.shipments, tailor)));
  }

  // ---------- Auto-rejecting ----------

  predicate Stale(ship: Shipment) {
    ship.transfer.None? && !ship.confirmed && !ship.rejected
  }

  /** A leg on which the auto-reject pass ends. */
  function OpenLeg(): Shipment -> bool {
    (ship: Shipment) => ship.transfer.Some? && !ship.confirmed && !ship.rejected && !ship.refundClaimed
  }

  predicate StaleBefore(ships: seq<Shipment>, n: nat, v: Id)
    requires n <= |ships|
  {
    exists k :: 0 <= k < n && Stale(ships[k]) && ships[k].vendor == v
  }

  function LiveFabricOf(v: Id): Item -> real {
    (it: Item) => if it.vendor == v && !it.rejected then it.externalFabric else 0.0
  }

  lemma StaleDropped(s: OrderState, k: nat, it: Item)
    requires OneGarment(s.shipments) && k < |s.shipments| && Stale(s.shipments[k])
    ensures Dropped(RejectStale(s, k).shipments, it) == (it.vendor == s.shipments[k].vendor || Dropped(s.shipments, it))
  {
    var ships := RejectStale(s, k).shipments;
    ProgressFinds(s.shipments, ships, it.vendor);
    var g := Find(s.shipments, GarmentOf(it.vendor));
    if it.vendor == s.shipments[k].vendor {
      assert GarmentOf(it.vendor)(s.shipments[k]);
      assert g == Some(k);
    }
  }

  lemma StaleDrops(s: OrderState, k: nat)
    requires Orderly(s) && k < |s.shipments| && Stale(s.shipments[k])
    ensures var v, ships := s.shipments[k].vendor, RejectStale(s, k).shipments;
      Sum(s.items, LiveGoodsOf(v))
          == Sum(s.items, Kept(s.shipments)) - Sum(s.items, Kept(ships)) - Sum(s.items, LiveFabricOf(v))
  {
    var v, ships := s.shipments[k].vendor, RejectStale(s, k).shipments;
    forall i | 0 <= i < |s.items|
      ensures LiveGoodsOf(v)(s.items[i]) - Less(LiveFabricOf(v))(s.items[i])
           == Kept(s.shipments)(s.items[i]) - Kept(ships)(s.items[i])
    {
      StaleDropped(s, k, s.items[i]);
      if s.items[i].vendor == v {
        assert GarmentOf(v)(s.shipments[k]);
        assert Find(s.shipments, GarmentOf(v)) == Some(k);
      }
    }
    SumDrops(s.items, s.items, LiveGoodsOf(v), Less(LiveFabricOf(v)), Kept(s.shipments), Kept(ships));
    LessSum(s.items, LiveFabricOf(v));
  }

  function Less(f: Item -> real): Item -> real {
    (it: Item) => -f(it)
  }

  lemma {:induction false} LessSum(items: seq<Item>, f: Item -> real)
    ensures Sum(items, Less(f)) == -Sum(items, f)
  {
    if items != [] { LessSum(items[..|items| - 1], f); }
  }

  /** Rejecting a stale garment refunds what it drops, less the external fabric of the items. */
  lemma StalePays(s: OrderState, k: nat)
    requires Orderly(s) && k < |s.shipments| && Stale(s.shipments[k]) && !s.shipments[k].refundClaimed
    ensures Pays(s, RejectStale(s, k), -Sum(s.items, LiveFabricOf(s.shipments[k].vendor)))
  {
    var v, s' := s.shipments[k].vendor, RejectStale(s, k);
    var refund := Sum(s.items, LiveGoodsOf(v)) + s.shipments[k].fee;
    StaleDrops(s, k);
    forall it | it in s.items ensures LiveGoodsOf(v)(it) >= 0.0 {
      var i :| 0 <= i < |s.items| && s.items[i] == it;
    }
    SumNonNegative(s.items, LiveGoodsOf(v));
    SumUpdate(s.shipments, k, Fail(s.shipments[k]).(refundClaimed := true), LiveFee);
    SumUpdate(s.shipments, k, Fail(s.shipments[k]).(refundClaimed := true), Fee);
    PaysByRefund(s, s', refund, -Sum(s.items, LiveFabricOf(v)));
  }

  /** The order once the pass has rejected the stale garments among the first `n` shipments. */
  function StaleUpTo(s: OrderState, n: nat): (s': OrderState)
    requires n <= |s.shipments|
    ensures |s'.shipments| == |s.shipments|
  {
    if n == 0 then s
    else
      var prior := StaleUpTo(s, n - 1);
      if Stale(s.shipments[n - 1]) then RejectStale(prior, n - 1) else prior
  }

  function StaleShip(ship: Shipment): Shipment {
    if Stale(ship) then Fail(ship).(refundClaimed := true) else ship
  }

  lemma {:induction false} StaleShips(s: OrderState, n: nat)
    requires n <= |s.shipments|
    ensures var s' := StaleUpTo(s, n);
      && s'.items == s.items && s'.status == s.status
      && forall i :: 0 <= i < |s.shipments| ==> s'.shipments[i] == if i < n then StaleShip(s.shipments[i])
        else s.shipments[i]
  {
    if n > 0 { StaleShips(s, n - 1); }
  }

  predicate SomeStale(ships: seq<Shipment>, n: nat)
    requires n <= |ships|
  {
    exists i :: 0 <= i < n && Stale(ships[i])
  }

  lemma SomeStaleNext(ships: seq<Shipment>, n: nat)
    requires n < |ships|
    ensures SomeStale(ships, n + 1) <==> SomeStale(ships, n) || Stale(ships[n])
  {
    if Stale(ships[n]) { assert SomeStale(ships, n + 1); }
  }

  lemma {:induction false} PassReaches(s: OrderState, n: nat)
    requires n <= |s.shipments| && forall i :: 0 <= i < n ==> !OpenLeg()(s.shipments[i])
    ensures AutoRejectFrom(s, 0, false)
         == AutoRejectFrom(StaleUpTo(s, n), n, SomeStale(s.shipments, n))
  {
    if n > 0 {
      PassReaches(s, n - 1);
      StaleShips(s, n - 1);
      SomeStaleNext(s.shipments, n - 1);
      assert !OpenLeg()(s.shipments[n - 1]) && StaleUpTo(s, n - 1).shipments[n - 1] == s.shipments[n - 1];
      PassStep(StaleUpTo(s, n - 1), n - 1, SomeStale(s.shipments, n - 1));
    }
  }

  lemma PassStep(s: OrderState, k: nat, changed: bool)
    requires k < |s.shipments| && !OpenLeg()(s.shipments[k])
    ensures AutoRejectFrom(s, k, changed)
      == if Stale(s.shipments[k]) then AutoRejectFrom(RejectStale(s, k), k + 1, true)
         else AutoRejectFrom(s, k + 1, changed)
  {
  }

  function Claim(s: OrderState, k: nat): OrderState
    requires k < |s.shipments|
  {
    s.(shipments := s.shipments[k := s.shipments[k].(refundClaimed := true)])
  }

  /** What a pass comes to: the stale garments up to the first open leg, then the unwinding of that leg. */
  lemma PassShape(s: OrderState)
    requires s.status == InReview
    ensures match Find(s.shipments, OpenLeg())
      case None =>
        && AutoReject(s).items == s.items && AutoReject(s).shipments == StaleUpTo(s, |s.shipments|).shipments
        && AutoReject(s).(status := InReview) == StaleUpTo(s, |s.shipments|)
      case Some(k) =>
        && StaleUpTo(s, k).shipments[k] == s.shipments[k] && s.shipments[k].transfer.Some?
        && AutoReject(s) == Unwind(Claim(StaleUpTo(s, k), k), k)
  {
    match Find(s.shipments, OpenLeg())
    case None =>
      PassReaches(s, |s.shipments|);
      StaleShips(s, |s.shipments|);
    case Some(k) =>
      PassReaches(s, k);
      StaleShips(s, k);
      assert OpenLeg()(s.shipments[k]);
  }

  /** The external fabric that the pass leaves out for garments among the first `n` shipments. */
  function Omitted(ships: seq<Shipment>, n: nat): Item -> real
    requires n <= |ships|
  {
    (it: Item) => if !it.rejected && StaleBefore(ships, n, it.vendor) then it.externalFabric else 0.0
  }

  lemma PaysExcess(s: OrderState, s': OrderState, extra: real)
    requires Pays(s, s', extra)
    ensures Excess(s') == Excess(s) + extra
  {
  }

  lemma {:induction false} StaleUpToOrderly(s: OrderState, n: nat)
    requires Orderly(s) && n <= |s.shipments|
    ensures Orderly(StaleUpTo(s, n)) && Progress(s.shipments, StaleUpTo(s, n).shipments)
  {
    StaleShips(s, n);
    OrderlyLater(s, StaleUpTo(s, n));
  }

  lemma OmittedStep(s: OrderState, n: nat)
    requires OneGarment(s.shipments) && n < |s.shipments|
    ensures Sum(s.items, Omitted(s.shipments, n + 1)) == Sum(s.items, Omitted(s.shipments, n))
      + if Stale(s.shipments[n]) then Sum(s.items, LiveFabricOf(s.shipments[n].vendor)) else 0.0
  {
    var v := s.shipments[n].vendor;
    forall u ensures StaleBefore(s.shipments, n + 1, u)
        == (StaleBefore(s.shipments, n, u) || (Stale(s.shipments[n]) && v == u)) {
      StaleBeforeNext(s.shipments, n, u);
    }
    if Stale(s.shipments[n]) {
      assert !StaleBefore(s.shipments, n, v);
      SumOfSums(s.items, Omitted(s.shipments, n + 1), Omitted(s.shipments, n), LiveFabricOf(v));
    } else {
      SumAgree(s.items, Omitted(s.shipments, n + 1), Omitted(s.shipments, n));
    }
  }

  lemma StaleStep(s: OrderState, n: nat)
    requires Orderly(s) && ClaimsRejected(s.shipments) && n < |s.shipments| && Stale(s.shipments[n])
    ensures Pays(StaleUpTo(s, n), RejectStale(StaleUpTo(s, n), n), -Sum(s.items, LiveFabricOf(s.shipments[n].vendor)))
    ensures forall it ::
      Dropped(RejectStale(StaleUpTo(s, n), n).shipments, it)
      == (it.vendor == s.shipments[n].vendor || Dropped(StaleUpTo(s, n).shipments, it))
  {
    StaleShips(s, n);
    StaleUpToOrderly(s, n);
    StalePays(StaleUpTo(s, n), n);
    forall it
      ensures Dropped(RejectStale(StaleUpTo(s, n), n).shipments, it)
           == (it.vendor == s.shipments[n].vendor || Dropped(StaleUpTo(s, n).shipments, it))
    {
      StaleDropped(StaleUpTo(s, n), n, it);
    }
  }

  lemma {:induction false} StaleUpToExcess(s: OrderState, n: nat)
    requires Orderly(s) && ClaimsRejected(s.shipments) && n <= |s.shipments|
    ensures Excess(StaleUpTo(s, n)) + Sum(s.items, Omitted(s.shipments, n)) == Excess(s)
  {
    if n == 0 {
      SumZero(s.items, Omitted(s.shipments, 0));
    } else {
      StaleUpToExcess(s, n - 1);
      StaleExcessStep(s, n - 1);
    }
  }

  lemma StaleExcessStep(s: OrderState, n: nat)
    requires Orderly(s) && ClaimsRejected(s.shipments) && n < |s.shipments|
    ensures Excess(StaleUpTo(s, n + 1)) + Sum(s.items, Omitted(s.shipments, n + 1))
      == Excess(StaleUpTo(s, n)) + Sum(s.items, Omitted(s.shipments, n))
  {
    OmittedStep(s, n);
    if Stale(s.shipments[n]) {
      StaleStep(s, n);
      PaysExcess(StaleUpTo(s, n), RejectStale(StaleUpTo(s, n), n), -Sum(s.items, LiveFabricOf(s.shipments[n].vendor)));
    }
  }

  lemma {:induction false} DroppedAfterStale(s: OrderState, n: nat, it: Item)
    requires Orderly(s) && ClaimsRejected(s.shipments) && n <= |s.shipments|
    ensures Dropped(StaleUpTo(s, n).shipments, it)
      == (Dropped(s.shipments, it) || StaleBefore(s.shipments, n, it.vendor))
  {
    if n > 0 {
      DroppedAfterStale(s, n - 1, it);
      if Stale(s.shipments[n - 1]) { StaleStep(s, n - 1); }
      StaleBeforeNext(s.shipments, n - 1, it.vendor);
    }
  }

  lemma StaleBeforeNext(ships: seq<Shipment>, n: nat, v: Id)
    requires n < |ships|
    ensures StaleBefore(ships, n + 1, v) == (StaleBefore(ships, n, v) || (Stale(ships[n]) && ships[n].vendor == v))
  {
  }

  /** What the pass refunds twice of the tailor's items, if it ends by unwinding leg `k`. */
  function TwiceInPass(ships: seq<Shipment>, k: nat, v: Id): Item -> real
    requires k <= |ships|
  {
    (it: Item) => if it.vendor == v && (Dropped(ships, it) || StaleBefore(ships, k, v)) then Value(it) else 0.0
  }

  function PassEnd(ships: seq<Shipment>): (n: nat)
    ensures n <= |ships|
  {
    match Find(ships, OpenLeg())
    case None => |ships|
    case Some(k) => k
  }

  function PassOver(s: OrderState): real {
    match Find(s.shipments, OpenLeg())
    case None => 0.0
    case Some(k) =>
      assert OpenLeg()(s.shipments[k]);
      Sum(s.items, TwiceInPass(s.shipments, k, s.shipments[k].transfer.value.destination))
  }

  function PassUnder(s: OrderState): real {
    Sum(s.items, Omitted(s.shipments, PassEnd(s.shipments)))
  }

  lemma ClaimKeeps(s: OrderState, k: nat)
    requires Orderly(s) && k < |s.shipments|
    ensures Orderly(Claim(s, k)) && Excess(Claim(s, k)) == Excess(s)
    ensures forall it :: Dropped(Claim(s, k).shipments, it) == Dropped(s.shipments, it)
  {
    var ships := Claim(s, k).shipments;
    OrderlyLater(s, Claim(s, k));
    forall it ensures Dropped(ships, it) == Dropped(s.shipments, it) {
      SameGarments(s.shipments, ships, it);
    }
    SumAgree(s.items, Kept(ships), Kept(s.shipments));
    SumSame(s.shipments, ships, LiveFee, LiveFee);
    SumSame(s.shipments, ships, Fee, Fee);
  }

  lemma TwiceIsInPass(s: OrderState, k: nat, v: Id)
    requires Orderly(s) && ClaimsRejected(s.shipments) && k < |s.shipments|
    ensures Sum(s.items, Twice(Claim(StaleUpTo(s, k), k).shipments, v)) == Sum(s.items, TwiceInPass(s.shipments, k, v))
  {
    StaleUpToOrderly(s, k);
    ClaimKeeps(StaleUpTo(s, k), k);
    forall it | it in s.items
      ensures Twice(Claim(StaleUpTo(s, k), k).shipments, v)(it) == TwiceInPass(s.shipments, k, v)(it)
    {
      DroppedAfterStale(s, k, it);
    }
    SumAgree(s.items, Twice(Claim(StaleUpTo(s, k), k).shipments, v), TwiceInPass(s.shipments, k, v));
  }

  lemma PassExcess(s: OrderState)
    requires Orderly(s) && ClaimsRejected(s.shipments) && s.status == InReview
    ensures Excess(AutoReject(s)) == Excess(s) + PassOver(s) - PassUnder(s)
  {
    PassShape(s);
    StaleUpToExcess(s, PassEnd(s.shipments));
    match Find(s.shipments, OpenLeg())
    case None =>
    case Some(k) =>
      var tailor, claimed := s.shipments[k].transfer.value.destination, Claim(StaleUpTo(s, k), k);
      assert OpenLeg()(s.shipments[k]);
      StaleShips(s, k);
      StaleUpToOrderly(s, k);
      ClaimKeeps(StaleUpTo(s, k), k);
      UnwindPays(claimed, k);
      TwiceIsInPass(s, k, tailor);
      PaysExcess(claimed, Unwind(claimed, k), Sum(s.items, TwiceInPass(s.shipments, k, tailor)));
  }
}
