/** Over which runs every refund is exact, and inputs on which one is not. */
module RefundRuns {
  import opened Prelude
  import opened OrderTypes
  import opened Settlement
  import opened SettlementLaws
  import opened RefundLaws

  // ---------- One step ----------

  /** What a step refunds a second time. */
  function StepOver(s: OrderState, a: Action): real {
    match a
    case RejectShipmentBy(v) =>
      if ShipmentRefused(s, v) then 0.0
      else
        var ship := s.shipments[Find(s.shipments, OwnedBy(v)).value];
        if ship.transfer.None? then 0.0 else Sum(s.items, Twice(s.shipments, ship.transfer.value.destination))
    case AutoRejectStale => if s.status == InReview then PassOver(s) else 0.0
    case _ => 0.0
  }

  /** What a step leaves out of a refund. */
  function StepUnder(s: OrderState, a: Action): real {
    if a == AutoRejectStale && s.status == InReview then PassUnder(s) else 0.0
  }

  /** An unwind on which none of the tailor's items was dropped before, except at no price. */
  ghost predicate CleanUnwind(s: OrderState, tailor: Id) {
    forall it :: it in s.items && it.vendor == tailor && Dropped(s.shipments, it) ==> Value(it) == 0.0
  }

  /**
    A pass that rejects no garment with external fabric, and ends by unwinding no leg whose tailor has items
    that were dropped before, or are rejected by the pass itself, except at no price.
   */
  ghost predicate CleanPass(s: OrderState) {
    && (forall it :: it in s.items && !it.rejected && StaleBefore(s.shipments, PassEnd(s.shipments), it.vendor)
          ==> it.externalFabric == 0.0)
    && match Find(s.shipments, OpenLeg())
       case None => true
       case Some(k) => s.shipments[k].transfer.Some? ==> CleanLeg(s, k, s.shipments[k].transfer.value.destination)
  }

  ghost predicate CleanLeg(s: OrderState, k: nat, tailor: Id)
    requires k <= |s.shipments|
  {
    forall it | it in s.items && it.vendor == tailor ::
      Dropped(s.shipments, it) || StaleBefore(s.shipments, k, it.vendor) ==> Value(it) == 0.0
  }

  ghost predicate CleanStep(s: OrderState, a: Action) {
    match a
    case RejectShipmentBy(v) =>
      ShipmentRefused(s, v) ||
      (var ship := s.shipments[Find(s.shipments, OwnedBy(v)).value];
       ship.transfer.Some? ==> CleanUnwind(s, ship.transfer.value.destination))
    case AutoRejectStale => s.status == InReview ==> CleanPass(s)
    case _ => true
  }

  lemma TwiceZeroIff(s: OrderState, tailor: Id)
    requires NonNegative(s.items, s.shipments)
    ensures Sum(s.items, Twice(s.shipments, tailor)) >= 0.0
    ensures Sum(s.items, Twice(s.shipments, tailor)) == 0.0 <==> CleanUnwind(s, tailor)
  {
    forall it | it in s.items ensures Value(it) >= 0.0 {
      var i :| 0 <= i < |s.items| && s.items[i] == it;
    }
    SumZeroIff(s.items, Twice(s.shipments, tailor));
    if Sum(s.items, Twice(s.shipments, tailor)) == 0.0 {
      forall it | it in s.items && it.vendor == tailor && Dropped(s.shipments, it) ensures Value(it) == 0.0 {
        assert Twice(s.shipments, tailor)(it) == 0.0;
      }
    }
  }

  lemma OmittedZeroIff(s: OrderState, n: nat)
    requires NonNegative(s.items, s.shipments) && n <= |s.shipments|
    ensures Sum(s.items, Omitted(s.shipments, n)) >= 0.0
    ensures Sum(s.items, Omitted(s.shipments, n)) == 0.0 <==>
      forall it :: it in s.items && !it.rejected && StaleBefore(s.shipments, n, it.vendor) ==> it.externalFabric == 0.0
  {
    forall it | it in s.items ensures it.externalFabric >= 0.0 {
      var i :| 0 <= i < |s.items| && s.items[i] == it;
    }
    SumZeroIff(s.items, Omitted(s.shipments, n));
    if Sum(s.items, Omitted(s.shipments, n)) == 0.0 {
      forall it | it in s.items && !it.rejected && StaleBefore(s.shipments, n, it.vendor)
          ensures it.externalFabric == 0.0 {
        assert Omitted(s.shipments, n)(it) == 0.0;
      }
    }
  }

  lemma InPassZeroIff(s: OrderState, k: nat, v: Id)
    requires NonNegative(s.items, s.shipments) && k <= |s.shipments|
    ensures Sum(s.items, TwiceInPass(s.shipments, k, v)) >= 0.0
    ensures Sum(s.items, TwiceInPass(s.shipments, k, v)) == 0.0 <==> CleanLeg(s, k, v)
  {
    forall it | it in s.items ensures Value(it) >= 0.0 {
      var i :| 0 <= i < |s.items| && s.items[i] == it;
    }
    SumZeroIff(s.items, TwiceInPass(s.shipments, k, v));
    if Sum(s.items, TwiceInPass(s.shipments, k, v)) == 0.0 {
      forall it | it in s.items && it.vendor == v
          && (Dropped(s.shipments, it) || StaleBefore(s.shipments, k, it.vendor))
        ensures Value(it) == 0.0
      {
        assert TwiceInPass(s.shipments, k, v)(it) == 0.0;
      }
    }
  }

  lemma CleanStepIff(s: OrderState, a: Action)
    requires NonNegative(s.items, s.shipments)
    ensures StepOver(s, a) >= 0.0 && StepUnder(s, a) >= 0.0
    ensures StepOver(s, a) == 0.0 && StepUnder(s, a) == 0.0 <==> CleanStep(s, a)
  {
    match a
    case RejectShipmentBy(v) =>
      if !ShipmentRefused(s, v) {
        var ship := s.shipments[Find(s.shipments, OwnedBy(v)).value];
        if ship.transfer.Some? { TwiceZeroIff(s, ship.transfer.value.destination); }
      }
    case AutoRejectStale =>
      OmittedZeroIff(s, PassEnd(s.shipments));
      var leg := Find(s.shipments, OpenLeg());
      if leg.Some? {
        assert OpenLeg()(s.shipments[leg.value]);
        InPassZeroIff(s, leg.value, s.shipments[leg.value].transfer.value.destination);
      }
    case _ =>
  }

  // ---------- What a step keeps ----------

  /** Later states: flags only go up, and a new claim comes with a rejection. */
  ghost predicate Follows(s: OrderState, s': OrderState) {
    && SameGoods(s.items, s'.items) && Progress(s.shipments, s'.shipments)
    && (forall k :: 0 <= k < |s.shipments| && s'.shipments[k].refundClaimed ==>
          s.shipments[k].refundClaimed || s'.shipments[k].rejected)
  }

  lemma {:induction false} FailLegsClaims(ships: seq<Shipment>, items: seq<Item>, v: Id, idxs: seq<nat>)
    requires forall i :: 0 <= i < |idxs| ==> idxs[i] < |items|
    ensures |FailLegs(ships, items, v, idxs)| == |ships|
    ensures forall k :: 0 <= k < |ships| ==> FailLegs(ships, items, v, idxs)[k].refundClaimed == ships[k].refundClaimed
  {
    if idxs != [] { FailLegsClaims(ships, items, v, idxs[..|idxs| - 1]); }
  }

  lemma RejectionFollows(s: OrderState, v: Id, idxs: seq<nat>)
    requires forall i :: 0 <= i < |idxs| ==> idxs[i] < |s.items|
    ensures Follows(s, RejectItems(s, v, idxs))
  {
    ShipmentsAfterProgress(s, v, idxs);
    FailLegsClaims(s.shipments, s.items, v, idxs);
  }

  lemma UnwindFollows(s: OrderState, k: nat)
    requires k < |s.shipments| && s.shipments[k].transfer.Some?
    ensures Follows(s, Unwind(s, k)) && Unwind(s, k).shipments[k].rejected
  {
    UnwindProgress(s.shipments, k);
    var failed := s.shipments[k := Fail(s.shipments[k])];
    FailFirstProgress(failed, LiveGarmentOf(s.shipments[k].transfer.value.destination));
  }

  lemma StaleFollows(s: OrderState, n: nat)
    requires n <= |s.shipments|
    ensures Follows(s, StaleUpTo(s, n))
  {
    StaleShips(s, n);
  }

  lemma PassFollows(s: OrderState)
    requires s.status == InReview
    ensures Follows(s, AutoReject(s))
  {
    PassShape(s);
    StaleFollows(s, PassEnd(s.shipments));
    var base := StaleUpTo(s, PassEnd(s.shipments));
    var leg := Find(s.shipments, OpenLeg());
    if leg.Some? {
      UnwindFollows(Claim(base, leg.value), leg.value);
      ClaimedUnwindFollows(s, base, AutoReject(s), leg.value);
    }
  }

  lemma ClaimedUnwindFollows(s: OrderState, base: OrderState, s': OrderState, k: nat)
    requires Follows(s, base) && k < |base.shipments| && Follows(Claim(base, k), s') && s'.shipments[k].rejected
    ensures Follows(s, s')
  {
    forall j | 0 <= j < |s.shipments| && s'.shipments[j].refundClaimed
      ensures s.shipments[j].refundClaimed || s'.shipments[j].rejected
    {
      if j != k { assert Claim(base, k).shipments[j] == base.shipments[j]; }
    }
    ProgressFurther(s.shipments, Claim(base, k).shipments, s'.shipments);
  }

  lemma StepFollows(s: OrderState, a: Action)
    ensures Follows(s, Step(s, a))
  {
    match a
    case RejectItemBy(v, id) =>
      if !ItemRefused(s, v, id) { RejectionFollows(s, v, [Find(s.items, ItemOf(v, id)).value]); }
    case RejectShipmentBy(v) =>
      if !ShipmentRefused(s, v) {
        var k := Find(s.shipments, OwnedBy(v)).value;
        if s.shipments[k].transfer.Some? {
          UnwindFollows(s, k);
        } else {
          RejectionFollows(s, v, ActiveItems(s.items, v));
        }
      }
    case AutoRejectStale => if s.status == InReview { PassFollows(s); }
    case _ =>
  }

  // ---------- What a step refunds ----------

  /** The order's totals are what is due, and so far every refund was exact. */
  ghost predicate Exact(s: OrderState) {
    && s.total == Due(s.items, s.shipments) && s.shippingFee == Sum(s.shipments, LiveFee)
    && Sum(s.refunds, Amount) + s.total == FullCharge(s.items, s.shipments)
  }

  lemma PaysExact(s: OrderState, s': OrderState)
    requires Exact(s) && Pays(s, s', 0.0) && NonNegative(s'.items, s'.shipments)
    ensures Exact(s')
  {
    DueNonNegative(s');
  }

  /** A step that touches neither the rejections nor the totals. */
  lemma SameFlagsExcess(s: OrderState, s': OrderState)
    requires Orderly(s) && s'.items == s.items && Progress(s.shipments, s'.shipments)
    requires forall k :: 0 <= k < |s.shipments| ==> s'.shipments[k].rejected == s.shipments[k].rejected
    requires s'.refunds == s.refunds && s'.total == s.total && s'.shippingFee == s.shippingFee
    ensures Excess(s') == Excess(s) && (Exact(s) ==> Exact(s'))
  {
    forall it | it in s.items ensures Kept(s'.shipments)(it) == Kept(s.shipments)(it) {
      SameGarments(s.shipments, s'.shipments, it);
    }
    SumAgree(s.items, Kept(s'.shipments), Kept(s.shipments));
    SumSame(s.shipments, s'.shipments, LiveFee, LiveFee);
    SumSame(s.shipments, s'.shipments, Fee, Fee);
  }

  lemma RejectItemStep(s: OrderState, v: Id, id: Id)
    requires Orderly(s) && !ItemRefused(s, v, id)
    ensures Pays(s, RejectOrderItem(s, v, id), 0.0)
  {
    var i := Find(s.items, ItemOf(v, id)).value;
    var g := Find(s.shipments, GarmentOf(v));
    assert Find(s.shipments, GarmentOf(s.items[i].vendor)).Some?;
    RejectItemsPays(s, v, [i], g.value);
  }

  lemma RejectShipmentStep(s: OrderState, v: Id)
    requires Orderly(s) && !ShipmentRefused(s, v)
    ensures Pays(s, RejectShipment(s, v), StepOver(s, RejectShipmentBy(v)))
  {
    var k := Find(s.shipments, OwnedBy(v)).value;
    if s.shipments[k].transfer.Some? {
      UnwindPays(s, k);
    } else {
      assert OwnedBy(v)(s.shipments[k]) && GarmentOf(v)(s.shipments[k]);
      assert Find(s.shipments, GarmentOf(v)) == Some(k);
      RejectItemsPays(s, v, ActiveItems(s.items, v), k);
    }
  }

  lemma StepExcess(s: OrderState, a: Action)
    requires Orderly(s) && ClaimsRejected(s.shipments)
    ensures Excess(Step(s, a)) == Excess(s) + StepOver(s, a) - StepUnder(s, a)
  {
    StepFollows(s, a);
    match a
    case RejectItemBy(v, id) =>
      if !ItemRefused(s, v, id) {
        RejectItemStep(s, v, id);
        PaysExcess(s, Step(s, a), 0.0);
      }
    case RejectShipmentBy(v) =>
      if !ShipmentRefused(s, v) {
        RejectShipmentStep(s, v);
        PaysExcess(s, Step(s, a), StepOver(s, a));
      }
    case AutoRejectStale => if s.status == InReview { PassExcess(s); }
    case ConfirmBy(v) => SameFlagsExcess(s, Step(s, a));
    case Courier(k, status) => SameFlagsExcess(s, Step(s, a));
    case PaymentReported => SameFlagsExcess(s, Step(s, a));
  }

  // ---------- Clean steps keep the books exact ----------

  lemma {:induction false} StaleUpToExact(s: OrderState, n: nat)
    requires Orderly(s) && ClaimsRejected(s.shipments) && Exact(s) && n <= |s.shipments|
    requires forall it :: it in s.items && !it.rejected && StaleBefore(s.shipments, n, it.vendor) ==>
      it.externalFabric == 0.0
    ensures Exact(StaleUpTo(s, n))
  {
    if n > 0 {
      forall v ensures StaleBefore(s.shipments, n - 1, v) ==> StaleBefore(s.shipments, n, v) {
        StaleBeforeNext(s.shipments, n - 1, v);
      }
      StaleUpToExact(s, n - 1);
      if Stale(s.shipments[n - 1]) {
        StaleStep(s, n - 1);
        StaleUpToOrderly(s, n);
        NoFabric(s, n - 1);
        PaysExact(StaleUpTo(s, n - 1), StaleUpTo(s, n));
      }
    }
  }

  lemma NoFabric(s: OrderState, n: nat)
    requires n < |s.shipments| && Stale(s.shipments[n])
    requires forall it :: it in s.items && !it.rejected && StaleBefore(s.shipments, n + 1, it.vendor) ==>
      it.externalFabric == 0.0
    ensures Sum(s.items, LiveFabricOf(s.shipments[n].vendor)) == 0.0
  {
    assert StaleBefore(s.shipments, n + 1, s.shipments[n].vendor);
    SumZero(s.items, LiveFabricOf(s.shipments[n].vendor));
  }

  lemma ClaimExact(s: OrderState, k: nat)
    requires Orderly(s) && k < |s.shipments| && Exact(s)
    ensures Exact(Claim(s, k))
  {
    SameFlagsExcess(s, Claim(s, k));
  }

  lemma CleanPassExact(s: OrderState)
    requires Orderly(s) && ClaimsRejected(s.shipments) && Exact(s) && s.status == InReview && CleanPass(s)
    ensures Exact(AutoReject(s))
  {
    PassShape(s);
    StaleUpToExact(s, PassEnd(s.shipments));
    var leg := Find(s.shipments, OpenLeg());
    if leg.Some? {
      var k, tailor := leg.value, s.shipments[leg.value].transfer.value.destination;
      var claimed := Claim(StaleUpTo(s, k), k);
      StaleShips(s, k);
      StaleUpToOrderly(s, k);
      ClaimKeeps(StaleUpTo(s, k), k);
      ClaimExact(StaleUpTo(s, k), k);
      UnwindPays(claimed, k);
      TwiceIsInPass(s, k, tailor);
      InPassZeroIff(s, k, tailor);
      StepLaterOrderly(claimed, k);
      PaysExact(claimed, Unwind(claimed, k));
    }
  }

  lemma StepLaterOrderly(s: OrderState, k: nat)
    requires Orderly(s) && k < |s.shipments| && s.shipments[k].transfer.Some?
    ensures Orderly(Unwind(s, k))
  {
    UnwindProgress(s.shipments, k);
    OrderlyLater(s, Unwind(s, k));
  }

  lemma CleanStepExact(s: OrderState, a: Action)
    requires Orderly(s) && ClaimsRejected(s.shipments) && Exact(s) && CleanStep(s, a)
    ensures Exact(Step(s, a))
  {
    StepFollows(s, a);
    OrderlyLater(s, Step(s, a));
    match a
    case RejectItemBy(v, id) =>
      if !ItemRefused(s, v, id) {
        RejectItemStep(s, v, id);
        PaysExact(s, Step(s, a));
      }
    case RejectShipmentBy(v) =>
      if !ShipmentRefused(s, v) {
        RejectShipmentStep(s, v);
        CleanStepIff(s, a);
        PaysExact(s, Step(s, a));
      }
    case AutoRejectStale => if s.status == InReview { CleanPassExact(s); }
    case ConfirmBy(v) => SameFlagsExcess(s, Step(s, a));
    case Courier(k, status) => SameFlagsExcess(s, Step(s, a));
    case PaymentReported => SameFlagsExcess(s, Step(s, a));
  }

  // ---------- Runs ----------

  function RunOver(s: OrderState, actions: seq<Action>): real {
    if actions == [] then 0.0
    else
      var rest := actions[..|actions| - 1];
      RunOver(s, rest) + StepOver(Run(s, rest), actions[|actions| - 1])
  }

  function RunUnder(s: OrderState, actions: seq<Action>): real {
    if actions == [] then 0.0
    else
      var rest := actions[..|actions| - 1];
      RunUnder(s, rest) + StepUnder(Run(s, rest), actions[|actions| - 1])
  }

  /** Every unwind and every pass of the run is clean, in the state it finds. */
  ghost predicate CleanRun(s: OrderState, actions: seq<Action>) {
    actions != [] ==>
      var rest := actions[..|actions| - 1];
      CleanRun(s, rest) && CleanStep(Run(s, rest), actions[|actions| - 1])
  }

  lemma {:induction false} RunOrderly(s: OrderState, actions: seq<Action>)
    requires Orderly(s) && ClaimsRejected(s.shipments)
    ensures Orderly(Run(s, actions)) && ClaimsRejected(Run(s, actions).shipments)
  {
    if actions != [] {
      var before := Run(s, actions[..|actions| - 1]);
      RunOrderly(s, actions[..|actions| - 1]);
      StepFollows(before, actions[|actions| - 1]);
      OrderlyLater(before, Step(before, actions[|actions| - 1]));
    }
  }

  /** Refunds and what is due make up the original charge, but for what was refunded twice and what was left out. */
  lemma {:induction false} RunExcess(s: OrderState, actions: seq<Action>)
    requires Orderly(s) && ClaimsRejected(s.shipments)
    ensures Excess(Run(s, actions)) == Excess(s) + RunOver(s, actions) - RunUnder(s, actions)
  {
    if actions != [] {
      var rest := actions[..|actions| - 1];
      RunExcess(s, rest);
      RunOrderly(s, rest);
      StepExcess(Run(s, rest), actions[|actions| - 1]);
    }
  }

  lemma {:induction false} CleanRunIff(s: OrderState, actions: seq<Action>)
    requires Orderly(s) && ClaimsRejected(s.shipments)
    ensures RunOver(s, actions) >= 0.0 && RunUnder(s, actions) >= 0.0
    ensures RunOver(s, actions) == 0.0 && RunUnder(s, actions) == 0.0 <==> CleanRun(s, actions)
  {
    if actions != [] {
      var rest := actions[..|actions| - 1];
      CleanRunIff(s, rest);
      RunOrderly(s, rest);
      CleanStepIff(Run(s, rest), actions[|actions| - 1]);
    }
  }

  /**
    Over every run, unwinds and auto-rejects included: refunds plus what is still due are the original charge plus
    what was refunded twice less what was left out; and both are nothing if and only if the run is clean.
   */
  lemma RefundsExactIff(s: OrderState, actions: seq<Action>)
    requires Orderly(s) && ClaimsRejected(s.shipments) && Exact(s)
    ensures var s' := Run(s, actions);
      Sum(s'.refunds, Amount) + Due(s'.items, s'.shipments)
      == FullCharge(s'.items, s'.shipments) + RunOver(s, actions) - RunUnder(s, actions)
    ensures RunOver(s, actions) >= 0.0 && RunUnder(s, actions) >= 0.0
    ensures RunOver(s, actions) == 0.0 && RunUnder(s, actions) == 0.0 <==> CleanRun(s, actions)
  {
    RunExcess(s, actions);
    CleanRunIff(s, actions);
  }

  /** Over a clean run the total is what is due, and refunds plus total are the original charge. */
  lemma {:induction false} CleanRunConserves(s: OrderState, actions: seq<Action>)
    requires Orderly(s) && ClaimsRejected(s.shipments) && Exact(s) && CleanRun(s, actions)
    ensures Exact(Run(s, actions))
  {
    if actions != [] {
      var rest := actions[..|actions| - 1];
      CleanRunConserves(s, rest);
      RunOrderly(s, rest);
      CleanStepExact(Run(s, rest), actions[|actions| - 1]);
    }
  }

  // ---------- Placed orders, and runs on which a refund is not exact ----------

  /** A paid order: its totals are the sums of its items and shipment fees. */
  function Placed(items: seq<Item>, ships: seq<Shipment>): OrderState {
    OrderState(items, ships, Sum(items, Goods) + Sum(items, Fabric), Sum(ships, Fee), FullCharge(items, ships),
               InReview, [])
  }

  lemma PlacedIsExact(items: seq<Item>, ships: seq<Shipment>)
    requires NonNegative(items, ships) && Covered(items, ships) && OneGarment(ships)
    requires forall i :: 0 <= i < |items| ==> !items[i].rejected
    requires forall k :: 0 <= k < |ships| ==> !ships[k].rejected && !ships[k].refundClaimed
    ensures Orderly(Placed(items, ships)) && ClaimsRejected(ships) && Exact(Placed(items, ships))
  {
    forall it | it in items ensures Kept(ships)(it) == Value(it) {}
    SumOfSums(items, Kept(ships), Goods, Fabric);
    SumAgree(ships, LiveFee, Fee);
  }

  const GARMENT := Shipment(1, None, 5.0, false, false, false, Waiting)
  const LEG := Shipment(2, Some(Transfer(1, 7)), 3.0, false, false, false, Waiting)
  const OTHER_LEG := Shipment(3, Some(Transfer(1, 8)), 3.0, false, false, false, Waiting)
  const PLAIN := Item(1, 1, 50.0, 0.0, None, false, false)
  const SEWN := Item(2, 1, 100.0, 20.0, Some(7), false, false)

  /** What declining leg `k` of a one-garment order pays back. */
  lemma DecliningLeg(s: OrderState, k: nat, item: Item)
    requires s.items == [item] && item.vendor == 1 && 0 < k < |s.shipments|
    requires s.shipments[0].transfer.None? && s.shipments[0].vendor == 1
    requires s.shipments[k].transfer.Some? && s.shipments[k].transfer.value.destination == 1
    requires forall j :: 0 < j < |s.shipments| ==> s.shipments[j].transfer.Some?
    ensures UnwindRefund(s, k)
         == item.totalPrice + item.externalFabric + s.shipments[k].fee + if s.shipments[0].rejected then 0.0
             else s.shipments[0].fee
    ensures UnwindShips(s.shipments, k)[0].rejected
  {
    SumOne(item, GoodsOf(1));
    SumOne(item, FabricOf(1));
    var failed := s.shipments[k := Fail(s.shipments[k])];
    if !failed[0].rejected { assert LiveGarmentOf(1)(failed[0]); }
  }

  /**
    One pass over a garment and its fabric leg: the garment's item is refunded as stale, and once more with
    the leg, 228 in all on an order that cost 128.
   */
  lemma PassRefundsTwice()
    ensures var s := Placed([SEWN], [GARMENT, LEG]);
      s.total == 128.0 && AutoReject(s).refunds == [105.0, 123.0]
  {
    var s := Placed([SEWN], [GARMENT, LEG]);
    PlacedTotal();
    assert OpenLeg()(s.shipments[1]) && !OpenLeg()(s.shipments[0]);
    PassShape(s);
    assert Find(s.shipments, OpenLeg()) == Some(1);
    var stale := StaleUpTo(s, 1);
    assert stale == RejectStale(s, 0) by { assert StaleUpTo(s, 0) == s; }
    SumOne(SEWN, LiveGoodsOf(1));
    assert stale.refunds == [105.0];
    DecliningLeg(Claim(stale, 1), 1, SEWN);
    assert [105.0] + [123.0] == [105.0, 123.0];
  }

  lemma PlacedTotal()
    ensures Placed([SEWN], [GARMENT, LEG]).total == 128.0
  {
    SumOne(SEWN, Goods);
    SumOne(SEWN, Fabric);
    SumTwo(GARMENT, LEG, Fee);
  }

  /** Two legs to one tailor, each declined: the item is refunded with each, 251 in all on an order that cost 131. */
  lemma TwoLegsRefundTwice()
    ensures var s := Placed([SEWN], [GARMENT, LEG, OTHER_LEG]);
      s.total == 131.0 && Run(s, [RejectShipmentBy(2), RejectShipmentBy(3)]).refunds == [128.0, 123.0]
  {
    var s := Placed([SEWN], [GARMENT, LEG, OTHER_LEG]);
    SumOne(SEWN, Goods);
    SumOne(SEWN, Fabric);
    SumTwo(GARMENT, LEG, Fee);
    assert [GARMENT, LEG, OTHER_LEG] == [GARMENT, LEG] + [OTHER_LEG];
    SumAppend([GARMENT, LEG], OTHER_LEG, Fee);
    RunTwo(s, RejectShipmentBy(2), RejectShipmentBy(3));
    FirstLegDeclined(s);
    SecondLegDeclined(Step(s, RejectShipmentBy(2)));
    assert [] + [128.0] == [128.0] && [128.0] + [123.0] == [128.0, 123.0];
  }

  lemma FirstLegDeclined(s: OrderState)
    requires s.items == [SEWN] && s.shipments == [GARMENT, LEG, OTHER_LEG]
    ensures var s' := Step(s, RejectShipmentBy(2));
      && s'.refunds == s.refunds + [128.0] && s'.items == [SEWN]
      && s'.shipments == [Fail(GARMENT), Fail(LEG), OTHER_LEG]
  {
    assert OwnedBy(2)(s.shipments[1]) && !OwnedBy(2)(s.shipments[0]);
    assert Find(s.shipments, OwnedBy(2)) == Some(1);
    DecliningLeg(s, 1, SEWN);
    var failed := s.shipments[1 := Fail(LEG)];
    assert LiveGarmentOf(1)(failed[0]);
  }

  lemma SecondLegDeclined(s: OrderState)
    requires s.items == [SEWN] && s.shipments == [Fail(GARMENT), Fail(LEG), OTHER_LEG]
    ensures Step(s, RejectShipmentBy(3)).refunds == s.refunds + [123.0]
  {
    assert OwnedBy(3)(s.shipments[2]) && !OwnedBy(3)(s.shipments[0]) && !OwnedBy(3)(s.shipments[1]);
    assert Find(s.shipments, OwnedBy(3)) == Some(2);
    DecliningLeg(s, 2, SEWN);
  }

  /** A garment with external fabric, auto-rejected: the order is cancelled, and 20 of its 125 are never refunded. */
  lemma PassRefundsTooLittle()
    ensures var s := Placed([SEWN], [GARMENT]);
      s.total == 125.0 && AutoReject(s).refunds == [105.0] && AutoReject(s).status == Cancelled
  {
    var s := Placed([SEWN], [GARMENT]);
    SumOne(SEWN, Goods);
    SumOne(SEWN, Fabric);
    SumOne(GARMENT, Fee);
    SumOne(SEWN, LiveGoodsOf(1));
    PassShape(s);
    assert Find(s.shipments, OpenLeg()) == None;
    assert StaleUpTo(s, 1) == RejectStale(s, 0) by { assert StaleUpTo(s, 0) == s; }
    var stale := AutoRejectFrom(RejectStale(s, 0), 1, true);
    assert AutoReject(s) == stale;
    assert AllRejected(RejectStale(s, 0).shipments);
  }

  /**
    A tailor rejects a plain item, then the fabric leg of its other item is declined: the plain item is refunded
    again, 228 in all on an order that cost 178.
   */
  lemma UnwindRefundsTwice()
    ensures var s := Placed([PLAIN, SEWN], [GARMENT, LEG]);
      s.total == 178.0 && Run(s, [RejectItemBy(1, 1), RejectShipmentBy(2)]).refunds == [50.0, 178.0]
  {
    var s := Placed([PLAIN, SEWN], [GARMENT, LEG]);
    SumTwo(PLAIN, SEWN, Goods);
    SumTwo(PLAIN, SEWN, Fabric);
    SumTwo(GARMENT, LEG, Fee);
    RunTwo(s, RejectItemBy(1, 1), RejectShipmentBy(2));
    PlainRejected(s);
    LegAfterPlain(Step(s, RejectItemBy(1, 1)));
    assert [] + [50.0] == [50.0] && [50.0] + [178.0] == [50.0, 178.0];
  }

  lemma PlainRejected(s: OrderState)
    requires s.items == [PLAIN, SEWN] && s.shipments == [GARMENT, LEG]
    ensures var s' := Step(s, RejectItemBy(1, 1));
      s'.refunds == s.refunds + [50.0] && s'.items == [Reject(PLAIN), SEWN] && s'.shipments == [GARMENT, LEG]
  {
    assert ItemOf(1, 1)(s.items[0]) && GarmentOf(1)(s.shipments[0]);
    assert Find(s.items, ItemOf(1, 1)) == Some(0) && Find(s.shipments, GarmentOf(1)) == Some(0);
    var idxs: seq<nat> := [0];
    var items := MarkRejected(s.items, idxs);
    assert items == [Reject(PLAIN), SEWN];
    assert items[1].vendor == 1 && !items[1].rejected;
    assert HasActive(items, 1);
    assert idxs[..0] == [];
    assert FailLegs(s.shipments, s.items, 1, idxs) == s.shipments by {
      assert FailLegs(s.shipments, s.items, 1, idxs[..0]) == s.shipments;
    }
    SumTwo(PLAIN, SEWN, LiveGoods);
    SumTwo(PLAIN, SEWN, LiveFabric);
    SumTwo(Reject(PLAIN), SEWN, LiveGoods);
    SumTwo(Reject(PLAIN), SEWN, LiveFabric);
  }

  lemma LegAfterPlain(s: OrderState)
    requires s.items == [Reject(PLAIN), SEWN] && s.shipments == [GARMENT, LEG]
    ensures Step(s, RejectShipmentBy(2)).refunds == s.refunds + [178.0]
  {
    assert OwnedBy(2)(s.shipments[1]) && !OwnedBy(2)(s.shipments[0]);
    assert Find(s.shipments, OwnedBy(2)) == Some(1);
    SumTwo(Reject(PLAIN), SEWN, GoodsOf(1));
    SumTwo(Reject(PLAIN), SEWN, FabricOf(1));
    var failed := s.shipments[1 := Fail(LEG)];
    assert LiveGarmentOf(1)(failed[0]);
    assert Find(failed, LiveGarmentOf(1)) == Some(0);
  }
}
