/** What the status of an order says about its shipments, over whole runs, and in what order decisions may come. */
module StatusLaws {
  import opened Prelude
  import opened OrderTypes
  import opened Settlement
  import opened SettlementLaws

  // ---------- The status rule ----------

  /** The order's status as a function of its shipments alone. */
  function StatusRule(ships: seq<Shipment>): OrderStatus {
    if AllRejected(ships) then Cancelled else if RestConfirmed(ships) then Processing else InReview
  }

  predicate InStep(s: OrderState) {
    |s.shipments| > 0 && s.status == StatusRule(s.shipments)
  }

  /** The status follows the rule, or is one that a courier report or a repeated payment report sets. */
  predicate Tracked(s: OrderState) {
    && |s.shipments| > 0
    && (s.status == StatusRule(s.shipments) || s.status == Travelling || s.status == Completed || s.status == InReview)
  }

  lemma NextStatusFollows(s: OrderState, ships: seq<Shipment>)
    requires Tracked(s) && Progress(s.shipments, ships)
    ensures Tracked(s.(shipments := ships, status := NextStatus(s.status, ships)))
    ensures InStep(s) ==> NextStatus(s.status, ships) == StatusRule(ships)
  {
    if RestConfirmed(s.shipments) {
      assert RestConfirmed(ships);
    }
  }

  lemma SameFlags(a: seq<Shipment>, b: seq<Shipment>)
    requires |a| == |b|
    requires forall k :: 0 <= k < |a| ==> a[k].rejected == b[k].rejected && a[k].confirmed == b[k].confirmed
    ensures StatusRule(a) == StatusRule(b)
  {
    assert AllRejected(a) == AllRejected(b);
    assert RestConfirmed(a) == RestConfirmed(b);
  }

  /** Where a step or a pass from `s0` may end. */
  ghost predicate Lands(s0: OrderState, s: OrderState) {
    Tracked(s) && Progress(s0.shipments, s.shipments) && (InStep(s0) ==> InStep(s))
  }

  /** What the pass does with a shipment: nothing, a claimed unwinding, or a rejection. */
  predicate Passed(ship: Shipment) {
    ship.confirmed || ship.rejected || (ship.transfer.Some? && ship.refundClaimed)
  }

  lemma PassSkips(s: OrderState, k: nat, changed: bool)
    requires k < |s.shipments| && Passed(s.shipments[k])
    ensures AutoRejectFrom(s, k, changed) == AutoRejectFrom(s, k + 1, changed)
  {
  }

  lemma PassUnwinds(s: OrderState, k: nat, changed: bool)
    requires k < |s.shipments| && !Passed(s.shipments[k]) && s.shipments[k].transfer.Some?
    ensures AutoRejectFrom(s, k, changed)
         == Unwind(s.(shipments := s.shipments[k := s.shipments[k].(refundClaimed := true)]), k)
  {
  }

  lemma PassRejects(s: OrderState, k: nat, changed: bool)
    requires k < |s.shipments| && !Passed(s.shipments[k]) && s.shipments[k].transfer.None?
    ensures AutoRejectFrom(s, k, changed) == AutoRejectFrom(RejectStale(s, k), k + 1, true)
  {
  }

  // During the auto-reject pass the stored status lags behind; it is brought back in step at the end.
  lemma {:induction false} AutoRejectFollows(s0: OrderState, s: OrderState, k: nat, changed: bool)
    requires Tracked(s0) && Progress(s0.shipments, s.shipments) && s.status == s0.status
    requires k <= |s.shipments| && (!changed ==> StatusRule(s.shipments) == StatusRule(s0.shipments))
    ensures Lands(s0, AutoRejectFrom(s, k, changed))
    decreases |s.shipments| - k
  {
    if k == |s.shipments| {
      PassEndFollows(s0, s, changed);
    } else if Passed(s.shipments[k]) {
      AutoRejectFollows(s0, s, k + 1, changed);
      PassSkips(s, k, changed);
    } else if s.shipments[k].transfer.Some? {
      ClaimedUnwindFollows(s0, s, k);
      PassUnwinds(s, k, changed);
    } else {
      RejectStaleProgress(s0, s, k);
      AutoRejectFollows(s0, RejectStale(s, k), k + 1, true);
      PassRejects(s, k, changed);
    }
  }

  lemma ClaimedUnwindFollows(s0: OrderState, s: OrderState, k: nat)
    requires Tracked(s0) && Progress(s0.shipments, s.shipments) && s.status == s0.status
    requires k < |s.shipments| && s.shipments[k].transfer.Some?
    ensures Lands(s0, Unwind(s.(shipments := s.shipments[k := s.shipments[k].(refundClaimed := true)]), k))
  {
    ClaimProgress(s0, s, k);
    UnwindFollows(s0, s.(shipments := s.shipments[k := s.shipments[k].(refundClaimed := true)]), k);
  }

  lemma PassEndFollows(s0: OrderState, s: OrderState, changed: bool)
    requires Tracked(s0) && Progress(s0.shipments, s.shipments) && s.status == s0.status
    requires !changed ==> StatusRule(s.shipments) == StatusRule(s0.shipments)
    ensures Lands(s0, if changed then s.(status := NextStatus(s.status, s.shipments)) else s)
  {
    if changed { NextStatusFollows(s0, s.shipments); }
  }

  lemma RejectStaleProgress(s0: OrderState, s: OrderState, k: nat)
    requires Progress(s0.shipments, s.shipments) && k < |s.shipments|
    ensures Progress(s0.shipments, RejectStale(s, k).shipments) && RejectStale(s, k).status == s.status
  {
    ProgressFurther(s0.shipments, s.shipments, RejectStale(s, k).shipments);
  }

  lemma ClaimProgress(s0: OrderState, s: OrderState, k: nat)
    requires Progress(s0.shipments, s.shipments) && k < |s.shipments|
    ensures Progress(s0.shipments, s.shipments[k := s.shipments[k].(refundClaimed := true)])
  {
  }

  lemma UnwindFollows(s0: OrderState, s: OrderState, k: nat)
    requires Tracked(s0) && Progress(s0.shipments, s.shipments) && s.status == s0.status
    requires k < |s.shipments| && s.shipments[k].transfer.Some?
    ensures Tracked(Unwind(s, k)) && Progress(s0.shipments, Unwind(s, k).shipments)
    ensures InStep(s0) ==> InStep(Unwind(s, k))
  {
    var failed := s.shipments[k := Fail(s.shipments[k])];
    FailFirstProgress(failed, LiveGarmentOf(s.shipments[k].transfer.value.destination));
    ProgressFurther(s.shipments, failed, Unwind(s, k).shipments);
    ProgressFurther(s0.shipments, s.shipments, Unwind(s, k).shipments);
    NextStatusFollows(s0, Unwind(s, k).shipments);
  }

  lemma RejectItemsInStep(s: OrderState, v: Id, idxs: seq<nat>)
    requires Tracked(s) && forall i :: 0 <= i < |idxs| ==> idxs[i] < |s.items|
    ensures Tracked(RejectItems(s, v, idxs)) && Progress(s.shipments, RejectItems(s, v, idxs).shipments)
    ensures InStep(s) ==> InStep(RejectItems(s, v, idxs))
  {
    ShipmentsAfterProgress(s, v, idxs);
    NextStatusFollows(s, ShipmentsAfter(s, v, idxs));
  }

  lemma ConfirmInStep(s: OrderState, v: Id)
    requires Tracked(s)
    ensures Tracked(Confirm(s, v)) && Progress(s.shipments, Confirm(s, v).shipments)
    ensures InStep(s) ==> InStep(Confirm(s, v))
  {
    var k := Find(s.shipments, OwnedBy(v));
    if k.Some? && Confirm(s, v) != s {
      var ships := Confirm(s, v).shipments;
      assert !ships[k.value].rejected && !s.shipments[k.value].confirmed;
      assert !AllRejected(ships) && !AllRejected(s.shipments) && !RestConfirmed(s.shipments);
    }
  }

  /**
    A report that moves the order: from the courier, when everything is delivered or something is under way; of a
    payment, when the order is no longer in review.
   */
  predicate Moves(s: OrderState, a: Action) {
    || (a.PaymentReported? && s.status != InReview)
    || (a.Courier? && a.shipment < |s.shipments| && Reported(a.status)
        && var ships := Step(s, a).shipments; AllDelivered(ships) || SomeDispatched(ships))
  }

  lemma ShipmentTracked(s: OrderState, v: Id)
    requires Tracked(s)
    ensures Tracked(RejectShipment(s, v)) && Progress(s.shipments, RejectShipment(s, v).shipments)
    ensures InStep(s) ==> InStep(RejectShipment(s, v))
  {
    var k := Find(s.shipments, OwnedBy(v));
    if k.Some? && RejectShipment(s, v) != s {
      if s.shipments[k.value].transfer.Some? {
        UnwindFollows(s, s, k.value);
      } else {
        RejectItemsInStep(s, v, ActiveItems(s.items, v));
      }
    }
  }

  lemma StepTracked(s: OrderState, a: Action)
    requires Tracked(s)
    ensures Tracked(Step(s, a)) && Progress(s.shipments, Step(s, a).shipments)
    ensures InStep(s) ==> (InStep(Step(s, a)) <==> !Moves(s, a))
  {
    match a
    case ConfirmBy(v) => ConfirmInStep(s, v);
    case Courier(k, status) => SameFlags(s.shipments, Step(s, a).shipments);
    case RejectItemBy(v, id) =>
      var i := Find(s.items, ItemOf(v, id));
      if i.Some? && Step(s, a) != s { RejectItemsInStep(s, v, [i.value]); }
    case RejectShipmentBy(v) => ShipmentTracked(s, v);
    case AutoRejectStale =>
      if s.status == InReview { AutoRejectFollows(s, s, 0, false); }
    case PaymentReported =>
  }

  /**
    Over every run, reports, unwinds and auto-rejects included: the status is travelling, completed or in review,
    or it is exactly the rule's.
   */
  lemma {:induction false} StatusIsTracked(s: OrderState, actions: seq<Action>)
    requires Tracked(s)
    ensures Tracked(Run(s, actions)) && Progress(s.shipments, Run(s, actions).shipments)
  {
    if actions != [] {
      StatusIsTracked(s, actions[..|actions| - 1]);
      StepTracked(Run(s, actions[..|actions| - 1]), actions[|actions| - 1]);
    }
  }

  /** The status follows the rule after every step of the run. */
  predicate FollowsThroughout(s: OrderState, actions: seq<Action>) {
    InStep(Run(s, actions)) && (actions != [] ==> FollowsThroughout(s, actions[..|actions| - 1]))
  }

  /** No report of the run moves the order. */
  predicate Unmoved(s: OrderState, actions: seq<Action>) {
    actions != [] ==>
      Unmoved(s, actions[..|actions| - 1]) && !Moves(Run(s, actions[..|actions| - 1]), actions[|actions| - 1])
  }

  /**
    The status follows the rule throughout a run, being cancelled when every shipment is rejected, processing
    when the rest are all confirmed and in review otherwise, if and only if no report moves the order.
   */
  lemma {:induction false} StatusFollowsIff(s: OrderState, actions: seq<Action>)
    requires InStep(s)
    ensures FollowsThroughout(s, actions) <==> Unmoved(s, actions)
  {
    if actions != [] {
      var before := Run(s, actions[..|actions| - 1]);
      StatusFollowsIff(s, actions[..|actions| - 1]);
      StatusIsTracked(s, actions[..|actions| - 1]);
      if FollowsThroughout(s, actions[..|actions| - 1]) {
        StepTracked(before, actions[|actions| - 1]);
      }
    }
  }

  predicate NoReports(actions: seq<Action>) {
    forall i :: 0 <= i < |actions| ==> !actions[i].Courier? && !actions[i].PaymentReported?
  }

  lemma {:induction false} NoReportsUnmoved(s: OrderState, actions: seq<Action>)
    requires NoReports(actions)
    ensures Unmoved(s, actions)
  {
    if actions != [] { NoReportsUnmoved(s, actions[..|actions| - 1]); }
  }

  predicate CancelledThroughout(s: OrderState, actions: seq<Action>) {
    Run(s, actions).status == Cancelled && (actions != [] ==> CancelledThroughout(s, actions[..|actions| - 1]))
  }

  /** A cancelled order stays cancelled throughout a run if and only if no report moves it. */
  lemma {:induction false} CancelledStaysIff(s: OrderState, actions: seq<Action>)
    requires InStep(s) && s.status == Cancelled
    ensures CancelledThroughout(s, actions) <==> Unmoved(s, actions)
  {
    StatusFollowsIff(s, actions);
    if actions != [] {
      CancelledStaysIff(s, actions[..|actions| - 1]);
      StatusFollowsIff(s, actions[..|actions| - 1]);
      StatusIsTracked(s, actions);
      assert AllRejected(s.shipments);
      assert AllRejected(Run(s, actions).shipments) by {
        var ships := Run(s, actions).shipments;
        assert forall k :: 0 <= k < |ships| ==> s.shipments[k].rejected;
      }
    }
  }

  /** A cancelled order was refunded in full, whatever was reported. */
  lemma CancelledOrderIsRefunded(s: OrderState, actions: seq<Action>)
    requires Settled(s) && Tracked(s) && Covered(s.items, s.shipments)
    requires forall i :: 0 <= i < |actions| ==> GarmentAction(s.shipments, actions[i])
    requires Run(s, actions).status == Cancelled
    ensures Run(s, actions).total == 0.0
    ensures Sum(Run(s, actions).refunds, Amount) == FullCharge(s.items, s.shipments)
  {
    var s' := Run(s, actions);
    SettlementConserves(s, actions);
    StatusIsTracked(s, actions);
    ItemsPersist(s, actions);
    forall i | 0 <= i < |s'.items| ensures Find(s'.shipments, GarmentOf(s'.items[i].vendor)).Some? {
      ProgressFinds(s.shipments, s'.shipments, s.items[i].vendor);
    }
    CancelledMeansRefunded(s');
    SumSame(s.items, s'.items, Goods, Goods);
    SumSame(s.items, s'.items, Fabric, Fabric);
    SumSame(s.shipments, s'.shipments, Fee, Fee);
  }

  const GARMENT := Shipment(1, None, 5.0, true, false, false, Waiting)
  const LEG := Shipment(2, Some(Transfer(1, 7)), 3.0, false, false, false, Waiting)
  const SEWN := Item(1, 1, 100.0, 20.0, Some(7), false, false)

  /** An order with one garment, confirmed, and the fabric leg that feeds it. */
  function SewnOrder(): OrderState {
    OrderState([SEWN], [GARMENT, LEG], 120.0, 8.0, 128.0, InReview, [])
  }

  lemma GarmentMoves()
    ensures Step(SewnOrder(), Courier(0, InTransit))
         == SewnOrder().(shipments := [GARMENT.(status := InTransit), LEG], status := Travelling)
  {
    var ships := [GARMENT.(status := InTransit), LEG];
    assert SewnOrder().shipments[0 := GARMENT.(status := InTransit)] == ships;
    assert Dispatched(ships[0]) && !AllDelivered(ships);
  }

  lemma DecliningLegCancels(s: OrderState)
    requires s.shipments == [GARMENT.(status := InTransit), LEG]
    ensures Step(s, RejectShipmentBy(2)).status == Cancelled && |Step(s, RejectShipmentBy(2)).shipments| == 2
  {
    assert OwnedBy(2)(s.shipments[1]) && !OwnedBy(2)(s.shipments[0]);
    assert Find(s.shipments, OwnedBy(2)) == Some(1);
    assert Step(s, RejectShipmentBy(2)) == Unwind(s, 1);
    var failed := s.shipments[1 := Fail(LEG)];
    assert LiveGarmentOf(1)(failed[0]);
    assert AllRejected(FailFirst(failed, LiveGarmentOf(1)));
  }

  lemma ReportOnCancelled(s: OrderState)
    requires s.shipments != []
    ensures Step(s, Courier(0, InTransit)).status == Travelling
  {
    var ships := Step(s, Courier(0, InTransit)).shipments;
    assert Dispatched(ships[0]) && ships[0].status != Delivered;
  }

  /**
    A garment under way whose fabric leg is declined: the order is cancelled, and the next courier report
    takes it out of the cancelled status.
   */
  lemma CancelledOrderTravels()
    ensures var cancelled := Run(SewnOrder(), [Courier(0, InTransit), RejectShipmentBy(2)]);
      InStep(SewnOrder()) && cancelled.status == Cancelled
          && Step(cancelled, Courier(0, InTransit)).status == Travelling
  {
    RunTwo(SewnOrder(), Courier(0, InTransit), RejectShipmentBy(2));
    GarmentMoves();
    var moving := Step(SewnOrder(), Courier(0, InTransit));
    DecliningLegCancels(moving);
    ReportOnCancelled(Step(moving, RejectShipmentBy(2)));
    assert !SewnOrder().shipments[1].confirmed && !SewnOrder().shipments[1].rejected;
  }

  /** A cancelled order whose payment is reported once more is in review, all its shipments being rejected. */
  lemma CancelledOrderIsReviewed()
    ensures var cancelled := Run(SewnOrder(), [RejectShipmentBy(2)]);
      && InStep(SewnOrder()) && cancelled.status == Cancelled
      && Step(cancelled, PaymentReported).status == InReview && AllRejected(Step(cancelled, PaymentReported).shipments)
  {
    var s := SewnOrder();
    assert [RejectShipmentBy(2)][..0] == [] && Run(s, [RejectShipmentBy(2)]) == Step(s, RejectShipmentBy(2));
    assert OwnedBy(2)(s.shipments[1]) && !OwnedBy(2)(s.shipments[0]);
    assert Find(s.shipments, OwnedBy(2)) == Some(1);
    assert Step(s, RejectShipmentBy(2)) == Unwind(s, 1);
    assert LiveGarmentOf(1)(s.shipments[1 := Fail(LEG)][0]);
    assert AllRejected(FailFirst(s.shipments[1 := Fail(LEG)], LiveGarmentOf(1)));
    assert !s.shipments[1].confirmed && !s.shipments[1].rejected;
  }

  // ---------- Decision order ----------

  /** A vendor's one decision on its shipment. */
  datatype Decision = Decision(vendor: Id, accept: bool)

  function Decide(d: Decision): Action {
    if d.accept then ConfirmBy(d.vendor) else RejectShipmentBy(d.vendor)
  }

  function DecideAll(ds: seq<Decision>): seq<Action> {
    seq(|ds|, i requires 0 <= i < |ds| => Decide(ds[i]))
  }

  function DecidedShipment(s: Shipment, ds: seq<Decision>): Shipment {
    if Decision(s.vendor, false) in ds then Fail(s)
    else if Decision(s.vendor, true) in ds then s.(confirmed := true)
    else s
  }

  function DecidedItem(it: Item, ds: seq<Decision>): Item {
    if Decision(it.vendor, false) in ds then Reject(it) else it
  }

  /** An order of garments only, one shipment a vendor, on which nothing has been decided. */
  ghost predicate Undecided(s: OrderState) {
    && (forall i :: 0 <= i < |s.items| ==> !s.items[i].rejected)
    && (forall k :: 0 <= k < |s.shipments| ==>
         s.shipments[k].transfer.None? && !s.shipments[k].rejected && !s.shipments[k].confirmed
             && !Dispatched(s.shipments[k]))
    && (forall j, k :: 0 <= j < k < |s.shipments| ==> s.shipments[j].vendor != s.shipments[k].vendor)
  }

  /** Decisions by distinct vendors, each with a shipment on the order. */
  ghost predicate OneEach(ships: seq<Shipment>, ds: seq<Decision>) {
    && (forall i, j :: 0 <= i < j < |ds| ==> ds[i].vendor != ds[j].vendor)
    && (forall i :: 0 <= i < |ds| ==> Find(ships, OwnedBy(ds[i].vendor)).Some?)
  }

  ghost predicate Reflects(s0: OrderState, s: OrderState, ds: seq<Decision>) {
    && |s.items| == |s0.items| && |s.shipments| == |s0.shipments|
    && (forall i :: 0 <= i < |s.items| ==> s.items[i] == DecidedItem(s0.items[i], ds))
    && (forall k :: 0 <= k < |s.shipments| ==> s.shipments[k] == DecidedShipment(s0.shipments[k], ds))
  }

  lemma DecideShipment(s: Shipment, ds: seq<Decision>, d: Decision)
    requires forall e :: e in ds ==> e.vendor != d.vendor
    ensures DecidedShipment(s, ds + [d])
         == if s.vendor != d.vendor then DecidedShipment(s, ds) else if d.accept then s.(confirmed := true) else Fail(s)
    ensures s.vendor == d.vendor ==> DecidedShipment(s, ds) == s
  {
    assert forall e :: e in ds + [d] <==> e in ds || e == d;
  }

  lemma DecideItem(it: Item, ds: seq<Decision>, d: Decision)
    requires forall e :: e in ds ==> e.vendor != d.vendor
    ensures DecidedItem(it, ds + [d]) == if it.vendor == d.vendor && !d.accept then Reject(it) else DecidedItem(it, ds)
  {
    assert forall e :: e in ds + [d] <==> e in ds || e == d;
  }

  lemma DecisionStep(s0: OrderState, s: OrderState, ds: seq<Decision>, d: Decision, k: nat)
    requires Reflects(s0, s, ds) && forall e :: e in ds ==> e.vendor != d.vendor
    requires k < |s0.shipments| && s0.shipments[k].vendor == d.vendor
    requires forall j :: 0 <= j < |s0.shipments| && j != k ==> s0.shipments[j].vendor != d.vendor
    requires !s0.shipments[k].rejected && !s0.shipments[k].confirmed && !Dispatched(s0.shipments[k])
    requires forall j :: 0 <= j < |s0.shipments| ==> s0.shipments[j].transfer.None?
    ensures Reflects(s0, Step(s, Decide(d)), ds + [d])
  {
    var s' := Step(s, Decide(d));
    DecisionEffect(s0, s, ds, d, k);
    forall i | 0 <= i < |s'.items| ensures s'.items[i] == DecidedItem(s0.items[i], ds + [d]) {
      DecideItem(s0.items[i], ds, d);
    }
    forall j | 0 <= j < |s'.shipments| ensures s'.shipments[j] == DecidedShipment(s0.shipments[j], ds + [d]) {
      DecideShipment(s0.shipments[j], ds, d);
    }
  }

  lemma DecisionEffect(s0: OrderState, s: OrderState, ds: seq<Decision>, d: Decision, k: nat)
    requires Reflects(s0, s, ds) && forall e :: e in ds ==> e.vendor != d.vendor
    requires k < |s0.shipments| && s0.shipments[k].vendor == d.vendor
    requires forall j :: 0 <= j < |s0.shipments| && j != k ==> s0.shipments[j].vendor != d.vendor
    requires !s0.shipments[k].rejected && !s0.shipments[k].confirmed && !Dispatched(s0.shipments[k])
    requires forall j :: 0 <= j < |s0.shipments| ==> s0.shipments[j].transfer.None?
    ensures var s', ship := Step(s, Decide(d)), s.shipments[k];
      && s'.shipments == s.shipments[k := if d.accept then ship.(confirmed := true) else Fail(ship)]
      && |s'.items| == |s.items|
      && forall i :: 0 <= i < |s.items| ==>
           s'.items[i] == if s.items[i].vendor == d.vendor && !d.accept then Reject(s.items[i]) else s.items[i]
  {
    DecideShipment(s0.shipments[k], ds, d);
    assert OwnedBy(d.vendor)(s.shipments[k]);
    assert Find(s.shipments, OwnedBy(d.vendor)) == Some(k);
    if d.accept { ConfirmEffect(s, d.vendor, k); } else { RejectEffect(s, d.vendor, k); }
  }

  lemma ConfirmEffect(s: OrderState, v: Id, k: nat)
    requires k < |s.shipments| && Find(s.shipments, OwnedBy(v)) == Some(k)
    requires !s.shipments[k].rejected && !s.shipments[k].confirmed
    ensures var s' := Confirm(s, v);
      s'.shipments == s.shipments[k := s.shipments[k].(confirmed := true)] && s'.items == s.items
  {
  }

  lemma RejectEffect(s: OrderState, v: Id, k: nat)
    requires k < |s.shipments| && Find(s.shipments, OwnedBy(v)) == Some(k)
    requires !s.shipments[k].rejected && !Dispatched(s.shipments[k])
    requires forall j :: 0 <= j < |s.shipments| ==> s.shipments[j].transfer.None?
    requires forall j :: 0 <= j < |s.shipments| && j != k ==> s.shipments[j].vendor != v
    ensures var s' := RejectShipment(s, v);
      s'.shipments == s.shipments[k := Fail(s.shipments[k])] && s'.items == AllRejectedOf(s.items, v)
  {
    RejectDecided(s, v, k);
    assert RejectShipment(s, v) == RejectItems(s, v, ActiveItems(s.items, v));
  }

  // Rejecting a garment-only order's shipment `k` rejects its vendor's items and nothing else.
  lemma RejectDecided(s: OrderState, v: Id, k: nat)
    requires k < |s.shipments| && s.shipments[k].vendor == v && !s.shipments[k].rejected
    requires forall j :: 0 <= j < |s.shipments| ==> s.shipments[j].transfer.None?
    requires forall j :: 0 <= j < |s.shipments| && j != k ==> s.shipments[j].vendor != v
    ensures var s' := RejectItems(s, v, ActiveItems(s.items, v));
      && s'.shipments == s.shipments[k := Fail(s.shipments[k])]
      && s'.items == AllRejectedOf(s.items, v)
  {
    MarkActive(s.items, v);
    EmptyGarment(s, v, k, ActiveItems(s.items, v));
  }

  lemma EmptyGarment(s: OrderState, v: Id, k: nat, idxs: seq<nat>)
    requires k < |s.shipments| && s.shipments[k].vendor == v && !s.shipments[k].rejected
    requires forall j :: 0 <= j < |s.shipments| ==> s.shipments[j].transfer.None?
    requires forall j :: 0 <= j < |s.shipments| && j != k ==> s.shipments[j].vendor != v
    requires forall i :: 0 <= i < |idxs| ==> idxs[i] < |s.items|
    requires !HasActive(MarkRejected(s.items, idxs), v)
    ensures ShipmentsAfter(s, v, idxs) == s.shipments[k := Fail(s.shipments[k])]
  {
    var legs := FailLegs(s.shipments, s.items, v, idxs);
    FailLegsProgress(s.shipments, s.items, v, idxs);
    assert legs == s.shipments;
    assert LiveGarmentOf(v)(legs[k]);
    var found := Find(legs, LiveGarmentOf(v));
    assert found == Some(k);
  }

  lemma OneEachPrefix(ships: seq<Shipment>, ds: seq<Decision>)
    requires OneEach(ships, ds) && ds != []
    ensures OneEach(ships, ds[..|ds| - 1])
    ensures forall e :: e in ds[..|ds| - 1] ==> e.vendor != ds[|ds| - 1].vendor
    ensures Find(ships, OwnedBy(ds[|ds| - 1].vendor)).Some?
  {
  }

  lemma SoleShipment(s: OrderState, v: Id)
    requires Undecided(s) && Find(s.shipments, OwnedBy(v)).Some?
    ensures var k := Find(s.shipments, OwnedBy(v)).value;
      forall j :: 0 <= j < |s.shipments| && j != k ==> s.shipments[j].vendor != v
  {
    var k := Find(s.shipments, OwnedBy(v)).value;
    assert OwnedBy(v)(s.shipments[k]);
  }

  lemma LastDecision(s: OrderState, ds: seq<Decision>)
    requires ds != []
    ensures var n := |ds| - 1;
      ds == ds[..n] + [ds[n]] && Run(s, DecideAll(ds)) == Step(Run(s, DecideAll(ds[..n])), Decide(ds[n]))
  {
    assert DecideAll(ds)[..|ds| - 1] == DecideAll(ds[..|ds| - 1]);
  }

  lemma {:induction false} DecisionsReflected(s: OrderState, ds: seq<Decision>)
    requires Undecided(s) && OneEach(s.shipments, ds)
    ensures Reflects(s, Run(s, DecideAll(ds)), ds)
  {
    if ds != [] {
      var n := |ds| - 1;
      var prior, d := ds[..n], ds[n];
      OneEachPrefix(s.shipments, ds);
      DecisionsReflected(s, prior);
      SoleShipment(s, d.vendor);
      DecisionStep(s, Run(s, DecideAll(prior)), prior, d, Find(s.shipments, OwnedBy(d.vendor)).value);
      LastDecision(s, ds);
    }
  }

  lemma SameReflection(s: OrderState, a: OrderState, b: OrderState, ds: seq<Decision>, es: seq<Decision>)
    requires Reflects(s, a, ds) && Reflects(s, b, es) && forall d :: d in ds <==> d in es
    ensures a.items == b.items && a.shipments == b.shipments
  {
  }

  lemma DecisionsSettle(s: OrderState, ds: seq<Decision>)
    requires Settled(s) && InStep(s) && Undecided(s)
    ensures OutcomeOfFlags(Run(s, DecideAll(ds)))
  {
    forall i | 0 <= i < |ds| ensures GarmentAction(s.shipments, DecideAll(ds)[i]) {
      var k := Find(s.shipments, OwnedBy(ds[i].vendor));
    }
    OutcomeFromFlags(s, DecideAll(ds));
  }

  /** The outcome depends on what each vendor decided, not on the order in which they did. */
  lemma DecisionOrderIsImmaterial(s: OrderState, ds: seq<Decision>, es: seq<Decision>)
    requires Settled(s) && InStep(s) && Undecided(s) && OneEach(s.shipments, ds) && OneEach(s.shipments, es)
    requires forall d :: d in ds <==> d in es
    ensures var a, b := Run(s, DecideAll(ds)), Run(s, DecideAll(es));
      && a.items == b.items && a.shipments == b.shipments && a.status == b.status
      && a.total == b.total && a.shippingFee == b.shippingFee && a.subtotal == b.subtotal
      && Sum(a.refunds, Amount) == Sum(b.refunds, Amount)
  {
    DecisionsReflected(s, ds);
    DecisionsReflected(s, es);
    SameReflection(s, Run(s, DecideAll(ds)), Run(s, DecideAll(es)), ds, es);
    DecisionsSettle(s, ds);
    DecisionsSettle(s, es);
  }

  ghost predicate OutcomeOfFlags(s: OrderState) {
    && s.status == StatusRule(s.shipments)
    && s.total == Charge(s.items, s.shipments)
    && s.shippingFee == Sum(s.shipments, LiveFee)
    && s.subtotal == Sum(s.items, LiveGoods) + Sum(s.items, Fabric)
    && Sum(s.refunds, Amount) == FullCharge(s.items, s.shipments) - Charge(s.items, s.shipments)
  }

  // After any run, everything else on the order is a function of its items and shipments.
  lemma OutcomeFromFlags(s: OrderState, actions: seq<Action>)
    requires Settled(s) && InStep(s) && forall i :: 0 <= i < |actions| ==> GarmentAction(s.shipments, actions[i])
    requires NoReports(actions)
    ensures OutcomeOfFlags(Run(s, actions))
  {
    NoReportsUnmoved(s, actions);
    StatusFollowsIff(s, actions);
    SettlementConserves(s, actions);
  }
}
