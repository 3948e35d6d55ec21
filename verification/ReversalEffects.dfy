/** Which earnings and wallets a reversal or a penalty touches, read off their own fields. */
module ReversalEffects {
  import opened Prelude
  import opened OrderTypes
  import opened Settlement
  import opened EarningsLedger
  import opened LedgerLaws
  import opened OrderService

  // ---------- Selecting earnings ----------

  /** The entries that `p` picks, in their order. */
  function Select(es: seq<Earning>, p: Earning -> bool): seq<Earning> {
    if es == [] then []
    else Select(es[..|es| - 1], p) + if p(es[|es| - 1]) then [es[|es| - 1]] else []
  }

  function Not(p: Earning -> bool): Earning -> bool {
    (e: Earning) => !p(e)
  }

  function OpenNet(p: Earning -> bool, v: Id): Earning -> real {
    (e: Earning) => if p(e) && e.vendor == v && !e.released then e.net else 0.0
  }

  function PaidNet(p: Earning -> bool, v: Id): Earning -> real {
    (e: Earning) => if p(e) && e.vendor == v && e.released then e.net else 0.0
  }

  /**
    A reversal of just the earnings that `about` picks: the others stay as they are and in their order; of those
    picked, only released ones stay, with nothing on them; and every wallet pays for what its vendor loses.
   */
  ghost predicate Reverses(l: LedgerState, l': LedgerState, about: Earning -> bool) {
    && Select(l'.earnings, Not(about)) == Select(l.earnings, Not(about))
    && (forall e :: e in l'.earnings && about(e) ==> e.released && e.net == 0.0)
    && l'.wallets.Keys == l.wallets.Keys
    && (forall v :: v in l.wallets ==>
          && l'.wallets[v].pending == l.wallets[v].pending - Sum(l.earnings, OpenNet(about, v))
          && l'.wallets[v].balance == Max0(l.wallets[v].balance - Sum(l.earnings, PaidNet(about, v))))
  }

  /** `about` reads only what a reversal leaves alone, and is what the scope covers. */
  ghost predicate Describes(sc: Scope, about: Earning -> bool) {
    forall e :: CoveredBy({sc}, e) == about(e) == about(e.(net := 0.0))
  }

  lemma SelectNext(es: seq<Earning>, e: Earning, p: Earning -> bool)
    ensures Select(es + [e], p) == Select(es, p) + if p(e) then [e] else []
  {
    assert (es + [e])[..|es|] == es;
  }

  lemma {:induction false} DroppedSelected(es: seq<Earning>, sc: Scope, about: Earning -> bool)
    requires Describes(sc, about)
    ensures Select(Dropped(es, {sc}), Not(about)) == Select(es, Not(about))
  {
    if es != [] {
      var rest, e := es[..|es| - 1], es[|es| - 1];
      DroppedSelected(rest, sc, about);
      if CoveredBy({sc}, e) && !e.released {
        assert Dropped(es, {sc}) == Dropped(rest, {sc});
      } else {
        SelectNext(Dropped(rest, {sc}), e, Not(about));
      }
    }
  }

  lemma {:induction false} ZeroedSelected(es: seq<Earning>, sc: Scope, about: Earning -> bool)
    requires Describes(sc, about)
    ensures Select(Zeroed(es, {sc}), Not(about)) == Select(es, Not(about))
  {
    if es != [] {
      var rest, e := es[..|es| - 1], es[|es| - 1];
      ZeroedSelected(rest, sc, about);
      assert Zeroed(es, {sc}) == Zeroed(rest, {sc}) + [ClawedBack(e, {sc})];
      SelectNext(Zeroed(rest, {sc}), ClawedBack(e, {sc}), Not(about));
    }
  }

  lemma PickedPayNothing(l: LedgerState, sc: Scope, about: Earning -> bool)
    requires Describes(sc, about)
    ensures forall e :: e in Remaining(l.earnings, {sc}) && about(e) ==> e.released && e.net == 0.0
  {
    DroppedMembers(l.earnings, {sc});
    var es := Remaining(l.earnings, {sc});
    forall e | e in es && about(e) ensures e.released && e.net == 0.0 {
      var i :| 0 <= i < |es| && es[i] == e;
      assert Dropped(l.earnings, {sc})[i] in Dropped(l.earnings, {sc});
    }
  }

  lemma WalletReversed(l: LedgerState, sc: Scope, about: Earning -> bool, v: Id)
    requires Describes(sc, about) && v in l.wallets
    ensures Reversed(l, {sc}).wallets[v]
      == Debited(l.wallets[v], Sum(l.earnings, PaidNet(about, v)), Sum(l.earnings, OpenNet(about, v)))
  {
    SumAgree(l.earnings, OpenIn({sc}, v), OpenNet(about, v));
    SumAgree(l.earnings, PaidIn({sc}, v), PaidNet(about, v));
  }

  lemma ReversedBy(l: LedgerState, sc: Scope, about: Earning -> bool)
    requires Describes(sc, about)
    ensures Reverses(l, Reversed(l, {sc}), about)
  {
    DroppedSelected(l.earnings, sc, about);
    ZeroedSelected(Dropped(l.earnings, {sc}), sc, about);
    PickedPayNothing(l, sc, about);
    forall v | v in l.wallets
      ensures Reversed(l, {sc}).wallets[v]
        == Debited(l.wallets[v], Sum(l.earnings, PaidNet(about, v)), Sum(l.earnings, OpenNet(about, v)))
    {
      WalletReversed(l, sc, about, v);
    }
  }

  // ---------- By vendor, by item, by order ----------

  function OfVendor(o: Id, v: Id): Earning -> bool {
    (e: Earning) => e.order == o && e.vendor == v
  }

  function OfItem(o: Id, item: Id): Earning -> bool {
    (e: Earning) => e.order == o && e.item == Some(item)
  }

  function OfOrder(o: Id): Earning -> bool {
    (e: Earning) => e.order == o
  }

  predicate SameWallet(l: LedgerState, l': LedgerState, u: Id) {
    (u in l'.wallets <==> u in l.wallets) && (u in l.wallets ==> l'.wallets[u] == l.wallets[u])
  }

  lemma OneScope(sc: Scope, e: Earning)
    ensures CoveredBy({sc}, e) == Covers(sc, e)
  {
    if Covers(sc, e) { assert sc in {sc}; }
  }

  /** A wallet whose vendor has nothing that is reversed stays as it is. */
  lemma OthersKeepWallets(l: LedgerState, l': LedgerState, about: Earning -> bool, u: Id)
    requires Valid(l) && Reverses(l, l', about) && forall e :: e in l.earnings && about(e) ==> e.vendor != u
    ensures SameWallet(l, l', u)
  {
    if u in l.wallets {
      assert Balanced(l, u);
      SumZero(l.earnings, OpenNet(about, u));
      SumZero(l.earnings, PaidNet(about, u));
    }
  }

  /** Reversing a vendor's earnings on an order touches no other order's and no other vendor's earnings or wallet. */
  lemma VendorReversal(l: LedgerState, o: Id, v: Id)
    requires Valid(l)
    ensures var l' := Reversed(l, {Scope(o, Some(v), None)});
      && Reverses(l, l', OfVendor(o, v))
      && forall u :: u != v ==> SameWallet(l, l', u)
  {
    var sc := Scope(o, Some(v), None);
    forall e ensures CoveredBy({sc}, e) == OfVendor(o, v)(e) == OfVendor(o, v)(e.(net := 0.0)) { OneScope(sc, e); }
    ReversedBy(l, sc, OfVendor(o, v));
    forall u | u != v
      ensures SameWallet(l, Reversed(l, {sc}), u)
    {
      OthersKeepWallets(l, Reversed(l, {sc}), OfVendor(o, v), u);
    }
  }

  /** Reversing an item touches no other item's earnings, and no wallet of a vendor with none on that item. */
  lemma ItemReversal(l: LedgerState, o: Id, item: Id)
    requires Valid(l)
    ensures var l' := Reversed(l, {Scope(o, None, Some(item))});
      && Reverses(l, l', OfItem(o, item))
      && forall u :: (forall e :: e in l.earnings && e.order == o && e.item == Some(item) ==> e.vendor != u) ==>
           SameWallet(l, l', u)
  {
    var sc := Scope(o, None, Some(item));
    forall e ensures CoveredBy({sc}, e) == OfItem(o, item)(e) == OfItem(o, item)(e.(net := 0.0)) { OneScope(sc, e); }
    ReversedBy(l, sc, OfItem(o, item));
    forall u | forall e :: e in l.earnings && e.order == o && e.item == Some(item) ==> e.vendor != u
      ensures SameWallet(l, Reversed(l, {sc}), u)
    {
      OthersKeepWallets(l, Reversed(l, {sc}), OfItem(o, item), u);
    }
  }

  /** Reversing a whole order touches no other order's earnings. */
  lemma OrderReversal(l: LedgerState, o: Id)
    requires Valid(l)
    ensures Reverses(l, Reversed(l, {Scope(o, None, None)}), OfOrder(o))
  {
    var sc := Scope(o, None, None);
    forall e ensures CoveredBy({sc}, e) == OfOrder(o)(e) == OfOrder(o)(e.(net := 0.0)) { OneScope(sc, e); }
    ReversedBy(l, sc, OfOrder(o));
  }

  // ---------- Several vendors ----------

  function OfVendors(o: Id, vs: seq<Id>): Earning -> bool {
    (e: Earning) => e.order == o && e.vendor in vs
  }

  /** Only earnings of these vendors on the order changed, and those pay nothing; only their wallets changed. */
  ghost predicate TouchesOnly(l: LedgerState, l': LedgerState, o: Id, vs: seq<Id>) {
    && Select(l'.earnings, Not(OfVendors(o, vs))) == Select(l.earnings, Not(OfVendors(o, vs)))
    && (forall e :: e in l'.earnings && e.order == o && e.vendor in vs ==> e.released && e.net == 0.0)
    && (forall u :: u !in vs ==> SameWallet(l, l', u))
  }

  lemma {:induction false} SelectTwice(es: seq<Earning>, p: Earning -> bool, q: Earning -> bool)
    requires forall e :: q(e) ==> p(e)
    ensures Select(Select(es, p), q) == Select(es, q)
  {
    if es != [] {
      var rest, e := es[..|es| - 1], es[|es| - 1];
      SelectTwice(rest, p, q);
      if p(e) { SelectNext(Select(rest, p), e, q); } else { assert Select(es, p) == Select(rest, p); }
    }
  }

  lemma {:induction false} SelectMembers(es: seq<Earning>, p: Earning -> bool)
    ensures forall e :: e in Select(es, p) <==> e in es && p(e)
  {
    if es != [] {
      SelectMembers(es[..|es| - 1], p);
      assert es == es[..|es| - 1] + [es[|es| - 1]];
    }
  }

  lemma {:induction false} VendorsReversed(l: LedgerState, o: Id, vs: seq<Id>)
    requires Valid(l)
    ensures TouchesOnly(l, ReversedVendors(l, o, vs), o, vs)
    decreases vs
  {
    if vs != [] {
      var l1 := Reversed(l, {Scope(o, Some(vs[0]), None)});
      var l' := ReversedVendors(l1, o, vs[1..]);
      ReversedValid(l, {Scope(o, Some(vs[0]), None)});
      VendorReversal(l, o, vs[0]);
      VendorsReversed(l1, o, vs[1..]);
      Narrows(l, l1, l', o, vs);
    }
  }

  lemma Narrows(l: LedgerState, l1: LedgerState, l': LedgerState, o: Id, vs: seq<Id>)
    requires vs != [] && Reverses(l, l1, OfVendor(o, vs[0])) && TouchesOnly(l1, l', o, vs[1..])
    requires forall u :: u != vs[0] ==> SameWallet(l, l1, u)
    ensures TouchesOnly(l, l', o, vs)
  {
    var rest := Not(OfVendors(o, vs));
    assert vs == [vs[0]] + vs[1..];
    SelectTwice(l'.earnings, Not(OfVendors(o, vs[1..])), rest);
    SelectTwice(l1.earnings, Not(OfVendors(o, vs[1..])), rest);
    SelectTwice(l1.earnings, Not(OfVendor(o, vs[0])), rest);
    SelectTwice(l.earnings, Not(OfVendor(o, vs[0])), rest);
    forall e | e in l'.earnings && e.order == o && e.vendor in vs ensures e.released && e.net == 0.0 {
      if e.vendor !in vs[1..] {
        SelectMembers(l'.earnings, Not(OfVendors(o, vs[1..])));
        SelectMembers(l1.earnings, Not(OfVendors(o, vs[1..])));
        assert e in Select(l'.earnings, Not(OfVendors(o, vs[1..])));
        assert e in l1.earnings && OfVendor(o, vs[0])(e);
      }
    }
    forall u | u !in vs
      ensures SameWallet(l, l', u)
    {
      assert SameWallet(l, l1, u) && SameWallet(l1, l', u);
    }
  }

  /** Unwinding a declined fabric leg touches the earnings and wallets of the two vendors it joins, and no others. */
  lemma UnwindTouchesTwo(l: LedgerState, o: Id, leg: Shipment)
    requires Valid(l) && leg.transfer.Some?
    ensures TouchesOnly(l, ReversedVendors(l, o, UnwindVendors(leg)), o, [leg.vendor, leg.transfer.value.destination])
  {
    VendorsReversed(l, o, UnwindVendors(leg));
  }

  /** The vendor ships something neither confirmed, rejected nor refunded, or sews what such a leg would bring. */
  predicate Waits(ships: seq<Shipment>, v: Id) {
    exists k :: 0 <= k < |ships| && !ships[k].confirmed && !ships[k].rejected && !ships[k].refundClaimed
      && (ships[k].vendor == v || (ships[k].transfer.Some? && ships[k].transfer.value.destination == v))
  }

  lemma {:induction false} PassNames(s: OrderState, s0: OrderState, k: nat)
    requires |s.shipments| == |s0.shipments| && k <= |s.shipments|
    requires forall j :: k <= j < |s.shipments| ==> s.shipments[j] == s0.shipments[j]
    ensures forall v :: v in AutoReversals(s, k) ==> Waits(s0.shipments, v)
    decreases |s.shipments| - k
  {
    if k < |s.shipments| {
      var ship := s0.shipments[k];
      if ship.confirmed || ship.rejected || (ship.transfer.Some? && ship.refundClaimed) {
        PassNames(s, s0, k + 1);
      } else if ship.transfer.Some? {
        assert UnwindVendors(ship) == [ship.vendor, ship.transfer.value.destination];
      } else {
        PassNames(RejectStale(s, k), s0, k + 1);
        var rest := AutoReversals(RejectStale(s, k), k + 1);
        assert AutoReversals(s, k) == (if ship.refundClaimed then [] else [ship.vendor]) + rest;
      }
    }
  }

  /** An auto-reject pass touches no earnings and no wallet of a vendor that has nothing waiting on the order. */
  lemma PassTouchesWaiting(l: LedgerState, o: Id, s: OrderState)
    requires Valid(l)
    ensures TouchesOnly(l, ReversedVendors(l, o, AutoReversals(s, 0)), o, AutoReversals(s, 0))
    ensures forall v :: v in AutoReversals(s, 0) ==> Waits(s.shipments, v)
  {
    VendorsReversed(l, o, AutoReversals(s, 0));
    PassNames(s, s, 0);
  }

  // ---------- Penalties ----------

  /**
    A penalty lowers only unreleased earnings of its vendor on its order, none below zero and none above what it
    was, and touches no other vendor's wallet.
   */
  lemma PenaltyTouchesOnly(l: LedgerState, o: Id, v: Id, amount: real)
    requires Valid(l) && amount >= 0.0
    ensures var l' := Penalized(l, o, v, amount);
      && |l'.earnings| == |l.earnings|
      && (forall i :: 0 <= i < |l.earnings| ==>
            var e, e' := l.earnings[i], l'.earnings[i];
            && e' == e.(net := e'.net) && 0.0 <= e'.net <= e.net
            && (e.order != o || e.vendor != v || e.released ==> e' == e))
      && l'.wallets.Keys == l.wallets.Keys
      && (forall u :: u in l.wallets && u != v ==> l'.wallets[u] == l.wallets[u])
  {
    forall i | 0 <= i < |l.earnings|
      ensures var e, e' := l.earnings[i], DockedAt(l.earnings, i, o, v, amount);
        0.0 <= e'.net <= e.net && (e.order != o || e.vendor != v || e.released ==> e' == e)
    {
      assert Sound(l.earnings[i], l.wallets);
    }
  }
}
