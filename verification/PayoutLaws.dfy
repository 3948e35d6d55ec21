/** When an order's earnings reach the vendors' balances, and how much, said by item prices and settings. */
module PayoutLaws {
  import opened Prelude
  import opened OrderTypes
  import opened EarningsLedger
  import opened LedgerLaws

  // ---------- What an item is worth ----------

  /** A price less the platform's commission: a flat amount, at most the price, or a percentage. */
  function AfterCommission(st: Settings, price: real): real {
    if st.fixedCommission then if price < st.flat then 0.0 else price - st.flat
    else price * (100.0 - st.percent) / 100.0
  }

  /** What `v` gets of an item when it confirms: the upfront percentage, if it is made to order. */
  function UpfrontShare(bespoke: bool, st: Settings, v: Id): Item -> real {
    (it: Item) =>
      if it.vendor == v && (bespoke || it.customized)
      then st.upfrontPercent / 100.0 * AfterCommission(st, it.totalPrice) else 0.0
  }

  /** The vendor whose fabric was sewn in, if it is to be paid for it. */
  function FabricVendor(fv: FabricVendors, it: Item): Option<Id> {
    match it.appliedFabric
    case None => None
    case Some(f) => if it.externalFabric > 0.0 && f in fv then Some(fv[f]) else None
  }

  /** All that `v` earns by an item, by selling it and by its fabric. */
  function Earned(st: Settings, fv: FabricVendors, v: Id): Item -> real {
    (it: Item) =>
      (if it.vendor == v then AfterCommission(st, it.totalPrice) else 0.0)
      + (if FabricVendor(fv, it) == Some(v) then AfterCommission(st, it.externalFabric) else 0.0)
  }

  // ---------- The earnings of an order ----------

  /** Recorded for order `o`, and neither dated nor released. */
  ghost predicate Fresh(e: Earning, o: Id) {
    e.order == o && !e.released && e.due == None && e.net >= 0.0
  }

  function UpfrontOf(v: Id): Earning -> real {
    (e: Earning) => if e.vendor == v && e.milestone == Upfront then e.net else 0.0
  }

  lemma CommissionLeaves(st: Settings, price: real)
    ensures price - Commission(st, price) == AfterCommission(st, price)
  {
  }

  lemma PercentIs(x: real, p: real)
    ensures PercentOf(x, p) == p / 100.0 * x && PercentOf(x, 0.0) == 0.0
  {
  }

  lemma GoodsUpfront(o: Id, bespoke: bool, st: Settings, it: Item, v: Id)
    requires ValidSettings(st)
    ensures Sum(GoodsEarnings(o, bespoke, st, it), UpfrontOf(v)) == UpfrontShare(bespoke, st, v)(it)
  {
    var es := GoodsEarnings(o, bespoke, st, it);
    var net := it.totalPrice - Commission(st, it.totalPrice);
    assert net == AfterCommission(st, it.totalPrice) by { CommissionLeaves(st, it.totalPrice); }
    PercentIs(net, st.upfrontPercent);
    if |es| == 2 {
      SumTwo(es[0], es[1], UpfrontOf(v));
    } else {
      SumOne(es[0], UpfrontOf(v));
      PercentIs(net, 0.0);
    }
  }

  lemma GoodsEarned(o: Id, bespoke: bool, st: Settings, it: Item, v: Id)
    requires ValidSettings(st) && ValidItem(it)
    ensures var es := GoodsEarnings(o, bespoke, st, it);
      && (forall e :: e in es ==> Fresh(e, o))
      && Sum(es, NetOf(v)) == (if it.vendor == v then AfterCommission(st, it.totalPrice) else 0.0)
  {
    var es := GoodsEarnings(o, bespoke, st, it);
    GoodsEarningsSplit(o, bespoke, st, it);
    CommissionLeaves(st, it.totalPrice);
    if it.vendor == v { SumAgree(es, NetOf(v), Net); } else { SumZero(es, NetOf(v)); }
  }

  lemma FabricEarned(o: Id, st: Settings, fv: FabricVendors, it: Item, v: Id)
    requires ValidSettings(st) && ValidItem(it)
    ensures var es := FabricEarnings(o, st, fv, it);
      && (forall e :: e in es ==> Fresh(e, o))
      && Sum(es, NetOf(v)) == (if FabricVendor(fv, it) == Some(v) then AfterCommission(st, it.externalFabric) else 0.0)
      && Sum(es, UpfrontOf(v)) == 0.0
  {
    var es := FabricEarnings(o, st, fv, it);
    FabricEarningsSplit(o, st, fv, it);
    CommissionLeaves(st, it.externalFabric);
    if es != [] {
      SumOne(es[0], NetOf(v));
      SumOne(es[0], UpfrontOf(v));
    }
  }

  lemma {:induction false} OrderEarned(o: Id, bespoke: bool, st: Settings, fv: FabricVendors, items: seq<Item>, v: Id)
    requires ValidSettings(st) && forall i :: 0 <= i < |items| ==> ValidItem(items[i])
    ensures var es := OrderEarnings(o, bespoke, st, fv, items);
      && (forall e :: e in es ==> Fresh(e, o))
      && Sum(es, NetOf(v)) == Sum(items, Earned(st, fv, v))
      && Sum(es, UpfrontOf(v)) == Sum(items, UpfrontShare(bespoke, st, v))
  {
    if items != [] {
      var n := |items| - 1;
      var before := OrderEarnings(o, bespoke, st, fv, items[..n]);
      var goods, fabric := GoodsEarnings(o, bespoke, st, items[n]), FabricEarnings(o, st, fv, items[n]);
      OrderEarned(o, bespoke, st, fv, items[..n], v);
      GoodsEarned(o, bespoke, st, items[n], v);
      GoodsUpfront(o, bespoke, st, items[n], v);
      FabricEarned(o, st, fv, items[n], v);
      SumConcat(before, goods + fabric, NetOf(v));
      SumConcat(goods, fabric, NetOf(v));
      SumConcat(before, goods + fabric, UpfrontOf(v));
      SumConcat(goods, fabric, UpfrontOf(v));
    }
  }

  // ---------- Recording, confirming, releasing, delivering, releasing ----------

  /** What a vendor gets by a release. */
  lemma ReleaseAdds(l: LedgerState, now: int, v: Id)
    requires forall e :: e in l.earnings ==> e.vendor in l.wallets
    ensures BalanceOf(Released(l, now).wallets, v) == BalanceOf(l.wallets, v) + Sum(l.earnings, DueOf(now, v))
  {
    if v !in l.wallets { SumZero(l.earnings, DueOf(now, v)); }
  }

  /** An order that is about to be recorded in a valid ledger. */
  ghost predicate Recordable(l: LedgerState, o: Id, st: Settings, items: seq<Item>) {
    && Valid(l) && ValidSettings(st) && (forall i :: 0 <= i < |items| ==> ValidItem(items[i]))
    && o in l.books && !l.books[o].recorded && !HasEarnings(l, o) && items != []
  }

  /** Earnings of other orders, followed by those of `o`. */
  ghost predicate Follows(l: LedgerState, others: seq<Earning>, own: seq<Earning>, o: Id) {
    && l.earnings == others + own && (forall e :: e in l.earnings ==> e.vendor in l.wallets)
    && (forall e :: e in others ==> e.order != o) && (forall e :: e in own ==> e.order == o)
  }

  function DatedAll(es: seq<Earning>, o: Id, v: Id, date: int): seq<Earning> {
    seq(|es|, i requires 0 <= i < |es| => Dated(es[i], o, v, date))
  }

  function DatedOnDeliveryAll(es: seq<Earning>, o: Id, date: int): seq<Earning> {
    seq(|es|, i requires 0 <= i < |es| => DatedOnDelivery(es[i], o, date))
  }

  lemma RecordedFollows(l: LedgerState, o: Id, bespoke: bool, st: Settings, fv: FabricVendors, items: seq<Item>)
    requires Recordable(l, o, st, items)
    ensures Follows(Recorded(l, o, bespoke, st, fv, items), l.earnings, OrderEarnings(o, bespoke, st, fv, items), o)
    ensures forall v :: BalanceOf(Recorded(l, o, bespoke, st, fv, items).wallets, v) == BalanceOf(l.wallets, v)
  {
    RecordedValid(l, o, bespoke, st, fv, items);
    RecordingConserves(l, o, bespoke, st, fv, items);
    OrderEarned(o, bespoke, st, fv, items, 0);
    var l' := Recorded(l, o, bespoke, st, fv, items);
    forall e | e in l'.earnings ensures e.vendor in l'.wallets {
      var i :| 0 <= i < |l'.earnings| && l'.earnings[i] == e;
      assert Sound(l'.earnings[i], l'.wallets);
    }
    forall e | e in l.earnings ensures e.order != o {
      var i :| 0 <= i < |l.earnings| && l.earnings[i] == e;
    }
  }

  lemma ScheduledFollows(l: LedgerState, others: seq<Earning>, own: seq<Earning>, o: Id, v: Id, date: int)
    requires Follows(l, others, own, o)
    ensures Follows(Scheduled(l, o, v, date), others, DatedAll(own, o, v, date), o)
  {
    var es := Scheduled(l, o, v, date).earnings;
    assert es == others + DatedAll(own, o, v, date);
    forall e | e in es ensures e.vendor in l.wallets {
      var i :| 0 <= i < |es| && es[i] == e;
      assert l.earnings[i] in l.earnings;
    }
    forall e | e in DatedAll(own, o, v, date) ensures e.order == o {
      var i :| 0 <= i < |own| && e == Dated(own[i], o, v, date);
    }
  }

  lemma DeliveredFollows(l: LedgerState, others: seq<Earning>, own: seq<Earning>, o: Id, date: int)
    requires Follows(l, others, own, o)
    ensures Follows(Delivered(l, o, date), others, DatedOnDeliveryAll(own, o, date), o)
  {
    var es := Delivered(l, o, date).earnings;
    assert es == others + DatedOnDeliveryAll(own, o, date);
    forall e | e in es ensures e.vendor in l.wallets {
      var i :| 0 <= i < |es| && es[i] == e;
      assert l.earnings[i] in l.earnings;
    }
    forall e | e in DatedOnDeliveryAll(own, o, date) ensures e.order == o {
      var i :| 0 <= i < |own| && e == DatedOnDelivery(own[i], o, date);
    }
  }

  lemma ReleasedFollows(l: LedgerState, others: seq<Earning>, own: seq<Earning>, o: Id, now: int)
    requires Follows(l, others, own, o)
    ensures Follows(Released(l, now), AllPaid(others, now), AllPaid(own, now), o)
    ensures forall v ::
      BalanceOf(Released(l, now).wallets, v)
      == BalanceOf(l.wallets, v) + Sum(others, DueOf(now, v)) + Sum(own, DueOf(now, v))
  {
    var es := Released(l, now).earnings;
    assert es == AllPaid(others, now) + AllPaid(own, now);
    forall e | e in es ensures e.vendor in l.wallets {
      var i :| 0 <= i < |es| && es[i] == e;
      assert l.earnings[i] in l.earnings;
    }
    forall e | e in AllPaid(others, now) ensures e.order != o {
      var i :| 0 <= i < |others| && e == Paid(others[i], now);
    }
    forall e | e in AllPaid(own, now) ensures e.order == o {
      var i :| 0 <= i < |own| && e == Paid(own[i], now);
    }
    forall v
      ensures BalanceOf(Released(l, now).wallets, v)
        == BalanceOf(l.wallets, v) + Sum(others, DueOf(now, v)) + Sum(own, DueOf(now, v))
    {
      ReleaseAdds(l, now, v);
      SumConcat(others, own, DueOf(now, v));
    }
  }

  // ---------- What the order's own earnings pay ----------

  lemma UndatedPaysNothing(own: seq<Earning>, o: Id, now: int, v: Id)
    requires forall e :: e in own ==> Fresh(e, o)
    ensures Sum(own, DueOf(now, v)) == 0.0
  {
    SumZero(own, DueOf(now, v));
  }

  lemma DatedPays(own: seq<Earning>, o: Id, v: Id, date: int, now: int, u: Id)
    requires forall e :: e in own ==> Fresh(e, o)
    ensures Sum(DatedAll(own, o, v, date), DueOf(now, u))
      == if u == v && date <= now then Sum(own, UpfrontOf(v)) else 0.0
  {
    var dated := DatedAll(own, o, v, date);
    if u == v && date <= now {
      forall i | 0 <= i < |own| ensures DueOf(now, u)(dated[i]) == UpfrontOf(v)(own[i]) { assert own[i] in own; }
      SumSame(dated, own, DueOf(now, u), UpfrontOf(v));
    } else {
      forall e | e in dated ensures DueOf(now, u)(e) == 0.0 {
        var i :| 0 <= i < |own| && e == Dated(own[i], o, v, date);
        assert own[i] in own;
      }
      SumZero(dated, DueOf(now, u));
    }
  }

  /** The earnings after confirmation, a release, and delivery. */
  function DeliveredOwn(own: seq<Earning>, o: Id, v: Id, date: int, now: int, date': int): seq<Earning> {
    DatedOnDeliveryAll(AllPaid(DatedAll(own, o, v, date), now), o, date')
  }

  /** What `u` got of an earning on the confirmation of `v`. */
  function PaidBefore(v: Id, u: Id): Earning -> real {
    (e: Earning) => if u == v && e.vendor == v && e.milestone == Upfront then e.net else 0.0
  }

  lemma OneDelivered(e: Earning, o: Id, v: Id, date: int, now: int, date': int, now': int, u: Id)
    requires Fresh(e, o) && date <= now <= now' && date' <= now'
    ensures DueOf(now', u)(DatedOnDelivery(Paid(Dated(e, o, v, date), now), o, date'))
         == NetOf(u)(e) - PaidBefore(v, u)(e)
  {
    if e.milestone == Upfront && e.vendor == v {
      assert Dated(e, o, v, date) == e.(due := Some(date));
    } else {
      assert Dated(e, o, v, date) == e && Paid(e, now) == e;
    }
  }

  lemma DeliveryPaysRest(own: seq<Earning>, o: Id, v: Id, date: int, now: int, date': int, now': int, u: Id)
    requires (forall e :: e in own ==> Fresh(e, o)) && date <= now <= now'
    ensures Sum(DeliveredOwn(own, o, v, date, now, date'), DueOf(now', u))
      == if date' <= now' then Sum(own, NetOf(u)) - (if u == v then Sum(own, UpfrontOf(v)) else 0.0) else 0.0
  {
    var late := DeliveredOwn(own, o, v, date, now, date');
    if date' <= now' {
      forall i | 0 <= i < |own|
        ensures DueOf(now', u)(late[i]) == NetOf(u)(own[i]) - PaidBefore(v, u)(own[i])
      {
        assert own[i] in own;
        OneDelivered(own[i], o, v, date, now, date', now', u);
      }
      SumSplits(late, own, DueOf(now', u), NetOf(u), PaidBefore(v, u));
      if u == v { SumAgree(own, PaidBefore(v, u), UpfrontOf(v)); } else { SumZero(own, PaidBefore(v, u)); }
    } else {
      forall e | e in late ensures DueOf(now', u)(e) == 0.0 {
        var i :| 0 <= i < |own| && e == late[i];
        assert own[i] in own;
      }
      SumZero(late, DueOf(now', u));
    }
  }

  lemma {:induction false} SumSplits<S, T>(s: seq<S>, t: seq<T>, f: S -> real, g: T -> real, h: T -> real)
    requires |s| == |t| && forall i :: 0 <= i < |s| ==> f(s[i]) == g(t[i]) - h(t[i])
    ensures Sum(s, f) == Sum(t, g) - Sum(t, h)
  {
    if s != [] { SumSplits(s[..|s| - 1], t[..|t| - 1], f, g, h); }
  }

  // ---------- The payouts of an order ----------

  /** Before its vendor confirms, nothing of an order is paid out, whatever is released. */
  lemma NothingBeforeConfirmation(l: LedgerState, o: Id, bespoke: bool, st: Settings, fv: FabricVendors,
                                  items: seq<Item>, now: int, u: Id)
    requires Recordable(l, o, st, items)
    ensures BalanceOf(Released(Recorded(l, o, bespoke, st, fv, items), now).wallets, u)
         == BalanceOf(Released(l, now).wallets, u)
  {
    var l0, own := Recorded(l, o, bespoke, st, fv, items), OrderEarnings(o, bespoke, st, fv, items);
    RecordedFollows(l, o, bespoke, st, fv, items);
    OrderEarned(o, bespoke, st, fv, items, u);
    ReleasedFollows(l0, l.earnings, own, o, now);
    UndatedPaysNothing(own, o, now, u);
    ValidVendors(l);
    ReleaseAdds(l, now, u);
  }

  lemma ValidVendors(l: LedgerState)
    requires Valid(l)
    ensures forall e :: e in l.earnings ==> e.vendor in l.wallets
  {
    forall e | e in l.earnings ensures e.vendor in l.wallets {
      var i :| 0 <= i < |l.earnings| && l.earnings[i] == e;
      assert Sound(l.earnings[i], l.wallets);
    }
  }

  /**
    A vendor that confirms gets, at the date set then and not before, the upfront percentage of its made-to-order
    items after commission, and nothing for other items or for fabric; no other vendor gets anything.
   */
  lemma ConfirmationPays(l: LedgerState, o: Id, bespoke: bool, st: Settings, fv: FabricVendors, items: seq<Item>,
                         v: Id, date: int, now: int, u: Id)
    requires Recordable(l, o, st, items)
    ensures var confirmed := Scheduled(Recorded(l, o, bespoke, st, fv, items), o, v, date);
      BalanceOf(Released(confirmed, now).wallets, u)
      == BalanceOf(Released(l, now).wallets, u)
         + if u == v && date <= now then Sum(items, UpfrontShare(bespoke, st, v)) else 0.0
  {
    var l0, own := Recorded(l, o, bespoke, st, fv, items), OrderEarnings(o, bespoke, st, fv, items);
    RecordedFollows(l, o, bespoke, st, fv, items);
    OrderEarned(o, bespoke, st, fv, items, v);
    ScheduledFollows(l0, l.earnings, own, o, v, date);
    ReleasedFollows(Scheduled(l0, o, v, date), l.earnings, DatedAll(own, o, v, date), o, now);
    DatedPays(own, o, v, date, now, u);
    ValidVendors(l);
    ReleaseAdds(l, now, u);
  }

  /**
    Once everything is delivered, every vendor gets the rest at the date set then and not before: in all, what its
    items and its fabric earn after commission.
   */
  lemma DeliveryPays(l: LedgerState, o: Id, bespoke: bool, st: Settings, fv: FabricVendors, items: seq<Item>,
                     v: Id, date: int, now: int, date': int, now': int, u: Id)
    requires Recordable(l, o, st, items) && date <= now <= now'
    ensures var confirmed := Released(Scheduled(Recorded(l, o, bespoke, st, fv, items), o, v, date), now);
      BalanceOf(Released(Delivered(confirmed, o, date'), now').wallets, u)
      == BalanceOf(Released(Released(l, now), now').wallets, u)
         + if date' <= now' then Sum(items, Earned(st, fv, u))
           else if u == v then Sum(items, UpfrontShare(bespoke, st, v)) else 0.0
  {
    var l0, own := Recorded(l, o, bespoke, st, fv, items), OrderEarnings(o, bespoke, st, fv, items);
    var dated := DatedAll(own, o, v, date);
    RecordedFollows(l, o, bespoke, st, fv, items);
    OrderEarned(o, bespoke, st, fv, items, v);
    OrderEarned(o, bespoke, st, fv, items, u);
    ScheduledFollows(l0, l.earnings, own, o, v, date);
    var l1 := Scheduled(l0, o, v, date);
    ReleasedFollows(l1, l.earnings, dated, o, now);
    DeliveredFollows(Released(l1, now), AllPaid(l.earnings, now), AllPaid(dated, now), o, date');
    ReleasedFollows(Delivered(Released(l1, now), o, date'), AllPaid(l.earnings, now),
                    DeliveredOwn(own, o, v, date, now, date'), o, now');
    DeliveryPaysRest(own, o, v, date, now, date', now', u);
    ConfirmationPays(l, o, bespoke, st, fv, items, v, date, now, u);
    ReleasedValid(l, now);
    ValidVendors(Released(l, now));
    ReleaseAdds(Released(l, now), now', u);
  }
}
