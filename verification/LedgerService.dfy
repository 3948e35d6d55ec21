/** The earnings ledger as the services run it: loops that update earnings and wallets in place. */
module LedgerService {
  import opened Prelude
  import opened OrderTypes
  import opened EarningsLedger
  import opened LedgerLaws

  class Ledger {
    var earnings: seq<Earning>
    var wallets: map<Id, Wallet>
    var books: map<Id, Books>

    function State(): LedgerState
      reads this
    {
      LedgerState(earnings, wallets, books)
    }

    constructor (books: map<Id, Books>)
      ensures State() == LedgerState([], map[], books) && EarningsLedger.Valid(State())
    {
      this.earnings, this.wallets, this.books := [], map[], books;
    }

    /** Signed adjustment of a vendor's wallet, floored at zero; a vendor without a wallet is skipped. */
    method Reconcile(v: Id, pendingDelta: real, balanceDelta: real)
      modifies this`wallets
      ensures wallets == if (pendingDelta == 0.0 && balanceDelta == 0.0) || v !in old(wallets) then old(wallets)
        else old(wallets)[v := Wallet(Max0(old(wallets)[v].balance + balanceDelta),
                                      Max0(old(wallets)[v].pending + pendingDelta))]
      ensures v in old(wallets) && old(wallets)[v].balance >= 0.0 && old(wallets)[v].pending >= 0.0 ==>
        wallets == old(wallets)[v := Wallet(Max0(old(wallets)[v].balance + balanceDelta),
                                            Max0(old(wallets)[v].pending + pendingDelta))]
    {
      if (pendingDelta == 0.0 && balanceDelta == 0.0) || v !in wallets { return; }
      var w := wallets[v];
      wallets := wallets[v := Wallet(Max0(w.balance + balanceDelta), Max0(w.pending + pendingDelta))];
    }

    /** Atomic increment of a wallet, creating it if it is missing. */
    method Increment(v: Id, balanceDelta: real, pendingDelta: real)
      modifies this`wallets
      ensures wallets == old(wallets)[v := Wallet(BalanceOf(old(wallets), v) + balanceDelta,
                                                  PendingOf(old(wallets), v) + pendingDelta)]
    {
      wallets := wallets[v := Wallet(BalanceOf(wallets, v) + balanceDelta, PendingOf(wallets, v) + pendingDelta)];
    }

    // The earnings of an item's own vendor, in milestones if the item is made to order.
    method RecordGoods(o: Id, bespoke: bool, st: Settings, it: Item) returns (net: real, commission: real)
      requires ValidSettings(st) && ValidItem(it)
      modifies this`earnings, this`wallets
      ensures var es := GoodsEarnings(o, bespoke, st, it);
        && earnings == old(earnings) + es && wallets == Credited(old(wallets), es)
        && net == Sum(es, Net) && commission == Sum(es, CommissionPart)
    {
      var gross := it.totalPrice;
      commission := Commission(st, gross);
      net := gross - commission;
      var u := st.upfrontPercent;
      if (bespoke || it.customized) && u > 0.0 {
        var upfrontNet := PercentOf(net, u);
        earnings := earnings + [Earning(it.vendor, o, Some(it.id), PercentOf(gross, u), PercentOf(commission, u),
                                        upfrontNet, false, None, Upfront)];
        earnings := earnings + [Earning(it.vendor, o, Some(it.id), PercentOf(gross, 100.0 - u),
                                        PercentOf(commission, 100.0 - u), net - upfrontNet, false, None, Completion)];
      } else {
        earnings := earnings + [Earning(it.vendor, o, Some(it.id), gross, commission, net, false, None, Completion)];
      }
      Increment(it.vendor, 0.0, net);
      GoodsEarningsSplit(o, bespoke, st, it);
      CreditOne(old(wallets), GoodsEarnings(o, bespoke, st, it), it.vendor);
    }

    // The separate earning of the vendor whose fabric the customer applied to the item.
    method RecordFabric(o: Id, st: Settings, fv: FabricVendors, it: Item) returns (net: real, commission: real)
      modifies this`earnings, this`wallets
      ensures var es := FabricEarnings(o, st, fv, it);
        && earnings == old(earnings) + es && wallets == Credited(old(wallets), es)
        && net == Sum(es, Net) && commission == Sum(es, CommissionPart)
    {
      net, commission := 0.0, 0.0;
      if it.externalFabric > 0.0 && it.appliedFabric.Some? && it.appliedFabric.value in fv {
        var vendor := fv[it.appliedFabric.value];
        commission := Commission(st, it.externalFabric);
        net := it.externalFabric - commission;
        earnings := earnings + [Earning(vendor, o, Some(it.id), it.externalFabric, commission, net,
                                        false, None, Completion)];
        Increment(vendor, 0.0, net);
        ghost var es := FabricEarnings(o, st, fv, it);
        SumAppend([], es[0], Net);
        SumAppend([], es[0], CommissionPart);
        assert es == [] + [es[0]];
        CreditOne(old(wallets), es, vendor);
      } else {
        CreditNone(wallets);
      }
    }

    method RecordItem(o: Id, bespoke: bool, st: Settings, fv: FabricVendors, it: Item)
      returns (net: real, commission: real)
      requires ValidSettings(st) && ValidItem(it)
      modifies this`earnings, this`wallets
      ensures var es := ItemEarnings(o, bespoke, st, fv, it);
        && earnings == old(earnings) + es && wallets == Credited(old(wallets), es)
        && net == Sum(es, Net) && commission == Sum(es, CommissionPart)
    {
      ghost var goods, fabric := GoodsEarnings(o, bespoke, st, it), FabricEarnings(o, st, fv, it);
      var goodsNet, goodsCommission := RecordGoods(o, bespoke, st, it);
      var fabricNet, fabricCommission := RecordFabric(o, st, fv, it);
      CreditTwice(old(wallets), goods, fabric);
      SumConcat(goods, fabric, Net);
      SumConcat(goods, fabric, CommissionPart);
      assert old(earnings) + goods + fabric == old(earnings) + (goods + fabric);
      net, commission := goodsNet + fabricNet, goodsCommission + fabricCommission;
    }

    /** Records an order's earnings unless the order has been claimed for recording before. */
    method Record(o: Id, bespoke: bool, st: Settings, fv: FabricVendors, items: seq<Item>)
      requires ValidSettings(st) && forall i :: 0 <= i < |items| ==> ValidItem(items[i])
      modifies this
      ensures State() == Recorded(old(State()), o, bespoke, st, fv, items)
    {
      if o !in books || books[o].recorded { return; }
      books := books[o := books[o].(recorded := true)];
      if (exists i :: 0 <= i < |earnings| && earnings[i].order == o) || items == [] { return; }

      var totalNet, totalCommission := RecordItems(o, bespoke, st, fv, items);
      books := books[o := books[o].(vendorEarnings := totalNet, commission := totalCommission)];
    }

    method RecordItems(o: Id, bespoke: bool, st: Settings, fv: FabricVendors, items: seq<Item>)
      returns (totalNet: real, totalCommission: real)
      requires ValidSettings(st) && forall i :: 0 <= i < |items| ==> ValidItem(items[i])
      modifies this`earnings, this`wallets
      ensures var es := OrderEarnings(o, bespoke, st, fv, items);
        && earnings == old(earnings) + es && wallets == Credited(old(wallets), es)
        && totalNet == Sum(es, Net) && totalCommission == Sum(es, CommissionPart)
    {
      ghost var es := [];
      totalNet, totalCommission := 0.0, 0.0;
      CreditNone(wallets);
      for i := 0 to |items|
        invariant es == OrderEarnings(o, bespoke, st, fv, items[..i])
        invariant earnings == old(earnings) + es && wallets == Credited(old(wallets), es)
        invariant totalNet == Sum(es, Net) && totalCommission == Sum(es, CommissionPart)
      {
        ghost var more := ItemEarnings(o, bespoke, st, fv, items[i]);
        assert OrderEarnings(o, bespoke, st, fv, items[..i + 1]) == es + more by {
          assert items[..i + 1][..i] == items[..i];
        }
        var net, commission := RecordItem(o, bespoke, st, fv, items[i]);
        CreditTwice(old(wallets), es, more);
        AppendAssociates(old(earnings), es, more);
        SumConcat(es, more, Net);
        SumConcat(es, more, CommissionPart);
        totalNet, totalCommission := totalNet + net, totalCommission + commission;
        es := es + more;
      }
      assert items[..|items|] == items;
    }

    // Claims one earning and credits it, if it is due.
    method ReleaseOne(i: nat, now: int)
      requires i < |earnings|
      modifies this`earnings, this`wallets
      ensures earnings == old(earnings)[i := Paid(old(earnings)[i], now)]
      ensures wallets == PaidOut(old(wallets), old(earnings)[i], now)
    {
      var e := earnings[i];
      if e.released || e.due.None? || e.due.value > now { return; }
      if e.net == 0.0 { return; }
      earnings := earnings[i := e.(released := true)];
      Increment(e.vendor, e.net, -e.net);
    }

    /** One run of the release cron, alone: every due earning is claimed and credited. */
    method ReleaseFunds(now: int)
      requires EarningsLedger.Valid(State())
      modifies this`earnings, this`wallets
      ensures State() == Released(old(State()), now)
    {
      ghost var l := State();
      ReleaseStarts(l, now);
      for i := 0 to |earnings|
        invariant |earnings| == |l.earnings| && ReleasedUpTo(l, now, i, earnings, wallets)
      {
        ReleaseStep(l, now, i, earnings, wallets);
        ReleaseOne(i, now);
      }
      ReleaseEnds(l, now, earnings, wallets);
    }

    /** Dates the vendor's upfront earnings of a confirmed order. */
    method ScheduleUpfront(o: Id, v: Id, date: int)
      requires EarningsLedger.Valid(State())
      modifies this`earnings
      ensures State() == Scheduled(old(State()), o, v, date) && EarningsLedger.Valid(State())
    {
      ScheduledValid(State(), o, v, date);
      earnings := seq(|earnings|, i requires 0 <= i < |earnings| reads this => Dated(earnings[i], o, v, date));
    }

    /** Dates what is left of the earnings of a delivered order. */
    method ScheduleOnDelivery(o: Id, date: int)
      requires EarningsLedger.Valid(State())
      modifies this`earnings
      ensures State() == Delivered(old(State()), o, date) && EarningsLedger.Valid(State())
    {
      DeliveredValid(State(), o, date);
      earnings := seq(|earnings|, i requires 0 <= i < |earnings| reads this => DatedOnDelivery(earnings[i], o, date));
    }

    // Unreleased earnings in the scope: take them off the vendor's pending money and delete them.
    method DeleteUnreleased(sc: Scope)
      requires EarningsLedger.Valid(State())
      modifies this`earnings, this`wallets
      ensures earnings == Dropped(old(earnings), {sc})
      ensures wallets == DebitedPending(old(wallets), old(earnings), {sc})
    {
      ghost var l := State();
      DebitStarts(l, sc);
      var kept := [];
      for i := 0 to |earnings|
        invariant earnings == l.earnings && DebitedUpTo(l, sc, i, kept, wallets)
      {
        DebitStep(l, sc, i, kept, wallets);
        kept := DeleteOne(sc, i, kept);
      }
      earnings := kept;
      assert l.earnings[..|l.earnings|] == l.earnings;
    }

    method DeleteOne(sc: Scope, i: nat, kept: seq<Earning>) returns (kept': seq<Earning>)
      requires i < |earnings| && Sound(earnings[i], wallets)
      requires wallets[earnings[i].vendor].balance >= 0.0 && wallets[earnings[i].vendor].pending >= 0.0
      modifies this`wallets
      ensures var e := earnings[i];
        && kept' == (if Covers(sc, e) && !e.released then kept else kept + [e])
        && wallets == if Covers(sc, e) && !e.released
           then old(wallets)[e.vendor :=
                             Wallet(old(wallets)[e.vendor].balance, Max0(old(wallets)[e.vendor].pending - e.net))]
           else old(wallets)
    {
      var e := earnings[i];
      kept' := kept;
      if Covers(sc, e) && !e.released {
        Reconcile(e.vendor, -e.net, 0.0);
      } else {
        kept' := kept + [e];
      }
    }

    method ClawBackOne(sc: Scope, i: nat)
      requires i < |earnings| && Sound(earnings[i], wallets)
      requires wallets[earnings[i].vendor].balance >= 0.0 && wallets[earnings[i].vendor].pending >= 0.0
      modifies this`earnings, this`wallets
      ensures var e := old(earnings)[i];
        && earnings == old(earnings)[i := if Covers(sc, e) && e.released then e.(net := 0.0) else e]
        && wallets == if Covers(sc, e) && e.released
           then old(wallets)[e.vendor :=
                             Wallet(Max0(old(wallets)[e.vendor].balance - e.net), old(wallets)[e.vendor].pending)]
           else old(wallets)
    {
      var e := earnings[i];
      if Covers(sc, e) && e.released {
        Reconcile(e.vendor, 0.0, -e.net);
        earnings := earnings[i := e.(net := 0.0)];
      }
    }

    // Released earnings in the scope: claw the money back from the balance and leave nothing on them.
    method ClawBackReleased(sc: Scope)
      requires forall i :: 0 <= i < |earnings| ==> Sound(earnings[i], wallets)
      requires forall v :: v in wallets ==> wallets[v].balance >= 0.0 && wallets[v].pending >= 0.0
      modifies this`earnings, this`wallets
      ensures earnings == Zeroed(old(earnings), {sc})
      ensures wallets == ClawedBalances(old(wallets), old(earnings), {sc})
    {
      ghost var es, ws := earnings, wallets;
      ClawStarts(es, ws, sc);
      for i := 0 to |earnings|
        invariant |earnings| == |es| && ClawedUpTo(es, ws, sc, i, earnings, wallets)
      {
        ClawStep(es, ws, sc, i, earnings, wallets);
        ClawBackOne(sc, i);
      }
      ClawEnds(es, ws, sc, earnings, wallets);
    }

    /** Reverses the earnings in `sc`: unreleased ones are deleted, released ones clawed back. */
    method Reverse(sc: Scope)
      requires EarningsLedger.Valid(State())
      modifies this
      ensures State() == Reversed(old(State()), {sc})
      ensures EarningsLedger.Valid(State())
    {
      ReversedValid(State(), {sc});
      DroppedSound(State(), {sc});
      ReversedInHalves(State(), {sc});
      DeleteUnreleased(sc);
      ClawBackReleased(sc);
      if sc.vendor.None? && sc.item.None? && sc.order in books {
        books := books[sc.order := books[sc.order].(vendorEarnings := 0.0, commission := 0.0)];
      }
      assert forall id :: Scope(id, None, None) in {sc} <==> sc == Scope(id, None, None);
      assert books == ReversedBooks(old(books), {sc});
    }

    // Takes what the earning at `i` can give towards the remaining penalty.
    method TakeOne(ghost l: LedgerState, o: Id, v: Id, ghost amount: real, i: nat, due: real) returns (remaining: real)
      requires i < |earnings| && EarningsLedger.Valid(l) && amount >= 0.0 && due > 0.0
      requires TakenUpTo(l, o, v, amount, i, earnings, wallets, due)
      modifies this`earnings, this`wallets
      ensures |earnings| == |old(earnings)| && TakenUpTo(l, o, v, amount, i + 1, earnings, wallets, remaining)
    {
      TakeStep(l, o, v, amount, i, earnings, wallets, due);
      TakeNothing(earnings, i, wallets, v);
      var e := earnings[i];
      remaining := due;
      if e.order == o && e.vendor == v && !e.released {
        var take := Min(due, e.net);
        if take > 0.0 {
          earnings := earnings[i := e.(net := e.net - take)];
          Reconcile(v, -take, 0.0);
          remaining := due - take;
        }
      }
    }

    // Takes as much of a penalty as the order's open earnings hold.
    method TakeFromOpen(o: Id, v: Id, amount: real) returns (remaining: real)
      requires EarningsLedger.Valid(State()) && amount >= 0.0
      modifies this`earnings, this`wallets
      ensures earnings == Docked(old(earnings), o, v, amount)
      ensures wallets == DebitedFor(old(wallets), v, amount - remaining)
      ensures remaining == Max0(amount - Sum(old(earnings), OpenFor(o, v)))
    {
      ghost var l := State();
      var i;
      i, remaining := TakeUntilMet(o, v, amount);
      TakeEnds(l, o, v, amount, i, earnings, wallets, remaining);
    }

    method TakeUntilMet(o: Id, v: Id, amount: real) returns (i: nat, remaining: real)
      requires EarningsLedger.Valid(State()) && amount >= 0.0
      modifies this`earnings, this`wallets
      ensures TakenUpTo(old(State()), o, v, amount, i, earnings, wallets, remaining)
      ensures i == |earnings| || remaining <= 0.0
    {
      ghost var l := State();
      i, remaining := 0, amount;
      TakeStarts(l, o, v, amount);
      while i < |earnings| && remaining > 0.0
        invariant i <= |earnings|
        invariant TakenUpTo(l, o, v, amount, i, earnings, wallets, remaining)
      {
        remaining := TakeOne(l, o, v, amount, i, remaining);
        i := i + 1;
      }
    }

    /** Takes a late penalty from the vendor: open earnings of the order first, then the balance. */
    method Dock(o: Id, v: Id, amount: real)
      requires EarningsLedger.Valid(State()) && amount >= 0.0
      modifies this`earnings, this`wallets
      ensures State() == Penalized(old(State()), o, v, amount)
      ensures EarningsLedger.Valid(State())
    {
      PenalizedValid(State(), o, v, amount);
      assert v in wallets ==> Balanced(State(), v);
      var remaining := TakeFromOpen(o, v, amount);
      if remaining > 0.0 {
        Reconcile(v, 0.0, -remaining);
      }
    }
  }

  // ---------- What each loop has done after `i` earnings ----------

  ghost predicate ReleasedUpTo(l: LedgerState, now: int, i: nat, es: seq<Earning>, ws: map<Id, Wallet>) {
    && i <= |l.earnings| == |es|
    && (forall j :: 0 <= j < |es| ==> es[j] == if j < i then Paid(l.earnings[j], now) else l.earnings[j])
    && ws == PaidWallets(l.wallets, l.earnings[..i], now)
  }

  lemma ReleaseStarts(l: LedgerState, now: int)
    ensures ReleasedUpTo(l, now, 0, l.earnings, l.wallets)
  {
  }

  /** The wallets after paying out an earning that is due. */
  function PaidOut(ws: map<Id, Wallet>, e: Earning, now: int): map<Id, Wallet> {
    if !Due(e, now) then ws
    else ws[e.vendor := Wallet(BalanceOf(ws, e.vendor) + e.net, PendingOf(ws, e.vendor) - e.net)]
  }

  lemma PaidOutNext(wallets: map<Id, Wallet>, es: seq<Earning>, now: int, i: nat)
    requires i < |es| && es[i].vendor in wallets
    ensures PaidOut(PaidWallets(wallets, es[..i], now), es[i], now) == PaidWallets(wallets, es[..i + 1], now)
  {
    var before, after := PaidWallets(wallets, es[..i], now), PaidWallets(wallets, es[..i + 1], now);
    assert es[..i + 1][..i] == es[..i];
    forall v | v in wallets ensures PaidOut(before, es[i], now)[v] == after[v] {
      assert Sum(es[..i + 1], DueOf(now, v)) == Sum(es[..i], DueOf(now, v)) + DueOf(now, v)(es[i]);
    }
  }

  lemma ReleaseStep(l: LedgerState, now: int, i: nat, es: seq<Earning>, ws: map<Id, Wallet>)
    requires EarningsLedger.Valid(l) && ReleasedUpTo(l, now, i, es, ws) && i < |es|
    ensures ReleasedUpTo(l, now, i + 1, es[i := Paid(es[i], now)], PaidOut(ws, es[i], now))
  {
    assert Sound(l.earnings[i], l.wallets);
    PaidOutNext(l.wallets, l.earnings, now, i);
  }

  lemma ReleaseEnds(l: LedgerState, now: int, es: seq<Earning>, ws: map<Id, Wallet>)
    requires ReleasedUpTo(l, now, |es|, es, ws)
    ensures es == AllPaid(l.earnings, now) && ws == PaidWallets(l.wallets, l.earnings, now)
  {
    assert l.earnings[..|l.earnings|] == l.earnings;
  }

  ghost predicate DebitedUpTo(l: LedgerState, sc: Scope, i: nat, kept: seq<Earning>, ws: map<Id, Wallet>) {
    i <= |l.earnings| && kept == Dropped(l.earnings[..i], {sc})
        && ws == DebitedPending(l.wallets, l.earnings[..i], {sc})
  }

  lemma DebitStarts(l: LedgerState, sc: Scope)
    ensures DebitedUpTo(l, sc, 0, [], l.wallets)
  {
  }

  lemma DebitStep(l: LedgerState, sc: Scope, i: nat, kept: seq<Earning>, ws: map<Id, Wallet>)
    requires EarningsLedger.Valid(l) && DebitedUpTo(l, sc, i, kept, ws) && i < |l.earnings|
    ensures var e := l.earnings[i];
      && Sound(e, ws) && ws[e.vendor].balance >= 0.0 && ws[e.vendor].pending >= 0.0
      && DebitedUpTo(l, sc, i + 1,
           if Covers(sc, e) && !e.released then kept else kept + [e],
           if Covers(sc, e) && !e.released
           then ws[e.vendor := Wallet(ws[e.vendor].balance, Max0(ws[e.vendor].pending - e.net))] else ws)
  {
    var e := l.earnings[i];
    assert Sound(e, l.wallets) && l.wallets[e.vendor].balance >= 0.0 by {
      assert Sound(e, l.wallets) && Balanced(l, e.vendor);
    }
    OpenWithinPending(l, {sc}, i, e.vendor);
    OpenWithinPending(l, {sc}, i + 1, e.vendor);
    assert l.earnings[..i + 1][..i] == l.earnings[..i];
    assert CoveredBy({sc}, e) == Covers(sc, e);
    var ws' := if Covers(sc, e) && !e.released
      then ws[e.vendor := Wallet(ws[e.vendor].balance, Max0(ws[e.vendor].pending - e.net))] else ws;
    forall v | v in l.wallets ensures ws'[v] == DebitedPending(l.wallets, l.earnings[..i + 1], {sc})[v] {
      OpenAppend(l.earnings, sc, i, v);
    }
  }

  lemma OpenAppend(es: seq<Earning>, sc: Scope, i: nat, v: Id)
    requires i < |es|
    ensures Sum(es[..i + 1], OpenIn({sc}, v))
         == Sum(es[..i], OpenIn({sc}, v)) + if es[i].vendor == v && Covers(sc, es[i])
             && !es[i].released then es[i].net else 0.0
  {
    assert es[..i + 1][..i] == es[..i];
    assert CoveredBy({sc}, es[i]) == Covers(sc, es[i]);
  }

  ghost predicate ClawedUpTo(es0: seq<Earning>, ws0: map<Id, Wallet>, sc: Scope, i: nat,
                             es: seq<Earning>, ws: map<Id, Wallet>) {
    && i <= |es0| == |es|
    && (forall j :: 0 <= j < |es| ==> es[j] == if j < i then ClawedBack(es0[j], {sc}) else es0[j])
    && ws == ClawedBalances(ws0, es0[..i], {sc})
  }

  lemma ClawStarts(es: seq<Earning>, ws: map<Id, Wallet>, sc: Scope)
    requires forall v :: v in ws ==> ws[v].balance >= 0.0
    ensures ClawedUpTo(es, ws, sc, 0, es, ws)
  {
  }

  lemma ClawStep(es0: seq<Earning>, ws0: map<Id, Wallet>, sc: Scope, i: nat, es: seq<Earning>, ws: map<Id, Wallet>)
    requires ClawedUpTo(es0, ws0, sc, i, es, ws) && i < |es|
    requires forall j :: 0 <= j < |es0| ==> Sound(es0[j], ws0)
    requires forall v :: v in ws0 ==> ws0[v].balance >= 0.0 && ws0[v].pending >= 0.0
    ensures var e := es[i];
      && Sound(e, ws) && ws[e.vendor].balance >= 0.0 && ws[e.vendor].pending >= 0.0
      && ClawedUpTo(es0, ws0, sc, i + 1,
           es[i := if Covers(sc, e) && e.released then e.(net := 0.0) else e],
           if Covers(sc, e) && e.released
           then ws[e.vendor := Wallet(Max0(ws[e.vendor].balance - e.net), ws[e.vendor].pending)] else ws)
  {
    var e := es0[i];
    assert Sound(e, ws0) && CoveredBy({sc}, e) == Covers(sc, e);
    var ws' := if Covers(sc, e) && e.released
      then ws[e.vendor := Wallet(Max0(ws[e.vendor].balance - e.net), ws[e.vendor].pending)] else ws;
    forall v | v in ws0 ensures ws'[v] == ClawedBalances(ws0, es0[..i + 1], {sc})[v] {
      assert es0[..i + 1][..i] == es0[..i];
    }
  }

  lemma ClawEnds(es0: seq<Earning>, ws0: map<Id, Wallet>, sc: Scope, es: seq<Earning>, ws: map<Id, Wallet>)
    requires ClawedUpTo(es0, ws0, sc, |es|, es, ws)
    ensures es == Zeroed(es0, {sc}) && ws == ClawedBalances(ws0, es0, {sc})
  {
    assert es0[..|es0|] == es0;
  }

  function DebitedFor(ws: map<Id, Wallet>, v: Id, taken: real): map<Id, Wallet> {
    if v !in ws then ws else ws[v := Wallet(ws[v].balance, ws[v].pending - taken)]
  }

  ghost predicate TakenUpTo(l: LedgerState, o: Id, v: Id, amount: real, i: nat,
                            es: seq<Earning>, ws: map<Id, Wallet>, remaining: real) {
    && i <= |l.earnings| == |es|
    && (forall j :: 0 <= j < |es| ==> es[j] == if j < i then DockedAt(l.earnings, j, o, v, amount) else l.earnings[j])
    && remaining == Max0(amount - Sum(l.earnings[..i], OpenFor(o, v)))
    && ws == DebitedFor(l.wallets, v, amount - remaining)
  }

  lemma TakeStarts(l: LedgerState, o: Id, v: Id, amount: real)
    requires amount >= 0.0
    ensures TakenUpTo(l, o, v, amount, 0, l.earnings, l.wallets, amount)
  {
  }

  function TakeOf(e: Earning, o: Id, v: Id, due: real): real {
    if e.order == o && e.vendor == v && !e.released then Min(due, e.net) else 0.0
  }

  lemma TakeStep(l: LedgerState, o: Id, v: Id, amount: real, i: nat,
                 es: seq<Earning>, ws: map<Id, Wallet>, due: real)
    requires EarningsLedger.Valid(l) && TakenUpTo(l, o, v, amount, i, es, ws, due)
    requires i < |es| && amount >= 0.0 && due > 0.0
    ensures var take := TakeOf(es[i], o, v, due);
      && take >= 0.0 && (v in ws ==> ws[v].balance >= 0.0 && ws[v].pending >= take)
      && TakenUpTo(l, o, v, amount, i + 1, es[i := es[i].(net := es[i].net - take)], DebitedFor(ws, v, take),
                   due - take)
  {
    TakeAmount(l, o, v, amount, i, due);
    assert v in l.wallets ==> Balanced(l, v);
    var take := TakeOf(es[i], o, v, due);
    DebitedForTwice(l.wallets, v, amount - due, take, amount - (due - take));
  }

  lemma TakeNothing(es: seq<Earning>, i: nat, ws: map<Id, Wallet>, v: Id)
    requires i < |es|
    ensures es[i := es[i].(net := es[i].net - 0.0)] == es && DebitedFor(ws, v, 0.0) == ws
  {
  }

  lemma DebitedForTwice(ws: map<Id, Wallet>, v: Id, a: real, b: real, both: real)
    requires both == a + b
    ensures DebitedFor(DebitedFor(ws, v, a), v, b) == DebitedFor(ws, v, both)
  {
  }

  lemma TakeAmount(l: LedgerState, o: Id, v: Id, amount: real, i: nat, due: real)
    requires EarningsLedger.Valid(l) && i < |l.earnings| && amount >= 0.0
    requires due == Max0(amount - Sum(l.earnings[..i], OpenFor(o, v)))
    ensures var e, take := l.earnings[i], TakeOf(l.earnings[i], o, v, due);
      && take >= 0.0 && DockedAt(l.earnings, i, o, v, amount) == e.(net := e.net - take)
      && due - take == Max0(amount - Sum(l.earnings[..i + 1], OpenFor(o, v)))
      && (v in l.wallets ==> amount - (due - take) <= l.wallets[v].pending)
  {
    assert Sound(l.earnings[i], l.wallets) && l.earnings[..i + 1][..i] == l.earnings[..i];
    OpenForPrefix(l, o, v, i);
    OpenForPrefix(l, o, v, i + 1);
  }

  // Once the penalty is met, or the list is exhausted, the rest of the list is untouched.
  lemma TakeEnds(l: LedgerState, o: Id, v: Id, amount: real, i: nat,
                 es: seq<Earning>, ws: map<Id, Wallet>, remaining: real)
    requires EarningsLedger.Valid(l) && TakenUpTo(l, o, v, amount, i, es, ws, remaining)
    requires amount >= 0.0 && (i == |es| || remaining <= 0.0)
    ensures es == Docked(l.earnings, o, v, amount)
    ensures remaining == Max0(amount - Sum(l.earnings, OpenFor(o, v)))
  {
    OpenForPrefix(l, o, v, i);
    assert l.earnings[..|l.earnings|] == l.earnings;
    forall j | i <= j < |es| ensures DockedAt(l.earnings, j, o, v, amount) == es[j] {
      OpenForPrefix(l, o, v, j);
      OpenForGrows(l, o, v, i, j);
      assert Sound(l.earnings[j], l.wallets);
    }
  }

  lemma OpenForGrows(l: LedgerState, o: Id, v: Id, i: nat, j: nat)
    requires EarningsLedger.Valid(l) && i <= j <= |l.earnings|
    ensures Sum(l.earnings[..i], OpenFor(o, v)) <= Sum(l.earnings[..j], OpenFor(o, v))
  {
    NetsNonNegative(l);
    assert l.earnings[..j] == l.earnings[..i] + l.earnings[i..j];
    SumConcat(l.earnings[..i], l.earnings[i..j], OpenFor(o, v));
    SumNonNegative(l.earnings[i..j], OpenFor(o, v));
  }

  lemma CreditOne(w: map<Id, Wallet>, es: seq<Earning>, v: Id)
    requires es != [] && forall e :: e in es ==> e.vendor == v
    ensures Credited(w, es) == w[v := Wallet(BalanceOf(w, v), PendingOf(w, v) + Sum(es, Net))]
  {
    assert es[0].vendor == v;
    SumAgree(es, NetOf(v), Net);
    forall u | u != v ensures Sum(es, NetOf(u)) == 0.0 {
      SumZero(es, NetOf(u));
    }
  }

  lemma CreditNone(w: map<Id, Wallet>)
    ensures Credited(w, []) == w
  {
  }

  lemma CreditTwice(w: map<Id, Wallet>, a: seq<Earning>, b: seq<Earning>)
    ensures Credited(Credited(w, a), b) == Credited(w, a + b)
  {
    assert VendorsOf(a + b) == VendorsOf(a) + VendorsOf(b);
    forall v | v in Credited(w, a + b)
      ensures Credited(Credited(w, a), b)[v] == Credited(w, a + b)[v]
    {
      CreditedAt(w, a, v);
      SumConcat(a, b, NetOf(v));
    }
    assert Credited(Credited(w, a), b).Keys == Credited(w, a + b).Keys;
  }

  lemma NetsNonNegative(l: LedgerState)
    requires EarningsLedger.Valid(l)
    ensures forall e :: e in l.earnings ==> e.net >= 0.0
  {
    forall e | e in l.earnings ensures e.net >= 0.0 {
      var i :| 0 <= i < |l.earnings| && l.earnings[i] == e;
      assert Sound(l.earnings[i], l.wallets);
    }
  }

  // A part of the list never asks for more than the vendor has pending.
  lemma OpenWithinPending(l: LedgerState, scs: set<Scope>, i: nat, v: Id)
    requires EarningsLedger.Valid(l) && i <= |l.earnings| && v in l.wallets
    ensures 0.0 <= Sum(l.earnings[..i], OpenIn(scs, v)) <= l.wallets[v].pending
  {
    NetsNonNegative(l);
    ReversedValid(l, scs);
    assert l.earnings == l.earnings[..i] + l.earnings[i..];
    SumConcat(l.earnings[..i], l.earnings[i..], OpenIn(scs, v));
    SumNonNegative(l.earnings[..i], OpenIn(scs, v));
    SumNonNegative(l.earnings[i..], OpenIn(scs, v));
  }

  lemma ReversedInHalves(l: LedgerState, scs: set<Scope>)
    ensures ClawedBalances(DebitedPending(l.wallets, l.earnings, scs), Dropped(l.earnings, scs), scs)
         == ReversedWallets(l.wallets, l.earnings, scs)
  {
    var halves := ClawedBalances(DebitedPending(l.wallets, l.earnings, scs), Dropped(l.earnings, scs), scs);
    forall v | v in l.wallets ensures halves[v] == ReversedWallets(l.wallets, l.earnings, scs)[v] {
      PaidDropped(l.earnings, scs, v);
    }
  }

  lemma DroppedSound(l: LedgerState, scs: set<Scope>)
    requires EarningsLedger.Valid(l)
    ensures var wallets := DebitedPending(l.wallets, l.earnings, scs);
      && (forall i :: 0 <= i < |Dropped(l.earnings, scs)| ==> Sound(Dropped(l.earnings, scs)[i], wallets))
      && (forall v :: v in wallets ==> wallets[v].balance >= 0.0 && wallets[v].pending >= 0.0)
  {
    ReversedValid(l, scs);
    DroppedMembers(l.earnings, scs);
    assert forall v :: v in l.wallets && Balanced(l, v) ==> l.wallets[v].balance >= 0.0;
    forall i | 0 <= i < |Dropped(l.earnings, scs)| ensures Sound(Dropped(l.earnings, scs)[i], l.wallets) {
      assert Dropped(l.earnings, scs)[i] in l.earnings;
      var j :| 0 <= j < |l.earnings| && l.earnings[j] == Dropped(l.earnings, scs)[i];
      assert Sound(l.earnings[j], l.wallets);
    }
  }

  lemma {:induction false} PaidDropped(es: seq<Earning>, scs: set<Scope>, v: Id)
    ensures Sum(Dropped(es, scs), PaidIn(scs, v)) == Sum(es, PaidIn(scs, v))
  {
    if es != [] {
      var n := |es| - 1;
      PaidDropped(es[..n], scs, v);
      if CoveredBy(scs, es[n]) && !es[n].released {
        assert Dropped(es, scs) == Dropped(es[..n], scs);
      } else {
        SumAppend(Dropped(es[..n], scs), es[n], PaidIn(scs, v));
      }
    }
  }

  lemma OpenForPrefix(l: LedgerState, o: Id, v: Id, i: nat)
    requires EarningsLedger.Valid(l) && i <= |l.earnings|
    ensures 0.0 <= Sum(l.earnings[..i], OpenFor(o, v)) <= Sum(l.earnings, OpenFor(o, v))
    ensures v in l.wallets ==> Sum(l.earnings, OpenFor(o, v)) <= l.wallets[v].pending
  {
    NetsNonNegative(l);
    assert l.earnings == l.earnings[..i] + l.earnings[i..];
    SumConcat(l.earnings[..i], l.earnings[i..], OpenFor(o, v));
    SumNonNegative(l.earnings[..i], OpenFor(o, v));
    SumNonNegative(l.earnings[i..], OpenFor(o, v));
    if v in l.wallets {
      assert Balanced(l, v);
      SumAtMost(l.earnings, OpenFor(o, v), UnreleasedOf(v));
    }
  }
}
