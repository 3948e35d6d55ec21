/** What the ledger guarantees: its invariant over every run, conservation, and the algebra of reversal. */
module LedgerLaws {
  import opened Prelude
  import opened OrderTypes
  import opened EarningsLedger

  // ---------- Recording ----------

  /** Splitting by a percentage loses nothing, and distributes over gross less commission. */
  lemma PercentSplits(gross: real, commission: real, u: real)
    requires 0.0 <= commission <= gross && 0.0 <= u <= 100.0
    ensures PercentOf(gross, u) - PercentOf(commission, u) == PercentOf(gross - commission, u) >= 0.0
    ensures PercentOf(gross, 100.0 - u) - PercentOf(commission, 100.0 - u)
         == gross - commission - PercentOf(gross - commission, u) >= 0.0
    ensures PercentOf(commission, u) + PercentOf(commission, 100.0 - u) == commission
  {
  }

  /** An item's goods earnings split the item's price exactly, whether or not in milestones. */
  lemma GoodsEarningsSplit(o: Id, bespoke: bool, st: Settings, it: Item)
    requires ValidSettings(st) && ValidItem(it)
    ensures forall e :: e in GoodsEarnings(o, bespoke, st, it) ==>
      && e.amount - e.commission == e.net && e.net >= 0.0 && e.vendor == it.vendor
      && e.order == o && e.item == Some(it.id) && !e.released
    ensures Sum(GoodsEarnings(o, bespoke, st, it), Net) == it.totalPrice - Commission(st, it.totalPrice)
    ensures Sum(GoodsEarnings(o, bespoke, st, it), CommissionPart) == Commission(st, it.totalPrice)
  {
    var es := GoodsEarnings(o, bespoke, st, it);
    PercentSplits(it.totalPrice, Commission(st, it.totalPrice), st.upfrontPercent);
    if |es| == 2 {
      SumTwo(es[0], es[1], Net);
      SumTwo(es[0], es[1], CommissionPart);
    } else {
      SumOne(es[0], Net);
      SumOne(es[0], CommissionPart);
    }
  }

  lemma FabricEarningsSplit(o: Id, st: Settings, fv: FabricVendors, it: Item)
    requires ValidSettings(st) && ValidItem(it)
    ensures forall e :: e in FabricEarnings(o, st, fv, it) ==>
      && e.amount - e.commission == e.net && e.net >= 0.0 && PaysFabricVendor(fv, it)
      && e.vendor == fv[it.appliedFabric.value]
      && e.order == o && e.item == Some(it.id) && !e.released
    ensures var paid := if PaysFabricVendor(fv, it) then it.externalFabric else 0.0;
      Sum(FabricEarnings(o, st, fv, it), Net) + Sum(FabricEarnings(o, st, fv, it), CommissionPart) == paid
  {
    var es := FabricEarnings(o, st, fv, it);
    if es != [] {
      SumOne(es[0], Net);
      SumOne(es[0], CommissionPart);
    }
  }

  function GoodsPrice(it: Item): real { it.totalPrice }

  function PaidFabric(fv: FabricVendors): Item -> real {
    (it: Item) => if PaysFabricVendor(fv, it) then it.externalFabric else 0.0
  }

  lemma {:induction false} OrderEarningsShape(o: Id, bespoke: bool, st: Settings, fv: FabricVendors, items: seq<Item>)
    requires ValidSettings(st) && forall i :: 0 <= i < |items| ==> ValidItem(items[i])
    ensures forall e :: e in OrderEarnings(o, bespoke, st, fv, items) ==>
      && e.amount - e.commission == e.net && e.net >= 0.0 && !e.released && e.order == o
      && exists i :: 0 <= i < |items| && e.item == Some(items[i].id)
    ensures Sum(OrderEarnings(o, bespoke, st, fv, items), Net)
            + Sum(OrderEarnings(o, bespoke, st, fv, items), CommissionPart)
         == Sum(items, GoodsPrice) + Sum(items, PaidFabric(fv))
  {
    if items != [] {
      var n := |items| - 1;
      OrderEarningsShape(o, bespoke, st, fv, items[..n]);
      GoodsEarningsSplit(o, bespoke, st, items[n]);
      FabricEarningsSplit(o, st, fv, items[n]);
      var before := OrderEarnings(o, bespoke, st, fv, items[..n]);
      var goods := GoodsEarnings(o, bespoke, st, items[n]);
      var fabric := FabricEarnings(o, st, fv, items[n]);
      SumConcat(before, goods + fabric, Net);
      SumConcat(goods, fabric, Net);
      SumConcat(before, goods + fabric, CommissionPart);
      SumConcat(goods, fabric, CommissionPart);
      forall e | e in OrderEarnings(o, bespoke, st, fv, items)
        ensures e.amount - e.commission == e.net && e.net >= 0.0 && !e.released && e.order == o
        ensures exists i :: 0 <= i < |items| && e.item == Some(items[i].id)
      {
        if e in before {
          var i :| 0 <= i < n && e.item == Some(items[..n][i].id);
          assert e.item == Some(items[i].id);
        } else {
          assert e in goods || e in fabric;
          assert e.item == Some(items[n].id);
        }
      }
    }
  }

  /**
    Recording conserves money: what the order owes its vendors and the platform together is the sum
    of item prices and paid external fabric, and pending grows by exactly what the vendors are owed.
   */
  lemma RecordingConserves(l: LedgerState, o: Id, bespoke: bool, st: Settings, fv: FabricVendors, items: seq<Item>)
    requires ValidSettings(st) && forall i :: 0 <= i < |items| ==> ValidItem(items[i])
    requires o in l.books && !l.books[o].recorded && !HasEarnings(l, o) && items != []
    ensures var l' := Recorded(l, o, bespoke, st, fv, items);
      var es := OrderEarnings(o, bespoke, st, fv, items);
      && l'.books[o].recorded
      && l'.books[o].vendorEarnings + l'.books[o].commission == Sum(items, GoodsPrice) + Sum(items, PaidFabric(fv))
      && l'.books[o].vendorEarnings == Sum(es, Net)
      && l'.earnings == l.earnings + es
      && (forall v :: PendingOf(l'.wallets, v) == PendingOf(l.wallets, v) + Sum(es, NetOf(v)))
      && (forall v :: BalanceOf(l'.wallets, v) == BalanceOf(l.wallets, v))
      && (forall e :: e in es ==> e.amount - e.commission == e.net && e.net >= 0.0)
  {
    OrderEarningsShape(o, bespoke, st, fv, items);
    CreditedPending(l.wallets, OrderEarnings(o, bespoke, st, fv, items));
  }

  lemma CreditedPending(wallets: map<Id, Wallet>, es: seq<Earning>)
    ensures forall v :: PendingOf(Credited(wallets, es), v) == PendingOf(wallets, v) + Sum(es, NetOf(v))
    ensures forall v :: BalanceOf(Credited(wallets, es), v) == BalanceOf(wallets, v)
  {
    forall v
      ensures PendingOf(Credited(wallets, es), v) == PendingOf(wallets, v) + Sum(es, NetOf(v))
      ensures BalanceOf(Credited(wallets, es), v) == BalanceOf(wallets, v)
    {
      CreditedAt(wallets, es, v);
    }
  }

  lemma CreditedAt(wallets: map<Id, Wallet>, es: seq<Earning>, v: Id)
    ensures PendingOf(Credited(wallets, es), v) == PendingOf(wallets, v) + Sum(es, NetOf(v))
    ensures BalanceOf(Credited(wallets, es), v) == BalanceOf(wallets, v)
  {
    if v !in Credited(wallets, es) {
      SumZero(es, NetOf(v));
    }
  }

  /** Every further recording of the same order changes nothing. */
  lemma RecordedOnce(l: LedgerState, o: Id, bespoke: bool, st: Settings, fv: FabricVendors, items: seq<Item>,
                     bespoke': bool, st': Settings, fv': FabricVendors, items': seq<Item>)
    ensures var l' := Recorded(l, o, bespoke, st, fv, items);
      Recorded(l', o, bespoke', st', fv', items') == l'
  {
  }

  lemma RecordedValid(l: LedgerState, o: Id, bespoke: bool, st: Settings, fv: FabricVendors, items: seq<Item>)
    requires Valid(l) && ValidSettings(st) && forall i :: 0 <= i < |items| ==> ValidItem(items[i])
    ensures Valid(Recorded(l, o, bespoke, st, fv, items))
  {
    var l' := Recorded(l, o, bespoke, st, fv, items);
    if l'.earnings != l.earnings {
      OrderEarningsShape(o, bespoke, st, fv, items);
      AppendedValid(l, OrderEarnings(o, bespoke, st, fv, items), l');
    } else {
      assert forall v :: v in l.wallets && Balanced(l, v) ==> Balanced(l', v);
    }
  }

  lemma AppendedValid(l: LedgerState, es: seq<Earning>, l': LedgerState)
    requires Valid(l) && l'.earnings == l.earnings + es && l'.wallets == Credited(l.wallets, es)
    requires forall e :: e in es ==> e.net >= 0.0 && !e.released
    ensures Valid(l')
  {
    forall i | 0 <= i < |l'.earnings| ensures Sound(l'.earnings[i], l'.wallets) {
      if i < |l.earnings| {
        assert Sound(l.earnings[i], l.wallets);
      } else {
        assert l'.earnings[i] in es;
      }
    }
    forall v | v in l'.wallets ensures Balanced(l', v) {
      assert v in l.wallets ==> Balanced(l, v);
      SumConcat(l.earnings, es, UnreleasedOf(v));
      SumAgree(es, UnreleasedOf(v), NetOf(v));
      if v !in l.wallets {
        forall e | e in l.earnings ensures e.vendor in l.wallets {
          var i :| 0 <= i < |l.earnings| && l.earnings[i] == e;
          assert Sound(l.earnings[i], l.wallets);
        }
        SumZero(l.earnings, UnreleasedOf(v));
      }
    }
  }

  // ---------- Releasing ----------

  lemma ReleasedValid(l: LedgerState, now: int)
    requires Valid(l)
    ensures Valid(Released(l, now))
    ensures forall v :: BalanceOf(Released(l, now).wallets, v) + PendingOf(Released(l, now).wallets, v)
                     == BalanceOf(l.wallets, v) + PendingOf(l.wallets, v)
  {
    var l' := Released(l, now);
    forall v | v in l'.wallets
      ensures Balanced(l', v)
    {
      assert Balanced(l, v);
      PaidSums(l.earnings, now, v);
      SumNonNegative(l.earnings, DueOf(now, v));
    }
  }

  lemma {:induction false} PaidSums(es: seq<Earning>, now: int, v: Id)
    ensures Sum(AllPaid(es, now), UnreleasedOf(v)) == Sum(es, UnreleasedOf(v)) - Sum(es, DueOf(now, v))
  {
    if es != [] {
      var n := |es| - 1;
      assert AllPaid(es, now)[..n] == AllPaid(es[..n], now);
      PaidSums(es[..n], now, v);
    }
  }

  /** Dating earnings changes neither what is owed nor what is released. */
  lemma DatingValid(l: LedgerState, l': LedgerState)
    requires Valid(l) && l'.wallets == l.wallets && |l'.earnings| == |l.earnings|
    requires forall i :: 0 <= i < |l.earnings| ==> l'.earnings[i].(due := l.earnings[i].due) == l.earnings[i]
    ensures Valid(l')
  {
    forall i | 0 <= i < |l'.earnings| ensures Sound(l'.earnings[i], l'.wallets) {
      assert Sound(l.earnings[i], l.wallets);
    }
    forall w | w in l'.wallets ensures Balanced(l', w) {
      assert Balanced(l, w);
      SumSame(l.earnings, l'.earnings, UnreleasedOf(w), UnreleasedOf(w));
    }
  }

  lemma ScheduledValid(l: LedgerState, o: Id, v: Id, date: int)
    requires Valid(l)
    ensures Valid(Scheduled(l, o, v, date))
  {
    DatingValid(l, Scheduled(l, o, v, date));
  }

  lemma DeliveredValid(l: LedgerState, o: Id, date: int)
    requires Valid(l)
    ensures Valid(Delivered(l, o, date))
  {
    DatingValid(l, Delivered(l, o, date));
  }

  // ---------- Reversing ----------

  lemma {:induction false} DroppedMembers(es: seq<Earning>, scs: set<Scope>)
    ensures forall e :: e in Dropped(es, scs) <==> e in es && (e.released || !CoveredBy(scs, e))
  {
    if es != [] {
      var n := |es| - 1;
      DroppedMembers(es[..n], scs);
      assert forall e :: e in es <==> e in es[..n] || e == es[n];
    }
  }

  lemma {:induction false} DroppedSums(es: seq<Earning>, scs: set<Scope>, v: Id)
    ensures Sum(Dropped(es, scs), UnreleasedOf(v)) == Sum(es, UnreleasedOf(v)) - Sum(es, OpenIn(scs, v))
  {
    if es != [] {
      var n := |es| - 1;
      DroppedSums(es[..n], scs, v);
      if !(CoveredBy(scs, es[n]) && !es[n].released) {
        SumAppend(Dropped(es[..n], scs), es[n], UnreleasedOf(v));
      } else {
        assert Dropped(es, scs) == Dropped(es[..n], scs);
      }
    }
  }

  lemma ReversedSound(l: LedgerState, scs: set<Scope>)
    requires Valid(l)
    ensures forall i :: 0 <= i < |Reversed(l, scs).earnings| ==>
      Sound(Reversed(l, scs).earnings[i], Reversed(l, scs).wallets)
  {
    DroppedMembers(l.earnings, scs);
    forall i | 0 <= i < |Remaining(l.earnings, scs)|
      ensures Sound(Remaining(l.earnings, scs)[i], l.wallets)
    {
      var e := Dropped(l.earnings, scs)[i];
      assert e in l.earnings;
      var j :| 0 <= j < |l.earnings| && l.earnings[j] == e;
      assert Sound(l.earnings[j], l.wallets);
    }
  }

  lemma RemainingSums(es: seq<Earning>, scs: set<Scope>, v: Id)
    ensures Sum(Remaining(es, scs), UnreleasedOf(v)) == Sum(es, UnreleasedOf(v)) - Sum(es, OpenIn(scs, v))
  {
    DroppedSums(es, scs, v);
    SumSame(Dropped(es, scs), Remaining(es, scs), UnreleasedOf(v), UnreleasedOf(v));
  }

  /** A reversal keeps the invariant, so the floor at zero on pending money never binds. */
  lemma ReversedValid(l: LedgerState, scs: set<Scope>)
    requires Valid(l)
    ensures Valid(Reversed(l, scs))
    ensures forall v :: v in l.wallets ==> l.wallets[v].pending - Sum(l.earnings, OpenIn(scs, v)) >= 0.0
  {
    var l' := Reversed(l, scs);
    ReversedSound(l, scs);
    forall v | v in l.wallets
      ensures Balanced(l', v) && l'.wallets[v].pending >= 0.0
    {
      assert Balanced(l, v);
      RemainingSums(l.earnings, scs, v);
      SumNonNegative(l'.earnings, UnreleasedOf(v));
    }
  }

  // Reversal depends on the scopes only through the earnings they cover.
  lemma SameCover(es: seq<Earning>, a: set<Scope>, b: set<Scope>)
    requires forall e :: e in es ==> CoveredBy(a, e) == CoveredBy(b, e)
    ensures Remaining(es, a) == Remaining(es, b)
  {
    DropSame(es, a, b);
    DroppedMembers(es, a);
    assert forall i :: 0 <= i < |Dropped(es, a)| ==> Dropped(es, a)[i] in es;
  }

  lemma SameCoverSums(es: seq<Earning>, a: set<Scope>, b: set<Scope>, v: Id)
    requires forall e :: e in es ==> CoveredBy(a, e) == CoveredBy(b, e)
    ensures Sum(es, OpenIn(a, v)) == Sum(es, OpenIn(b, v))
    ensures Sum(es, PaidIn(a, v)) == Sum(es, PaidIn(b, v))
  {
    SumAgree(es, OpenIn(a, v), OpenIn(b, v));
    SumAgree(es, PaidIn(a, v), PaidIn(b, v));
  }

  lemma {:induction false} DropSame(es: seq<Earning>, a: set<Scope>, b: set<Scope>)
    requires forall e :: e in es ==> CoveredBy(a, e) == CoveredBy(b, e)
    ensures Dropped(es, a) == Dropped(es, b)
  {
    if es != [] {
      assert forall e :: e in es[..|es| - 1] ==> e in es;
      DropSame(es[..|es| - 1], a, b);
    }
  }

  lemma CoverUnion(a: set<Scope>, b: set<Scope>, e: Earning)
    ensures CoveredBy(a + b, e) <==> CoveredBy(a, e) || CoveredBy(b, e)
  {
    if CoveredBy(a, e) {
      var sc :| sc in a && Covers(sc, e);
      assert sc in a + b;
    }
    if CoveredBy(b, e) {
      var sc :| sc in b && Covers(sc, e);
      assert sc in a + b;
    }
  }

  // How one more earning at the end of the list shows in what a reversal leaves.
  lemma RemainingStep(es: seq<Earning>, scs: set<Scope>)
    requires es != []
    ensures var e := es[|es| - 1];
      Remaining(es, scs) == Remaining(es[..|es| - 1], scs)
        + if CoveredBy(scs, e) && !e.released then [] else [ClawedBack(e, scs)]
  {
  }

  lemma RemainingAppend(es: seq<Earning>, e: Earning, scs: set<Scope>)
    ensures Remaining(es + [e], scs) == Remaining(es, scs)
        + if CoveredBy(scs, e) && !e.released then [] else [ClawedBack(e, scs)]
  {
    assert (es + [e])[..|es|] == es;
    RemainingStep(es + [e], scs);
  }

  lemma {:induction false} RemainingTwice(es: seq<Earning>, a: set<Scope>, b: set<Scope>)
    ensures Remaining(Remaining(es, a), b) == Remaining(es, a + b)
  {
    if es != [] {
      var n := |es| - 1;
      var e := es[n];
      RemainingTwice(es[..n], a, b);
      CoverUnion(a, b, e);
      CoverNet(b, e, ClawedBack(e, a));
      RemainingStep(es, a);
      RemainingStep(es, a + b);
      if CoveredBy(a, e) && !e.released {
        assert Remaining(es, a) == Remaining(es[..n], a);
      } else {
        RemainingAppend(Remaining(es[..n], a), ClawedBack(e, a), b);
      }
    }
  }

  lemma {:induction false} CoveredTwice(es: seq<Earning>, a: set<Scope>, b: set<Scope>, v: Id)
    ensures Sum(es, OpenIn(a, v)) + Sum(Remaining(es, a), OpenIn(b, v)) == Sum(es, OpenIn(a + b, v))
    ensures Sum(es, PaidIn(a, v)) + Sum(Remaining(es, a), PaidIn(b, v)) == Sum(es, PaidIn(a + b, v))
  {
    if es != [] {
      var n := |es| - 1;
      var e := es[n];
      CoveredTwice(es[..n], a, b, v);
      CoverUnion(a, b, e);
      CoverNet(b, e, ClawedBack(e, a));
      RemainingStep(es, a);
      if CoveredBy(a, e) && !e.released {
        assert Remaining(es, a) == Remaining(es[..n], a);
      } else {
        SumAppend(Remaining(es[..n], a), ClawedBack(e, a), OpenIn(b, v));
        SumAppend(Remaining(es[..n], a), ClawedBack(e, a), PaidIn(b, v));
      }
    }
  }

  // The net amount plays no part in which scopes cover an earning.
  lemma CoverNet(scs: set<Scope>, e: Earning, e': Earning)
    requires e' == e.(net := e'.net)
    ensures CoveredBy(scs, e) == CoveredBy(scs, e')
  {
    forall sc ensures Covers(sc, e) == Covers(sc, e') {}
  }

  /** Two reversals in a row are the one reversal of everything either of them covers. */
  lemma ReversalsCompose(l: LedgerState, a: set<Scope>, b: set<Scope>)
    requires Valid(l)
    ensures Reversed(Reversed(l, a), b) == Reversed(l, a + b)
  {
    RemainingTwice(l.earnings, a, b);
    WalletsCompose(l, a, b);
    assert ReversedBooks(ReversedBooks(l.books, a), b) == ReversedBooks(l.books, a + b);
  }

  lemma WalletsCompose(l: LedgerState, a: set<Scope>, b: set<Scope>)
    requires Valid(l)
    ensures ReversedWallets(ReversedWallets(l.wallets, l.earnings, a), Remaining(l.earnings, a), b)
         == ReversedWallets(l.wallets, l.earnings, a + b)
  {
    forall v | v in l.wallets
      ensures ReversedWallets(ReversedWallets(l.wallets, l.earnings, a), Remaining(l.earnings, a), b)[v]
           == ReversedWallets(l.wallets, l.earnings, a + b)[v]
    {
      WalletComposes(l, a, b, v);
    }
  }

  lemma WalletComposes(l: LedgerState, a: set<Scope>, b: set<Scope>, v: Id)
    requires Valid(l) && v in l.wallets
    ensures ReversedWallets(ReversedWallets(l.wallets, l.earnings, a), Remaining(l.earnings, a), b)[v]
         == ReversedWallets(l.wallets, l.earnings, a + b)[v]
  {
    var once := Remaining(l.earnings, a);
    CoveredTwice(l.earnings, a, b, v);
    LaterPaidNonNegative(l, a, b, v);
    DebitedTwice(l.wallets[v], Sum(l.earnings, PaidIn(a, v)), Sum(l.earnings, OpenIn(a, v)),
                 Sum(once, PaidIn(b, v)), Sum(once, OpenIn(b, v)));
  }

  lemma DebitedTwice(w: Wallet, paid: real, open: real, paid': real, open': real)
    requires paid >= 0.0 && paid' >= 0.0
    ensures Debited(Debited(w, paid, open), paid', open') == Debited(w, paid + paid', open + open')
  {
  }

  lemma LaterPaidNonNegative(l: LedgerState, a: set<Scope>, b: set<Scope>, v: Id)
    requires Valid(l)
    ensures Sum(l.earnings, PaidIn(a, v)) >= 0.0 && Sum(Remaining(l.earnings, a), PaidIn(b, v)) >= 0.0
  {
    PaidInNonNegative(l, a, v);
    ReversedValid(l, a);
    PaidInNonNegative(Reversed(l, a), b, v);
  }

  lemma PaidInNonNegative(l: LedgerState, scs: set<Scope>, v: Id)
    requires Valid(l)
    ensures Sum(l.earnings, PaidIn(scs, v)) >= 0.0
  {
    forall e | e in l.earnings ensures e.net >= 0.0 {
      var i :| 0 <= i < |l.earnings| && l.earnings[i] == e;
      assert Sound(l.earnings[i], l.wallets);
    }
    SumNonNegative(l.earnings, PaidIn(scs, v));
  }

  /** Reversals commute, and repeating one changes nothing. */
  lemma ReversalsCommute(l: LedgerState, a: set<Scope>, b: set<Scope>)
    requires Valid(l)
    ensures Reversed(Reversed(l, a), b) == Reversed(Reversed(l, b), a)
    ensures Reversed(Reversed(l, a), a) == Reversed(l, a)
  {
    ReversalsCompose(l, a, b);
    ReversalsCompose(l, b, a);
    ReversalsCompose(l, a, a);
    assert a + b == b + a && a + a == a;
  }

  function Uncovered(es: seq<Earning>, scs: set<Scope>): seq<Earning> {
    if es == [] then []
    else
      var n := |es| - 1;
      Uncovered(es[..n], scs) + if CoveredBy(scs, es[n]) then [] else [es[n]]
  }

  /** A reversal leaves every other earning as it is and in its place, and nothing to pay on its own. */
  lemma {:induction false} ReversalTouchesOnlyCovered(es: seq<Earning>, scs: set<Scope>)
    ensures var es' := Remaining(es, scs);
      && Uncovered(es', scs) == Uncovered(es, scs)
      && forall e :: e in es' && CoveredBy(scs, e) ==> e.released && e.net == 0.0
  {
    if es != [] {
      var n := |es| - 1;
      var e := es[n];
      ReversalTouchesOnlyCovered(es[..n], scs);
      CoverNet(scs, e, ClawedBack(e, scs));
      RemainingStep(es, scs);
      var prior := Remaining(es[..n], scs);
      if CoveredBy(scs, e) && !e.released {
        assert Remaining(es, scs) == prior;
      } else {
        assert (prior + [ClawedBack(e, scs)])[..|prior|] == prior;
      }
    }
  }

  function ItemScope(o: Id, item: Id): Scope {
    Scope(o, None, Some(item))
  }

  /** Reversing one item after another, as a rejection of several items does. */
  function ReversedEach(l: LedgerState, o: Id, ids: seq<Id>): LedgerState {
    if ids == [] then l
    else Reversed(ReversedEach(l, o, ids[..|ids| - 1]), {ItemScope(o, ids[|ids| - 1])})
  }

  lemma OneReversal(l: LedgerState, o: Id, item: Id)
    ensures ReversedEach(l, o, [item]) == Reversed(l, {ItemScope(o, item)})
  {
    assert ReversedEach(l, o, [item][..0]) == l;
  }

  function ItemScopes(o: Id, ids: seq<Id>): set<Scope> {
    set id | id in ids :: ItemScope(o, id)
  }

  lemma ScopesStep(o: Id, ids: seq<Id>)
    requires ids != []
    ensures ItemScopes(o, ids) == ItemScopes(o, ids[..|ids| - 1]) + {ItemScope(o, ids[|ids| - 1])}
  {
    assert ids == ids[..|ids| - 1] + [ids[|ids| - 1]];
  }

  lemma {:induction false} ReversedEachIsOne(l: LedgerState, o: Id, ids: seq<Id>)
    requires Valid(l)
    ensures Valid(ReversedEach(l, o, ids))
    ensures ids != [] ==> ReversedEach(l, o, ids) == Reversed(l, ItemScopes(o, ids))
  {
    if ids != [] {
      var n := |ids| - 1;
      ReversedEachIsOne(l, o, ids[..n]);
      ReversedValid(ReversedEach(l, o, ids[..n]), {ItemScope(o, ids[n])});
      ScopesStep(o, ids);
      if n > 0 {
        ReversalsCompose(l, ItemScopes(o, ids[..n]), {ItemScope(o, ids[n])});
      } else {
        assert ItemScopes(o, ids) == {ItemScope(o, ids[n])};
      }
    }
  }

  /**
    Reversing item by item, in any order and with any repetition, leaves the earnings and wallets that
    reversing the whole order leaves, provided the list names every item the order has earnings for.
   */
  lemma ItemByItemIsWholeOrder(l: LedgerState, o: Id, ids: seq<Id>)
    requires Valid(l) && ids != []
    requires forall e :: e in l.earnings && e.order == o ==> e.item.Some? && e.item.value in ids
    ensures ReversedEach(l, o, ids).earnings == Reversed(l, {Scope(o, None, None)}).earnings
    ensures ReversedEach(l, o, ids).wallets == Reversed(l, {Scope(o, None, None)}).wallets
  {
    var a, b := ItemScopes(o, ids), {Scope(o, None, None)};
    ReversedEachIsOne(l, o, ids);
    forall e | e in l.earnings ensures CoveredBy(a, e) == CoveredBy(b, e) {
      WholeOrderCovers(o, e);
      if e.order == o {
        assert ItemScope(o, e.item.value) in a && Covers(ItemScope(o, e.item.value), e);
      }
    }
    SameReversal(l, a, b);
  }

  lemma WholeOrderCovers(o: Id, e: Earning)
    ensures CoveredBy({Scope(o, None, None)}, e) <==> e.order == o
  {
    assert Covers(Scope(o, None, None), e) <==> e.order == o;
  }

  lemma SameReversal(l: LedgerState, a: set<Scope>, b: set<Scope>)
    requires forall e :: e in l.earnings ==> CoveredBy(a, e) == CoveredBy(b, e)
    ensures Reversed(l, a).earnings == Reversed(l, b).earnings
    ensures Reversed(l, a).wallets == Reversed(l, b).wallets
  {
    SameCover(l.earnings, a, b);
    forall v | v in l.wallets
      ensures Sum(l.earnings, OpenIn(a, v)) == Sum(l.earnings, OpenIn(b, v))
      ensures Sum(l.earnings, PaidIn(a, v)) == Sum(l.earnings, PaidIn(b, v))
    {
      SameCoverSums(l.earnings, a, b, v);
    }
  }

  /** Recording an order and reversing it before any release undoes the recording. */
  lemma RecordThenReverse(l: LedgerState, o: Id, bespoke: bool, st: Settings, fv: FabricVendors, items: seq<Item>)
    requires Valid(l) && ValidSettings(st) && forall i :: 0 <= i < |items| ==> ValidItem(items[i])
    requires o in l.books && !l.books[o].recorded && !HasEarnings(l, o)
    ensures var l' := Reversed(Recorded(l, o, bespoke, st, fv, items), {Scope(o, None, None)});
      && l'.earnings == l.earnings
      && (forall v :: PendingOf(l'.wallets, v) == PendingOf(l.wallets, v))
      && (forall v :: BalanceOf(l'.wallets, v) == BalanceOf(l.wallets, v))
      && l'.books[o] == Books(true, 0.0, 0.0)
  {
    var recorded := Recorded(l, o, bespoke, st, fv, items);
    var es := if items == [] then [] else OrderEarnings(o, bespoke, st, fv, items);
    assert recorded.earnings == l.earnings + es;
    assert Valid(recorded) && forall e :: e in es ==> e.order == o && !e.released by {
      RecordedValid(l, o, bespoke, st, fv, items);
      OrderEarningsShape(o, bespoke, st, fv, items);
    }
    ReverseRecorded(l, recorded, es, o);
  }

  lemma ReverseRecorded(l: LedgerState, recorded: LedgerState, es: seq<Earning>, o: Id)
    requires Valid(recorded) && !HasEarnings(l, o) && recorded.earnings == l.earnings + es
    requires recorded.wallets == Credited(l.wallets, es) || (es == [] && recorded.wallets == l.wallets)
    requires forall e :: e in es ==> e.order == o && !e.released
    ensures var l' := Reversed(recorded, {Scope(o, None, None)});
      && l'.earnings == l.earnings
      && forall v ::
           && PendingOf(l'.wallets, v) == PendingOf(l.wallets, v)
           && BalanceOf(l'.wallets, v) == BalanceOf(l.wallets, v)
  {
    ReverseSuffix(recorded, l.earnings, es, o);
    var reversed := Reversed(recorded, {Scope(o, None, None)});
    forall v ensures PendingOf(reversed.wallets, v) == PendingOf(l.wallets, v)
        && BalanceOf(reversed.wallets, v) == BalanceOf(l.wallets, v) {
      UncreditedPending(l.wallets, es, recorded.wallets, reversed.wallets, v);
    }
  }

  // Taking a credit back vendor by vendor.
  lemma UncreditedPending(before: map<Id, Wallet>, es: seq<Earning>, credited: map<Id, Wallet>,
                          after: map<Id, Wallet>, v: Id)
    requires credited == Credited(before, es) || (es == [] && credited == before)
    requires after.Keys == credited.Keys
    requires v in after ==> after[v] == Wallet(credited[v].balance, credited[v].pending - Sum(es, NetOf(v)))
    ensures PendingOf(after, v) == PendingOf(before, v) && BalanceOf(after, v) == BalanceOf(before, v)
  {
  }

  // Reversing an order whose earnings are the unreleased tail of the list.
  lemma ReverseSuffix(l: LedgerState, es: seq<Earning>, tail: seq<Earning>, o: Id)
    requires Valid(l) && l.earnings == es + tail
    requires forall e :: e in es ==> e.order != o
    requires forall e :: e in tail ==> e.order == o && !e.released
    ensures var l' := Reversed(l, {Scope(o, None, None)});
      && l'.earnings == es && l'.wallets.Keys == l.wallets.Keys
      && forall v :: v in l.wallets ==>
           l'.wallets[v] == Wallet(l.wallets[v].balance, l.wallets[v].pending - Sum(tail, NetOf(v)))
  {
    var whole := {Scope(o, None, None)};
    forall e ensures CoveredBy(whole, e) <==> e.order == o {
      WholeOrderCovers(o, e);
    }
    DropSuffix(es, tail, whole);
    forall v | v in l.wallets
      ensures Sum(l.earnings, OpenIn(whole, v)) == Sum(tail, NetOf(v))
      ensures Sum(l.earnings, PaidIn(whole, v)) == 0.0 && l.wallets[v].balance >= 0.0
    {
      assert Balanced(l, v);
      SumConcat(es, tail, OpenIn(whole, v));
      SumZero(es, OpenIn(whole, v));
      SumAgree(tail, OpenIn(whole, v), NetOf(v));
      SumZero(l.earnings, PaidIn(whole, v));
    }
  }

  lemma {:induction false} DropSuffix(es: seq<Earning>, tail: seq<Earning>, scs: set<Scope>)
    requires forall e :: e in es ==> !CoveredBy(scs, e)
    requires forall e :: e in tail ==> CoveredBy(scs, e) && !e.released
    ensures Dropped(es + tail, scs) == es
  {
    var all := es + tail;
    if tail != [] {
      assert all[..|all| - 1] == es + tail[..|tail| - 1];
      assert all[|all| - 1] in tail;
      DropSuffix(es, tail[..|tail| - 1], scs);
    } else if es != [] {
      assert all == es;
      var n := |es| - 1;
      assert es[..n] + [] == es[..n];
      DropSuffix(es[..n], [], scs);
      assert !CoveredBy(scs, es[n]);
    }
  }

  // ---------- Late penalties ----------

  lemma {:induction false} DockedStep(es: seq<Earning>, o: Id, v: Id, amount: real)
    requires es != []
    ensures Docked(es, o, v, amount)[..|es| - 1] == Docked(es[..|es| - 1], o, v, amount)
  {
    var n := |es| - 1;
    forall i | 0 <= i < n
      ensures Docked(es, o, v, amount)[i] == Docked(es[..n], o, v, amount)[i]
    {
      assert es[..n][..i] == es[..i];
    }
  }

  lemma TakeBounds(es: seq<Earning>, i: nat, o: Id, v: Id, amount: real)
    requires i < |es| && es[i].net >= 0.0
    ensures 0.0 <= Take(es, i, o, v, amount) <= OpenFor(o, v)(es[i]) <= es[i].net
  {
  }

  /** A penalty is met exactly by what leaves the open earnings and the claw-back from the balance. */
  lemma {:induction false} DockedSums(es: seq<Earning>, o: Id, v: Id, amount: real)
    requires amount >= 0.0 && forall e :: e in es ==> e.net >= 0.0
    ensures Sum(es, OpenFor(o, v)) - Sum(Docked(es, o, v, amount), OpenFor(o, v)) == Min(amount, Sum(es, OpenFor(o, v)))
  {
    if es != [] {
      var n := |es| - 1;
      assert forall e :: e in es[..n] ==> e in es;
      DockedSums(es[..n], o, v, amount);
      DockedStep(es, o, v, amount);
      assert es[n] in es;
      SumNonNegative(es[..n], OpenFor(o, v));
      DockedLast(es, o, v, amount);
      TakeSplits(amount, Sum(es[..n], OpenFor(o, v)), OpenFor(o, v)(es[n]));
    }
  }

  lemma DockedLast(es: seq<Earning>, o: Id, v: Id, amount: real)
    requires es != [] && es[|es| - 1].net >= 0.0
    ensures var n := |es| - 1;
      OpenFor(o, v)(Docked(es, o, v, amount)[n])
      == OpenFor(o, v)(es[n]) - Min(OpenFor(o, v)(es[n]), Max0(amount - Sum(es[..n], OpenFor(o, v))))
  {
  }

  lemma TakeSplits(amount: real, before: real, open: real)
    requires amount >= 0.0 && before >= 0.0 && open >= 0.0
    ensures Min(amount, before) + Min(open, Max0(amount - before)) == Min(amount, before + open)
  {
  }

  lemma {:induction false} DockedPending(es: seq<Earning>, o: Id, v: Id, amount: real, w: Id)
    requires amount >= 0.0 && forall e :: e in es ==> e.net >= 0.0
    ensures Sum(Docked(es, o, v, amount), UnreleasedOf(w))
         == Sum(es, UnreleasedOf(w)) - if w == v then Min(amount, Sum(es, OpenFor(o, v))) else 0.0
  {
    if es != [] {
      var n := |es| - 1;
      assert forall e :: e in es[..n] ==> e in es;
      DockedPending(es[..n], o, v, amount, w);
      DockedStep(es, o, v, amount);
      SumNonNegative(es[..n], OpenFor(o, v));
      assert es[n] in es;
      TakeSplits(amount, Sum(es[..n], OpenFor(o, v)), OpenFor(o, v)(es[n]));
    }
  }

  lemma PenalizedValid(l: LedgerState, o: Id, v: Id, amount: real)
    requires Valid(l) && amount >= 0.0
    ensures Valid(Penalized(l, o, v, amount))
    ensures v in l.wallets ==> l.wallets[v].pending - Min(amount, Sum(l.earnings, OpenFor(o, v))) >= 0.0
  {
    var l' := Penalized(l, o, v, amount);
    DockedSums(l.earnings, o, v, amount);
    forall i | 0 <= i < |l'.earnings| ensures Sound(l'.earnings[i], l'.wallets) {
      assert Sound(l.earnings[i], l.wallets);
      TakeBounds(l.earnings, i, o, v, amount);
    }
    if v !in l.wallets {
      SumZero(l.earnings, OpenFor(o, v));
    }
    forall w | w in l'.wallets
      ensures Balanced(l', w) && l'.wallets[w].pending >= 0.0
    {
      assert Balanced(l, w);
      DockedPending(l.earnings, o, v, amount, w);
      SumNonNegative(l'.earnings, UnreleasedOf(w));
    }
    assert v in l.wallets ==> Balanced(l', v);
  }

  // ---------- Runs ----------

  datatype Op =
    | Record(order: Id, bespoke: bool, settings: Settings, fabricVendors: FabricVendors, items: seq<Item>)
    | Release(now: int)
    | Schedule(order: Id, vendor: Id, date: int)
    | Deliver(order: Id, date: int)
    | Reverse(scope: Scope)
    | Penalize(order: Id, vendor: Id, amount: real)

  predicate ValidOp(op: Op) {
    match op
    case Record(_, _, st, _, items) => ValidSettings(st) && forall i :: 0 <= i < |items| ==> ValidItem(items[i])
    case Penalize(_, _, amount) => amount >= 0.0
    case _ => true
  }

  function Apply(l: LedgerState, op: Op): LedgerState {
    match op
    case Record(o, bespoke, st, fv, items) => Recorded(l, o, bespoke, st, fv, items)
    case Release(now) => Released(l, now)
    case Schedule(o, v, date) => Scheduled(l, o, v, date)
    case Deliver(o, date) => Delivered(l, o, date)
    case Reverse(sc) => Reversed(l, {sc})
    case Penalize(o, v, amount) => Penalized(l, o, v, amount)
  }

  function Run(l: LedgerState, ops: seq<Op>): LedgerState {
    if ops == [] then l else Apply(Run(l, ops[..|ops| - 1]), ops[|ops| - 1])
  }

  /** Over every run, pending money is the sum of unreleased earnings and never negative. */
  lemma {:induction false} LedgerInvariant(l: LedgerState, ops: seq<Op>)
    requires Valid(l) && forall i :: 0 <= i < |ops| ==> ValidOp(ops[i])
    ensures Valid(Run(l, ops))
    ensures forall v :: v in Run(l, ops).wallets ==> Run(l, ops).wallets[v].pending >= 0.0
  {
    if ops != [] {
      var before := Run(l, ops[..|ops| - 1]);
      LedgerInvariant(l, ops[..|ops| - 1]);
      match ops[|ops| - 1]
      case Record(o, bespoke, st, fv, items) => RecordedValid(before, o, bespoke, st, fv, items);
      case Release(now) => ReleasedValid(before, now);
      case Schedule(o, v, date) => ScheduledValid(before, o, v, date);
      case Deliver(o, date) => DeliveredValid(before, o, date);
      case Reverse(sc) => ReversedValid(before, {sc});
      case Penalize(o, v, amount) => PenalizedValid(before, o, v, amount);
    }
    var after := Run(l, ops);
    forall v | v in after.wallets ensures after.wallets[v].pending >= 0.0 {
      assert Balanced(after, v);
      SumNonNegative(after.earnings, UnreleasedOf(v));
    }
  }
}
