/** What an accepted quote costs, over whole runs of the protocol. */
module BespokeCharges {
  import opened Prelude
  import opened Bespoke
  import opened BespokeLaws

  /** An attempt to accept quote `q`, by wallet or by card, that passes every check. */
  predicate Attempts(d: Desk, a: Action, q: nat) {
    && (a.Take? || a.Card?) && a.quote == q
    && !AcceptRefused(d, q, a.customer, a.hasAddress) && a.now <= d.quotes[q].expiresAt
  }

  /** The vendor declines the order of quote `q` that is waiting to be paid. */
  predicate Withdraws(d: Desk, a: Action, q: nat) {
    && a.Decline? && a.order < |d.orders| && d.orders[a.order].quote == q && d.orders[a.order].pending
    && q < |d.quotes| && d.quotes[q].vendor == a.vendor
  }

  /** The total of quote `q` at the first attempt of the run since its vendor last declined it, if there was one. */
  function StandingOffer(d: Desk, actions: seq<Action>, q: nat): Option<real> {
    if actions == [] then None
    else
      var rest, a := actions[..|actions| - 1], actions[|actions| - 1];
      var before, prior := Run(d, rest), StandingOffer(d, rest, q);
      if Withdraws(before, a, q) then None
      else if prior.Some? then prior
      else if Attempts(before, a, q) then Some(before.quotes[q].total)
      else None
  }

  // ---------- Orders against standing offers ----------

  /**
    Each quote has at most one order waiting to be paid, made for the total that stands, and has one as long as that
    stands and it is not accepted; a paid one's quote is accepted.
   */
  ghost predicate OrdersFit(quotes: seq<Quote>, orders: seq<Order>, offer: nat -> Option<real>) {
    && (forall j, k :: 0 <= j < k < |orders| && orders[j].pending && orders[k].pending ==>
          orders[j].quote != orders[k].quote)
    && (forall k :: 0 <= k < |orders| ==> OrderFits(quotes, orders[k], offer))
    && (forall q :: 0 <= q < |quotes| && offer(q).Some? && quotes[q].status != Accepted ==>
          Find(orders, PendingFor(q)).Some?)
    && (forall q: nat :: q >= |quotes| ==> offer(q).None?)
  }

  predicate OrderFits(quotes: seq<Quote>, order: Order, offer: nat -> Option<real>) {
    && order.quote < |quotes|
    && (order.pending ==> !order.paid && offer(order.quote) == Some(order.total))
    && (order.paid ==> quotes[order.quote].status == Accepted)
  }

  function Offers(d: Desk, actions: seq<Action>): nat -> Option<real> {
    (q: nat) => StandingOffer(d, actions, q)
  }

  /** The offers once `q` is attempted at a total, if none stands. */
  function Offered(offer: nat -> Option<real>, q: nat, total: real): nat -> Option<real> {
    (k: nat) => if k == q && offer(k).None? then Some(total) else offer(k)
  }

  function Withdrawn(offer: nat -> Option<real>, q: nat): nat -> Option<real> {
    (k: nat) => if k == q then None else offer(k)
  }

  lemma StillPending(orders: seq<Order>, orders': seq<Order>, q: nat)
    requires Find(orders, PendingFor(q)).Some? && |orders| <= |orders'|
    requires forall k :: 0 <= k < |orders| && orders[k].quote == q ==>
      orders'[k].quote == q && orders'[k].pending == orders[k].pending
    ensures Find(orders', PendingFor(q)).Some?
  {
    var k := Find(orders, PendingFor(q)).value;
    assert PendingFor(q)(orders[k]) && PendingFor(q)(orders'[k]);
  }

  lemma OrderMade(d: Desk, q: nat, offer: nat -> Option<real>)
    requires OrdersFit(d.quotes, d.orders, offer) && q < |d.quotes| && d.quotes[q].status == Submitted
    ensures OrdersFit(d.quotes, WithOrder(d, q).orders, Offered(offer, q, d.quotes[q].total))
    ensures ChargeFor(d, q) == match offer(q) case None => d.quotes[q].total case Some(t) => t
  {
    var after := WithOrder(d, q).orders;
    match Find(d.orders, PendingFor(q))
    case Some(k) =>
      assert PendingFor(q)(d.orders[k]) && OrderFits(d.quotes, d.orders[k], offer);
      OfferedAgain(d.quotes, d.orders, offer, q, d.quotes[q].total);
    case None =>
      forall k | 0 <= k < |d.orders| ensures !(d.orders[k].pending && d.orders[k].quote == q) {
        assert !PendingFor(q)(d.orders[k]);
      }
      NewOrder(d.quotes, d.orders, offer, q, d.quotes[q].total);
  }

  /** An offer that stands is not changed by another attempt. */
  lemma OfferedAgain(quotes: seq<Quote>, orders: seq<Order>, offer: nat -> Option<real>, q: nat, total: real)
    requires OrdersFit(quotes, orders, offer) && q < |quotes| && offer(q).Some?
    ensures OrdersFit(quotes, orders, Offered(offer, q, total))
  {
    forall k | 0 <= k < |orders| ensures OrderFits(quotes, orders[k], Offered(offer, q, total)) {
      assert OrderFits(quotes, orders[k], offer);
    }
  }

  lemma NewOrder(quotes: seq<Quote>, orders: seq<Order>, offer: nat -> Option<real>, q: nat, total: real)
    requires OrdersFit(quotes, orders, offer) && q < |quotes| && quotes[q].status != Accepted
    requires forall k :: 0 <= k < |orders| ==> !(orders[k].pending && orders[k].quote == q)
    requires Find(orders, PendingFor(q)).None?
    ensures OrdersFit(quotes, orders + [Order(q, total, true, false, false)], Offered(offer, q, total))
  {
    var after := orders + [Order(q, total, true, false, false)];
    assert offer(q).None?;
    forall k | 0 <= k < |after| ensures OrderFits(quotes, after[k], Offered(offer, q, total)) {
      if k < |orders| { assert OrderFits(quotes, orders[k], offer); }
    }
    forall p | 0 <= p < |quotes| && Offered(offer, q, total)(p).Some? && quotes[p].status != Accepted
      ensures Find(after, PendingFor(p)).Some?
    {
      if p == q { assert PendingFor(q)(after[|orders|]); } else { StillPending(orders, after, p); }
    }
  }

  lemma OrdersKept(d: Desk, d': Desk, orders: seq<Order>, offer: nat -> Option<real>)
    requires OrdersFit(d.quotes, orders, offer) && KeepsWinners(d, d')
    ensures OrdersFit(d'.quotes, orders, offer)
  {
    forall k | 0 <= k < |orders| ensures OrderFits(d'.quotes, orders[k], offer) {
      assert OrderFits(d.quotes, orders[k], offer) && KeepsQuote(d.quotes[orders[k].quote], d'.quotes[orders[k].quote]);
    }
    forall q | 0 <= q < |d'.quotes| && offer(q).Some? && d'.quotes[q].status != Accepted
      ensures Find(orders, PendingFor(q)).Some?
    {
      assert q < |d.quotes| && KeepsQuote(d.quotes[q], d'.quotes[q]);
    }
  }

  lemma OrderPaid(quotes: seq<Quote>, orders: seq<Order>, o: nat, offer: nat -> Option<real>)
    requires OrdersFit(quotes, orders, offer) && o < |orders|
    requires orders[o].quote < |quotes| && quotes[orders[o].quote].status == Accepted
    ensures OrdersFit(quotes, orders[o := orders[o].(paid := true, pending := false)], offer)
  {
    var after := orders[o := orders[o].(paid := true, pending := false)];
    forall k | 0 <= k < |after| ensures OrderFits(quotes, after[k], offer) {
      assert OrderFits(quotes, orders[k], offer);
    }
    forall q | 0 <= q < |quotes| && offer(q).Some? && quotes[q].status != Accepted
      ensures Find(after, PendingFor(q)).Some?
    {
      StillPending(orders, after, q);
    }
  }

  lemma CardBegun(quotes: seq<Quote>, orders: seq<Order>, o: nat, offer: nat -> Option<real>)
    requires OrdersFit(quotes, orders, offer) && o < |orders|
    ensures OrdersFit(quotes, orders[o := orders[o].(card := true)], offer)
  {
    var after := orders[o := orders[o].(card := true)];
    forall k | 0 <= k < |after| ensures OrderFits(quotes, after[k], offer) {
      assert OrderFits(quotes, orders[k], offer);
    }
    forall q | 0 <= q < |quotes| && offer(q).Some? && quotes[q].status != Accepted
      ensures Find(after, PendingFor(q)).Some?
    {
      StillPending(orders, after, q);
    }
  }

  lemma OrderDeclined(quotes: seq<Quote>, orders: seq<Order>, o: nat, offer: nat -> Option<real>)
    requires OrdersFit(quotes, orders, offer) && o < |orders| && orders[o].pending
    ensures OrdersFit(quotes, orders[o := orders[o].(pending := false)], Withdrawn(offer, orders[o].quote))
  {
    var after, offer' := orders[o := orders[o].(pending := false)], Withdrawn(offer, orders[o].quote);
    forall k | 0 <= k < |after| ensures OrderFits(quotes, after[k], offer') {
      assert OrderFits(quotes, orders[k], offer);
    }
    forall q | 0 <= q < |quotes| && offer'(q).Some? && quotes[q].status != Accepted
      ensures Find(after, PendingFor(q)).Some?
    {
      assert q != orders[o].quote;
      StillPending(orders, after, q);
    }
  }

  lemma SameOffers(quotes: seq<Quote>, orders: seq<Order>, f: nat -> Option<real>, g: nat -> Option<real>)
    requires OrdersFit(quotes, orders, f) && forall q: nat :: f(q) == g(q)
    ensures OrdersFit(quotes, orders, g)
  {
    forall k | 0 <= k < |orders| ensures OrderFits(quotes, orders[k], g) {
      assert OrderFits(quotes, orders[k], f);
    }
  }

  /** What an attempt does to the orders. */
  lemma AttemptShape(d: Desk, a: Action, q: nat)
    requires Attempts(d, a, q)
    ensures q < |d.quotes| && d.quotes[q].status == Submitted
    ensures var orders, o, orders' := WithOrder(d, q).orders, PayableOrder(d, q), Step(d, a).orders;
      if a.Card? then orders' == orders[o := orders[o].(card := true)]
      else if GoesThrough(d, q, a.customer, a.hasAddress, a.now) && Saved(a.fails) >= ALL_SAVED
      then orders' == orders[o := orders[o].(paid := true, pending := false)]
           && |Step(d, a).quotes| == |d.quotes| && Step(d, a).quotes[q].status == Accepted
      else orders' == orders
  {
    if a.Take? { AcceptShape(d, q, a.customer, a.hasAddress, a.now, a.fails); }
  }

  lemma AttemptFits(d: Desk, a: Action, q: nat, offer: nat -> Option<real>)
    requires OrdersFit(d.quotes, d.orders, offer) && Attempts(d, a, q)
    ensures OrdersFit(Step(d, a).quotes, Step(d, a).orders, Offered(offer, q, d.quotes[q].total))
  {
    var orders, o, offer' := WithOrder(d, q).orders, PayableOrder(d, q), Offered(offer, q, d.quotes[q].total);
    AttemptShape(d, a, q);
    OrderMade(d, q, offer);
    StepKeeps(d, a);
    OrdersKept(d, Step(d, a), orders, offer');
    if a.Card? {
      CardBegun(Step(d, a).quotes, orders, o, offer');
    } else if GoesThrough(d, q, a.customer, a.hasAddress, a.now) && Saved(a.fails) >= ALL_SAVED {
      OrderPaid(Step(d, a).quotes, orders, o, offer');
    }
  }

  lemma PaymentFits(d: Desk, o: nat, offer: nat -> Option<real>)
    requires OrdersFit(d.quotes, d.orders, offer)
    ensures OrdersFit(CompletePayment(d, o).quotes, CompletePayment(d, o).orders, offer)
  {
    var d' := CompletePayment(d, o);
    PaymentKeeps(d, o);
    OrdersKept(d, d', d.orders, offer);
    if o < |d.orders| && d.orders[o].card {
      assert OrderFits(d.quotes, d.orders[o], offer);
      PaymentShape(d, o);
      OrderPaid(d'.quotes, d.orders, o, offer);
    }
  }

  lemma DeclineFits(d: Desk, o: nat, vendor: Id, offer: nat -> Option<real>)
    requires OrdersFit(d.quotes, d.orders, offer)
    ensures OrdersFit(d.quotes, DeclineOrder(d, o, vendor).orders,
                      if o < |d.orders| && Withdraws(d, Decline(o, vendor), d.orders[o].quote)
                      then Withdrawn(offer, d.orders[o].quote) else offer)
  {
    if o < |d.orders| && Withdraws(d, Decline(o, vendor), d.orders[o].quote) {
      OrderDeclined(d.quotes, d.orders, o, offer);
    } else {
      assert DeclineOrder(d, o, vendor).orders == d.orders;
    }
  }

  lemma OtherStepFits(d: Desk, a: Action, offer: nat -> Option<real>)
    requires OrdersFit(d.quotes, d.orders, offer) && !a.Decline? && !a.Pay?
    requires forall q: nat :: !Attempts(d, a, q)
    ensures OrdersFit(Step(d, a).quotes, Step(d, a).orders, offer)
  {
    StepKeeps(d, a);
    if a.Take? || a.Card? { assert !Attempts(d, a, a.quote); }
    assert Step(d, a).orders == d.orders;
    OrdersKept(d, Step(d, a), d.orders, offer);
  }

  /** The offers after a step. */
  function NextOffers(d: Desk, a: Action, offer: nat -> Option<real>): nat -> Option<real> {
    (q: nat) =>
      if Withdraws(d, a, q) then None
      else if offer(q).Some? then offer(q)
      else if Attempts(d, a, q) then Some(d.quotes[q].total)
      else None
  }

  lemma StepFits(d: Desk, a: Action, offer: nat -> Option<real>)
    requires OrdersFit(d.quotes, d.orders, offer)
    ensures OrdersFit(Step(d, a).quotes, Step(d, a).orders, NextOffers(d, a, offer))
  {
    var quotes, orders := Step(d, a).quotes, Step(d, a).orders;
    if q: nat :| Attempts(d, a, q) {
      AttemptFits(d, a, q, offer);
      SameOffers(quotes, orders, Offered(offer, q, d.quotes[q].total), NextOffers(d, a, offer));
    } else if a.Decline? && a.order < |d.orders| && Withdraws(d, a, d.orders[a.order].quote) {
      DeclineFits(d, a.order, a.vendor, offer);
      SameOffers(quotes, orders, Withdrawn(offer, d.orders[a.order].quote), NextOffers(d, a, offer));
    } else {
      if a.Decline? {
        DeclineFits(d, a.order, a.vendor, offer);
      } else if a.Pay? {
        PaymentFits(d, a.order, offer);
      } else {
        OtherStepFits(d, a, offer);
      }
      SameOffers(quotes, orders, offer, NextOffers(d, a, offer));
    }
  }

  lemma {:induction false} RunOrdersFit(vendors: set<Id>, balances: map<Id, real>, actions: seq<Action>)
    ensures var d0 := EmptyDesk(vendors, balances);
      OrdersFit(Run(d0, actions).quotes, Run(d0, actions).orders, Offers(d0, actions))
  {
    var d0 := EmptyDesk(vendors, balances);
    if actions != [] {
      var rest, a := actions[..|actions| - 1], actions[|actions| - 1];
      RunOrdersFit(vendors, balances, rest);
      StepFits(Run(d0, rest), a, Offers(d0, rest));
      SameOffers(Run(d0, actions).quotes, Run(d0, actions).orders, NextOffers(Run(d0, rest), a, Offers(d0, rest)),
                 Offers(d0, actions));
    }
  }

  /**
    After any run, an acceptance by wallet is charged at the total that stands, or else at the current one; that is
    the current one if and only if no other total stands. If finalising fails, the charge is given back, and the
    quote is accepted all the same once it was saved.
   */
  lemma AcceptChargesStandingOffer(vendors: set<Id>, balances: map<Id, real>, actions: seq<Action>, q: nat,
                                   customer: Id, hasAddress: bool, now: int, fails: Option<nat>)
    requires Attempts(Run(EmptyDesk(vendors, balances), actions), Take(q, customer, hasAddress, now, fails), q)
    ensures var d := Run(EmptyDesk(vendors, balances), actions);
      var offer := StandingOffer(EmptyDesk(vendors, balances), actions, q);
      var charge, d' := if offer.Some? then offer.value else d.quotes[q].total,
                        Accept(d, q, customer, hasAddress, now, fails);
      && |d'.quotes| == |d.quotes|
      && (d'.quotes[q].status == Accepted <==> BalanceOf(d, customer) >= charge && Saved(fails) >= 1)
      && BalanceOf(d', customer)
         == (if BalanceOf(d, customer) >= charge && fails.None? then BalanceOf(d, customer) - charge
             else BalanceOf(d, customer))
      && (charge == d.quotes[q].total <==> offer.None? || offer.value == d.quotes[q].total)
  {
    var d := Run(EmptyDesk(vendors, balances), actions);
    RunOrdersFit(vendors, balances, actions);
    OrderMade(d, q, Offers(EmptyDesk(vendors, balances), actions));
    PaidOrNot(d, q, customer, hasAddress, now, fails);
  }

  lemma PaidOrNot(d: Desk, q: nat, customer: Id, hasAddress: bool, now: int, fails: Option<nat>)
    requires Attempts(d, Take(q, customer, hasAddress, now, fails), q)
    ensures var d' := Accept(d, q, customer, hasAddress, now, fails);
      && |d'.quotes| == |d.quotes|
      && (d'.quotes[q].status == Accepted <==> BalanceOf(d, customer) >= ChargeFor(d, q) && Saved(fails) >= 1)
      && BalanceOf(d', customer)
         == (if BalanceOf(d, customer) >= ChargeFor(d, q) && fails.None?
             then BalanceOf(d, customer) - ChargeFor(d, q) else BalanceOf(d, customer))
  {
    AcceptShape(d, q, customer, hasAddress, now, fails);
  }
}
