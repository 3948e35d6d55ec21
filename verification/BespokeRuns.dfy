/** Runs of the quote protocol, from an empty desk, on which a law does not hold. */
module BespokeRuns {
  import opened Prelude
  import opened Bespoke
  import opened BespokeLaws

  lemma RunThen(d: Desk, actions: seq<Action>, a: Action)
    ensures Run(d, actions + [a]) == Step(Run(d, actions), a)
  {
    assert (actions + [a])[..|actions|] == actions;
  }

  // ---------- Two quotes for one design ----------

  /** Design 1 of customer 9, with quotes of vendors 2 and 3. */
  function TwoQuotes(design: Design, a: Quote, b: Quote, orders: seq<Order>, balance: real): Desk {
    Desk(map[1 := design], [a, b], {2, 3}, orders, map[9 := balance])
  }

  function Of(vendor: Id, status: QuoteStatus, total: real): Quote {
    Quote(1, vendor, 9, status, QUOTE_EXPIRY_MS, total)
  }

  const START := EmptyDesk({2, 3}, map[9 := 100.0])
  const OPENING := [Create(1, 9), Request(1, 9, [2, 3], 0), Send(0, 2, [50.0], 0), Send(1, 3, [60.0], 0)]
  const SKETCHED := Desk(map[1 := Design(9, Sketch, None)], [], {2, 3}, [], map[9 := 100.0])

  lemma TwoNewVendors()
    ensures NewVendors([], 1, [2, 3]) == [2, 3]
  {
    assert !HasQuote([], 1, 2) && !HasQuote([], 1, 3);
    assert [2, 3][..1] == [2] && [2][..0] == [];
    assert NewVendors([], 1, [2]) == [2];
  }

  lemma RequestPasses()
    ensures !RequestRefused(SKETCHED, 1, 9, [2, 3])
  {
    TwoNewVendors();
    assert Distinct([2, 3]) * {2, 3} == {2, 3};
    assert QuoteCount(SKETCHED.quotes, 1) == 0;
  }

  lemma Requested()
    ensures Step(SKETCHED, Request(1, 9, [2, 3], 0))
         == TwoQuotes(Design(9, RequestingQuotes, None), Of(2, Pending, 0.0), Of(3, Pending, 0.0), [], 100.0)
  {
    TwoNewVendors();
    RequestPasses();
    assert RequestQuotes(SKETCHED, 1, 9, [2, 3], 0).quotes == [Of(2, Pending, 0.0), Of(3, Pending, 0.0)];
  }

  lemma FirstSent(design: Design, status: QuoteStatus, total: real, b: Quote,
                  orders: seq<Order>, balance: real, x: real)
    requires status == Pending || status == RevisionRequested
    ensures Step(TwoQuotes(design, Of(2, status, total), b, orders, balance), Send(0, 2, [x], 0))
         == TwoQuotes(design.(status := Quoted), Of(2, Submitted, x), b, orders, balance)
  {
    SumOne(x, Amount);
  }

  lemma SecondSent(design: Design, a: Quote, orders: seq<Order>, balance: real, x: real)
    ensures Step(TwoQuotes(design, a, Of(3, Pending, 0.0), orders, balance), Send(1, 3, [x], 0))
         == TwoQuotes(design.(status := Quoted), a, Of(3, Submitted, x), orders, balance)
  {
    SumOne(x, Amount);
  }

  const QUOTED := Design(9, Quoted, None)
  const FIRST := Of(2, Submitted, 50.0)
  const SECOND := Of(3, Submitted, 60.0)
  const OPENED := TwoQuotes(QUOTED, FIRST, SECOND, [], 100.0)

  lemma Opened()
    ensures Run(START, OPENING) == OPENED
  {
    assert OPENING == [] + [OPENING[0]] + [OPENING[1]] + [OPENING[2]] + [OPENING[3]];
    RunThen(START, [], OPENING[0]);
    RunThen(START, [] + [OPENING[0]], OPENING[1]);
    RunThen(START, [] + [OPENING[0]] + [OPENING[1]], OPENING[2]);
    RunThen(START, [] + [OPENING[0]] + [OPENING[1]] + [OPENING[2]], OPENING[3]);
    assert Step(START, OPENING[0]) == SKETCHED;
    Requested();
    FirstSent(Design(9, RequestingQuotes, None), Pending, 0.0, Of(3, Pending, 0.0), [], 100.0, 50.0);
    SecondSent(QUOTED, FIRST, [], 100.0, 60.0);
  }

  const BEGUN := Order(0, 50.0, true, false, true)

  /** The first quote is accepted by card, and its payment is on its way. */
  lemma CardBegins()
    ensures Run(START, OPENING + [Card(0, 9, true, 0)]) == TwoQuotes(QUOTED, FIRST, SECOND, [BEGUN], 100.0)
  {
    Opened();
    RunThen(START, OPENING, Card(0, 9, true, 0));
    assert WithOrder(OPENED, 0).orders == [Order(0, 50.0, true, false, false)];
    assert BeginCardPayment(OPENED, 0, 9, true, 0).orders == [BEGUN];
  }

  // ---------- A card payment that comes late ----------

  const TAKEN := Order(1, 60.0, false, true, false)

  lemma SecondTaken()
    ensures Step(TwoQuotes(QUOTED, FIRST, SECOND, [BEGUN], 100.0), Take(1, 9, true, 0, None))
         == TwoQuotes(Design(9, InProduction, Some(1)), FIRST.(status := Declined), SECOND.(status := Accepted),
                      [BEGUN, TAKEN], 40.0)
  {
    var d := TwoQuotes(QUOTED, FIRST, SECOND, [BEGUN], 100.0);
    assert !PendingFor(1)(d.orders[0]);
    assert WithOrder(d, 1).orders == [BEGUN, Order(1, 60.0, true, false, false)];
  }

  lemma FirstPaid(design: Design, b: Quote, orders: seq<Order>, balance: real)
    requires |orders| >= 1 && orders[0] == BEGUN && !Open(b)
    ensures Step(TwoQuotes(design, FIRST.(status := Declined), b, orders, balance), Pay(0))
         == TwoQuotes(Design(design.customer, InProduction, Some(0)), FIRST.(status := Accepted), b,
                      orders[0 := BEGUN.(paid := true, pending := false)], balance)
  {
    PaymentShape(TwoQuotes(design, FIRST.(status := Declined), b, orders, balance), 0);
  }

  /** The first quote is paid by card only after the second was accepted: both are accepted, and both are paid for. */
  lemma TwoQuotesAccepted()
    ensures var d := Run(START, OPENING + [Card(0, 9, true, 0)] + [Take(1, 9, true, 0, None)] + [Pay(0)]);
      && |d.quotes| == 2 && d.quotes[0].design == d.quotes[1].design
      && d.quotes[0].status == d.quotes[1].status == Accepted
  {
    CardBegins();
    RunThen(START, OPENING + [Card(0, 9, true, 0)], Take(1, 9, true, 0, None));
    SecondTaken();
    RunThen(START, OPENING + [Card(0, 9, true, 0)] + [Take(1, 9, true, 0, None)], Pay(0));
    FirstPaid(Design(9, InProduction, Some(1)), SECOND.(status := Accepted), [BEGUN, TAKEN], 40.0);
  }

  lemma AllCancelled()
    ensures Step(TwoQuotes(QUOTED, FIRST, SECOND, [BEGUN], 100.0), Cancel(1, 9))
         == TwoQuotes(Design(9, Cancelled, None), FIRST.(status := Declined), SECOND.(status := Declined),
                      [BEGUN], 100.0)
  {
  }

  /** A design is cancelled, and goes into production when the payment arrives. */
  lemma CancelledDesignIsProduced()
    ensures var cancelled := Run(START, OPENING + [Card(0, 9, true, 0)] + [Cancel(1, 9)]);
      && 1 in cancelled.designs && cancelled.designs[1].status == Cancelled
      && 1 in Step(cancelled, Pay(0)).designs && Step(cancelled, Pay(0)).designs[1].status == InProduction
  {
    CardBegins();
    RunThen(START, OPENING + [Card(0, 9, true, 0)], Cancel(1, 9));
    AllCancelled();
    FirstPaid(Design(9, Cancelled, None), SECOND.(status := Declined), [BEGUN], 100.0);
  }

  // ---------- An acceptance that fails ----------

  lemma FirstOrdered()
    ensures WithOrder(OPENED, 0).orders == [Order(0, 50.0, true, false, false)] && PayableOrder(OPENED, 0) == 0
  {
  }

  lemma AcceptanceFails(saved: nat)
    ensures Step(OPENED, Take(0, 9, true, 0, Some(saved)))
         == Finalize(TwoQuotes(QUOTED, FIRST, SECOND, [Order(0, 50.0, true, false, false)], 100.0), 0, 0, saved)
  {
    FirstOrdered();
    AcceptShape(OPENED, 0, 9, true, 0, Some(saved));
    assert Charged(WithOrder(OPENED, 0), 0, 9, Some(saved))
        == TwoQuotes(QUOTED, FIRST, SECOND, [Order(0, 50.0, true, false, false)], 100.0);
  }

  /** The siblings cannot be declined: the quote is accepted on a design that is not in production. */
  lemma TornAcceptance()
    ensures var d := Run(START, OPENING + [Take(0, 9, true, 0, Some(1))]);
      && |d.quotes| == 2 && d.quotes[0].status == Accepted && d.quotes[1].status == Submitted
      && 1 in d.designs && d.designs[1].status == Quoted && BalanceOf(d, 9) == 100.0
  {
    Opened();
    RunThen(START, OPENING, Take(0, 9, true, 0, Some(1)));
    AcceptanceFails(1);
  }

  /** The earnings cannot be recorded: the design is produced, the order is paid, and the wallet is refunded. */
  lemma RefundedAcceptanceStands()
    ensures var d := Run(START, OPENING + [Take(0, 9, true, 0, Some(ALL_SAVED))]);
      && |d.quotes| == 2 && d.quotes[0].status == Accepted && 1 in d.designs && d.designs[1].status == InProduction
      && |d.orders| == 1 && d.orders[0].paid && BalanceOf(d, 9) == 100.0
  {
    Opened();
    RunThen(START, OPENING, Take(0, 9, true, 0, Some(ALL_SAVED)));
    AcceptanceFails(ALL_SAVED);
  }

  // ---------- A quote that is charged at its old total ----------

  const REVISED := [Card(0, 9, true, 0), Revise(0, 9), Send(0, 2, [80.0], 0), Take(0, 9, true, 0, None)]

  lemma RevisedTaken()
    ensures var d := TwoQuotes(QUOTED, Of(2, Submitted, 80.0), SECOND, [BEGUN], 100.0);
      var d' := Step(d, Take(0, 9, true, 0, None));
      |d'.quotes| == 2 && d'.quotes[0] == Of(2, Accepted, 80.0) && BalanceOf(d', 9) == 50.0
  {
    var d := TwoQuotes(QUOTED, Of(2, Submitted, 80.0), SECOND, [BEGUN], 100.0);
    assert PendingFor(0)(d.orders[0]) && Find(d.orders, PendingFor(0)) == Some(0);
  }

  /** A card payment is left, the quote is revised from 50 to 80, and accepting it by wallet then takes 50. */
  lemma RevisedQuoteChargesOldTotal()
    ensures var d := Run(START, OPENING + [REVISED[0]] + [REVISED[1]] + [REVISED[2]] + [REVISED[3]]);
      |d.quotes| == 2 && d.quotes[0] == Of(2, Accepted, 80.0) && BalanceOf(d, 9) == 100.0 - 50.0
  {
    CardBegins();
    RunThen(START, OPENING + [REVISED[0]], REVISED[1]);
    RunThen(START, OPENING + [REVISED[0]] + [REVISED[1]], REVISED[2]);
    RunThen(START, OPENING + [REVISED[0]] + [REVISED[1]] + [REVISED[2]], REVISED[3]);
    assert Step(TwoQuotes(QUOTED, FIRST, SECOND, [BEGUN], 100.0), REVISED[1])
        == TwoQuotes(QUOTED, Of(2, RevisionRequested, 50.0), SECOND, [BEGUN], 100.0);
    FirstSent(QUOTED, RevisionRequested, 50.0, SECOND, [BEGUN], 100.0, 80.0);
    RevisedTaken();
  }
}
