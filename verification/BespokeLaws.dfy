/** The laws of the bespoke quote protocol, over whole runs. */
module BespokeLaws {
  import opened Prelude
  import opened Bespoke

  // ---------- Who may quote ----------

  /** At most five quotes a design, from distinct vendors; every quote has its design. */
  ghost predicate Roster(d: Desk) {
    && (forall i :: 0 <= i < |d.quotes| ==> d.quotes[i].design in d.designs)
    && (forall design :: design in d.designs ==> QuoteCount(d.quotes, design) <= 5)
    && (forall i, j :: 0 <= i < j < |d.quotes| && d.quotes[i].design == d.quotes[j].design ==>
          d.quotes[i].vendor != d.quotes[j].vendor)
  }

  /** Lists of the same quotes, possibly with other statuses and totals. */
  ghost predicate SameQuotes(a: seq<Quote>, b: seq<Quote>) {
    |a| == |b| && forall i :: 0 <= i < |a| ==> b[i].design == a[i].design && b[i].vendor == a[i].vendor
  }

  lemma {:induction false} SameCount(a: seq<Quote>, b: seq<Quote>, design: Id)
    requires SameQuotes(a, b)
    ensures QuoteCount(a, design) == QuoteCount(b, design)
  {
    if a != [] {
      SameCount(a[..|a| - 1], b[..|b| - 1], design);
    }
  }

  lemma {:induction false} CountAppended(quotes: seq<Quote>, more: seq<Quote>, design: Id)
    ensures QuoteCount(quotes + more, design) <= QuoteCount(quotes, design) + |more|
    ensures (forall i :: 0 <= i < |more| ==> more[i].design != design) ==>
      QuoteCount(quotes + more, design) == QuoteCount(quotes, design)
  {
    if more == [] {
      assert quotes + more == quotes;
    } else {
      assert (quotes + more)[..|quotes + more| - 1] == quotes + more[..|more| - 1];
      CountAppended(quotes, more[..|more| - 1], design);
    }
  }

  lemma SameRoster(d: Desk, d': Desk)
    requires Roster(d) && SameQuotes(d.quotes, d'.quotes) && d'.designs.Keys == d.designs.Keys
    ensures Roster(d')
  {
    forall design | design in d'.designs ensures QuoteCount(d'.quotes, design) <= 5 {
      SameCount(d.quotes, d'.quotes, design);
    }
  }

  lemma RequestCounts(d: Desk, design: Id, customer: Id, vendors: seq<Id>, now: int)
    requires Roster(d) && !RequestRefused(d, design, customer, vendors)
    ensures forall e :: e in d.designs ==>
      QuoteCount(RequestQuotes(d, design, customer, vendors, now).quotes, e) <= 5
  {
    var d' := RequestQuotes(d, design, customer, vendors, now);
    var more := d'.quotes[|d.quotes|..];
    assert d'.quotes == d.quotes + more;
    forall e | e in d.designs ensures QuoteCount(d'.quotes, e) <= 5 {
      CountAppended(d.quotes, more, e);
    }
  }

  lemma RequestRoster(d: Desk, design: Id, customer: Id, vendors: seq<Id>, now: int)
    requires Roster(d)
    ensures Roster(RequestQuotes(d, design, customer, vendors, now))
  {
    if !RequestRefused(d, design, customer, vendors) {
      RequestCounts(d, design, customer, vendors, now);
      RequestDistinct(d, design, customer, vendors, now);
    }
  }

  lemma RequestDistinct(d: Desk, design: Id, customer: Id, vendors: seq<Id>, now: int)
    requires Roster(d) && !RequestRefused(d, design, customer, vendors)
    ensures var quotes := RequestQuotes(d, design, customer, vendors, now).quotes;
      forall i, j :: 0 <= i < j < |quotes| && quotes[i].design == quotes[j].design ==>
          quotes[i].vendor != quotes[j].vendor
  {
    var added, quotes := NewVendors(d.quotes, design, vendors), RequestQuotes(d, design, customer, vendors, now).quotes;
    DistinctIfCounted(added, d.vendors);
    forall i, j | 0 <= i < j < |quotes| && quotes[i].design == quotes[j].design
        ensures quotes[i].vendor != quotes[j].vendor {
      if j >= |d.quotes| && i < |d.quotes| {
        assert !HasQuote(d.quotes, design, added[j - |d.quotes|]);
      }
    }
  }

  /** The existence check counts distinct vendors, so it also refuses a repeated one. */
  lemma DistinctIfCounted(ids: seq<Id>, known: set<Id>)
    requires |Distinct(ids) * known| == |ids|
    ensures forall i, j :: 0 <= i < j < |ids| ==> ids[i] != ids[j]
    ensures forall i :: 0 <= i < |ids| ==> ids[i] in known
  {
    var all := Distinct(ids);
    SetOfSeq(ids);
    SubsetSize(all * known, all);
    if all * known != all {
      SubsetSmaller(all * known, all);
    }
    forall i | 0 <= i < |ids| ensures ids[i] in known {
      assert ids[i] in all * known;
    }
  }

  lemma SubsetSize(a: set<Id>, b: set<Id>)
    requires a <= b
    ensures |a| <= |b|
  {
    assert b == a + (b - a);
  }

  lemma SubsetSmaller(a: set<Id>, b: set<Id>)
    requires a < b
    ensures |a| < |b|
  {
    assert b == a + (b - a) && b - a != {};
  }

  lemma {:induction false} SetOfSeq(ids: seq<Id>)
    ensures |Distinct(ids)| <= |ids|
    ensures |Distinct(ids)| == |ids| ==> forall i, j :: 0 <= i < j < |ids| ==> ids[i] != ids[j]
  {
    if ids != [] {
      var n := |ids| - 1;
      SetOfSeq(ids[..n]);
      assert ids == ids[..n] + [ids[n]];
      assert Distinct(ids) == Distinct(ids[..n]) + {ids[n]};
      if ids[n] in Distinct(ids[..n]) {
        assert Distinct(ids) == Distinct(ids[..n]);
      }
    }
  }

  lemma {:induction false} NoQuotes(quotes: seq<Quote>, design: Id)
    requires forall i :: 0 <= i < |quotes| ==> quotes[i].design != design
    ensures QuoteCount(quotes, design) == 0
  {
    if quotes != [] { NoQuotes(quotes[..|quotes| - 1], design); }
  }

  lemma CreateRoster(d: Desk, design: Id, customer: Id)
    requires Roster(d)
    ensures Roster(CreateDesign(d, design, customer))
  {
    if design !in d.designs { NoQuotes(d.quotes, design); }
  }

  lemma FinalizeSame(d: Desk, q: nat, o: nat, saved: nat)
    requires q < |d.quotes| && o < |d.orders| && d.quotes[q].design in d.designs
    ensures SameQuotes(d.quotes, Finalize(d, q, o, saved).quotes)
    ensures Finalize(d, q, o, saved).designs.Keys == d.designs.Keys
  {
  }

  predicate GoesThrough(d: Desk, q: nat, customer: Id, hasAddress: bool, now: int) {
    && !ExpiresNow(d, q, customer, now) && !AcceptRefused(d, q, customer, hasAddress)
    && ChargeFor(d, q) <= BalanceOf(d, customer)
  }

  lemma AcceptShape(d: Desk, q: nat, customer: Id, hasAddress: bool, now: int, fails: Option<nat>)
    ensures GoesThrough(d, q, customer, hasAddress, now) ==>
      && q < |d.quotes| && d.quotes[q].status == Submitted && d.quotes[q].design in d.designs
      && Accept(d, q, customer, hasAddress, now, fails)
         == Finalize(Charged(WithOrder(d, q), PayableOrder(d, q), customer, fails), q, PayableOrder(d, q), Saved(fails))
    ensures !GoesThrough(d, q, customer, hasAddress, now) ==>
      var d' := Accept(d, q, customer, hasAddress, now, fails);
      && d'.designs == d.designs
      && (d'.quotes == d.quotes
          || (q < |d.quotes| && d.quotes[q].status == Submitted
              && d'.quotes == d.quotes[q := d.quotes[q].(status := Expired)]))
  {
  }

  /** A card payment that accepts its quote: the first for its order, the quote not being accepted yet. */
  predicate PayAccepts(d: Desk, a: Action) {
    && a.Pay? && a.order < |d.orders| && d.orders[a.order].card && !d.orders[a.order].paid
    && d.orders[a.order].quote < |d.quotes| && d.quotes[d.orders[a.order].quote].status != Accepted
  }

  /** The design is in production for the quote. */
  function Chosen(x: Design, q: nat): Design {
    x.(status := InProduction, accepted := Some(q))
  }

  lemma PaymentShape(d: Desk, o: nat)
    ensures PayAccepts(d, Pay(o)) ==>
      var q := d.orders[o].quote; var design := d.quotes[q].design;
      && CompletePayment(d, o).quotes == DeclineOpen(d.quotes[q := d.quotes[q].(status := Accepted)], design, Some(q))
      && CompletePayment(d, o).designs
         == if design in d.designs then d.designs[design := Chosen(d.designs[design], q)] else d.designs
    ensures !PayAccepts(d, Pay(o)) ==>
      && CompletePayment(d, o).quotes == d.quotes
      && (CompletePayment(d, o).designs == d.designs
          || (o < |d.orders| && d.orders[o].quote < |d.quotes| && d.quotes[d.orders[o].quote].status == Accepted
              && CompletePayment(d, o).designs == Produced(d, d.quotes[d.orders[o].quote].design).designs))
  {
    if PayAccepts(d, Pay(o)) {
      var q := d.orders[o].quote;
      var design := d.quotes[q].design;
      if design in d.designs {
        assert CompletePayment(d, o).designs[design] == Chosen(d.designs[design], q);
      }
    }
  }

  lemma PaymentSame(d: Desk, o: nat)
    ensures SameQuotes(d.quotes, CompletePayment(d, o).quotes) && CompletePayment(d, o).designs.Keys == d.designs.Keys
  {
    PaymentShape(d, o);
  }

  lemma AcceptSame(d: Desk, q: nat, customer: Id, hasAddress: bool, now: int, fails: Option<nat>)
    ensures SameQuotes(d.quotes, Accept(d, q, customer, hasAddress, now, fails).quotes)
    ensures Accept(d, q, customer, hasAddress, now, fails).designs.Keys == d.designs.Keys
  {
    AcceptShape(d, q, customer, hasAddress, now, fails);
    if GoesThrough(d, q, customer, hasAddress, now) {
      FinalizeSame(Charged(WithOrder(d, q), PayableOrder(d, q), customer, fails), q, PayableOrder(d, q), Saved(fails));
    }
  }

  lemma SubmitSame(d: Desk, q: nat, vendor: Id, lines: seq<real>, now: int)
    ensures SameQuotes(d.quotes, Submit(d, q, vendor, lines, now).quotes)
    ensures Submit(d, q, vendor, lines, now).designs.Keys == d.designs.Keys
  {
  }

  lemma CancelSame(d: Desk, design: Id, customer: Id)
    ensures SameQuotes(d.quotes, CancelDesign(d, design, customer).quotes)
    ensures CancelDesign(d, design, customer).designs.Keys == d.designs.Keys
  {
  }

  lemma OtherStepSame(d: Desk, a: Action)
    requires !a.Create? && !a.Request?
    ensures SameQuotes(d.quotes, Step(d, a).quotes) && Step(d, a).designs.Keys == d.designs.Keys
  {
    match a
    case Send(q, vendor, amounts, now) => SubmitSame(d, q, vendor, amounts, now);
    case Take(q, customer, hasAddress, now, fails) => AcceptSame(d, q, customer, hasAddress, now, fails);
    case Pay(o) => PaymentSame(d, o);
    case Cancel(design, customer) => CancelSame(d, design, customer);
    case _ =>
  }

  lemma StepRoster(d: Desk, a: Action)
    requires Roster(d)
    ensures Roster(Step(d, a))
  {
    match a
    case Create(design, customer) => CreateRoster(d, design, customer);
    case Request(design, customer, vendors, now) => RequestRoster(d, design, customer, vendors, now);
    case _ =>
      OtherStepSame(d, a);
      SameRoster(d, Step(d, a));
  }

  lemma {:induction false} RunRoster(d: Desk, actions: seq<Action>)
    requires Roster(d)
    ensures Roster(Run(d, actions))
  {
    if actions != [] {
      RunRoster(d, actions[..|actions| - 1]);
      StepRoster(Run(d, actions[..|actions| - 1]), actions[|actions| - 1]);
    }
  }

  /** In every reachable state a design has at most five quotes, and from distinct vendors. */
  lemma FewQuotes(vendors: set<Id>, balances: map<Id, real>, actions: seq<Action>)
    ensures Roster(Run(EmptyDesk(vendors, balances), actions))
  {
    RunRoster(EmptyDesk(vendors, balances), actions);
  }

  // ---------- Winners ----------

  /** Accepted quotes stay accepted, and a design is pointed only to a quote that is accepted just then. */
  ghost predicate KeepsWinners(d: Desk, d': Desk) {
    && |d.quotes| <= |d'.quotes|
    && (forall i :: 0 <= i < |d.quotes| ==> KeepsQuote(d.quotes[i], d'.quotes[i]))
    && (forall design :: design in d.designs ==>
          design in d'.designs && KeepsChoice(d, d.designs[design].accepted, d'.designs[design].accepted))
  }

  predicate KeepsQuote(a: Quote, b: Quote) {
    b.design == a.design && (a.status == Accepted ==> b.status == Accepted)
  }

  predicate KeepsChoice(d: Desk, a: Option<nat>, b: Option<nat>) {
    b != a ==> b.Some? && b.value < |d.quotes| && d.quotes[b.value].status != Accepted
  }

  lemma FinalizeKeeps(d: Desk, q: nat, o: nat, saved: nat)
    requires q < |d.quotes| && o < |d.orders| && d.quotes[q].design in d.designs && d.quotes[q].status != Accepted
    ensures KeepsWinners(d, Finalize(d, q, o, saved))
  {
  }

  lemma SubmitKeeps(d: Desk, q: nat, vendor: Id, lines: seq<real>, now: int)
    ensures KeepsWinners(d, Submit(d, q, vendor, lines, now))
  {
  }

  lemma PaymentKeeps(d: Desk, o: nat)
    ensures KeepsWinners(d, CompletePayment(d, o))
  {
    PaymentShape(d, o);
  }

  lemma KeepsFrom(d: Desk, c: Desk, d': Desk)
    requires c.quotes == d.quotes && c.designs == d.designs && KeepsWinners(c, d')
    ensures KeepsWinners(d, d')
  {
    forall design | design in d.designs
      ensures design in d'.designs && KeepsChoice(d, d.designs[design].accepted, d'.designs[design].accepted)
    {
      assert KeepsChoice(c, c.designs[design].accepted, d'.designs[design].accepted);
    }
  }

  lemma OneExpiryKeeps(d: Desk, q: nat)
    requires q < |d.quotes| && d.quotes[q].status == Submitted
    ensures KeepsWinners(d, WithQuote(d, q, d.quotes[q].(status := Expired)))
  {
  }

  lemma AcceptKeeps(d: Desk, q: nat, customer: Id, hasAddress: bool, now: int, fails: Option<nat>)
    ensures KeepsWinners(d, Accept(d, q, customer, hasAddress, now, fails))
  {
    AcceptShape(d, q, customer, hasAddress, now, fails);
    if GoesThrough(d, q, customer, hasAddress, now) {
      var c := Charged(WithOrder(d, q), PayableOrder(d, q), customer, fails);
      FinalizeKeeps(c, q, PayableOrder(d, q), Saved(fails));
      KeepsFrom(d, c, Finalize(c, q, PayableOrder(d, q), Saved(fails)));
    } else if ExpiresNow(d, q, customer, now) {
      OneExpiryKeeps(d, q);
    }
  }

  lemma RequestKeeps(d: Desk, design: Id, customer: Id, vendors: seq<Id>, now: int)
    ensures KeepsWinners(d, RequestQuotes(d, design, customer, vendors, now))
  {
  }

  lemma CancelKeeps(d: Desk, design: Id, customer: Id)
    ensures KeepsWinners(d, CancelDesign(d, design, customer))
  {
  }

  lemma ExpireKeeps(d: Desk, now: int)
    ensures KeepsWinners(d, ExpireQuotes(d, now))
  {
  }

  lemma EditKeeps(d: Desk, a: Action)
    requires a.Save? || a.Revise? || a.Card? || a.Create?
    ensures KeepsWinners(d, Step(d, a))
  {
  }

  lemma StepKeeps(d: Desk, a: Action)
    ensures KeepsWinners(d, Step(d, a))
  {
    match a
    case Request(design, customer, vendors, now) => RequestKeeps(d, design, customer, vendors, now);
    case Send(q, vendor, amounts, now) => SubmitKeeps(d, q, vendor, amounts, now);
    case Take(q, customer, hasAddress, now, fails) => AcceptKeeps(d, q, customer, hasAddress, now, fails);
    case Pay(o) => PaymentKeeps(d, o);
    case Decline(o, vendor) =>
    case Fund(customer, amount) =>
    case Cancel(design, customer) => CancelKeeps(d, design, customer);
    case Expire(now) => ExpireKeeps(d, now);
    case _ => EditKeeps(d, a);
  }

  /** Some accepted quote is not the one its design points to. */
  ghost predicate Broken(d: Desk) {
    exists i :: 0 <= i < |d.quotes| && Astray(d, i)
  }

  predicate Astray(d: Desk, i: nat)
    requires i < |d.quotes|
  {
    d.quotes[i].status == Accepted && d.quotes[i].design in d.designs
    && d.designs[d.quotes[i].design].accepted != Some(i)
  }

  lemma StaysBroken(d: Desk, d': Desk)
    requires Broken(d) && KeepsWinners(d, d')
    ensures Broken(d')
  {
    var i :| 0 <= i < |d.quotes| && Astray(d, i);
    assert KeepsQuote(d.quotes[i], d'.quotes[i]);
    assert Astray(d', i);
  }

  // ---------- The protocol invariant ----------

  /** A quote against its design: open only while the design is; accepted only if the design says so. */
  predicate QuoteFits(d: Desk, i: nat)
    requires i < |d.quotes|
  {
    var q := d.quotes[i];
    && q.design in d.designs
    && (Open(q) ==> d.designs[q.design].status != InProduction && d.designs[q.design].status != Cancelled)
    && (q.status == Accepted <==> d.designs[q.design].accepted == Some(i))
  }

  predicate DesignFits(d: Desk, design: Id)
    requires design in d.designs
  {
    && (d.designs[design].status == InProduction <==> d.designs[design].accepted.Some?)
    && (d.designs[design].accepted.Some? ==>
         d.designs[design].accepted.value < |d.quotes| && d.quotes[d.designs[design].accepted.value].design == design)
  }

  ghost predicate Inv(d: Desk) {
    && (forall i :: 0 <= i < |d.quotes| ==> QuoteFits(d, i))
    && (forall design :: design in d.designs ==> DesignFits(d, design))
  }

  lemma RequestInv(d: Desk, design: Id, customer: Id, vendors: seq<Id>, now: int)
    requires Inv(d)
    ensures Inv(RequestQuotes(d, design, customer, vendors, now))
  {
    if !RequestRefused(d, design, customer, vendors) {
      var d' := RequestQuotes(d, design, customer, vendors, now);
      assert DesignFits(d, design);
      forall i | 0 <= i < |d'.quotes| ensures QuoteFits(d', i) { assert i < |d.quotes| ==> QuoteFits(d, i); }
      forall e | e in d'.designs ensures DesignFits(d', e) { assert DesignFits(d, e); }
    }
  }

  // One open quote is edited, expired or resubmitted; its design may be marked as quoted.
  lemma OneEditInv(d: Desk, q: nat, quote: Quote)
    requires Inv(d) && q < |d.quotes| && Open(d.quotes[q]) && d.quotes[q].design in d.designs
    requires quote.design == d.quotes[q].design && quote.status != Accepted
    ensures Inv(WithQuote(d, q, quote))
    ensures var design := quote.design;
      Inv(WithQuote(d, q, quote).(designs := d.designs[design := d.designs[design].(status := Quoted)]))
  {
    var design := quote.design;
    var edited := WithQuote(d, q, quote);
    var marked := edited.(designs := d.designs[design := d.designs[design].(status := Quoted)]);
    assert QuoteFits(d, q) && DesignFits(d, design);
    forall i | 0 <= i < |d.quotes| ensures QuoteFits(edited, i) && QuoteFits(marked, i) { assert QuoteFits(d, i); }
    forall e | e in d.designs ensures DesignFits(edited, e) && DesignFits(marked, e) { assert DesignFits(d, e); }
  }

  lemma HasDesign(d: Desk, q: nat)
    requires Inv(d) && q < |d.quotes|
    ensures d.quotes[q].design in d.designs
  {
    assert QuoteFits(d, q);
  }

  lemma EditInv(d: Desk, a: Action)
    requires Inv(d) && (a.Save? || a.Send? || a.Revise?)
    ensures Inv(Step(d, a))
  {
    var q := a.quote;
    if Step(d, a) != d && q < |d.quotes| {
      HasDesign(d, q);
      OneEditInv(d, q, Step(d, a).quotes[q]);
    }
  }

  lemma CancelInv(d: Desk, design: Id, customer: Id)
    requires Inv(d)
    ensures Inv(CancelDesign(d, design, customer))
  {
    var d' := CancelDesign(d, design, customer);
    if d' != d {
      assert DesignFits(d, design);
      forall i | 0 <= i < |d.quotes| ensures QuoteFits(d', i) { assert QuoteFits(d, i); }
      forall e | e in d.designs ensures DesignFits(d', e) { assert DesignFits(d, e); }
    }
  }

  lemma ExpireInv(d: Desk, now: int)
    requires Inv(d)
    ensures Inv(ExpireQuotes(d, now))
  {
    var d' := ExpireQuotes(d, now);
    forall i | 0 <= i < |d.quotes| ensures QuoteFits(d', i) { assert QuoteFits(d, i); }
    forall e | e in d.designs ensures DesignFits(d', e) { assert DesignFits(d, e); }
  }

  // The invariant reads only designs and quotes.
  lemma SameStanding(d: Desk, d': Desk)
    requires Inv(d) && d'.designs == d.designs && d'.quotes == d.quotes
    ensures Inv(d')
  {
    forall i | 0 <= i < |d.quotes| ensures QuoteFits(d', i) { assert QuoteFits(d, i); }
    forall e | e in d.designs ensures DesignFits(d', e) { assert DesignFits(d, e); }
  }

  lemma CreateInv(d: Desk, design: Id, customer: Id)
    requires Inv(d)
    ensures Inv(CreateDesign(d, design, customer))
  {
    var d' := CreateDesign(d, design, customer);
    forall i | 0 <= i < |d.quotes| ensures QuoteFits(d', i) { assert QuoteFits(d, i); }
    forall e | e in d'.designs ensures DesignFits(d', e) { if e in d.designs { assert DesignFits(d, e); } }
  }

  /** The whole of an acceptance, on a design that is not in production. */
  lemma AcceptedInv(d: Desk, d': Desk, q: nat)
    requires Inv(d) && q < |d.quotes| && d.quotes[q].status != Accepted && d.quotes[q].design in d.designs
    requires d.designs[d.quotes[q].design].status != InProduction
    requires d'.quotes == DeclineOpen(d.quotes[q := d.quotes[q].(status := Accepted)], d.quotes[q].design, Some(q))
    requires var design := d.quotes[q].design;
      d'.designs == d.designs[design := Chosen(d.designs[design], q)]
    ensures Inv(d')
  {
    assert DesignFits(d, d.quotes[q].design);
    forall i | 0 <= i < |d.quotes| ensures QuoteFits(d', i) { assert QuoteFits(d, i); }
    forall e | e in d.designs ensures DesignFits(d', e) { assert DesignFits(d, e); }
  }

  // ---------- What disturbs it ----------

  /** It completes for a design that is already in production. */
  predicate Doubles(d: Desk, a: Action) {
    PayAccepts(d, a) && InStatus(d, d.quotes[d.orders[a.order].quote].design, InProduction)
  }

  predicate InStatus(d: Desk, design: Id, status: DesignStatus) {
    design in d.designs && d.designs[design].status == status
  }

  /** An acceptance that fails with the quote saved and the design not. */
  predicate Tears(d: Desk, a: Action) {
    && a.Take? && a.fails.Some? && 1 <= a.fails.value <= 2
    && GoesThrough(d, a.quote, a.customer, a.hasAddress, a.now)
  }

  predicate Disturbs(d: Desk, a: Action) {
    Doubles(d, a) || Tears(d, a)
  }

  predicate Undisturbed(d: Desk, actions: seq<Action>) {
    actions != [] ==>
      var rest := actions[..|actions| - 1];
      Undisturbed(d, rest) && !Disturbs(Run(d, rest), actions[|actions| - 1])
  }

  lemma TakeInv(d: Desk, q: nat, customer: Id, hasAddress: bool, now: int, fails: Option<nat>)
    requires Inv(d) && !Tears(d, Take(q, customer, hasAddress, now, fails))
    ensures Inv(Accept(d, q, customer, hasAddress, now, fails))
  {
    var d' := Accept(d, q, customer, hasAddress, now, fails);
    AcceptShape(d, q, customer, hasAddress, now, fails);
    if GoesThrough(d, q, customer, hasAddress, now) {
      assert QuoteFits(d, q);
      var c := Charged(WithOrder(d, q), PayableOrder(d, q), customer, fails);
      if Saved(fails) == 0 { SameStanding(d, d'); } else { AcceptedInv(d, d', q); }
    } else if d'.quotes == d.quotes {
      SameStanding(d, d');
    } else {
      HasDesign(d, q);
      OneEditInv(d, q, d.quotes[q].(status := Expired));
      SameStanding(WithQuote(d, q, d.quotes[q].(status := Expired)), d');
    }
  }

  lemma CardInv(d: Desk, q: nat, customer: Id, hasAddress: bool, now: int)
    requires Inv(d)
    ensures Inv(BeginCardPayment(d, q, customer, hasAddress, now))
  {
    if ExpiresNow(d, q, customer, now) {
      HasDesign(d, q);
      OneEditInv(d, q, d.quotes[q].(status := Expired));
    } else {
      SameStanding(d, BeginCardPayment(d, q, customer, hasAddress, now));
    }
  }

  lemma ProducedAlready(d: Desk, q: nat)
    requires Inv(d) && q < |d.quotes| && d.quotes[q].status == Accepted
    ensures Produced(d, d.quotes[q].design).designs == d.designs
  {
    assert QuoteFits(d, q) && DesignFits(d, d.quotes[q].design);
  }

  lemma PayInv(d: Desk, o: nat)
    requires Inv(d) && !Doubles(d, Pay(o))
    ensures Inv(CompletePayment(d, o))
  {
    PaymentShape(d, o);
    if PayAccepts(d, Pay(o)) {
      assert QuoteFits(d, d.orders[o].quote);
      AcceptedInv(d, CompletePayment(d, o), d.orders[o].quote);
    } else {
      if o < |d.orders| && d.orders[o].quote < |d.quotes| && d.quotes[d.orders[o].quote].status == Accepted {
        ProducedAlready(d, d.orders[o].quote);
      }
      SameStanding(d, CompletePayment(d, o));
    }
  }

  lemma StepInv(d: Desk, a: Action)
    requires Inv(d) && !Disturbs(d, a)
    ensures Inv(Step(d, a))
  {
    match a
    case Create(design, customer) => CreateInv(d, design, customer);
    case Request(design, customer, vendors, now) => RequestInv(d, design, customer, vendors, now);
    case Take(q, customer, hasAddress, now, fails) => TakeInv(d, q, customer, hasAddress, now, fails);
    case Card(q, customer, hasAddress, now) => CardInv(d, q, customer, hasAddress, now);
    case Pay(o) => PayInv(d, o);
    case Decline(o, vendor) => SameStanding(d, DeclineOrder(d, o, vendor));
    case Fund(customer, amount) => SameStanding(d, TopUp(d, customer, amount));
    case Cancel(design, customer) => CancelInv(d, design, customer);
    case Expire(now) => ExpireInv(d, now);
    case _ => EditInv(d, a);
  }

  lemma DoubleBreaks(d: Desk, a: Action)
    requires Inv(d) && Doubles(d, a)
    ensures Broken(Step(d, a))
  {
    var q := d.orders[a.order].quote;
    var design := d.quotes[q].design;
    assert DesignFits(d, design);
    var i := d.designs[design].accepted.value;
    assert QuoteFits(d, i) && QuoteFits(d, q);
    assert Astray(Step(d, a), i);
  }

  lemma TearBreaks(d: Desk, a: Action)
    requires Inv(d) && Tears(d, a)
    ensures Broken(Step(d, a))
  {
    AcceptShape(d, a.quote, a.customer, a.hasAddress, a.now, a.fails);
    assert QuoteFits(d, a.quote);
    assert Astray(Step(d, a), a.quote);
  }

  lemma {:induction false} RunInvIff(d: Desk, actions: seq<Action>)
    requires Inv(d)
    ensures if Undisturbed(d, actions) then Inv(Run(d, actions)) else Broken(Run(d, actions))
  {
    if actions != [] {
      var rest, a := actions[..|actions| - 1], actions[|actions| - 1];
      RunInvIff(d, rest);
      if !Undisturbed(d, rest) {
        StepKeeps(Run(d, rest), a);
        StaysBroken(Run(d, rest), Step(Run(d, rest), a));
      } else if Doubles(Run(d, rest), a) {
        DoubleBreaks(Run(d, rest), a);
      } else if Tears(Run(d, rest), a) {
        TearBreaks(Run(d, rest), a);
      } else {
        StepInv(Run(d, rest), a);
      }
    }
  }

  /**
    At most one quote of a design is accepted, and then the design is in production with it and no other quote of
    it is open; and none is on a cancelled design.
   */
  ghost predicate Safe(d: Desk) {
    && (forall i, j :: 0 <= i < j < |d.quotes| && d.quotes[i].design == d.quotes[j].design ==>
          !(d.quotes[i].status == Accepted && d.quotes[j].status == Accepted))
    && (forall i :: 0 <= i < |d.quotes| ==>
          var q := d.quotes[i];
          && q.design in d.designs
          && (q.status == Accepted ==>
                d.designs[q.design].status == InProduction && d.designs[q.design].accepted == Some(i))
          && (d.designs[q.design].status == InProduction && q.status != Accepted ==>
                q.status == Declined || q.status == Expired)
          && (d.designs[q.design].status == Cancelled ==> q.status == Declined || q.status == Expired))
  }

  lemma InvIsSafe(d: Desk)
    requires Inv(d)
    ensures Safe(d)
  {
    forall i | 0 <= i < |d.quotes| ensures QuoteFits(d, i) && DesignFits(d, d.quotes[i].design) {
      assert QuoteFits(d, i);
    }
  }

  lemma BrokenIsUnsafe(d: Desk)
    requires Broken(d)
    ensures !Safe(d)
  {
    var i :| 0 <= i < |d.quotes| && Astray(d, i);
  }

  /**
    A run ends in a safe state if and only if no card payment completed in it for a quote whose design was in
    production with another, and no acceptance failed with its quote saved and its design not.
   */
  lemma ProtocolIsSafeIff(vendors: set<Id>, balances: map<Id, real>, actions: seq<Action>)
    ensures Safe(Run(EmptyDesk(vendors, balances), actions)) <==> Undisturbed(EmptyDesk(vendors, balances), actions)
  {
    RunInvIff(EmptyDesk(vendors, balances), actions);
    if Undisturbed(EmptyDesk(vendors, balances), actions) {
      InvIsSafe(Run(EmptyDesk(vendors, balances), actions));
    } else {
      BrokenIsUnsafe(Run(EmptyDesk(vendors, balances), actions));
    }
  }

  // ---------- Final designs ----------

  predicate Final(d: Desk, design: Id) {
    design in d.designs && (d.designs[design].status == InProduction || d.designs[design].status == Cancelled)
  }

  /** The design and its quotes in `b` are those of `a`. */
  ghost predicate Untouched(a: Desk, b: Desk, design: Id) {
    && design in a.designs && design in b.designs && b.designs[design] == a.designs[design]
    && |a.quotes| <= |b.quotes|
    && (forall i :: 0 <= i < |a.quotes| && a.quotes[i].design == design ==> b.quotes[i] == a.quotes[i])
    && (forall i :: 0 <= i < |a.quotes| ==> b.quotes[i].design == a.quotes[i].design)
    && (forall i :: |a.quotes| <= i < |b.quotes| ==> b.quotes[i].design != design)
  }

  /** No quote of a final design is open, and one is accepted only if the design is in production. */
  ghost predicate Closed(d: Desk, design: Id) {
    Final(d, design)
    && forall i :: 0 <= i < |d.quotes| && d.quotes[i].design == design ==>
         !Open(d.quotes[i]) && (d.quotes[i].status == Accepted ==> d.designs[design].status == InProduction)
  }

  lemma FinalIsClosed(d: Desk, design: Id)
    requires Inv(d) && Final(d, design)
    ensures Closed(d, design)
  {
    forall i | 0 <= i < |d.quotes| && d.quotes[i].design == design
      ensures !Open(d.quotes[i]) && (d.quotes[i].status == Accepted ==> d.designs[design].status == InProduction)
    {
      assert QuoteFits(d, i) && DesignFits(d, design);
    }
  }

  lemma StaysClosed(d: Desk, d': Desk, design: Id)
    requires Closed(d, design) && Untouched(d, d', design)
    ensures Closed(d', design)
  {
    forall i | 0 <= i < |d'.quotes| && d'.quotes[i].design == design
      ensures i < |d.quotes| && d'.quotes[i] == d.quotes[i]
    {
      assert i < |d.quotes|;
      assert d'.quotes[i].design == d.quotes[i].design;
    }
  }

  /** A card payment that accepts a quote of the design once that is decided. */
  predicate Overturns(d: Desk, a: Action, design: Id) {
    PayAccepts(d, a) && d.quotes[d.orders[a.order].quote].design == design
  }

  predicate NeverOverturned(d: Desk, actions: seq<Action>, design: Id) {
    actions != [] ==>
      var rest := actions[..|actions| - 1];
      NeverOverturned(d, rest, design) && !Overturns(Run(d, rest), actions[|actions| - 1], design)
  }

  lemma RequestUntouched(d: Desk, e: Id, customer: Id, vendors: seq<Id>, now: int, design: Id)
    requires Closed(d, design)
    ensures Untouched(d, RequestQuotes(d, e, customer, vendors, now), design)
  {
  }

  lemma CancelUntouched(d: Desk, e: Id, customer: Id, design: Id)
    requires Closed(d, design)
    ensures Untouched(d, CancelDesign(d, e, customer), design)
  {
  }

  lemma ExpireUntouched(d: Desk, now: int, design: Id)
    requires Closed(d, design)
    ensures Untouched(d, ExpireQuotes(d, now), design)
  {
  }

  lemma SubmitUntouched(d: Desk, q: nat, vendor: Id, lines: seq<real>, now: int, design: Id)
    requires Closed(d, design)
    ensures Untouched(d, Submit(d, q, vendor, lines, now), design)
  {
  }

  lemma FinalizeUntouched(d: Desk, q: nat, o: nat, saved: nat, design: Id)
    requires q < |d.quotes| && o < |d.orders| && d.quotes[q].design in d.designs
    requires design in d.designs && d.quotes[q].design != design
    ensures Untouched(d, Finalize(d, q, o, saved), design)
  {
  }

  lemma AcceptUntouched(d: Desk, q: nat, customer: Id, hasAddress: bool, now: int, fails: Option<nat>, design: Id)
    requires Closed(d, design)
    ensures Untouched(d, Accept(d, q, customer, hasAddress, now, fails), design)
  {
    AcceptShape(d, q, customer, hasAddress, now, fails);
    if GoesThrough(d, q, customer, hasAddress, now) {
      assert d.quotes[q].design != design;
      FinalizeUntouched(Charged(WithOrder(d, q), PayableOrder(d, q), customer, fails), q, PayableOrder(d, q),
                        Saved(fails), design);
    }
  }

  lemma PayUntouched(d: Desk, o: nat, design: Id)
    requires Closed(d, design) && !Overturns(d, Pay(o), design)
    ensures Untouched(d, CompletePayment(d, o), design)
  {
    PaymentShape(d, o);
  }

  lemma StepUntouched(d: Desk, a: Action, design: Id)
    requires Closed(d, design) && !Overturns(d, a, design)
    ensures Untouched(d, Step(d, a), design)
  {
    match a
    case Request(e, customer, vendors, now) => RequestUntouched(d, e, customer, vendors, now, design);
    case Send(q, vendor, amounts, now) => SubmitUntouched(d, q, vendor, amounts, now, design);
    case Take(q, customer, hasAddress, now, fails) =>
      AcceptUntouched(d, q, customer, hasAddress, now, fails, design);
    case Pay(o) => PayUntouched(d, o, design);
    case Cancel(e, customer) => CancelUntouched(d, e, customer, design);
    case Expire(now) => ExpireUntouched(d, now, design);
    case _ =>
  }

  /** A quote of the design that was not accepted in `d` is accepted in `d'`. */
  ghost predicate Overturned(d: Desk, d': Desk, design: Id) {
    exists q :: 0 <= q < |d.quotes| && d.quotes[q].design == design && NewlyAccepted(d, d', q)
  }

  predicate NewlyAccepted(d: Desk, d': Desk, q: nat)
    requires q < |d.quotes|
  {
    d.quotes[q].status != Accepted && q < |d'.quotes| && d'.quotes[q].status == Accepted
  }

  lemma OverturnShows(d: Desk, e: Desk, a: Action, design: Id)
    requires Untouched(d, e, design) && Overturns(e, a, design)
    ensures Overturned(d, Step(e, a), design)
  {
    var q := e.orders[a.order].quote;
    assert q < |d.quotes| && e.quotes[q].design == d.quotes[q].design;
    assert NewlyAccepted(d, Step(e, a), q);
  }

  lemma StaysOverturned(d: Desk, e: Desk, e': Desk, design: Id)
    requires Overturned(d, e, design) && KeepsWinners(e, e')
    ensures Overturned(d, e', design)
  {
    var q :| 0 <= q < |d.quotes| && d.quotes[q].design == design && NewlyAccepted(d, e, q);
    assert KeepsQuote(e.quotes[q], e'.quotes[q]);
    assert NewlyAccepted(d, e', q);
  }

  lemma UntouchedFurther(a: Desk, b: Desk, c: Desk, design: Id)
    requires Untouched(a, b, design) && Untouched(b, c, design)
    ensures Untouched(a, c, design)
  {
  }

  lemma {:induction false} RunUntouchedIff(d: Desk, actions: seq<Action>, design: Id)
    requires Closed(d, design)
    ensures if NeverOverturned(d, actions, design)
      then Untouched(d, Run(d, actions), design) else Overturned(d, Run(d, actions), design)
  {
    if actions != [] {
      var rest, a := actions[..|actions| - 1], actions[|actions| - 1];
      var e := Run(d, rest);
      RunUntouchedIff(d, rest, design);
      if !NeverOverturned(d, rest, design) {
        StepKeeps(e, a);
        StaysOverturned(d, e, Step(e, a), design);
      } else if Overturns(e, a, design) {
        OverturnShows(d, e, a, design);
      } else {
        StaysClosed(d, e, design);
        StepUntouched(e, a, design);
        UntouchedFurther(d, e, Step(e, a), design);
      }
    }
  }

  /**
    Once a design is in production or cancelled, a run leaves it and its quotes as they are if and only if no card
    payment completes in it that accepts one of those quotes.
   */
  lemma FinalIsAbsorbingIff(d: Desk, actions: seq<Action>, design: Id)
    requires Inv(d) && Final(d, design)
    ensures Untouched(d, Run(d, actions), design) <==> NeverOverturned(d, actions, design)
  {
    FinalIsClosed(d, design);
    RunUntouchedIff(d, actions, design);
  }

  // ---------- Terms ----------

  /**
    A customer that asks vendors it knows, each once and none with a quote for the design yet, gets a pending quote
    from each if and only if the design is its own and not decided, and that makes at most five.
   */
  lemma RequestTerms(d: Desk, design: Id, customer: Id, vendors: seq<Id>, now: int)
    requires vendors != [] && forall i, j :: 0 <= i < j < |vendors| ==> vendors[i] != vendors[j]
    requires forall v :: v in vendors ==> v in d.vendors && !HasQuote(d.quotes, design, v)
    ensures var d' := RequestQuotes(d, design, customer, vendors, now);
      if design in d.designs && d.designs[design].customer == customer
         && Undecided(d.designs[design]) && QuoteCount(d.quotes, design) + |vendors| <= 5
      then |d'.quotes| == |d.quotes| + |vendors|
           && forall i :: 0 <= i < |vendors| ==>
                d'.quotes[|d.quotes| + i] == Quote(design, vendors[i], customer, Pending, now + 604800000, 0.0)
      else d' == d
  {
    AllNew(d.quotes, design, vendors);
    RequestPassesIff(d, design, customer, vendors);
  }

  predicate Undecided(x: Design) {
    x.status == Sketch || x.status == RequestingQuotes || x.status == Quoted
  }

  lemma RequestPassesIff(d: Desk, design: Id, customer: Id, vendors: seq<Id>)
    requires vendors != [] && NewVendors(d.quotes, design, vendors) == vendors
    requires forall i, j :: 0 <= i < j < |vendors| ==> vendors[i] != vendors[j]
    requires forall v :: v in vendors ==> v in d.vendors
    ensures !RequestRefused(d, design, customer, vendors)
      <==> design in d.designs && d.designs[design].customer == customer && Undecided(d.designs[design])
           && QuoteCount(d.quotes, design) + |vendors| <= 5
  {
    assert Distinct(vendors) * d.vendors == Distinct(vendors);
    DistinctSize(vendors);
  }

  lemma {:induction false} AllNew(quotes: seq<Quote>, design: Id, vendors: seq<Id>)
    requires forall v :: v in vendors ==> !HasQuote(quotes, design, v)
    ensures NewVendors(quotes, design, vendors) == vendors
  {
    if vendors != [] {
      assert forall v :: v in vendors[..|vendors| - 1] ==> v in vendors;
      AllNew(quotes, design, vendors[..|vendors| - 1]);
    }
  }

  lemma {:induction false} DistinctSize(ids: seq<Id>)
    requires forall i, j :: 0 <= i < j < |ids| ==> ids[i] != ids[j]
    ensures |Distinct(ids)| == |ids|
  {
    if ids != [] {
      var n := |ids| - 1;
      DistinctSize(ids[..n]);
      assert ids == ids[..n] + [ids[n]];
      assert Distinct(ids) == Distinct(ids[..n]) + {ids[n]} && ids[n] !in Distinct(ids[..n]);
    }
  }

  /**
    A vendor can send a quote of its own that is pending, in draft or to be revised, up to its expiry and on it; it
    is submitted with the sum of its lines, and the design is quoted. Later it expires, by sending or by itself.
   */
  lemma SendingTerms(d: Desk, q: nat, vendor: Id, lines: seq<real>, now: int)
    requires q < |d.quotes|
    ensures var quote, d' := d.quotes[q], Submit(d, q, vendor, lines, now);
      && |d'.quotes| == |d.quotes|
      && (if quote.vendor == vendor && quote.status in {Pending, Draft, RevisionRequested} then
            if now <= quote.expiresAt
            then d'.quotes[q] == quote.(status := Submitted, total := Sum(lines, Amount))
                 && (quote.design in d.designs ==> InStatus(d', quote.design, Quoted))
            else d'.quotes[q] == quote.(status := Expired) && d'.designs == d.designs
          else d' == d)
      && |ExpireQuotes(d, now).quotes| == |d.quotes|
      && ExpireQuotes(d, now).quotes[q]
         == (if quote.status in {Pending, Draft, RevisionRequested} && quote.expiresAt < now
             then quote.(status := Expired) else quote)
  {
  }

  /** A draft takes the sum of its lines if it has any, and keeps its total otherwise; sending it needs no revision. */
  lemma DraftTerms(d: Desk, q: nat, vendor: Id, lines: Option<seq<real>>)
    requires q < |d.quotes| && d.quotes[q].vendor == vendor && d.quotes[q].status in {Pending, Draft, RevisionRequested}
    ensures |SaveDraft(d, q, vendor, lines).quotes| == |d.quotes|
    ensures SaveDraft(d, q, vendor, lines).quotes[q] == match lines
      case None => d.quotes[q].(status := Draft)
      case Some(amounts) => d.quotes[q].(status := Draft, total := Sum(amounts, Amount))
  {
  }

  /** The customer sends back a quote of its own that is submitted or in draft, and no other. */
  lemma RevisionTerms(d: Desk, q: nat, customer: Id)
    requires q < |d.quotes|
    ensures RequestRevision(d, q, customer)
      == if d.quotes[q].customer == customer && d.quotes[q].status in {Submitted, Draft}
         then d.(quotes := d.quotes[q := d.quotes[q].(status := RevisionRequested)]) else d
  {
  }

  predicate NonePending(orders: seq<Order>, q: nat) {
    forall o :: o in orders && o.quote == q ==> !o.pending
  }

  /** Nobody accepts another customer's quote, one that is not submitted, or one that has expired. */
  lemma AcceptanceTerms(d: Desk, q: nat, customer: Id, hasAddress: bool, now: int, fails: Option<nat>)
    requires q < |d.quotes|
    ensures var quote, d' := d.quotes[q], Accept(d, q, customer, hasAddress, now, fails);
      && (quote.customer != customer || quote.status != Submitted ==> d' == d)
      && (quote.customer == customer && quote.status == Submitted && quote.expiresAt < now ==>
            d' == d.(quotes := d.quotes[q := quote.(status := Expired)]))
      && (now <= quote.expiresAt && !hasAddress && NonePending(d.orders, q) ==> d' == d)
  {
    if NonePending(d.orders, q) {
      forall k | 0 <= k < |d.orders| ensures !PendingFor(q)(d.orders[k]) { assert d.orders[k] in d.orders; }
    }
  }
}
