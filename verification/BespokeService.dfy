/** The handlers of the bespoke quote protocol, updating the stored quotes, designs, orders and wallets in place. */
module BespokeService {
  import opened Bespoke
  import opened Prelude

  /** The quotes while a loop rewrites them one by one. */
  function Rewritten(before: seq<Quote>, after: seq<Quote>, n: nat): seq<Quote>
    requires n <= |before| == |after|
  {
    after[..n] + before[n..]
  }

  lemma RewrittenNext(before: seq<Quote>, after: seq<Quote>, n: nat)
    requires n < |before| == |after|
    ensures Rewritten(before, after, n)[n] == before[n]
    ensures Rewritten(before, after, n)[n := after[n]] == Rewritten(before, after, n + 1)
    ensures after[n] == before[n] ==> Rewritten(before, after, n) == Rewritten(before, after, n + 1)
  {
  }

  class QuoteDesk {
    var designs: map<Id, Design>
    var quotes: seq<Quote>
    var orders: seq<Order>
    var balances: map<Id, real>
    const vendors: set<Id>

    function State(): Desk
      reads this
    {
      Desk(designs, quotes, vendors, orders, balances)
    }

    constructor (vendors: set<Id>, balances: map<Id, real>)
      ensures State() == Desk(map[], [], vendors, [], balances)
    {
      this.vendors, this.balances := vendors, balances;
      designs, quotes, orders := map[], [], [];
    }

    method RequestQuotes(design: Id, customer: Id, ids: seq<Id>, now: int) returns (ok: bool)
      modifies this
      ensures State() == Bespoke.RequestQuotes(old(State()), design, customer, ids, now)
      ensures ok == !RequestRefused(old(State()), design, customer, ids)
    {
      if design !in designs || designs[design].customer != customer { return false; }
      var status := designs[design].status;
      if status != Sketch && status != RequestingQuotes && status != Quoted { return false; }
      if QuoteCount(quotes, design) + |ids| > MAX_VENDORS_PER_DESIGN { return false; }
      var added := NewVendors(quotes, design, ids);
      if added == [] { return false; }
      if |Distinct(added) * vendors| != |added| { return false; }
      var expiresAt := now + QUOTE_EXPIRY_MS;
      ghost var first := quotes;
      for i := 0 to |added|
        invariant quotes == first
          + seq(i, j requires 0 <= j < i => Quote(design, added[j], customer, Pending, expiresAt, 0.0))
        invariant State() == old(State()).(quotes := quotes)
      {
        quotes := quotes + [Quote(design, added[i], customer, Pending, expiresAt, 0.0)];
      }
      if status == Sketch {
        designs := designs[design := designs[design].(status := RequestingQuotes)];
      }
      return true;
    }

    method SaveQuoteDraft(q: nat, vendor: Id, lines: Option<seq<real>>)
      modifies this`quotes
      ensures State() == SaveDraft(old(State()), q, vendor, lines)
    {
      if q >= |quotes| || quotes[q].vendor != vendor { return; }
      var quote := quotes[q];
      if quote.status != Pending && quote.status != Draft && quote.status != RevisionRequested { return; }
      if lines.Some? {
        var total := TotalOf(lines.value);
        quote := quote.(total := total);
      }
      quotes := quotes[q := quote.(status := Draft)];
    }

    /** The total of a quote's line items. */
    static method TotalOf(lines: seq<real>) returns (total: real)
      ensures total == Sum(lines, Amount)
    {
      total := 0.0;
      for i := 0 to |lines|
        invariant total == Sum(lines[..i], Amount)
      {
        assert lines[..i + 1] == lines[..i] + [lines[i]];
        SumAppend(lines[..i], lines[i], Amount);
        total := total + lines[i];
      }
      assert lines[..|lines|] == lines;
    }

    method SubmitQuote(q: nat, vendor: Id, lines: seq<real>, now: int)
      modifies this`quotes, this`designs
      ensures State() == Submit(old(State()), q, vendor, lines, now)
    {
      if q >= |quotes| || quotes[q].vendor != vendor { return; }
      var quote := quotes[q];
      if quote.status != Pending && quote.status != Draft && quote.status != RevisionRequested { return; }
      if now > quote.expiresAt {
        quotes := quotes[q := quote.(status := Expired)];
        return;
      }
      var total := TotalOf(lines);
      quotes := quotes[q := quote.(total := total, status := Submitted)];
      if quote.design in designs {
        designs := designs[quote.design := designs[quote.design].(status := Quoted)];
      }
    }

    method RequestRevision(q: nat, customer: Id)
      modifies this`quotes
      ensures State() == Bespoke.RequestRevision(old(State()), q, customer)
    {
      if q >= |quotes| || quotes[q].customer != customer { return; }
      if quotes[q].status != Submitted && quotes[q].status != Draft { return; }
      quotes := quotes[q := quotes[q].(status := RevisionRequested)];
    }

    method DeclineOpenQuotes(design: Id, but: Option<nat>)
      modifies this`quotes
      ensures quotes == DeclineOpen(old(quotes), design, but)
    {
      ghost var before, after := quotes, DeclineOpen(quotes, design, but);
      for i := 0 to |quotes|
        invariant |quotes| == |before| && quotes == Rewritten(before, after, i)
      {
        RewrittenNext(before, after, i);
        if quotes[i].design == design && Some(i) != but && Open(quotes[i]) {
          quotes := quotes[i := quotes[i].(status := Declined)];
        }
      }
    }

    /** Saves the accepted quote, its siblings, the design and the order, in that order; only the first `saved`. */
    method FinalizeBespokeOrder(q: nat, o: nat, saved: nat)
      requires q < |quotes| && o < |orders| && quotes[q].design in designs
      modifies this`quotes, this`designs, this`orders
      ensures State() == Finalize(old(State()), q, o, saved)
    {
      var design := quotes[q].design;
      if saved < 1 { return; }
      quotes := quotes[q := quotes[q].(status := Accepted)];
      if saved < 2 { return; }
      DeclineOpenQuotes(design, Some(q));
      if saved < 3 { return; }
      designs := designs[design := designs[design].(status := InProduction, accepted := Some(q))];
      if saved < 4 { return; }
      orders := orders[o := orders[o].(paid := true, pending := false)];
    }

    /** The order left by an earlier attempt, or a new one. */
    method FindOrCreateOrder(q: nat) returns (o: nat)
      requires q < |quotes|
      modifies this`orders
      ensures State() == WithOrder(old(State()), q) && o == PayableOrder(old(State()), q)
    {
      match Find(orders, PendingFor(q)) {
        case Some(k) => o := k;
        case None =>
          o := |orders|;
          orders := orders + [Order(q, quotes[q].total, true, false, false)];
      }
    }

    method DebitWallet(customer: Id, amount: real)
      modifies this`balances
      ensures balances == Debit(old(State()), customer, amount)
    {
      var balance := if customer in balances then balances[customer] else 0.0;
      balances := balances[customer := balance - amount];
    }

    method CreditWallet(customer: Id, amount: real)
      modifies this`balances
      ensures balances == old(balances)[customer := BalanceOf(old(State()), customer) + amount]
    {
      var balance := if customer in balances then balances[customer] else 0.0;
      balances := balances[customer := balance + amount];
    }

    /**
      Accepts a quote, paying from the customer's wallet. `fails` says after how many saves finalising fails, if it
      does; the wallet is refunded then.
     */
    method AcceptQuote(q: nat, customer: Id, hasAddress: bool, now: int, fails: Option<nat>)
      modifies this
      ensures State() == Accept(old(State()), q, customer, hasAddress, now, fails)
    {
      if q >= |quotes| || quotes[q].customer != customer { return; }
      if quotes[q].status != Submitted { return; }
      if now > quotes[q].expiresAt {
        quotes := quotes[q := quotes[q].(status := Expired)];
        return;
      }
      if quotes[q].design !in designs { return; }
      if Find(orders, PendingFor(q)).None? && !hasAddress { return; }
      var o := FindOrCreateOrder(q);
      if BalanceOf(State(), customer) < orders[o].total { return; }
      PayFromWallet(q, o, customer, fails);
    }

    /** Debits the wallet by the order's total and finalises, or gives the money back. */
    method PayFromWallet(q: nat, o: nat, customer: Id, fails: Option<nat>)
      requires q < |quotes| && o < |orders| && quotes[q].design in designs
      modifies this
      ensures State() == Finalize(Charged(old(State()), o, customer, fails), q, o, Saved(fails))
    {
      var total := orders[o].total;
      DebitWallet(customer, total);
      match fails {
        case None => FinalizeBespokeOrder(q, o, ALL_SAVED);
        case Some(saved) =>
          FinalizeBespokeOrder(q, o, saved);
          CreditWallet(customer, total);
      }
    }

    /** Accepts a quote by card: the order is made, and its payment begins. */
    method AcceptQuoteByCard(q: nat, customer: Id, hasAddress: bool, now: int)
      modifies this
      ensures State() == BeginCardPayment(old(State()), q, customer, hasAddress, now)
    {
      if q >= |quotes| || quotes[q].customer != customer { return; }
      if quotes[q].status != Submitted { return; }
      if now > quotes[q].expiresAt {
        quotes := quotes[q := quotes[q].(status := Expired)];
        return;
      }
      if quotes[q].design !in designs { return; }
      if Find(orders, PendingFor(q)).None? && !hasAddress { return; }
      var o := FindOrCreateOrder(q);
      orders := orders[o := orders[o].(card := true)];
    }

    /** The payment of an order succeeds: the first time, its quote wins and its design goes into production. */
    method FinalizeCheckoutOrder(o: nat)
      modifies this`quotes, this`designs, this`orders
      ensures State() == CompletePayment(old(State()), o)
    {
      if o >= |orders| || !orders[o].card || orders[o].quote >= |quotes| { return; }
      var alreadyPaid, q := orders[o].paid, orders[o].quote;
      var design := quotes[q].design;
      if !alreadyPaid { FinalizeBespokeAcceptance(q); }
      orders := orders[o := orders[o].(paid := true, pending := false)];
      if !alreadyPaid && design in designs {
        designs := designs[design := designs[design].(status := InProduction)];
      }
    }

    method FinalizeBespokeAcceptance(q: nat)
      requires q < |quotes|
      modifies this`quotes, this`designs
      ensures State() == AcceptPaid(old(State()), q)
    {
      if quotes[q].status == Accepted { return; }
      var design := quotes[q].design;
      quotes := quotes[q := quotes[q].(status := Accepted)];
      DeclineOpenQuotes(design, Some(q));
      if design in designs {
        designs := designs[design := designs[design].(accepted := Some(q))];
      }
    }

    method CancelDesign(design: Id, customer: Id) returns (ok: bool)
      modifies this`quotes, this`designs
      ensures State() == Bespoke.CancelDesign(old(State()), design, customer)
      ensures ok == (design in old(designs) && old(designs)[design].customer == customer
                     && old(designs)[design].status != InProduction)
    {
      if design !in designs || designs[design].customer != customer { return false; }
      if designs[design].status == InProduction { return false; }
      DeclineOpenQuotes(design, None);
      designs := designs[design := designs[design].(status := Cancelled)];
      return true;
    }

    method ExpireQuotes(now: int) returns (expired: nat)
      modifies this`quotes
      ensures State() == Bespoke.ExpireQuotes(old(State()), now)
    {
      expired := 0;
      ghost var before, after := quotes, Bespoke.ExpireQuotes(State(), now).quotes;
      for i := 0 to |quotes|
        invariant |quotes| == |before| && quotes == Rewritten(before, after, i)
      {
        RewrittenNext(before, after, i);
        if quotes[i].expiresAt < now && Editable(quotes[i]) {
          quotes := quotes[i := quotes[i].(status := Expired)];
          expired := expired + 1;
        }
      }
    }
  }
}
