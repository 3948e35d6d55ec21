/** The bespoke quote protocol: quotes requested, drafted, submitted, revised, accepted, cancelled, expired. */
module Bespoke {
  import opened Prelude

  datatype QuoteStatus = Pending | Draft | Submitted | Accepted | Declined | Expired | RevisionRequested

  datatype DesignStatus = Sketch | RequestingQuotes | Quoted | InProduction | Cancelled

  datatype Quote = Quote(design: Id, vendor: Id, customer: Id, status: QuoteStatus, expiresAt: int, total: real)

  datatype Design = Design(customer: Id, status: DesignStatus, accepted: Option<nat>)

  /**
    An order made for the quote at index `quote`; its total is fixed when it is made. It is `pending` until it is
    paid or the vendor declines it; `card` says that a card payment of it has begun.
   */
  datatype Order = Order(quote: nat, total: real, pending: bool, paid: bool, card: bool)

  /** `vendors` are the businesses that exist; `balances` the customers' wallets. */
  datatype Desk = Desk(
    designs: map<Id, Design>,
    quotes: seq<Quote>,
    vendors: set<Id>,
    orders: seq<Order>,
    balances: map<Id, real>)

  const MAX_VENDORS_PER_DESIGN := 5
  const QUOTE_EXPIRY_MS := 7 * 86400000

  predicate Open(q: Quote) {
    q.status == Pending || q.status == Draft || q.status == Submitted || q.status == RevisionRequested
  }

  predicate Editable(q: Quote) {
    q.status == Pending || q.status == Draft || q.status == RevisionRequested
  }

  // ---------- Handlers ----------

  function QuoteCount(quotes: seq<Quote>, design: Id): nat {
    if quotes == [] then 0
    else QuoteCount(quotes[..|quotes| - 1], design) + if quotes[|quotes| - 1].design == design then 1 else 0
  }

  predicate HasQuote(quotes: seq<Quote>, design: Id, vendor: Id) {
    exists i :: 0 <= i < |quotes| && quotes[i].design == design && quotes[i].vendor == vendor
  }

  /** The requested vendors that have no quote for the design yet, in order and with repetitions. */
  function NewVendors(quotes: seq<Quote>, design: Id, vendors: seq<Id>): (r: seq<Id>)
    ensures |r| <= |vendors|
    ensures forall i :: 0 <= i < |r| ==> !HasQuote(quotes, design, r[i])
  {
    if vendors == [] then []
    else
      var n := |vendors| - 1;
      NewVendors(quotes, design, vendors[..n]) + if HasQuote(quotes, design, vendors[n]) then [] else [vendors[n]]
  }

  function Distinct(ids: seq<Id>): set<Id> {
    set v | v in ids
  }

  predicate RequestRefused(d: Desk, design: Id, customer: Id, vendors: seq<Id>) {
    || design !in d.designs || d.designs[design].customer != customer
    || d.designs[design].status == InProduction || d.designs[design].status == Cancelled
    || QuoteCount(d.quotes, design) + |vendors| > MAX_VENDORS_PER_DESIGN
    || var added := NewVendors(d.quotes, design, vendors);
       added == [] || |Distinct(added) * d.vendors| != |added|
  }

  function RequestQuotes(d: Desk, design: Id, customer: Id, vendors: seq<Id>, now: int): Desk {
    if RequestRefused(d, design, customer, vendors) then d
    else
      var added := NewVendors(d.quotes, design, vendors);
      d.(quotes := d.quotes
           + seq(|added|, i requires 0 <= i < |added| =>
                 Quote(design, added[i], customer, Pending, now + QUOTE_EXPIRY_MS, 0.0)),
         designs := if d.designs[design].status == Sketch
           then d.designs[design := d.designs[design].(status := RequestingQuotes)] else d.designs)
  }

  function WithQuote(d: Desk, q: nat, quote: Quote): Desk
    requires q < |d.quotes|
  {
    d.(quotes := d.quotes[q := quote])
  }

  function Amount(x: real): real { x }

  function SaveDraft(d: Desk, q: nat, vendor: Id, lines: Option<seq<real>>): Desk {
    if q >= |d.quotes| || d.quotes[q].vendor != vendor || !Editable(d.quotes[q]) then d
    else
      var total := if lines.Some? then Sum(lines.value, Amount) else d.quotes[q].total;
      WithQuote(d, q, d.quotes[q].(total := total, status := Draft))
  }

  /** Submitting sets the design's status whatever it was. */
  function Submit(d: Desk, q: nat, vendor: Id, lines: seq<real>, now: int): Desk {
    if q >= |d.quotes| || d.quotes[q].vendor != vendor || !Editable(d.quotes[q]) then d
    else if now > d.quotes[q].expiresAt then WithQuote(d, q, d.quotes[q].(status := Expired))
    else
      var design := d.quotes[q].design;
      WithQuote(d, q, d.quotes[q].(status := Submitted, total := Sum(lines, Amount)))
        .(designs := if design in d.designs then d.designs[design := d.designs[design].(status := Quoted)]
          else d.designs)
  }

  function RequestRevision(d: Desk, q: nat, customer: Id): Desk {
    if q >= |d.quotes| || d.quotes[q].customer != customer
       || (d.quotes[q].status != Submitted && d.quotes[q].status != Draft) then d
    else WithQuote(d, q, d.quotes[q].(status := RevisionRequested))
  }

  /** Declines every open quote of a design, except the one at `but`. */
  function DeclineOpen(quotes: seq<Quote>, design: Id, but: Option<nat>): seq<Quote> {
    seq(|quotes|, i requires 0 <= i < |quotes| =>
      if quotes[i].design == design && Some(i) != but && Open(quotes[i]) then quotes[i].(status := Declined)
      else quotes[i])
  }

  function PendingFor(q: nat): Order -> bool {
    (o: Order) => o.quote == q && o.pending
  }

  /** The order to pay for a quote: a pending one left by an earlier attempt, or a new one. */
  function WithOrder(d: Desk, q: nat): Desk
    requires q < |d.quotes|
  {
    if Find(d.orders, PendingFor(q)).Some? then d
    else d.(orders := d.orders + [Order(q, d.quotes[q].total, true, false, false)])
  }

  /** The position of the order to pay. */
  function PayableOrder(d: Desk, q: nat): (o: nat)
    requires q < |d.quotes|
    ensures o < |WithOrder(d, q).orders| && PendingFor(q)(WithOrder(d, q).orders[o])
    ensures Find(d.orders, PendingFor(q)) == (if o < |d.orders| then Some(o) else None)
  {
    match Find(d.orders, PendingFor(q))
    case Some(o) => o
    case None => |d.orders|
  }

  /** How many documents finalising saves: the quote, its siblings, the design and the order. */
  const ALL_SAVED := 4

  /**
    Marks the quote accepted, declines its siblings, puts the design into production and marks the order paid; or
    only the first `saved` of these.
   */
  function Finalize(d: Desk, q: nat, o: nat, saved: nat): Desk
    requires q < |d.quotes| && o < |d.orders| && d.quotes[q].design in d.designs
  {
    var design := d.quotes[q].design;
    var quotes := if saved >= 1 then d.quotes[q := d.quotes[q].(status := Accepted)] else d.quotes;
    d.(quotes := if saved >= 2 then DeclineOpen(quotes, design, Some(q)) else quotes,
       designs := if saved >= 3
         then d.designs[design := d.designs[design].(status := InProduction, accepted := Some(q))] else d.designs,
       orders := if saved >= 4 then d.orders[o := d.orders[o].(paid := true, pending := false)] else d.orders)
  }

  function BalanceOf(d: Desk, customer: Id): real {
    if customer in d.balances then d.balances[customer] else 0.0
  }

  /** The wallets after taking an amount from one of them. */
  function Debit(d: Desk, customer: Id, amount: real): map<Id, real> {
    d.balances[customer := BalanceOf(d, customer) - amount]
  }

  predicate AcceptRefused(d: Desk, q: nat, customer: Id, hasAddress: bool) {
    || q >= |d.quotes| || d.quotes[q].customer != customer || d.quotes[q].status != Submitted
    || d.quotes[q].design !in d.designs
    || (Find(d.orders, PendingFor(q)).None? && !hasAddress)
  }

  predicate ExpiresNow(d: Desk, q: nat, customer: Id, now: int) {
    q < |d.quotes| && d.quotes[q].customer == customer && d.quotes[q].status == Submitted
    && now > d.quotes[q].expiresAt
  }

  /**
    Accepting by wallet: the order is made first, and stays pending if the balance does not cover it. If finalising
    fails once it has saved `fails` documents, the wallet is refunded, and what was saved stays.
   */
  function Accept(d: Desk, q: nat, customer: Id, hasAddress: bool, now: int, fails: Option<nat>): Desk {
    if ExpiresNow(d, q, customer, now) then WithQuote(d, q, d.quotes[q].(status := Expired))
    else if AcceptRefused(d, q, customer, hasAddress) then d
    else
      var w, o := WithOrder(d, q), PayableOrder(d, q);
      if BalanceOf(w, customer) < w.orders[o].total then w
      else Finalize(Charged(w, o, customer, fails), q, o, Saved(fails))
  }

  /** The desk with the order's total taken from the wallet, and given back if finalising fails. */
  function Charged(w: Desk, o: nat, customer: Id, fails: Option<nat>): Desk
    requires o < |w.orders|
  {
    w.(balances := if fails.None? then Debit(w, customer, w.orders[o].total)
         else w.balances[customer := BalanceOf(w, customer)])
  }

  function Saved(fails: Option<nat>): nat {
    if fails.None? then ALL_SAVED else fails.value
  }

  /** Accepting by card: the order is made, and the customer is sent to the payment page. */
  function BeginCardPayment(d: Desk, q: nat, customer: Id, hasAddress: bool, now: int): Desk {
    if ExpiresNow(d, q, customer, now) then WithQuote(d, q, d.quotes[q].(status := Expired))
    else if AcceptRefused(d, q, customer, hasAddress) then d
    else
      var orders, o := WithOrder(d, q).orders, PayableOrder(d, q);
      d.(orders := orders[o := orders[o].(card := true)])
  }

  /** Accepts the quote that was paid for, unless it is accepted, whatever became of it and its design. */
  function AcceptPaid(d: Desk, q: nat): Desk
    requires q < |d.quotes|
  {
    var design := d.quotes[q].design;
    if d.quotes[q].status == Accepted then d
    else
      d.(quotes := DeclineOpen(d.quotes[q := d.quotes[q].(status := Accepted)], design, Some(q)),
         designs := if design in d.designs then d.designs[design := d.designs[design].(accepted := Some(q))]
           else d.designs)
  }

  function Produced(d: Desk, design: Id): Desk {
    if design !in d.designs then d
    else d.(designs := d.designs[design := d.designs[design].(status := InProduction)])
  }

  /** A card payment succeeds; the first for an order accepts its quote and puts the design into production. */
  function CompletePayment(d: Desk, o: nat): Desk {
    if o >= |d.orders| || !d.orders[o].card || d.orders[o].quote >= |d.quotes| then d
    else
      var q := d.orders[o].quote;
      var settled := d.(orders := d.orders[o := d.orders[o].(paid := true, pending := false)]);
      if d.orders[o].paid then settled else Produced(AcceptPaid(settled, q), d.quotes[q].design)
  }

  /** The vendor declines its order, which nothing keeps it from doing before the order is paid. */
  function DeclineOrder(d: Desk, o: nat, vendor: Id): Desk {
    if o >= |d.orders| || d.orders[o].quote >= |d.quotes| || d.quotes[d.orders[o].quote].vendor != vendor then d
    else d.(orders := d.orders[o := d.orders[o].(pending := false)])
  }

  function TopUp(d: Desk, customer: Id, amount: real): Desk {
    if amount <= 0.0 then d else d.(balances := d.balances[customer := BalanceOf(d, customer) + amount])
  }

  function ChargeFor(d: Desk, q: nat): real
    requires q < |d.quotes|
  {
    WithOrder(d, q).orders[PayableOrder(d, q)].total
  }

  function CancelDesign(d: Desk, design: Id, customer: Id): Desk {
    if design !in d.designs || d.designs[design].customer != customer || d.designs[design].status == InProduction then d
    else
      d.(quotes := DeclineOpen(d.quotes, design, None),
         designs := d.designs[design := d.designs[design].(status := Cancelled)])
  }

  function ExpireQuotes(d: Desk, now: int): Desk {
    d.(quotes := seq(|d.quotes|, i requires 0 <= i < |d.quotes| =>
      if d.quotes[i].expiresAt < now && Editable(d.quotes[i]) then d.quotes[i].(status := Expired) else d.quotes[i]))
  }

  function CreateDesign(d: Desk, design: Id, customer: Id): Desk {
    if design in d.designs || (exists i :: 0 <= i < |d.quotes| && d.quotes[i].design == design) then d
    else d.(designs := d.designs[design := Design(customer, Sketch, None)])
  }

  datatype Action =
    | Create(design: Id, customer: Id)
    | Request(design: Id, customer: Id, vendors: seq<Id>, now: int)
    | Save(quote: nat, vendor: Id, lines: Option<seq<real>>)
    | Send(quote: nat, vendor: Id, amounts: seq<real>, now: int)
    | Revise(quote: nat, customer: Id)
    | Take(quote: nat, customer: Id, hasAddress: bool, now: int, fails: Option<nat>)
    | Card(quote: nat, customer: Id, hasAddress: bool, now: int)
    | Pay(order: nat)
    | Decline(order: nat, vendor: Id)
    | Fund(customer: Id, amount: real)
    | Cancel(design: Id, customer: Id)
    | Expire(now: int)

  function Step(d: Desk, a: Action): Desk {
    match a
    case Create(design, customer) => CreateDesign(d, design, customer)
    case Request(design, customer, vendors, now) => RequestQuotes(d, design, customer, vendors, now)
    case Save(q, vendor, lines) => SaveDraft(d, q, vendor, lines)
    case Send(q, vendor, amounts, now) => Submit(d, q, vendor, amounts, now)
    case Revise(q, customer) => RequestRevision(d, q, customer)
    case Take(q, customer, hasAddress, now, fails) => Accept(d, q, customer, hasAddress, now, fails)
    case Card(q, customer, hasAddress, now) => BeginCardPayment(d, q, customer, hasAddress, now)
    case Pay(o) => CompletePayment(d, o)
    case Decline(o, vendor) => DeclineOrder(d, o, vendor)
    case Fund(customer, amount) => TopUp(d, customer, amount)
    case Cancel(design, customer) => CancelDesign(d, design, customer)
    case Expire(now) => ExpireQuotes(d, now)
  }

  function Run(d: Desk, actions: seq<Action>): Desk {
    if actions == [] then d else Step(Run(d, actions[..|actions| - 1]), actions[|actions| - 1])
  }

  function EmptyDesk(vendors: set<Id>, balances: map<Id, real>): Desk {
    Desk(map[], [], vendors, [], balances)
  }
}
