/**
  Vendor earnings and vendor wallets: recording an order's earnings, releasing them, reversing them
  and docking them for late fulfilment. `LedgerState` and the functions on it say what each
  operation means; the methods of `Ledger` are the loops that do it.
 */
module EarningsLedger {
  import opened Prelude
  import opened OrderTypes

  datatype Milestone = Upfront | Completion

  /** `due` is the release date; an earning without one is never released. */
  datatype Earning = Earning(
    vendor: Id,
    order: Id,
    item: Option<Id>,
    amount: real,
    commission: real,
    net: real,
    released: bool,
    due: Option<int>,
    milestone: Milestone)

  datatype Wallet = Wallet(balance: real, pending: real)

  /** The earnings fields kept on an order. */
  datatype Books = Books(recorded: bool, vendorEarnings: real, commission: real)

  datatype LedgerState = LedgerState(earnings: seq<Earning>, wallets: map<Id, Wallet>, books: map<Id, Books>)

  datatype Settings = Settings(fixedCommission: bool, percent: real, flat: real, upfrontPercent: real)

  predicate ValidSettings(st: Settings) {
    0.0 <= st.percent <= 100.0 && 0.0 <= st.flat && 0.0 <= st.upfrontPercent <= 100.0
  }

  function PendingOf(wallets: map<Id, Wallet>, v: Id): real {
    if v in wallets then wallets[v].pending else 0.0
  }

  function BalanceOf(wallets: map<Id, Wallet>, v: Id): real {
    if v in wallets then wallets[v].balance else 0.0
  }

  // ---------- Summands ----------

  function Net(e: Earning): real { e.net }

  function CommissionPart(e: Earning): real { e.commission }

  function NetOf(v: Id): Earning -> real {
    (e: Earning) => if e.vendor == v then e.net else 0.0
  }

  function UnreleasedOf(v: Id): Earning -> real {
    (e: Earning) => if e.vendor == v && !e.released then e.net else 0.0
  }

  predicate Sound(e: Earning, wallets: map<Id, Wallet>) {
    e.net >= 0.0 && e.vendor in wallets
  }

  predicate Balanced(l: LedgerState, v: Id)
    requires v in l.wallets
  {
    l.wallets[v].pending == Sum(l.earnings, UnreleasedOf(v)) && l.wallets[v].balance >= 0.0
  }

  /** The ledger invariant: pending money is exactly the unreleased earnings, and nothing is negative. */
  ghost predicate Valid(l: LedgerState) {
    && (forall i :: 0 <= i < |l.earnings| ==> Sound(l.earnings[i], l.wallets))
    && (forall v {:trigger Balanced(l, v)} :: v in l.wallets ==> Balanced(l, v))
  }

  // ---------- Recording ----------

  function Commission(st: Settings, gross: real): (c: real)
    ensures ValidSettings(st) && gross >= 0.0 ==> 0.0 <= c <= gross
  {
    if st.fixedCommission then Min(st.flat, gross) else PercentOf(gross, st.percent)
  }

  function PercentOf(x: real, percent: real): (r: real)
    ensures x >= 0.0 && 0.0 <= percent <= 100.0 ==> 0.0 <= r <= x
  {
    assert x >= 0.0 && 0.0 <= percent <= 100.0 ==> x * (percent / 100.0) <= x * 1.0;
    x * (percent / 100.0)
  }

  function GoodsEarnings(o: Id, bespoke: bool, st: Settings, it: Item): seq<Earning> {
    var gross := it.totalPrice;
    var commission := Commission(st, gross);
    var net := gross - commission;
    var u := st.upfrontPercent;
    if (bespoke || it.customized) && u > 0.0 then
      [Earning(it.vendor, o, Some(it.id), PercentOf(gross, u), PercentOf(commission, u), PercentOf(net, u),
               false, None, Upfront),
       Earning(it.vendor, o, Some(it.id), PercentOf(gross, 100.0 - u), PercentOf(commission, 100.0 - u),
               net - PercentOf(net, u), false, None, Completion)]
    else
      [Earning(it.vendor, o, Some(it.id), gross, commission, net, false, None, Completion)]
  }

  /** Fabric product to fabric vendor; a product that is gone or has no vendor is absent. */
  type FabricVendors = map<Id, Id>

  predicate PaysFabricVendor(fv: FabricVendors, it: Item) {
    it.externalFabric > 0.0 && it.appliedFabric.Some? && it.appliedFabric.value in fv
  }

  function FabricEarnings(o: Id, st: Settings, fv: FabricVendors, it: Item): seq<Earning> {
    if PaysFabricVendor(fv, it) then
      var commission := Commission(st, it.externalFabric);
      [Earning(fv[it.appliedFabric.value], o, Some(it.id), it.externalFabric, commission,
               it.externalFabric - commission, false, None, Completion)]
    else
      []
  }

  function ItemEarnings(o: Id, bespoke: bool, st: Settings, fv: FabricVendors, it: Item): seq<Earning> {
    GoodsEarnings(o, bespoke, st, it) + FabricEarnings(o, st, fv, it)
  }

  function OrderEarnings(o: Id, bespoke: bool, st: Settings, fv: FabricVendors, items: seq<Item>): seq<Earning> {
    if items == [] then []
    else
      var n := |items| - 1;
      OrderEarnings(o, bespoke, st, fv, items[..n]) + ItemEarnings(o, bespoke, st, fv, items[n])
  }

  function VendorsOf(es: seq<Earning>): set<Id> {
    set e | e in es :: e.vendor
  }

  function Credited(wallets: map<Id, Wallet>, es: seq<Earning>): map<Id, Wallet> {
    map v | v in wallets.Keys + VendorsOf(es) ::
      Wallet(BalanceOf(wallets, v), PendingOf(wallets, v) + Sum(es, NetOf(v)))
  }

  predicate HasEarnings(l: LedgerState, o: Id) {
    exists i :: 0 <= i < |l.earnings| && l.earnings[i].order == o
  }

  function Recorded(l: LedgerState, o: Id, bespoke: bool, st: Settings, fv: FabricVendors, items: seq<Item>)
    : LedgerState
  {
    if o !in l.books || l.books[o].recorded then l
    else if HasEarnings(l, o) || items == [] then
      l.(books := l.books[o := l.books[o].(recorded := true)])
    else
      var es := OrderEarnings(o, bespoke, st, fv, items);
      LedgerState(l.earnings + es, Credited(l.wallets, es),
                  l.books[o := Books(true, Sum(es, Net), Sum(es, CommissionPart))])
  }

  // ---------- Releasing ----------

  predicate Due(e: Earning, now: int) {
    !e.released && e.due.Some? && e.due.value <= now && e.net != 0.0
  }

  function DueOf(now: int, v: Id): Earning -> real {
    (e: Earning) => if e.vendor == v && Due(e, now) then e.net else 0.0
  }

  function Paid(e: Earning, now: int): Earning {
    if Due(e, now) then e.(released := true) else e
  }

  function AllPaid(es: seq<Earning>, now: int): seq<Earning> {
    seq(|es|, i requires 0 <= i < |es| => Paid(es[i], now))
  }

  function PaidWallets(wallets: map<Id, Wallet>, es: seq<Earning>, now: int): map<Id, Wallet> {
    map v | v in wallets ::
      Wallet(wallets[v].balance + Sum(es, DueOf(now, v)), wallets[v].pending - Sum(es, DueOf(now, v)))
  }

  function Released(l: LedgerState, now: int): LedgerState {
    l.(earnings := AllPaid(l.earnings, now), wallets := PaidWallets(l.wallets, l.earnings, now))
  }

  /** Confirming a shipment dates the vendor's upfront earnings. */
  function Dated(e: Earning, o: Id, v: Id, date: int): Earning {
    if e.order == o && e.vendor == v && e.milestone == Upfront && !e.released && e.due == None
    then e.(due := Some(date)) else e
  }

  function Scheduled(l: LedgerState, o: Id, v: Id, date: int): LedgerState {
    l.(earnings := seq(|l.earnings|, i requires 0 <= i < |l.earnings| => Dated(l.earnings[i], o, v, date)))
  }

  /** Once everything is delivered, what is left of the order's earnings is dated. */
  function DatedOnDelivery(e: Earning, o: Id, date: int): Earning {
    if e.order == o && !e.released && e.due == None then e.(due := Some(date)) else e
  }

  function Delivered(l: LedgerState, o: Id, date: int): LedgerState {
    l.(earnings := seq(|l.earnings|, i requires 0 <= i < |l.earnings| => DatedOnDelivery(l.earnings[i], o, date)))
  }

  // ---------- Reversing ----------

  /** Which earnings a reversal addresses: an order, optionally narrowed to a vendor or an item. */
  datatype Scope = Scope(order: Id, vendor: Option<Id>, item: Option<Id>)

  predicate Covers(sc: Scope, e: Earning) {
    && e.order == sc.order
    && (sc.vendor.Some? ==> e.vendor == sc.vendor.value)
    && (sc.item.Some? ==> e.item == sc.item)
  }

  predicate CoveredBy(scs: set<Scope>, e: Earning) {
    exists sc :: sc in scs && Covers(sc, e)
  }

  function OpenIn(scs: set<Scope>, v: Id): Earning -> real {
    (e: Earning) => if e.vendor == v && CoveredBy(scs, e) && !e.released then e.net else 0.0
  }

  function PaidIn(scs: set<Scope>, v: Id): Earning -> real {
    (e: Earning) => if e.vendor == v && CoveredBy(scs, e) && e.released then e.net else 0.0
  }

  /** Unreleased covered earnings are deleted. */
  function Dropped(es: seq<Earning>, scs: set<Scope>): seq<Earning> {
    if es == [] then []
    else
      var n := |es| - 1;
      Dropped(es[..n], scs) + if CoveredBy(scs, es[n]) && !es[n].released then [] else [es[n]]
  }

  /** Released covered earnings are kept, with nothing left on them. */
  function ClawedBack(e: Earning, scs: set<Scope>): Earning {
    if CoveredBy(scs, e) && e.released then e.(net := 0.0) else e
  }

  function Zeroed(es: seq<Earning>, scs: set<Scope>): seq<Earning> {
    seq(|es|, i requires 0 <= i < |es| => ClawedBack(es[i], scs))
  }

  function Remaining(es: seq<Earning>, scs: set<Scope>): seq<Earning> {
    Zeroed(Dropped(es, scs), scs)
  }

  function Debited(w: Wallet, paid: real, open: real): Wallet {
    Wallet(Max0(w.balance - paid), w.pending - open)
  }

  function ReversedWallets(wallets: map<Id, Wallet>, es: seq<Earning>, scs: set<Scope>): map<Id, Wallet> {
    map v | v in wallets :: Debited(wallets[v], Sum(es, PaidIn(scs, v)), Sum(es, OpenIn(scs, v)))
  }

  // The two halves of a reversal's effect on wallets.
  function DebitedPending(wallets: map<Id, Wallet>, es: seq<Earning>, scs: set<Scope>): map<Id, Wallet> {
    map v | v in wallets :: Wallet(wallets[v].balance, wallets[v].pending - Sum(es, OpenIn(scs, v)))
  }

  function ClawedBalances(wallets: map<Id, Wallet>, es: seq<Earning>, scs: set<Scope>): map<Id, Wallet> {
    map v | v in wallets :: Wallet(Max0(wallets[v].balance - Sum(es, PaidIn(scs, v))), wallets[v].pending)
  }

  /** Only a reversal of the whole order resets the order's own totals. */
  function ReversedBooks(books: map<Id, Books>, scs: set<Scope>): map<Id, Books> {
    map o | o in books ::
      if Scope(o, None, None) in scs then books[o].(vendorEarnings := 0.0, commission := 0.0) else books[o]
  }

  function Reversed(l: LedgerState, scs: set<Scope>): LedgerState {
    LedgerState(Remaining(l.earnings, scs), ReversedWallets(l.wallets, l.earnings, scs), ReversedBooks(l.books, scs))
  }

  // ---------- Late penalties ----------

  function OpenFor(o: Id, v: Id): Earning -> real {
    (e: Earning) => if e.order == o && e.vendor == v && !e.released then e.net else 0.0
  }

  /** What the earning at `i` loses when `amount` is taken from the open earnings in list order. */
  function Take(es: seq<Earning>, i: nat, o: Id, v: Id, amount: real): real
    requires i < |es|
  {
    Min(OpenFor(o, v)(es[i]), Max0(amount - Sum(es[..i], OpenFor(o, v))))
  }

  function DockedAt(es: seq<Earning>, i: nat, o: Id, v: Id, amount: real): Earning
    requires i < |es|
  {
    es[i].(net := es[i].net - Take(es, i, o, v, amount))
  }

  function Docked(es: seq<Earning>, o: Id, v: Id, amount: real): seq<Earning> {
    seq(|es|, i requires 0 <= i < |es| => DockedAt(es, i, o, v, amount))
  }

  function Penalized(l: LedgerState, o: Id, v: Id, amount: real): LedgerState {
    var open := Sum(l.earnings, OpenFor(o, v));
    l.(earnings := Docked(l.earnings, o, v, amount),
       wallets := if v !in l.wallets then l.wallets else
         l.wallets[v := Wallet(Max0(l.wallets[v].balance - Max0(amount - open)),
                               l.wallets[v].pending - Min(amount, open))])
  }
}
