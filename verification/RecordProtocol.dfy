/**
  Several callers recording the earnings of one order at once: the payment webhook, the order's creation and
  a quote's acceptance all do. Each claims the order, looks for older earnings, then makes one database write
  after another; steps of different callers interleave freely, and a caller may crash between any two.
 */
module RecordProtocol {
  import opened Prelude
  import opened OrderTypes
  import opened EarningsLedger
  import opened LedgerLaws
  import opened LedgerService

  /** What every caller is called with, and would read. */
  datatype Job = Job(order: Id, bespoke: bool, settings: Settings, fabricVendors: FabricVendors, items: seq<Item>)

  datatype Caller = Waiting | Claimed | Writing(next: nat) | Returned

  /** How far recording has come, and in whose hands; the program does not read it. */
  datatype Stage = Untouched | Held(owner: nat) | Partway(owner: nat, n: nat) | Skipped | Complete | Abandoned(n: nat)

  datatype Config = Config(ledger: LedgerState, callers: seq<Caller>, stage: Stage)

  datatype Action = Claim(i: nat) | Look(i: nat) | Write(i: nat) | Finish(i: nat) | Crash(i: nat)

  predicate Claimable(l: LedgerState, o: Id) {
    o in l.books && !l.books[o].recorded
  }

  // ---------- The writes of one recording ----------

  /** An earning is created, or a vendor's pending balance grows. */
  datatype Write = Create(e: Earning) | Add(vendor: Id, amount: real)

  function Creates(es: seq<Earning>): seq<Write> {
    seq(|es|, i requires 0 <= i < |es| => Create(es[i]))
  }

  function GoodsWrites(j: Job, it: Item): seq<Write> {
    Creates(GoodsEarnings(j.order, j.bespoke, j.settings, it))
    + [Add(it.vendor, it.totalPrice - Commission(j.settings, it.totalPrice))]
  }

  function FabricWrites(j: Job, it: Item): seq<Write> {
    var es := FabricEarnings(j.order, j.settings, j.fabricVendors, it);
    if es == [] then [] else Creates(es) + [Add(es[0].vendor, es[0].net)]
  }

  function WritesFor(j: Job, items: seq<Item>): seq<Write> {
    if items == [] then []
    else
      var it := items[|items| - 1];
      WritesFor(j, items[..|items| - 1]) + GoodsWrites(j, it) + FabricWrites(j, it)
  }

  function Writes(j: Job): seq<Write> {
    WritesFor(j, j.items)
  }

  function AfterWrite(l: LedgerState, w: Write): LedgerState {
    match w
    case Create(e) => l.(earnings := l.earnings + [e])
    case Add(v, x) => l.(wallets := l.wallets[v := Wallet(BalanceOf(l.wallets, v), PendingOf(l.wallets, v) + x)])
  }

  function AfterWrites(l: LedgerState, ws: seq<Write>): (r: LedgerState)
    ensures r.books == l.books
  {
    if ws == [] then l else AfterWrite(AfterWrites(l, ws[..|ws| - 1]), ws[|ws| - 1])
  }

  function Flagged(books: map<Id, Books>, o: Id): map<Id, Books>
    requires o in books
  {
    books[o := books[o].(recorded := true)]
  }

  function WithCaller(c: Config, i: nat, caller: Caller): Config
    requires i < |c.callers|
  {
    c.(callers := c.callers[i := caller])
  }

  /** Stores the order's totals. */
  function Totalled(l: LedgerState, j: Job): LedgerState
    requires j.order in l.books
  {
    var es := OrderEarnings(j.order, j.bespoke, j.settings, j.fabricVendors, j.items);
    l.(books := l.books[j.order :=
                        l.books[j.order].(vendorEarnings := Sum(es, Net), commission := Sum(es, CommissionPart))])
  }

  /** One step of a caller; an action that is not enabled changes nothing. */
  function Step(j: Job, c: Config, a: Action): Config {
    if a.i >= |c.callers| then c
    else
      var i, caller := a.i, c.callers[a.i];
      match a
      case Claim(_) =>
        if caller != Waiting then c
        else if !Claimable(c.ledger, j.order) then WithCaller(c, i, Returned)
        else WithCaller(c.(ledger := c.ledger.(books := Flagged(c.ledger.books, j.order)), stage := Held(i)), i,
                        Claimed)
      case Look(_) =>
        if caller != Claimed then c
        else if HasEarnings(c.ledger, j.order) || j.items == [] then WithCaller(c.(stage := Skipped), i, Returned)
        else WithCaller(c.(stage := Partway(i, 0)), i, Writing(0))
      case Write(_) =>
        if !caller.Writing? || caller.next >= |Writes(j)| then c
        else WithCaller(c.(ledger := AfterWrite(c.ledger, Writes(j)[caller.next]),
                           stage := Partway(i, caller.next + 1)),
                        i, Writing(caller.next + 1))
      case Finish(_) =>
        if !caller.Writing? || caller.next < |Writes(j)| || j.order !in c.ledger.books then c
        else WithCaller(c.(ledger := Totalled(c.ledger, j), stage := Complete), i, Returned)
      case Crash(_) =>
        if !Active(caller) then c
        else WithCaller(c.(stage := Abandoned(if caller.Writing? then caller.next else 0)), i, Returned)
  }

  function Run(j: Job, c: Config, actions: seq<Action>): Config {
    if actions == [] then c else Step(j, Run(j, c, actions[..|actions| - 1]), actions[|actions| - 1])
  }

  // ---------- The invariant ----------

  predicate Active(caller: Caller) {
    caller == Claimed || caller.Writing?
  }

  /** The ledger once the order is claimed and the first `n` writes are made. */
  function Partial(l: LedgerState, j: Job, n: nat): LedgerState
    requires Claimable(l, j.order) && n <= |Writes(j)|
  {
    AfterWrites(l.(books := Flagged(l.books, j.order)), Writes(j)[..n])
  }

  predicate OnlyActive(callers: seq<Caller>, owner: nat, caller: Caller) {
    owner < |callers| && callers[owner] == caller && forall k :: 0 <= k < |callers| && k != owner ==>
        !Active(callers[k])
  }

  predicate NoneActive(callers: seq<Caller>) {
    forall k :: 0 <= k < |callers| ==> !Active(callers[k])
  }

  /** The ledger is at the recorded stage, and only the caller whose hands it is in may go on. */
  predicate Fits(j: Job, l: LedgerState, c: Config) {
    match c.stage
    case Untouched =>
      c.ledger == l && NoneActive(c.callers)
      && (Claimable(l, j.order) ==> forall k :: 0 <= k < |c.callers| ==> c.callers[k] == Waiting)
    case Held(i) => Claimable(l, j.order) && c.ledger == Partial(l, j, 0) && OnlyActive(c.callers, i, Claimed)
    case Partway(i, n) =>
      Claimable(l, j.order) && n <= |Writes(j)| && j.items != [] && !HasEarnings(l, j.order)
      && c.ledger == Partial(l, j, n) && OnlyActive(c.callers, i, Writing(n))
    case Skipped =>
      Claimable(l, j.order) && (HasEarnings(l, j.order) || j.items == []) && c.ledger == Partial(l, j, 0)
      && NoneActive(c.callers)
    case Complete => Claimable(l, j.order) && c.ledger == Recording(l, j) && NoneActive(c.callers)
    case Abandoned(n) =>
      Claimable(l, j.order) && n <= |Writes(j)| && c.ledger == Partial(l, j, n) && NoneActive(c.callers)
  }

  /** One sequential recording. */
  function Recording(l: LedgerState, j: Job): LedgerState {
    Recorded(l, j.order, j.bespoke, j.settings, j.fabricVendors, j.items)
  }

  // ---------- What a beginning of the writes amounts to ----------

  /** Created earnings whose vendor has not been credited for them yet. */
  function Uncredited(ws: seq<Write>): seq<Earning> {
    if ws == [] then []
    else
      match ws[|ws| - 1]
      case Create(e) => Uncredited(ws[..|ws| - 1]) + [e]
      case Add(_, _) => []
  }

  function CreditedFor(ws: seq<Write>): seq<Earning> {
    if ws == [] then []
    else
      match ws[|ws| - 1]
      case Create(_) => CreditedFor(ws[..|ws| - 1])
      case Add(_, _) => CreditedFor(ws[..|ws| - 1]) + Uncredited(ws[..|ws| - 1])
  }

  predicate OneVendor(es: seq<Earning>, v: Id) {
    forall e :: e in es ==> e.vendor == v
  }

  /** Every addition to a wallet is for exactly the earnings created just before it. */
  predicate Matched(ws: seq<Write>) {
    ws == []
    || (Matched(ws[..|ws| - 1])
        && match ws[|ws| - 1]
           case Create(e) => OneVendor(Uncredited(ws[..|ws| - 1]), e.vendor)
           case Add(v, x) =>
             var es := Uncredited(ws[..|ws| - 1]);
             es != [] && OneVendor(es, v) && Sum(es, Net) == x)
  }

  lemma AddMeaning(wallets: map<Id, Wallet>, credited: seq<Earning>, open: seq<Earning>, v: Id, x: real)
    requires open != [] && OneVendor(open, v) && Sum(open, Net) == x
    ensures var w := EarningsLedger.Credited(wallets, credited);
      w[v := Wallet(BalanceOf(w, v), PendingOf(w, v) + x)] == EarningsLedger.Credited(wallets, credited + open)
  {
    var w := EarningsLedger.Credited(wallets, credited);
    CreditTwice(wallets, credited, open);
    CreditOne(w, open, v);
    assert PendingOf(w, v) + x == PendingOf(w, v) + Sum(open, Net);
  }

  /** The ledger after some writes: all earnings created, and the wallets credited for those that were added. */
  ghost predicate Shows(l: LedgerState, after: LedgerState, credited: seq<Earning>, open: seq<Earning>) {
    && after.earnings == l.earnings + (credited + open)
    && after.wallets == EarningsLedger.Credited(l.wallets, credited) && after.books == l.books
  }

  lemma CreateShows(l: LedgerState, after: LedgerState, credited: seq<Earning>, open: seq<Earning>, e: Earning)
    requires Shows(l, after, credited, open)
    ensures Shows(l, AfterWrite(after, Create(e)), credited, open + [e])
  {
    assert l.earnings + (credited + open) + [e] == l.earnings + (credited + (open + [e]));
  }

  lemma AddShows(l: LedgerState, after: LedgerState, credited: seq<Earning>, open: seq<Earning>, v: Id, x: real)
    requires Shows(l, after, credited, open) && open != [] && OneVendor(open, v) && Sum(open, Net) == x
    ensures Shows(l, AfterWrite(after, Add(v, x)), credited + open, [])
  {
    assert AfterWrite(after, Add(v, x)).wallets == EarningsLedger.Credited(l.wallets, credited + open) by {
      AddMeaning(l.wallets, credited, open, v, x);
    }
    assert credited + open + [] == credited + open;
  }

  lemma {:induction false} WritesMeaning(l: LedgerState, ws: seq<Write>)
    requires Matched(ws)
    ensures Shows(l, AfterWrites(l, ws), CreditedFor(ws), Uncredited(ws))
  {
    if ws == [] {
      assert l.earnings + ([] + []) == l.earnings;
      CreditNone(l.wallets);
    } else {
      var rest := ws[..|ws| - 1];
      WritesMeaning(l, rest);
      match ws[|ws| - 1]
      case Create(e) => CreateShows(l, AfterWrites(l, rest), CreditedFor(rest), Uncredited(rest), e);
      case Add(v, x) => AddShows(l, AfterWrites(l, rest), CreditedFor(rest), Uncredited(rest), v, x);
    }
  }

  lemma WritesFrom(ws: seq<Write>, w: Write)
    ensures (ws + [w])[..|ws + [w]| - 1] == ws && (ws + [w])[|ws + [w]| - 1] == w
  {
  }

  lemma CreateAdded(ws: seq<Write>, e: Earning)
    requires Matched(ws) && OneVendor(Uncredited(ws), e.vendor)
    ensures var ws' := ws + [Create(e)];
      Matched(ws') && Uncredited(ws') == Uncredited(ws) + [e] && CreditedFor(ws') == CreditedFor(ws)
  {
    WritesFrom(ws, Create(e));
  }

  lemma CreatesSplit(es: seq<Earning>, e: Earning)
    ensures Creates(es + [e]) == Creates(es) + [Create(e)]
  {
  }

  lemma {:induction false} CreatesAdded(ws: seq<Write>, es: seq<Earning>, v: Id)
    requires Matched(ws) && Uncredited(ws) == [] && OneVendor(es, v)
    ensures Matched(ws + Creates(es))
    ensures Uncredited(ws + Creates(es)) == es && CreditedFor(ws + Creates(es)) == CreditedFor(ws)
  {
    if es == [] {
      assert ws + Creates(es) == ws;
    } else {
      var rest, e := es[..|es| - 1], es[|es| - 1];
      assert rest + [e] == es && e.vendor == v;
      CreatesAdded(ws, rest, v);
      CreateAdded(ws + Creates(rest), e);
      CreatesSplit(rest, e);
      AppendAssociates(ws, Creates(rest), [Create(e)]);
    }
  }

  /** Creating a vendor's earnings and crediting them leaves none uncredited. */
  lemma GroupAdded(ws: seq<Write>, es: seq<Earning>, v: Id)
    requires Matched(ws) && Uncredited(ws) == [] && es != [] && OneVendor(es, v)
    ensures var ws' := ws + (Creates(es) + [Add(v, Sum(es, Net))]);
      Matched(ws') && Uncredited(ws') == [] && CreditedFor(ws') == CreditedFor(ws) + es
  {
    CreatesAdded(ws, es, v);
    AddAdded(ws + Creates(es), v);
    AppendAssociates(ws, Creates(es), [Add(v, Sum(es, Net))]);
  }

  lemma AddAdded(ws: seq<Write>, v: Id)
    requires Matched(ws) && Uncredited(ws) != [] && OneVendor(Uncredited(ws), v)
    ensures var ws' := ws + [Add(v, Sum(Uncredited(ws), Net))];
      Matched(ws') && Uncredited(ws') == [] && CreditedFor(ws') == CreditedFor(ws) + Uncredited(ws)
  {
    WritesFrom(ws, Add(v, Sum(Uncredited(ws), Net)));
  }

  lemma GoodsGroup(j: Job, it: Item)
    ensures var es := GoodsEarnings(j.order, j.bespoke, j.settings, it);
      es != [] && OneVendor(es, it.vendor) && GoodsWrites(j, it) == Creates(es) + [Add(it.vendor, Sum(es, Net))]
  {
    var es := GoodsEarnings(j.order, j.bespoke, j.settings, it);
    if |es| == 1 {
      SumOne(es[0], Net);
    } else {
      assert es == [es[0], es[1]];
      SumTwo(es[0], es[1], Net);
    }
  }

  lemma GoodsAdded(j: Job, it: Item, ws: seq<Write>)
    requires Matched(ws) && Uncredited(ws) == []
    ensures var ws' := ws + GoodsWrites(j, it);
      && Matched(ws') && Uncredited(ws') == []
      && CreditedFor(ws') == CreditedFor(ws) + GoodsEarnings(j.order, j.bespoke, j.settings, it)
  {
    GoodsGroup(j, it);
    GroupAdded(ws, GoodsEarnings(j.order, j.bespoke, j.settings, it), it.vendor);
  }

  lemma FabricGroup(j: Job, it: Item)
    ensures var es := FabricEarnings(j.order, j.settings, j.fabricVendors, it);
      if es == [] then FabricWrites(j, it) == []
      else OneVendor(es, es[0].vendor) && FabricWrites(j, it) == Creates(es) + [Add(es[0].vendor, Sum(es, Net))]
  {
    var es := FabricEarnings(j.order, j.settings, j.fabricVendors, it);
    if es != [] {
      assert es == [es[0]];
      SumOne(es[0], Net);
    }
  }

  lemma FabricAdded(j: Job, it: Item, ws: seq<Write>)
    requires Matched(ws) && Uncredited(ws) == []
    ensures var ws' := ws + FabricWrites(j, it);
      && Matched(ws') && Uncredited(ws') == []
      && CreditedFor(ws') == CreditedFor(ws) + FabricEarnings(j.order, j.settings, j.fabricVendors, it)
  {
    var es := FabricEarnings(j.order, j.settings, j.fabricVendors, it);
    FabricGroup(j, it);
    if es == [] {
      assert ws + FabricWrites(j, it) == ws;
    } else {
      GroupAdded(ws, es, es[0].vendor);
    }
  }

  lemma {:induction false} WritesMatched(j: Job, items: seq<Item>)
    ensures Matched(WritesFor(j, items)) && Uncredited(WritesFor(j, items)) == []
    ensures CreditedFor(WritesFor(j, items)) == OrderEarnings(j.order, j.bespoke, j.settings, j.fabricVendors, items)
  {
    if items != [] {
      var it, ws := items[|items| - 1], WritesFor(j, items[..|items| - 1]);
      WritesMatched(j, items[..|items| - 1]);
      GoodsAdded(j, it, ws);
      FabricAdded(j, it, ws + GoodsWrites(j, it));
      AppendAssociates(CreditedFor(ws), GoodsEarnings(j.order, j.bespoke, j.settings, it),
                       FabricEarnings(j.order, j.settings, j.fabricVendors, it));
    }
  }

  lemma {:induction false} BeginningMatched(ws: seq<Write>, n: nat)
    requires Matched(ws) && n <= |ws|
    ensures Matched(ws[..n])
    ensures CreditedFor(ws[..n]) + Uncredited(ws[..n]) <= CreditedFor(ws) + Uncredited(ws)
  {
    if n == |ws| {
      assert ws[..n] == ws;
    } else {
      var rest := ws[..|ws| - 1];
      BeginningMatched(rest, n);
      assert rest[..n] == ws[..n];
      var made := CreditedFor(rest) + Uncredited(rest);
      assert made <= CreditedFor(ws) + Uncredited(ws) by {
        match ws[|ws| - 1]
        case Create(e) => assert CreditedFor(ws) + Uncredited(ws) == made + [e];
        case Add(_, _) => assert CreditedFor(ws) + Uncredited(ws) == made;
      }
    }
  }

  lemma {:induction false} UncreditedOfOne(ws: seq<Write>)
    requires Matched(ws) && Uncredited(ws) != []
    ensures OneVendor(Uncredited(ws), Uncredited(ws)[0].vendor)
  {
    var rest := ws[..|ws| - 1];
    if Uncredited(rest) != [] { UncreditedOfOne(rest); }
  }

  lemma FlaggedIsPartial(l: LedgerState, j: Job)
    requires Claimable(l, j.order)
    ensures l.(books := Flagged(l.books, j.order)) == Partial(l, j, 0)
  {
  }

  lemma WriteNext(l: LedgerState, j: Job, n: nat)
    requires Claimable(l, j.order) && n < |Writes(j)|
    ensures AfterWrite(Partial(l, j, n), Writes(j)[n]) == Partial(l, j, n + 1)
  {
    assert Writes(j)[..n + 1][..n] == Writes(j)[..n];
  }

  /** The ledger with every write made, but for the order's totals. */
  function AllWritten(l: LedgerState, j: Job): LedgerState
    requires Claimable(l, j.order)
  {
    var es := OrderEarnings(j.order, j.bespoke, j.settings, j.fabricVendors, j.items);
    LedgerState(l.earnings + es, EarningsLedger.Credited(l.wallets, es), Flagged(l.books, j.order))
  }

  lemma TotalsComplete(l: LedgerState, j: Job)
    requires Claimable(l, j.order) && !HasEarnings(l, j.order) && j.items != []
    ensures Totalled(AllWritten(l, j), j) == Recording(l, j)
  {
  }

  lemma WritesComplete(l: LedgerState, j: Job)
    requires Claimable(l, j.order)
    ensures Partial(l, j, |Writes(j)|) == AllWritten(l, j)
  {
    assert Writes(j)[..|Writes(j)|] == Writes(j);
    WritesMatched(j, j.items);
    WritesMeaning(l.(books := Flagged(l.books, j.order)), Writes(j));
    assert CreditedFor(Writes(j)) + [] == CreditedFor(Writes(j));
  }

  lemma TotalledIsRecorded(l: LedgerState, j: Job)
    requires Claimable(l, j.order) && !HasEarnings(l, j.order) && j.items != []
    ensures Totalled(Partial(l, j, |Writes(j)|), j) == Recording(l, j)
  {
    assert Partial(l, j, |Writes(j)|) == AllWritten(l, j) by { WritesComplete(l, j); }
    TotalsComplete(l, j);
  }

  lemma OnlyUntouched(j: Job, l: LedgerState, c: Config)
    requires Fits(j, l, c) && Claimable(c.ledger, j.order)
    ensures c.stage == Untouched
  {
  }

  lemma ClaimFits(j: Job, l: LedgerState, c: Config, i: nat)
    requires Fits(j, l, c) && i < |c.callers| && c.callers[i] == Waiting
    ensures Fits(j, l, Step(j, c, Claim(i)))
  {
    if Claimable(c.ledger, j.order) {
      OnlyUntouched(j, l, c);
      FlaggedIsPartial(l, j);
    }
  }

  lemma LookFits(j: Job, l: LedgerState, c: Config, i: nat)
    requires Fits(j, l, c) && i < |c.callers| && c.callers[i] == Claimed
    ensures Fits(j, l, Step(j, c, Look(i)))
  {
    assert c.stage == Held(i);
    FlaggedIsPartial(l, j);
  }

  lemma WriterOwns(j: Job, l: LedgerState, c: Config, i: nat)
    requires Fits(j, l, c) && i < |c.callers| && c.callers[i].Writing?
    ensures c.stage == Partway(i, c.callers[i].next) && c.callers[i].next <= |Writes(j)|
    ensures Claimable(l, j.order) && c.ledger == Partial(l, j, c.callers[i].next)
  {
  }

  lemma WriteFits(j: Job, l: LedgerState, c: Config, i: nat)
    requires Fits(j, l, c) && i < |c.callers| && c.callers[i].Writing? && c.callers[i].next < |Writes(j)|
    ensures Fits(j, l, Step(j, c, Write(i)))
  {
    WriterOwns(j, l, c, i);
    var n := c.callers[i].next;
    var ledger := AfterWrite(c.ledger, Writes(j)[n]);
    assert ledger == Partial(l, j, n + 1) by { WriteNext(l, j, n); }
    AdvanceFits(j, l, c, i, n, ledger);
    assert Step(j, c, Write(i)) == WithCaller(c.(ledger := ledger, stage := Partway(i, n + 1)), i, Writing(n + 1));
  }

  lemma AdvanceFits(j: Job, l: LedgerState, c: Config, i: nat, n: nat, ledger: LedgerState)
    requires Fits(j, l, c) && c.stage == Partway(i, n) && n < |Writes(j)| && ledger == Partial(l, j, n + 1)
    ensures Fits(j, l, WithCaller(c.(ledger := ledger, stage := Partway(i, n + 1)), i, Writing(n + 1)))
  {
  }

  lemma FinishFits(j: Job, l: LedgerState, c: Config, i: nat)
    requires Fits(j, l, c) && i < |c.callers| && c.callers[i].Writing? && c.callers[i].next >= |Writes(j)|
    ensures Fits(j, l, Step(j, c, Finish(i)))
  {
    assert c.stage == Partway(i, |Writes(j)|);
    TotalledIsRecorded(l, j);
  }

  lemma StepFits(j: Job, l: LedgerState, c: Config, a: Action)
    requires Fits(j, l, c)
    ensures Fits(j, l, Step(j, c, a))
  {
    if a.i < |c.callers| {
      var caller := c.callers[a.i];
      match a
      case Claim(i) => if caller == Waiting { ClaimFits(j, l, c, i); }
      case Look(i) => if caller == Claimed { LookFits(j, l, c, i); }
      case Write(i) => if caller.Writing? && caller.next < |Writes(j)| { WriteFits(j, l, c, i); }
      case Finish(i) => if caller.Writing? && caller.next >= |Writes(j)| { FinishFits(j, l, c, i); }
      case Crash(i) =>
    }
  }

  lemma {:induction false} RunFits(j: Job, l: LedgerState, callers: nat, actions: seq<Action>)
    ensures Fits(j, l, Run(j, Start(l, callers), actions))
    ensures |Run(j, Start(l, callers), actions).callers| == callers
  {
    if actions != [] {
      RunFits(j, l, callers, actions[..|actions| - 1]);
      StepFits(j, l, Run(j, Start(l, callers), actions[..|actions| - 1]), actions[|actions| - 1]);
    }
  }

  function Start(l: LedgerState, callers: nat): Config {
    Config(l, seq(callers, _ => Waiting), Untouched)
  }

  /** What the ledger holds for the order: some earnings, credited, and some of one vendor's, not credited yet. */
  ghost predicate Begun(j: Job, l: LedgerState, c: LedgerState, credited: seq<Earning>, uncredited: seq<Earning>) {
    && credited + uncredited <= OrderEarnings(j.order, j.bespoke, j.settings, j.fabricVendors, j.items)
    && c.earnings == l.earnings + (credited + uncredited) && c.wallets == EarningsLedger.Credited(l.wallets, credited)
    && (uncredited != [] ==> OneVendor(uncredited, uncredited[0].vendor))
  }

  lemma PartialBegun(j: Job, l: LedgerState, n: nat)
    requires Claimable(l, j.order) && n <= |Writes(j)|
    ensures Begun(j, l, Partial(l, j, n), CreditedFor(Writes(j)[..n]), Uncredited(Writes(j)[..n]))
  {
    var ws := Writes(j)[..n];
    WritesMatched(j, j.items);
    BeginningMatched(Writes(j), n);
    assert CreditedFor(Writes(j)) + [] == CreditedFor(Writes(j));
    WritesMeaning(l.(books := Flagged(l.books, j.order)), ws);
    if Uncredited(ws) != [] { UncreditedOfOne(ws); }
  }

  lemma NothingBegun(j: Job, l: LedgerState, c: LedgerState)
    requires c.earnings == l.earnings && c.wallets == l.wallets
    ensures Begun(j, l, c, [], [])
  {
    CreditNone(l.wallets);
    assert l.earnings + ([] + []) == l.earnings;
  }

  lemma WholeBegun(j: Job, l: LedgerState)
    requires Claimable(l, j.order) && !HasEarnings(l, j.order) && j.items != []
    ensures Begun(j, l, Recording(l, j), OrderEarnings(j.order, j.bespoke, j.settings, j.fabricVendors, j.items), [])
  {
    var es := OrderEarnings(j.order, j.bespoke, j.settings, j.fabricVendors, j.items);
    assert es + [] == es;
  }

  /**
    However the callers interleave and crash, between any two writes: at most one of them is writing, and what has
    been added is a beginning of the order's earnings, each once, with the pending balances that go with it; only
    the last ones, all of one vendor, may still lack theirs.
   */
  lemma RecordedAtMostOnce(j: Job, l: LedgerState, callers: nat, actions: seq<Action>)
    ensures var c := Run(j, Start(l, callers), actions);
      && (forall i, k :: 0 <= i < k < |c.callers| ==> !(Active(c.callers[i]) && Active(c.callers[k])))
      && exists credited, uncredited :: Begun(j, l, c.ledger, credited, uncredited)
  {
    var c := Run(j, Start(l, callers), actions);
    RunFits(j, l, callers, actions);
    match c.stage
    case Untouched => NothingBegun(j, l, c.ledger);
    case Held(_) => PartialBegun(j, l, 0);
    case Skipped => PartialBegun(j, l, 0);
    case Partway(_, n) => PartialBegun(j, l, n);
    case Abandoned(n) => PartialBegun(j, l, n);
    case Complete =>
      if HasEarnings(l, j.order) || j.items == [] {
        NothingBegun(j, l, c.ledger);
      } else {
        WholeBegun(j, l);
      }
  }

  lemma {:induction false} NeverAbandoned(j: Job, l: LedgerState, callers: nat, actions: seq<Action>)
    requires forall k :: 0 <= k < |actions| ==> !actions[k].Crash?
    ensures !Run(j, Start(l, callers), actions).stage.Abandoned?
  {
    if actions != [] {
      NeverAbandoned(j, l, callers, actions[..|actions| - 1]);
      assert !actions[|actions| - 1].Crash?;
    }
  }

  /** Once all callers have returned from a run without crashes, they have together recorded exactly once. */
  lemma ConcurrentIsSequential(j: Job, l: LedgerState, callers: nat, actions: seq<Action>)
    requires callers > 0 && forall k :: 0 <= k < |actions| ==> !actions[k].Crash?
    requires forall i :: 0 <= i < |Run(j, Start(l, callers), actions).callers| ==>
      Run(j, Start(l, callers), actions).callers[i] == Returned
    ensures Run(j, Start(l, callers), actions).ledger == Recording(l, j)
  {
    var c := Run(j, Start(l, callers), actions);
    RunFits(j, l, callers, actions);
    NeverAbandoned(j, l, callers, actions);
    assert c.callers[0] == Returned;
    if c.stage == Skipped { FlaggedIsPartial(l, j); }
  }
}
