/**
  The release cron on several backend instances at once. Each instance scans for due earnings, then
  claims, credits and, if the credit fails, reverts them one at a time; every database operation is one
  step, steps of different instances interleave freely, and an instance may crash between any two.
 */
module ReleaseProtocol {
  import opened Prelude
  import opened EarningsLedger

  /**
    `holder`, `credits`, `undone` and `lost` record the history of the earning, and the program does not read them:
    `undone` counts the reverts that followed a credit that had moved the money all the same.
   */
  datatype Entry = Entry(
    vendor: Id,
    net: real,
    due: int,
    released: bool,
    holder: Option<nat>,
    credits: nat,
    undone: nat,
    lost: bool)

  datatype Pc =
    | Idle
    | Scanning
    | Holding(e: nat)                // claimed, credit not attempted yet
    | Reverting(e: nat, moved: bool) // the credit reported a failure, the claim is about to be undone
    | Logging(e: nat)                // credited, about to look for a ledger row
    | Writing(e: nat)                // no ledger row found, about to write one

  datatype Proc = Proc(pc: Pc, todo: seq<nat>)

  /** `rows` are the earnings that have a credit row in the transaction ledger. */
  datatype Config = Config(entries: seq<Entry>, wallets: map<Id, Wallet>, procs: seq<Proc>, rows: seq<nat>)

  /** `moved` says whether a credit that reported a failure had moved the money all the same. */
  datatype Action =
    | Scan(i: nat, now: int)
    | Claim(i: nat)
    | Credit(i: nat)
    | CreditFails(i: nat, moved: bool)
    | Revert(i: nat)
    | RevertFails(i: nat)
    | Look(i: nat)
    | Write(i: nat)
    | WriteFails(i: nat)
    | Crash(i: nat)

  // ---------- Steps ----------

  function DueIds(entries: seq<Entry>, now: int): (ids: seq<nat>)
    ensures forall k :: 0 <= k < |ids| ==> ids[k] < |entries|
  {
    if entries == [] then []
    else
      var n := |entries| - 1;
      DueIds(entries[..n], now) + if !entries[n].released && entries[n].due <= now then [n] else []
  }

  function WithProc(c: Config, i: nat, p: Proc): Config
    requires i < |c.procs|
  {
    c.(procs := c.procs[i := p])
  }

  function WithEntry(c: Config, e: nat, x: Entry): Config
    requires e < |c.entries|
  {
    c.(entries := c.entries[e := x])
  }

  function Pay(wallets: map<Id, Wallet>, x: Entry): map<Id, Wallet> {
    wallets[x.vendor := Wallet(BalanceOf(wallets, x.vendor) + x.net, PendingOf(wallets, x.vendor) - x.net)]
  }

  /** The increment of a credit; `holder` is who holds the claim afterwards. */
  function Credited(c: Config, e: nat, holder: Option<nat>): Config
    requires e < |c.entries|
  {
    var x := c.entries[e];
    WithEntry(c, e, x.(credits := x.credits + 1, holder := holder)).(wallets := Pay(c.wallets, x))
  }

  function Reverted(x: Entry, moved: bool): Entry {
    x.(released := false, holder := None, undone := if moved then x.undone + 1 else x.undone)
  }

  /** The entry an instance holds, if any: claimed by it and neither credited nor given back. */
  function Held(p: Proc): Option<nat> {
    match p.pc
    case Holding(e) => Some(e)
    case Reverting(e, _) => Some(e)
    case _ => None
  }

  function Lose(c: Config, e: nat): Config {
    if e < |c.entries| then WithEntry(c, e, c.entries[e].(lost := true, holder := None)) else c
  }

  /** One step of instance `i`; an action that is not enabled changes nothing. */
  function Step(c: Config, a: Action): Config {
    if a.i >= |c.procs| then c
    else
      var i, p := a.i, c.procs[a.i];
      match a
      case Scan(_, now) =>
        if p.pc == Idle then WithProc(c, i, Proc(Scanning, DueIds(c.entries, now))) else c
      case Claim(_) =>
        if p.pc != Scanning then c
        else if p.todo == [] then WithProc(c, i, Proc(Idle, []))
        else
          var e := p.todo[0];
          if e >= |c.entries| || c.entries[e].net == 0.0 || c.entries[e].released then
            WithProc(c, i, Proc(Scanning, p.todo[1..]))
          else WithProc(WithEntry(c, e, c.entries[e].(released := true, holder := Some(i))), i,
                        Proc(Holding(e), p.todo[1..]))
      case Credit(_) =>
        if !p.pc.Holding? || p.pc.e >= |c.entries| then c
        else WithProc(Credited(c, p.pc.e, None), i, Proc(Logging(p.pc.e), p.todo))
      case CreditFails(_, moved) =>
        if !p.pc.Holding? || p.pc.e >= |c.entries| then c
        else WithProc(if moved then Credited(c, p.pc.e, Some(i)) else c, i, Proc(Reverting(p.pc.e, moved), p.todo))
      case Revert(_) =>
        if !p.pc.Reverting? || p.pc.e >= |c.entries| then c
        else WithProc(WithEntry(c, p.pc.e, Reverted(c.entries[p.pc.e], p.pc.moved)), i, Proc(Scanning, p.todo))
      case RevertFails(_) =>
        if !p.pc.Reverting? then c else WithProc(Lose(c, p.pc.e), i, Proc(Scanning, p.todo))
      case Look(_) =>
        if !p.pc.Logging? then c
        else WithProc(c, i, Proc(if p.pc.e in c.rows then Scanning else Writing(p.pc.e), p.todo))
      case Write(_) =>
        if !p.pc.Writing? then c else WithProc(c.(rows := c.rows + [p.pc.e]), i, Proc(Scanning, p.todo))
      case WriteFails(_) =>
        if !p.pc.Logging? && !p.pc.Writing? then c else WithProc(c, i, Proc(Scanning, p.todo))
      case Crash(_) =>
        WithProc(if Held(p).Some? then Lose(c, Held(p).value) else c, i, Proc(Idle, []))
  }

  function Run(c: Config, actions: seq<Action>): Config {
    if actions == [] then c else Step(Run(c, actions[..|actions| - 1]), actions[|actions| - 1])
  }

  // ---------- The invariant ----------

  function Owed(net: real, credits: nat): real {
    net - credits as real * net
  }

  /** What an earning still has in its vendor's pending money: less than nothing once it is credited twice. */
  function UnpaidOf(v: Id): Entry -> real {
    (x: Entry) => if x.vendor == v then Owed(x.net, x.credits) else 0.0
  }

  function UnreleasedNet(v: Id): Entry -> real {
    (x: Entry) => if x.vendor == v && !x.released then x.net else 0.0
  }

  /** Released, in nobody's hands and not lost to a fault. */
  predicate Done(x: Entry) {
    x.released && x.holder.None? && !x.lost
  }

  /** Each undone credit was one credit; on top of them is at most one, and it is there once the earning is done. */
  predicate GoodEntry(x: Entry) {
    && x.undone <= x.credits <= x.undone + 1
    && (!x.released ==> x.credits == x.undone && x.holder.None? && !x.lost)
    && (Done(x) ==> x.credits == x.undone + 1)
    && (x.holder.Some? ==> !x.lost)
  }

  /** What an instance is doing matches the entry: it alone holds what it claimed. */
  predicate GoodProc(c: Config, i: nat)
    requires i < |c.procs|
  {
    match c.procs[i].pc
    case Holding(e) => e < |c.entries| && c.entries[e].holder == Some(i) && c.entries[e].credits == c.entries[e].undone
    case Reverting(e, moved) =>
      e < |c.entries| && c.entries[e].holder == Some(i)
      && c.entries[e].credits == c.entries[e].undone + if moved then 1 else 0
    case Logging(e) => e < |c.entries| && Done(c.entries[e]) && e !in c.rows
    case Writing(e) => e < |c.entries| && Done(c.entries[e]) && e !in c.rows
    case _ => true
  }

  predicate LogsFor(p: Proc, e: nat) {
    p.pc == Logging(e) || p.pc == Writing(e)
  }

  ghost predicate Inv(c: Config) {
    && (forall e :: 0 <= e < |c.entries| ==> GoodEntry(c.entries[e]))
    && (forall i :: 0 <= i < |c.procs| ==> GoodProc(c, i))
    && (forall e :: 0 <= e < |c.entries| && c.entries[e].holder.Some? ==>
         c.entries[e].holder.value < |c.procs| && Held(c.procs[c.entries[e].holder.value]) == Some(e))
    && (forall i, j, e :: 0 <= i < j < |c.procs| ==> !(LogsFor(c.procs[i], e) && LogsFor(c.procs[j], e)))
    && (forall k :: 0 <= k < |c.rows| ==> c.rows[k] < |c.entries| && Done(c.entries[c.rows[k]]))
    && (forall j, k :: 0 <= j < k < |c.rows| ==> c.rows[j] != c.rows[k])
  }

  /** Pending money is exactly what has not been credited. */
  ghost predicate Backed(c: Config) {
    forall v :: PendingOf(c.wallets, v) == Sum(c.entries, UnpaidOf(v))
  }

  /** Before the first step: nothing released, every instance idle, pending money in place. */
  ghost predicate Init(c: Config) {
    && (forall e :: 0 <= e < |c.entries| ==> Fresh(c.entries[e]))
    && (forall i :: 0 <= i < |c.procs| ==> c.procs[i] == Proc(Idle, []))
    && c.rows == [] && Backed(c)
  }

  predicate Fresh(x: Entry) {
    !x.released && x.holder == None && x.credits == 0 && x.undone == 0 && !x.lost
  }

  lemma StepInv(c: Config, a: Action)
    requires Inv(c)
    ensures Inv(Step(c, a))
  {
    if a.i < |c.procs| {
      var p := c.procs[a.i];
      assert GoodProc(c, a.i);
      match a
      case Scan(_, now) => if p.pc == Idle { MoveInv(c, a.i, Proc(Scanning, DueIds(c.entries, now))); }
      case Claim(_) => ClaimInv(c, a.i);
      case Credit(_) => if p.pc.Holding? { CreditInv(c, a.i, Proc(Logging(p.pc.e), p.todo)); }
      case CreditFails(_, moved) =>
        if p.pc.Holding? {
          if moved { CreditInv(c, a.i, Proc(Reverting(p.pc.e, true), p.todo)); }
          else { MoveInv(c, a.i, Proc(Reverting(p.pc.e, false), p.todo)); }
        }
      case Revert(_) => if p.pc.Reverting? { RevertInv(c, a.i); }
      case RevertFails(_) => if p.pc.Reverting? { LoseInv(c, a.i, Proc(Scanning, p.todo)); }
      case Look(_) =>
        if p.pc.Logging? {
          MoveInv(c, a.i, Proc(if p.pc.e in c.rows then Scanning else Writing(p.pc.e), p.todo));
        }
      case Write(_) => if p.pc.Writing? { WriteInv(c, a.i); }
      case WriteFails(_) => if p.pc.Logging? || p.pc.Writing? { MoveInv(c, a.i, Proc(Scanning, p.todo)); }
      case Crash(_) => if Held(p).Some? { LoseInv(c, a.i, Proc(Idle, [])); } else { MoveInv(c, a.i, Proc(Idle, [])); }
    }
  }

  // An instance moves on without touching the database, still holding what it held.
  lemma MoveInv(c: Config, i: nat, p: Proc)
    requires Inv(c) && i < |c.procs| && Held(p) == Held(c.procs[i]) && GoodProc(WithProc(c, i, p), i)
    requires forall e :: LogsFor(p, e) ==> LogsFor(c.procs[i], e)
    ensures Inv(WithProc(c, i, p))
  {
    var c' := WithProc(c, i, p);
    forall j | 0 <= j < |c'.procs| ensures GoodProc(c', j) {
      assert GoodProc(c, j);
    }
  }

  lemma ClaimInv(c: Config, i: nat)
    requires Inv(c) && i < |c.procs|
    ensures Inv(Step(c, Claim(i)))
  {
    var p := c.procs[i];
    if p.pc == Scanning {
      if p.todo == [] {
        MoveInv(c, i, Proc(Idle, []));
      } else {
        var e := p.todo[0];
        if e >= |c.entries| || c.entries[e].net == 0.0 || c.entries[e].released {
          MoveInv(c, i, Proc(Scanning, p.todo[1..]));
        } else {
          EntryInv(c, i, Proc(Holding(e), p.todo[1..]), e, c.entries[e].(released := true, holder := Some(i)));
        }
      }
    }
  }

  // An instance changes an entry that nobody else holds and nobody has done with.
  lemma EntryInv(c: Config, i: nat, p: Proc, e: nat, x: Entry)
    requires Inv(c) && i < |c.procs| && e < |c.entries| && !Done(c.entries[e])
    requires c.entries[e].holder.None? || c.entries[e].holder == Some(i)
    requires Held(c.procs[i]) == None || Held(c.procs[i]) == Some(e)
    requires GoodEntry(x) && Held(p) == (if x.holder.Some? then Some(e) else None)
    requires x.holder.Some? ==> x.holder == Some(i)
    requires forall d :: LogsFor(p, d) ==> d == e
    requires GoodProc(WithProc(WithEntry(c, e, x), i, p), i)
    ensures Inv(WithProc(WithEntry(c, e, x), i, p))
  {
    var c' := WithProc(WithEntry(c, e, x), i, p);
    forall j | 0 <= j < |c.procs| && j != i ensures GoodProc(c', j) && !LogsFor(c.procs[j], e) {
      assert GoodProc(c, j);
    }
  }

  lemma CreditInv(c: Config, i: nat, p: Proc)
    requires Inv(c) && i < |c.procs| && c.procs[i].pc.Holding?
    requires p.pc == Logging(c.procs[i].pc.e) || p.pc == Reverting(c.procs[i].pc.e, true)
    ensures var e := c.procs[i].pc.e;
      e < |c.entries| && Inv(WithProc(Credited(c, e, if p.pc.Logging? then None else Some(i)), i, p))
  {
    var e := c.procs[i].pc.e;
    assert GoodProc(c, i) && GoodEntry(c.entries[e]);
    var x := c.entries[e].(credits := c.entries[e].credits + 1, holder := if p.pc.Logging? then None else Some(i));
    EntryInv(c, i, p, e, x);
    WalletsApart(WithProc(WithEntry(c, e, x), i, p), Pay(c.wallets, c.entries[e]));
  }

  lemma WalletsApart(c: Config, wallets: map<Id, Wallet>)
    requires Inv(c)
    ensures Inv(c.(wallets := wallets))
  {
    var c' := c.(wallets := wallets);
    forall i | 0 <= i < |c.procs| ensures GoodProc(c', i) {
      assert GoodProc(c, i);
    }
  }

  /** Giving a claim back concerns only an entry the instance itself holds. */
  lemma RevertInv(c: Config, i: nat)
    requires Inv(c) && i < |c.procs| && c.procs[i].pc.Reverting?
    ensures Inv(Step(c, Revert(i)))
  {
    var p := c.procs[i];
    assert GoodProc(c, i) && GoodEntry(c.entries[p.pc.e]);
    EntryInv(c, i, Proc(Scanning, p.todo), p.pc.e, Reverted(c.entries[p.pc.e], p.pc.moved));
  }

  lemma LoseInv(c: Config, i: nat, p: Proc)
    requires Inv(c) && i < |c.procs| && Held(c.procs[i]).Some? && (p.pc == Scanning || p.pc == Idle)
    ensures Inv(WithProc(Lose(c, Held(c.procs[i]).value), i, p))
  {
    var e := Held(c.procs[i]).value;
    assert GoodProc(c, i) && GoodEntry(c.entries[e]);
    EntryInv(c, i, p, e, c.entries[e].(lost := true, holder := None));
  }

  lemma WriteInv(c: Config, i: nat)
    requires Inv(c) && i < |c.procs| && c.procs[i].pc.Writing?
    ensures Inv(Step(c, Write(i)))
  {
    var p, c' := c.procs[i], Step(c, Write(i));
    assert GoodProc(c, i);
    forall j | 0 <= j < |c'.procs| ensures GoodProc(c', j) {
      assert GoodProc(c, j);
      if j != i {
        assert LogsFor(p, p.pc.e) && !LogsFor(c.procs[j], p.pc.e);
      }
    }
  }

  // ---------- Money ----------

  lemma SameUnpaid(a: Config, b: Config)
    requires Backed(a) && b.wallets == a.wallets && |b.entries| == |a.entries|
    requires forall e :: 0 <= e < |a.entries| ==>
      && b.entries[e].vendor == a.entries[e].vendor && b.entries[e].net == a.entries[e].net
      && b.entries[e].credits == a.entries[e].credits
    ensures Backed(b)
  {
    forall v ensures PendingOf(b.wallets, v) == Sum(b.entries, UnpaidOf(v)) {
      SumSame(a.entries, b.entries, UnpaidOf(v), UnpaidOf(v));
    }
  }

  ghost predicate SameTotals(a: Config, b: Config) {
    forall v :: BalanceOf(b.wallets, v) + PendingOf(b.wallets, v) == BalanceOf(a.wallets, v) + PendingOf(a.wallets, v)
  }

  lemma OwedStep(net: real, credits: nat)
    ensures Owed(net, credits + 1) == Owed(net, credits) - net
  {
    assert (credits + 1) as real * net == credits as real * net + net;
  }

  /** A credit moves the earning from pending to balance, and every other step leaves wallets alone. */
  lemma StepMoney(c: Config, a: Action)
    requires Inv(c) && Backed(c)
    ensures Backed(Step(c, a)) && SameTotals(c, Step(c, a))
  {
    var c' := Step(c, a);
    if a.i < |c.procs| && c.procs[a.i].pc.Holding? && (a.Credit? || (a.CreditFails? && a.moved)) {
      var e := c.procs[a.i].pc.e;
      assert GoodProc(c, a.i);
      CreditMoney(c, e, if a.Credit? then None else Some(a.i));
      SameUnpaid(Credited(c, e, if a.Credit? then None else Some(a.i)), c');
    } else {
      SameUnpaid(c, c');
    }
  }

  lemma CreditMoney(c: Config, e: nat, holder: Option<nat>)
    requires Backed(c) && e < |c.entries|
    ensures Backed(Credited(c, e, holder)) && SameTotals(c, Credited(c, e, holder))
  {
    var c', x := Credited(c, e, holder), c.entries[e];
    forall v ensures PendingOf(c'.wallets, v) == Sum(c'.entries, UnpaidOf(v)) {
      SumUpdate(c.entries, e, c'.entries[e], UnpaidOf(v));
      OwedStep(x.net, x.credits);
    }
  }

  // ---------- Over every run ----------

  lemma {:induction false} RunInv(c: Config, actions: seq<Action>)
    requires Init(c)
    ensures Inv(Run(c, actions)) && Backed(Run(c, actions)) && SameTotals(c, Run(c, actions))
  {
    if actions != [] {
      var before, a := Run(c, actions[..|actions| - 1]), actions[|actions| - 1];
      RunInv(c, actions[..|actions| - 1]);
      StepInv(before, a);
      StepMoney(before, a);
    }
  }

  /**
    In every interleaving, with crashes, failed credits that did or did not move the money, and failed reverts: an
    earning is credited once for every undone credit and at most once besides, exactly once besides when it is
    done, and not when it is free again; pending money is what is not credited, and no vendor's total changes.
   */
  lemma CreditsCounted(c: Config, actions: seq<Action>)
    requires Init(c)
    ensures var c' := Run(c, actions);
      && Backed(c') && SameTotals(c, c')
      && forall e :: 0 <= e < |c'.entries| ==>
           var x := c'.entries[e];
           && x.undone <= x.credits <= x.undone + 1
           && (Done(x) ==> x.credits == x.undone + 1) && (!x.released ==> x.credits == x.undone)
  {
    RunInv(c, actions);
    assert forall e :: 0 <= e < |Run(c, actions).entries| ==> GoodEntry(Run(c, actions).entries[e]);
  }

  /** A done earning was credited more than once if and only if a credit of it that had moved the money was undone. */
  lemma PaidTwiceIff(c: Config, actions: seq<Action>, e: nat)
    requires Init(c) && e < |Run(c, actions).entries| && Done(Run(c, actions).entries[e])
    ensures Run(c, actions).entries[e].credits > 1 <==> Run(c, actions).entries[e].undone > 0
  {
    CreditsCounted(c, actions);
  }

  /** The credit reports its failures faithfully: an error means no money moved. */
  predicate Faithful(a: Action) {
    a.CreditFails? ==> !a.moved
  }

  predicate Undoes(p: Proc) {
    p.pc.Reverting? && p.pc.moved
  }

  ghost predicate Faultless(c: Config) {
    && (forall e :: 0 <= e < |c.entries| ==> c.entries[e].undone == 0)
    && (forall i :: 0 <= i < |c.procs| ==> !Undoes(c.procs[i]))
  }

  lemma FaithfulStep(c: Config, a: Action)
    requires Faultless(c) && Faithful(a)
    ensures Faultless(Step(c, a))
  {
    if a.i < |c.procs| { assert !Undoes(c.procs[a.i]); }
  }

  lemma {:induction false} NothingUndone(c: Config, actions: seq<Action>)
    requires Init(c) && forall k :: 0 <= k < |actions| ==> Faithful(actions[k])
    ensures Faultless(Run(c, actions))
  {
    if actions == [] {
      assert forall e :: 0 <= e < |c.entries| ==> Fresh(c.entries[e]);
    } else {
      var n := |actions| - 1;
      NothingUndone(c, actions[..n]);
      FaithfulStep(Run(c, actions[..n]), actions[n]);
    }
  }

  /** Where failures are reported faithfully, no earning is credited more than once in any interleaving. */
  lemma CreditedAtMostOnce(c: Config, actions: seq<Action>)
    requires Init(c) && forall k :: 0 <= k < |actions| ==> Faithful(actions[k])
    ensures forall e :: 0 <= e < |Run(c, actions).entries| ==> Run(c, actions).entries[e].credits <= 1
    ensures Backed(Run(c, actions)) && SameTotals(c, Run(c, actions))
  {
    CreditsCounted(c, actions);
    NothingUndone(c, actions);
  }

  /** A revert undoes the reverting instance's own claim, and touches no other earning and no wallet. */
  lemma RevertIsOwn(c: Config, i: nat)
    requires Inv(c) && i < |c.procs| && Step(c, Revert(i)) != c
    ensures var e := c.procs[i].pc.e;
      && e < |c.entries| && c.entries[e].released && c.entries[e].holder == Some(i)
      && c.entries[e].credits == c.entries[e].undone + (if c.procs[i].pc.moved then 1 else 0)
      && Step(c, Revert(i)).wallets == c.wallets
      && (forall j :: 0 <= j < |c.procs| && j != i ==> Held(c.procs[j]) != Some(e) && !LogsFor(c.procs[j], e))
      && forall d :: 0 <= d < |c.entries| && d != e ==> Step(c, Revert(i)).entries[d] == c.entries[d]
  {
    var e := c.procs[i].pc.e;
    assert GoodProc(c, i) && GoodEntry(c.entries[e]);
    forall j | 0 <= j < |c.procs| && j != i ensures Held(c.procs[j]) != Some(e) && !LogsFor(c.procs[j], e) {
      assert GoodProc(c, j);
    }
  }

  predicate Fault(a: Action) {
    a.Crash? || a.RevertFails?
  }

  lemma {:induction false} NothingLost(c: Config, actions: seq<Action>)
    requires Init(c) && forall k :: 0 <= k < |actions| ==> !Fault(actions[k])
    ensures forall e :: 0 <= e < |Run(c, actions).entries| ==> !Run(c, actions).entries[e].lost
  {
    if actions != [] {
      var n := |actions| - 1;
      NothingLost(c, actions[..n]);
      assert !Fault(actions[n]);
    }
  }

  /**
    Without faults every released earning is done or in the hands of one instance that will credit it or give it
    back. Once no instance holds any, and failures were reported faithfully, the instances together have done what
    one sequential run does: released is the same as credited once, and pending is the sum of the unreleased.
   */
  lemma QuiescentRunsAreSequential(c: Config, actions: seq<Action>)
    requires Init(c) && forall k :: 0 <= k < |actions| ==> !Fault(actions[k])
    ensures var c' := Run(c, actions);
      forall e :: 0 <= e < |c'.entries| && c'.entries[e].released ==>
        Done(c'.entries[e])
        || (c'.entries[e].holder.Some? && c'.entries[e].holder.value < |c'.procs|
            && Held(c'.procs[c'.entries[e].holder.value]) == Some(e))
    ensures var c' := Run(c, actions);
      (forall k :: 0 <= k < |actions| ==> Faithful(actions[k]))
          && (forall i :: 0 <= i < |c'.procs| ==> Held(c'.procs[i]) == None) ==>
        && (forall e :: 0 <= e < |c'.entries| ==> c'.entries[e].credits == if c'.entries[e].released then 1 else 0)
        && (forall v :: PendingOf(c'.wallets, v) == Sum(c'.entries, UnreleasedNet(v)))
  {
    var c' := Run(c, actions);
    RunInv(c, actions);
    NothingLost(c, actions);
    if (forall k :: 0 <= k < |actions| ==> Faithful(actions[k]))
      && (forall i :: 0 <= i < |c'.procs| ==> Held(c'.procs[i]) == None) {
      NothingUndone(c, actions);
      QuiescentMoney(c');
    }
  }

  lemma QuiescentMoney(c: Config)
    requires Inv(c) && Backed(c) && forall i :: 0 <= i < |c.procs| ==> Held(c.procs[i]) == None
    requires forall e :: 0 <= e < |c.entries| ==> !c.entries[e].lost && c.entries[e].undone == 0
    ensures forall e :: 0 <= e < |c.entries| ==> c.entries[e].credits == if c.entries[e].released then 1 else 0
    ensures forall v :: PendingOf(c.wallets, v) == Sum(c.entries, UnreleasedNet(v))
  {
    forall e | 0 <= e < |c.entries| ensures c.entries[e].credits == if c.entries[e].released then 1 else 0 {
      assert GoodEntry(c.entries[e]);
    }
    forall v ensures PendingOf(c.wallets, v) == Sum(c.entries, UnreleasedNet(v)) {
      SumSame(c.entries, c.entries, UnpaidOf(v), UnreleasedNet(v));
    }
  }

  // ---------- A failure that had moved the money ----------

  const ONE_DUE := Config([Entry(1, 5.0, 0, false, None, 0, 0, false)], map[1 := Wallet(0.0, 5.0)],
                          [Proc(Idle, []), Proc(Idle, [])], [])

  /** Both instances scan; the first is told that a credit failed which had moved the money, and the second retries. */
  const RETRY := [Scan(0, 0), Scan(1, 0), Claim(0), CreditFails(0, true), Revert(0), Claim(1), Credit(1)]

  lemma RunNext(c: Config, actions: seq<Action>, n: nat)
    requires n < |actions|
    ensures Run(c, actions[..n + 1]) == Step(Run(c, actions[..n]), actions[n])
  {
    assert actions[..n + 1][..n] == actions[..n];
  }

  lemma RetryClaims()
    ensures Run(ONE_DUE, RETRY[..3])
      == Config([Entry(1, 5.0, 0, true, Some(0), 0, 0, false)], map[1 := Wallet(0.0, 5.0)],
                                               [Proc(Holding(0), []), Proc(Scanning, [0])], [])
  {
    RetryScans();
    RunNext(ONE_DUE, RETRY, 2);
    assert [0][1..] == [];
  }

  lemma RetryFails()
    ensures Run(ONE_DUE, RETRY[..4])
      == Config([Entry(1, 5.0, 0, true, Some(0), 1, 0, false)], map[1 := Wallet(5.0, 0.0)],
                                               [Proc(Reverting(0, true), []), Proc(Scanning, [0])], [])
  {
    RetryClaims();
    RunNext(ONE_DUE, RETRY, 3);
    var c := Run(ONE_DUE, RETRY[..4]);
    assert c.entries == [Entry(1, 5.0, 0, true, Some(0), 1, 0, false)];
    assert c.procs == [Proc(Reverting(0, true), []), Proc(Scanning, [0])];
    assert c.wallets == map[1 := Wallet(5.0, 0.0)];
  }

  lemma RetryReverts()
    ensures Run(ONE_DUE, RETRY[..5]) == Config([Entry(1, 5.0, 0, false, None, 1, 1, false)], map[1 := Wallet(5.0, 0.0)],
                                               [Proc(Scanning, []), Proc(Scanning, [0])], [])
  {
    RetryFails();
    RunNext(ONE_DUE, RETRY, 4);
  }

  /** Ten are paid out for an earning of five. */
  lemma RetryPaysTwice()
    ensures var c := Run(ONE_DUE, RETRY);
      && Init(ONE_DUE) && |c.entries| == 1
      && c.entries[0].credits == 2 && c.entries[0].undone == 1 && BalanceOf(c.wallets, 1) == 10.0
  {
    OneDueStarts();
    RetryReverts();
    RunNext(ONE_DUE, RETRY, 5);
    RunNext(ONE_DUE, RETRY, 6);
    assert RETRY[..7] == RETRY;
    var c := Run(ONE_DUE, RETRY[..6]);
    assert c.entries == [Entry(1, 5.0, 0, true, Some(1), 1, 1, false)] && c.procs[1].pc == Holding(0);
  }

  lemma OneDueStarts()
    ensures Init(ONE_DUE)
  {
    forall v ensures PendingOf(ONE_DUE.wallets, v) == Sum(ONE_DUE.entries, UnpaidOf(v)) {
      SumOne(ONE_DUE.entries[0], UnpaidOf(v));
    }
  }

  lemma RetryScans()
    ensures Run(ONE_DUE, RETRY[..2]) == ONE_DUE.(procs := [Proc(Scanning, [0]), Proc(Scanning, [0])])
  {
    assert ONE_DUE.entries[..0] == [];
    assert DueIds(ONE_DUE.entries, 0) == [0];
    assert RETRY[..0] == [];
    RunNext(ONE_DUE, RETRY, 0);
    RunNext(ONE_DUE, RETRY, 1);
  }

  // ---------- Not before it is due ----------

  /** No instance has the entry on its list or in its hands, and it was never released. */
  ghost predicate Waits(c: Config, e: nat) {
    && e < |c.entries| && !c.entries[e].released && c.entries[e].credits == 0
    && forall i :: 0 <= i < |c.procs| ==> Unaware(c.procs[i], e)
  }

  predicate Unaware(p: Proc, e: nat) {
    && e !in p.todo && Held(p) != Some(e) && !LogsFor(p, e)
  }

  lemma {:induction false} DueIdsAreDue(entries: seq<Entry>, now: int)
    ensures forall e :: e in DueIds(entries, now) ==> e < |entries| && entries[e].due <= now
  {
    if entries != [] { DueIdsAreDue(entries[..|entries| - 1], now); }
  }

  lemma WaitsStep(c: Config, a: Action, e: nat)
    requires Waits(c, e) && (a.Scan? ==> a.now < c.entries[e].due)
    ensures Waits(Step(c, a), e) && Step(c, a).entries[e].due == c.entries[e].due
  {
    if a.i < |c.procs| {
      assert Unaware(c.procs[a.i], e);
      if a.Scan? { DueIdsAreDue(c.entries, a.now); }
    }
  }

  /** An earning that is due later than every scan of a run is neither released nor credited in it. */
  lemma {:induction false} NothingBeforeDue(c: Config, actions: seq<Action>, e: nat)
    requires Init(c) && e < |c.entries| && !c.entries[e].released
    requires forall k :: 0 <= k < |actions| && actions[k].Scan? ==> actions[k].now < c.entries[e].due
    ensures Waits(Run(c, actions), e) && Run(c, actions).entries[e].due == c.entries[e].due
  {
    if actions != [] {
      NothingBeforeDue(c, actions[..|actions| - 1], e);
      WaitsStep(Run(c, actions[..|actions| - 1]), actions[|actions| - 1], e);
    }
  }
}
