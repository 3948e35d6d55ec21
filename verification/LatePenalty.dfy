/** The late-fulfilment cron: what a late vendor is charged, run by run and under overlapping runs. */
module LatePenalty {
  import opened Prelude
  import opened L = EarningsLedger
  import LedgerLaws
  import opened LedgerService

  const MS_PER_DAY := 86400000

  /** `Math.round` to whole units of currency. */
  function RoundWhole(x: real): real {
    (x + 0.5).Floor as real
  }

  /** Days late, with any started day counting in full. */
  function DaysLate(now: int, deadline: int): (d: nat)
    requires now > deadline
    ensures (d - 1) * MS_PER_DAY < now - deadline <= d * MS_PER_DAY
  {
    (now - deadline + MS_PER_DAY - 1) / MS_PER_DAY
  }

  /** The settings a run reads: the percentage per day and its cap. */
  datatype Tariff = Tariff(perDay: real, maxPercent: real)

  /** A percentage of the vendor's items, in whole units. */
  function Share(itemsTotal: real, percent: real): real {
    RoundWhole(itemsTotal * (percent / 100.0))
  }

  function PenaltyPercent(t: Tariff, days: nat): real {
    Min(days as real * t.perDay, t.maxPercent)
  }

  function Penalty(t: Tariff, itemsTotal: real, days: nat): real {
    Share(itemsTotal, PenaltyPercent(t, days))
  }

  /**
    The penalty is a whole amount, the nearest to the daily percentage of the items, times the days, or to the
    percentage it is capped at; half a unit is rounded up.
   */
  lemma PenaltyIsNearest(t: Tariff, itemsTotal: real, days: nat)
    ensures var percent := if days as real * t.perDay < t.maxPercent then days as real * t.perDay else t.maxPercent;
      && Penalty(t, itemsTotal, days) == Penalty(t, itemsTotal, days).Floor as real
      && -0.5 < Penalty(t, itemsTotal, days) - itemsTotal * percent / 100.0 <= 0.5
  {
    var percent := PenaltyPercent(t, days);
    assert percent == if days as real * t.perDay < t.maxPercent then days as real * t.perDay else t.maxPercent;
    PartOf(itemsTotal, percent);
    var x := itemsTotal * (percent / 100.0);
    assert (x + 0.5).Floor as real <= x + 0.5 < (x + 0.5).Floor as real + 1.0;
  }

  lemma PartOf(x: real, percent: real)
    ensures x * (percent / 100.0) == x * percent / 100.0
  {
  }

  /** The penalty fields of a shipment. */
  datatype Late = Late(days: nat, amount: real)

  /** What a run at `now` makes of the penalty of an overdue shipment. */
  function Assessed(p: Late, t: Tariff, itemsTotal: real, deadline: int, now: int): Late {
    if now <= deadline || DaysLate(now, deadline) <= p.days || itemsTotal <= 0.0
       || Penalty(t, itemsTotal, DaysLate(now, deadline)) <= p.amount then p
    else Late(DaysLate(now, deadline), Penalty(t, itemsTotal, DaysLate(now, deadline)))
  }

  /** A day is charged for once: another run on it changes nothing, whatever the percentages have become. */
  lemma OncePerDay(p: Late, t: Tariff, t': Tariff, itemsTotal: real, deadline: int, now: int, later: int)
    requires deadline < now <= later && DaysLate(later, deadline) == DaysLate(now, deadline)
    requires Assessed(p, t, itemsTotal, deadline, now) != p
    ensures var q := Assessed(p, t, itemsTotal, deadline, now);
      q.amount > p.amount && q.days == DaysLate(now, deadline) && Assessed(q, t', itemsTotal, deadline, later) == q
  {
  }

  /** A confirmed shipment with a deadline; `charges` are the amounts taken and refunded so far. */
  class LateShipment {
    const order: Id
    const vendor: Id
    const itemsTotal: real
    const deadline: int
    const ledger: Ledger
    var days: nat
    var amount: real
    var vendorEarnings: real
    var charges: seq<real>
    var confirmed: bool
    var rejected: bool
    var dispatched: bool

    function State(): Late
      reads this
    {
      Late(days, amount)
    }

    constructor (order: Id, vendor: Id, itemsTotal: real, deadline: int, ledger: Ledger, vendorEarnings: real)
      ensures this.order == order && this.vendor == vendor && this.itemsTotal == itemsTotal
      ensures this.deadline == deadline && this.ledger == ledger && this.vendorEarnings == vendorEarnings
      ensures State() == Late(0, 0.0) && charges == [] && confirmed && !rejected && !dispatched
    {
      this.order, this.vendor, this.itemsTotal, this.deadline, this.ledger := order, vendor, itemsTotal,
          deadline, ledger;
      this.vendorEarnings := vendorEarnings;
      days, amount, charges, confirmed, rejected, dispatched := 0, 0.0, [], true, false, false;
    }

    /** One run of the cron on this shipment: charges the vendor what is due beyond what was charged. */
    method Assess(t: Tariff, now: int)
      requires L.Valid(ledger.State())
      modifies this, ledger
      ensures L.Valid(ledger.State())
      ensures confirmed == old(confirmed) && rejected == old(rejected) && dispatched == old(dispatched)
      ensures State() == if confirmed && !rejected && !dispatched
        then Assessed(old(State()), t, itemsTotal, deadline, now) else old(State())
      ensures var charge := amount - old(amount);
        && charge >= 0.0
        && charges == old(charges) + (if charge > 0.0 then [charge] else [])
        && vendorEarnings == (if charge > 0.0 then Max0(old(vendorEarnings) - charge) else old(vendorEarnings))
        && ledger.State() == if charge > 0.0 then Penalized(old(ledger.State()), order, vendor, charge)
          else old(ledger.State())
    {
      if !confirmed || rejected || dispatched { return; }
      if now <= deadline { return; }
      var daysLate := DaysLate(now, deadline);
      if daysLate <= days { return; }
      if itemsTotal <= 0.0 { return; }
      var penaltyPercent := PenaltyPercent(t, daysLate);
      var totalPenalty := Share(itemsTotal, penaltyPercent);
      var incremental := totalPenalty - amount;
      if incremental <= 0.0 { return; }
      amount := totalPenalty;
      days := daysLate;
      vendorEarnings := Max0(vendorEarnings - incremental);
      ledger.Dock(order, vendor, incremental);
      charges := charges + [incremental];
    }
  }

  // ---------- Sequential runs ----------

  datatype Visit = Visit(tariff: Tariff, now: int)

  /** The penalty and the charges after a sequence of runs, each with the settings of its day. */
  function Visited(itemsTotal: real, deadline: int, vs: seq<Visit>): (Late, seq<real>) {
    if vs == [] then (Late(0, 0.0), [])
    else
      var n := |vs| - 1;
      var (p, charges) := Visited(itemsTotal, deadline, vs[..n]);
      var p' := Assessed(p, vs[n].tariff, itemsTotal, deadline, vs[n].now);
      (p', charges + if p'.amount > p.amount then [p'.amount - p.amount] else [])
  }

  function Amount(x: real): real { x }

  lemma ShareMonotone(total: real, p: real, q: real)
    requires total >= 0.0 && p <= q
    ensures Share(total, p) <= Share(total, q)
  {
    ScaleMonotone(total, p, q);
    FloorMonotone(total * (p / 100.0) + 0.5, total * (q / 100.0) + 0.5);
  }

  lemma ScaleMonotone(total: real, p: real, q: real)
    requires total >= 0.0 && p <= q
    ensures total * (p / 100.0) <= total * (q / 100.0)
  {
  }

  lemma NoShare(total: real)
    ensures Share(total, 0.0) == 0.0
  {
    assert total * (0.0 / 100.0) == 0.0;
    assert (0.0 + 0.5).Floor == 0;
  }

  lemma PenaltyCapped(t: Tariff, itemsTotal: real, days: nat, cap: real)
    requires itemsTotal >= 0.0 && t.maxPercent <= cap
    ensures Penalty(t, itemsTotal, days) <= Share(itemsTotal, cap)
  {
    ShareMonotone(itemsTotal, PenaltyPercent(t, days), cap);
  }

  lemma AssessedBounds(p: Late, t: Tariff, itemsTotal: real, deadline: int, now: int, cap: real)
    requires itemsTotal >= 0.0 && t.maxPercent <= cap && p.amount <= Share(itemsTotal, cap)
    ensures var p' := Assessed(p, t, itemsTotal, deadline, now);
      p.amount <= p'.amount <= Share(itemsTotal, cap) && p.days <= p'.days
  {
    PenaltyCapped(t, itemsTotal, Assessed(p, t, itemsTotal, deadline, now).days, cap);
  }

  /**
    Over every sequence of runs, whatever the settings of each, the charges add up to the recorded
    penalty, which never falls and stays within the rounded cap.
   */
  lemma {:induction false} ChargesTelescope(itemsTotal: real, deadline: int, vs: seq<Visit>, cap: real)
    requires itemsTotal >= 0.0 && cap >= 0.0 && forall i :: 0 <= i < |vs| ==> vs[i].tariff.maxPercent <= cap
    ensures var (p, charges) := Visited(itemsTotal, deadline, vs);
      && Sum(charges, Amount) == p.amount
      && 0.0 <= p.amount <= Share(itemsTotal, cap)
      && (forall i :: 0 <= i < |charges| ==> charges[i] > 0.0)
    ensures vs != [] ==>
      var (before, _), (after, _) := Visited(itemsTotal, deadline, vs[..|vs| - 1]), Visited(itemsTotal, deadline, vs);
      before.amount <= after.amount && before.days <= after.days
  {
    if vs == [] {
      ShareMonotone(itemsTotal, 0.0, cap);
      NoShare(itemsTotal);
    } else {
      var n := |vs| - 1;
      ChargesTelescope(itemsTotal, deadline, vs[..n], cap);
      var (p, charges) := Visited(itemsTotal, deadline, vs[..n]);
      var p' := Assessed(p, vs[n].tariff, itemsTotal, deadline, vs[n].now);
      AssessedBounds(p, vs[n].tariff, itemsTotal, deadline, vs[n].now, cap);
      if p'.amount > p.amount {
        SumAppend(charges, p'.amount - p.amount, Amount);
      } else {
        assert charges + [] == charges;
      }
    }
  }

  /** A charge is met exactly by what the open earnings lose and what is asked of the balance. */
  lemma ChargeSplits(l: LedgerState, o: Id, v: Id, charge: real)
    requires L.Valid(l) && charge >= 0.0 && v in l.wallets
    ensures var l' := Penalized(l, o, v, charge);
      var taken := Sum(l.earnings, OpenFor(o, v)) - Sum(l'.earnings, OpenFor(o, v));
      var clawed := charge - taken;
      && taken >= 0.0 && clawed >= 0.0
      && (clawed > 0.0 ==> Sum(l'.earnings, OpenFor(o, v)) == 0.0)
      && l'.wallets[v].pending == l.wallets[v].pending - taken
      && l'.wallets[v].balance == Max0(l.wallets[v].balance - clawed)
  {
    NetsNonNegative(l);
    LedgerLaws.DockedSums(l.earnings, o, v, charge);
    SumNonNegative(l.earnings, OpenFor(o, v));
    assert Balanced(l, v);
  }

  // ---------- Overlapping runs ----------

  /**
    An instance between its steps: it has read the shipment when it was `days` late and the penalty `seen`; or it
    has won the tier and still has to save the shipment, with the penalty `amount` of that tier on it; or it has
    saved it and still has to charge. `due` is what it is to charge.
   */
  datatype Instance =
    | Resting
    | Planned(days: nat, seen: real)
    | Won(days: nat, amount: real, due: real)
    | Owing(due: real)

  /** A tier that was won: its penalty, what the winner had read, and what had been claimed before. */
  datatype Win = Win(days: nat, amount: real, seen: real, before: real)

  /**
    `late` is the stored penalty, `claimed` what the winners set out to charge in all, `charged` what they have
    charged, and `lost` what a crash or a failed charge, which is only logged, has left uncharged.
   */
  datatype Race = Race(
    late: Late, claimed: real, charged: real, lost: real, instances: seq<Instance>, wins: seq<Win>)

  /**
    An instance reads the shipment, claims the tier it has planned, saves the shipment it holds in memory, charges
    all or part of what is due, or crashes.
   */
  datatype Move = Plan(i: nat, days: nat) | Claim(i: nat) | Save(i: nat) | Charge(i: nat, taken: real) | Crash(i: nat)

  function With(r: Race, i: nat, x: Instance): Race
    requires i < |r.instances|
  {
    r.(instances := r.instances[i := x])
  }

  function Outstanding(x: Instance): real {
    if x.Won? || x.Owing? then x.due else 0.0
  }

  function Stride(t: Tariff, itemsTotal: real, r: Race, m: Move): Race {
    if m.i >= |r.instances| then r
    else
      match m
      case Plan(i, days) =>
        if r.instances[i].Resting? && days > r.late.days && Penalty(t, itemsTotal, days) > r.late.amount
        then With(r, i, Planned(days, r.late.amount)) else r
      case Claim(i) =>
        (match r.instances[i]
         case Planned(days, seen) =>
           if r.late.days >= days then With(r, i, Resting) else Claimed(r, i, Penalty(t, itemsTotal, days))
         case _ => r)
      case Save(i) =>
        (match r.instances[i]
         case Won(days, amount, due) => With(r, i, Owing(due)).(late := Late(days, amount))
         case _ => r)
      case Charge(i, taken) =>
        (match r.instances[i]
         case Owing(due) =>
           if 0.0 <= taken <= due then
             With(r, i, Resting).(charged := r.charged + taken, lost := r.lost + (due - taken))
           else r
         case _ => r)
      case Crash(i) => With(r, i, Resting).(lost := r.lost + Outstanding(r.instances[i]))
  }

  /** The claim stores the tier and its penalty, and the winner is to charge the penalty less what it had read. */
  function Claimed(r: Race, i: nat, penalty: real): Race
    requires i < |r.instances| && r.instances[i].Planned?
  {
    var p := r.instances[i];
    Race(Late(p.days, penalty), r.claimed + (penalty - p.seen), r.charged, r.lost,
         r.instances[i := Won(p.days, penalty, penalty - p.seen)],
         r.wins + [Win(p.days, penalty, p.seen, r.claimed)])
  }

  function RunRace(t: Tariff, itemsTotal: real, r: Race, ms: seq<Move>): Race {
    if ms == [] then r else Stride(t, itemsTotal, RunRace(t, itemsTotal, r, ms[..|ms| - 1]), ms[|ms| - 1])
  }

  function Untouched(n: nat): Race {
    Race(Late(0, 0.0), 0.0, 0.0, 0.0, seq(n, _ => Resting), [])
  }

  // ---------- Claims against the stored penalty ----------

  /** Every winner had read all that had been claimed before it. */
  predicate AllFresh(wins: seq<Win>) {
    forall k :: 0 <= k < |wins| ==> wins[k].seen == wins[k].before
  }

  /** The penalty of the last tier won. */
  function LastWon(wins: seq<Win>): real {
    if wins == [] then 0.0 else wins[|wins| - 1].amount
  }

  /** What an instance has read, or is about to store, is at most what was claimed; less, once a read was stale. */
  predicate Behind(r: Race, x: real) {
    x <= r.claimed && (!AllFresh(r.wins) ==> x < r.claimed)
  }

  ghost predicate RaceInv(t: Tariff, itemsTotal: real, r: Race) {
    && Behind(r, r.late.amount)
    && (AllFresh(r.wins) ==> r.claimed == LastWon(r.wins))
    && (forall k :: 0 <= k < |r.wins| ==> r.wins[k].seen <= r.wins[k].before)
    && (forall i :: 0 <= i < |r.instances| ==> InstanceFits(t, itemsTotal, r, r.instances[i]))
  }

  predicate InstanceFits(t: Tariff, itemsTotal: real, r: Race, x: Instance) {
    match x
    case Resting => true
    case Planned(days, seen) => Behind(r, seen) && seen < Penalty(t, itemsTotal, days)
    case Won(_, amount, _) => Behind(r, amount)
    case Owing(_) => true
  }

  lemma FreshStep(wins: seq<Win>, w: Win)
    ensures AllFresh(wins + [w]) <==> AllFresh(wins) && w.seen == w.before
    ensures LastWon(wins + [w]) == w.amount
  {
    assert forall k :: 0 <= k < |wins| ==> (wins + [w])[k] == wins[k];
    if AllFresh(wins + [w]) {
      assert (wins + [w])[|wins|] == w;
      forall k | 0 <= k < |wins| ensures wins[k].seen == wins[k].before {
        assert (wins + [w])[k] == wins[k];
      }
    }
  }

  lemma ClaimedInv(t: Tariff, itemsTotal: real, r: Race, i: nat)
    requires RaceInv(t, itemsTotal, r) && i < |r.instances| && r.instances[i].Planned?
    ensures RaceInv(t, itemsTotal, Claimed(r, i, Penalty(t, itemsTotal, r.instances[i].days)))
  {
    var p := r.instances[i];
    var penalty := Penalty(t, itemsTotal, p.days);
    var r' := Claimed(r, i, penalty);
    assert InstanceFits(t, itemsTotal, r, p);
    FreshStep(r.wins, Win(p.days, penalty, p.seen, r.claimed));
    assert r'.claimed > r.claimed && (r'.claimed == penalty <==> p.seen == r.claimed);
    forall j | 0 <= j < |r'.instances| ensures InstanceFits(t, itemsTotal, r', r'.instances[j]) {
      assert InstanceFits(t, itemsTotal, r, r.instances[j]);
    }
  }

  lemma StrideInv(t: Tariff, itemsTotal: real, r: Race, m: Move)
    requires RaceInv(t, itemsTotal, r)
    ensures RaceInv(t, itemsTotal, Stride(t, itemsTotal, r, m))
  {
    if m.i < |r.instances| {
      var x := r.instances[m.i];
      assert InstanceFits(t, itemsTotal, r, x);
      if m.Claim? && x.Planned? && r.late.days < x.days {
        ClaimedInv(t, itemsTotal, r, m.i);
      } else {
        var r' := Stride(t, itemsTotal, r, m);
        forall j | 0 <= j < |r'.instances| ensures InstanceFits(t, itemsTotal, r', r'.instances[j]) {
          assert InstanceFits(t, itemsTotal, r, r.instances[j]);
        }
      }
    }
  }

  lemma {:induction false} RaceRunInv(t: Tariff, itemsTotal: real, n: nat, ms: seq<Move>)
    ensures RaceInv(t, itemsTotal, RunRace(t, itemsTotal, Untouched(n), ms))
  {
    if ms != [] {
      RaceRunInv(t, itemsTotal, n, ms[..|ms| - 1]);
      StrideInv(t, itemsTotal, RunRace(t, itemsTotal, Untouched(n), ms[..|ms| - 1]), ms[|ms| - 1]);
    }
  }

  // ---------- Tiers won more than once ----------

  /** A save that stores an older tier than the stored one. */
  predicate Regresses(r: Race, m: Move) {
    m.Save? && m.i < |r.instances| && r.instances[m.i].Won? && r.instances[m.i].days < r.late.days
  }

  predicate NeverRegresses(t: Tariff, itemsTotal: real, r: Race, ms: seq<Move>) {
    ms != [] ==>
      var rest := ms[..|ms| - 1];
      NeverRegresses(t, itemsTotal, r, rest) && !Regresses(RunRace(t, itemsTotal, r, rest), ms[|ms| - 1])
  }

  function LastTier(wins: seq<Win>): nat {
    if wins == [] then 0 else wins[|wins| - 1].days
  }

  /** The tiers were won in increasing order, each once, and the last of them is stored. */
  ghost predicate Climbs(r: Race) {
    r.late.days == LastTier(r.wins) && forall j, k :: 0 <= j < k < |r.wins| ==> r.wins[j].days < r.wins[k].days
  }

  ghost predicate ClimbsThroughout(t: Tariff, itemsTotal: real, r: Race, ms: seq<Move>) {
    Climbs(RunRace(t, itemsTotal, r, ms)) && (ms != [] ==> ClimbsThroughout(t, itemsTotal, r, ms[..|ms| - 1]))
  }

  /** What an instance is about to save was won. */
  ghost predicate HasWon(wins: seq<Win>, x: Instance) {
    x.Won? ==> exists k :: 0 <= k < |wins| && wins[k].days == x.days && wins[k].amount == x.amount
  }

  ghost predicate AllHaveWon(r: Race) {
    forall i :: 0 <= i < |r.instances| ==> HasWon(r.wins, r.instances[i])
  }

  lemma ClimbStep(t: Tariff, itemsTotal: real, r: Race, m: Move)
    requires Climbs(r) && AllHaveWon(r)
    ensures Climbs(Stride(t, itemsTotal, r, m)) <==> !Regresses(r, m)
  {
  }

  lemma HasWonStep(t: Tariff, itemsTotal: real, r: Race, m: Move)
    requires AllHaveWon(r)
    ensures AllHaveWon(Stride(t, itemsTotal, r, m))
  {
    var r' := Stride(t, itemsTotal, r, m);
    forall i | 0 <= i < |r'.instances| ensures HasWon(r'.wins, r'.instances[i]) {
      if r'.instances[i].Won? {
        if i == m.i && m.Claim? && r.instances[i].Planned? {
          assert r'.wins[|r.wins|].days == r'.instances[i].days && r'.wins[|r.wins|].amount == r'.instances[i].amount;
        } else {
          assert HasWon(r.wins, r.instances[i]);
          var x := r.instances[i];
          var k :| 0 <= k < |r.wins| && r.wins[k].days == x.days && r.wins[k].amount == x.amount;
          assert r'.wins[k] == r.wins[k];
        }
      }
    }
  }

  lemma {:induction false} RunHasWon(t: Tariff, itemsTotal: real, n: nat, ms: seq<Move>)
    ensures AllHaveWon(RunRace(t, itemsTotal, Untouched(n), ms))
  {
    if ms != [] {
      RunHasWon(t, itemsTotal, n, ms[..|ms| - 1]);
      HasWonStep(t, itemsTotal, RunRace(t, itemsTotal, Untouched(n), ms[..|ms| - 1]), ms[|ms| - 1]);
    }
  }

  /**
    Throughout a run each tier is won at most once, in increasing order, the last of them being stored, if and only
    if no save takes the stored tier back to an earlier one.
   */
  lemma {:induction false} TiersClimbIff(t: Tariff, itemsTotal: real, n: nat, ms: seq<Move>)
    ensures ClimbsThroughout(t, itemsTotal, Untouched(n), ms) <==> NeverRegresses(t, itemsTotal, Untouched(n), ms)
  {
    if ms != [] {
      var rest := ms[..|ms| - 1];
      TiersClimbIff(t, itemsTotal, n, rest);
      RunHasWon(t, itemsTotal, n, rest);
      if ClimbsThroughout(t, itemsTotal, Untouched(n), rest) {
        ClimbStep(t, itemsTotal, RunRace(t, itemsTotal, Untouched(n), rest), ms[|ms| - 1]);
      }
    }
  }

  // ---------- Claims, charges and the stored penalty over whole runs ----------

  predicate Matches(r: Race) {
    r.claimed == r.late.amount
  }

  /** What is claimed is the stored penalty, after every move. */
  ghost predicate MatchesThroughout(t: Tariff, itemsTotal: real, r: Race, ms: seq<Move>) {
    Matches(RunRace(t, itemsTotal, r, ms)) && (ms != [] ==> MatchesThroughout(t, itemsTotal, r, ms[..|ms| - 1]))
  }

  /** Tiers and penalties both rose from win to win, and the last win is what is stored. */
  ghost predicate Tidy(r: Race) {
    && Climbs(r) && r.late.amount == LastWon(r.wins)
    && (forall j, k :: 0 <= j < k < |r.wins| ==> r.wins[j].amount < r.wins[k].amount)
  }

  lemma ClaimTidy(t: Tariff, itemsTotal: real, r: Race, i: nat)
    requires RaceInv(t, itemsTotal, r) && AllFresh(r.wins) && Tidy(r)
    requires i < |r.instances| && r.instances[i].Planned? && r.instances[i].days > r.late.days
    ensures var r' := Claimed(r, i, Penalty(t, itemsTotal, r.instances[i].days));
      && (Matches(r') <==> AllFresh(r'.wins))
      && (AllFresh(r'.wins) ==> Tidy(r'))
  {
    var p := r.instances[i];
    var penalty := Penalty(t, itemsTotal, p.days);
    assert InstanceFits(t, itemsTotal, r, p);
    FreshStep(r.wins, Win(p.days, penalty, p.seen, r.claimed));
  }

  lemma SaveTidy(t: Tariff, itemsTotal: real, r: Race, i: nat)
    requires RaceInv(t, itemsTotal, r) && AllFresh(r.wins) && Tidy(r)
    requires i < |r.instances| && r.instances[i].Won? && HasWon(r.wins, r.instances[i])
    ensures var r' := Stride(t, itemsTotal, r, Save(i));
      && (Matches(r') <==> !Regresses(r, Save(i)))
      && (!Regresses(r, Save(i)) ==> Tidy(r'))
  {
    var x := r.instances[i];
    var k :| 0 <= k < |r.wins| && r.wins[k].days == x.days && r.wins[k].amount == x.amount;
    if k < |r.wins| - 1 {
      assert r.wins[k].days < r.wins[|r.wins| - 1].days;
    }
  }

  lemma StrideTidy(t: Tariff, itemsTotal: real, r: Race, m: Move)
    requires RaceInv(t, itemsTotal, r) && AllFresh(r.wins) && Tidy(r) && AllHaveWon(r)
    ensures var r' := Stride(t, itemsTotal, r, m);
      && (Matches(r') <==> AllFresh(r'.wins) && !Regresses(r, m))
      && (Matches(r') ==> Tidy(r'))
  {
    if m.i < |r.instances| {
      var x := r.instances[m.i];
      assert HasWon(r.wins, x);
      if m.Claim? && x.Planned? && x.days > r.late.days {
        ClaimTidy(t, itemsTotal, r, m.i);
      } else if m.Save? && x.Won? {
        SaveTidy(t, itemsTotal, r, m.i);
      }
    }
  }

  lemma FreshBefore(t: Tariff, itemsTotal: real, r: Race, m: Move)
    requires AllFresh(Stride(t, itemsTotal, r, m).wins)
    ensures AllFresh(r.wins)
  {
    var wins := Stride(t, itemsTotal, r, m).wins;
    forall k | 0 <= k < |r.wins| ensures r.wins[k].seen == r.wins[k].before { assert wins[k] == r.wins[k]; }
  }

  lemma {:induction false} MatchesIff(t: Tariff, itemsTotal: real, n: nat, ms: seq<Move>)
    ensures var r := RunRace(t, itemsTotal, Untouched(n), ms);
      && (MatchesThroughout(t, itemsTotal, Untouched(n), ms)
          <==> AllFresh(r.wins) && NeverRegresses(t, itemsTotal, Untouched(n), ms))
      && (MatchesThroughout(t, itemsTotal, Untouched(n), ms) ==> Tidy(r))
  {
    if ms != [] {
      var rest := ms[..|ms| - 1];
      var r, m := RunRace(t, itemsTotal, Untouched(n), rest), ms[|ms| - 1];
      MatchesIff(t, itemsTotal, n, rest);
      RaceRunInv(t, itemsTotal, n, rest);
      RunHasWon(t, itemsTotal, n, rest);
      if AllFresh(Stride(t, itemsTotal, r, m).wins) { FreshBefore(t, itemsTotal, r, m); }
      if MatchesThroughout(t, itemsTotal, Untouched(n), rest) { StrideTidy(t, itemsTotal, r, m); }
    }
  }

  lemma StrideAccounts(t: Tariff, itemsTotal: real, r: Race, m: Move)
    requires RaceInv(t, itemsTotal, r) && r.lost >= 0.0
    requires forall i :: 0 <= i < |r.instances| ==> Outstanding(r.instances[i]) >= 0.0
    requires r.claimed == r.charged + r.lost + Sum(r.instances, Outstanding)
    ensures var r' := Stride(t, itemsTotal, r, m);
      && r'.lost >= 0.0
      && (forall i :: 0 <= i < |r'.instances| ==> Outstanding(r'.instances[i]) >= 0.0)
      && r'.claimed == r'.charged + r'.lost + Sum(r'.instances, Outstanding)
  {
    if m.i < |r.instances| {
      assert InstanceFits(t, itemsTotal, r, r.instances[m.i]);
      SumUpdate(r.instances, m.i, Stride(t, itemsTotal, r, m).instances[m.i], Outstanding);
    }
  }

  lemma {:induction false} RunAccounts(t: Tariff, itemsTotal: real, n: nat, ms: seq<Move>)
    ensures var r := RunRace(t, itemsTotal, Untouched(n), ms);
      && r.lost >= 0.0
      && (forall i :: 0 <= i < |r.instances| ==> Outstanding(r.instances[i]) >= 0.0)
      && r.claimed == r.charged + r.lost + Sum(r.instances, Outstanding)
  {
    if ms == [] {
      SumZero(Untouched(n).instances, Outstanding);
    } else {
      RunAccounts(t, itemsTotal, n, ms[..|ms| - 1]);
      RaceRunInv(t, itemsTotal, n, ms[..|ms| - 1]);
      StrideAccounts(t, itemsTotal, RunRace(t, itemsTotal, Untouched(n), ms[..|ms| - 1]), ms[|ms| - 1]);
    }
  }

  /**
    However runs overlap: the winners never claim less than the stored penalty, and what they claim is the stored
    penalty throughout if and only if every winner had read all that was claimed before it and no save takes the
    stored tier back. What they claim is what is charged, what is still to be charged, and what crashes and failed
    charges lose.
   */
  lemma OverlappingRuns(t: Tariff, itemsTotal: real, n: nat, ms: seq<Move>)
    ensures var r := RunRace(t, itemsTotal, Untouched(n), ms);
      && r.claimed >= r.late.amount
      && (MatchesThroughout(t, itemsTotal, Untouched(n), ms)
          <==> AllFresh(r.wins) && NeverRegresses(t, itemsTotal, Untouched(n), ms))
      && r.claimed == r.charged + r.lost + Sum(r.instances, Outstanding)
  {
    RaceRunInv(t, itemsTotal, n, ms);
    MatchesIff(t, itemsTotal, n, ms);
    RunAccounts(t, itemsTotal, n, ms);
  }

  predicate NothingLost(t: Tariff, itemsTotal: real, r: Race, ms: seq<Move>) {
    ms != [] ==>
      var rest := ms[..|ms| - 1];
      NothingLost(t, itemsTotal, r, rest) && !Loses(RunRace(t, itemsTotal, r, rest), ms[|ms| - 1])
  }

  /** A crash of a winner, or a charge of less than is due. */
  predicate Loses(r: Race, m: Move) {
    m.i < |r.instances|
    && ((m.Crash? && Outstanding(r.instances[m.i]) > 0.0)
        || (m.Charge? && r.instances[m.i].Owing? && 0.0 <= m.taken < r.instances[m.i].due))
  }

  lemma {:induction false} NothingLostIff(t: Tariff, itemsTotal: real, n: nat, ms: seq<Move>)
    ensures RunRace(t, itemsTotal, Untouched(n), ms).lost == 0.0 <==> NothingLost(t, itemsTotal, Untouched(n), ms)
  {
    if ms != [] {
      NothingLostIff(t, itemsTotal, n, ms[..|ms| - 1]);
      RunAccounts(t, itemsTotal, n, ms[..|ms| - 1]);
    }
  }

  /**
    Once no winner has anything left to charge, all that was claimed is charged if and only if no winner crashed
    and no charge failed, in whole or in part.
   */
  lemma ChargedIsClaimedIff(t: Tariff, itemsTotal: real, n: nat, ms: seq<Move>)
    ensures var r := RunRace(t, itemsTotal, Untouched(n), ms);
      (forall i :: 0 <= i < |r.instances| ==> Outstanding(r.instances[i]) == 0.0) ==>
        r.charged <= r.claimed && (r.charged == r.claimed <==> NothingLost(t, itemsTotal, Untouched(n), ms))
  {
    var r := RunRace(t, itemsTotal, Untouched(n), ms);
    RunAccounts(t, itemsTotal, n, ms);
    NothingLostIff(t, itemsTotal, n, ms);
    if forall i :: 0 <= i < |r.instances| ==> Outstanding(r.instances[i]) == 0.0 {
      SumZero(r.instances, Outstanding);
    }
  }

  // ---------- Runs that do not match ----------

  /** Five per cent a day on a hundred: five the first day, ten the second. */
  const FIVE_A_DAY := Tariff(5.0, 25.0)

  lemma FiveADay()
    ensures Penalty(FIVE_A_DAY, 100.0, 1) == 5.0 && Penalty(FIVE_A_DAY, 100.0, 2) == 10.0
  {
    assert (5.0 + 0.5).Floor == 5 && (10.0 + 0.5).Floor == 10;
    assert 100.0 * (5.0 / 100.0) == 5.0 && 100.0 * (10.0 / 100.0) == 10.0;
  }

  function After(ms: seq<Move>, n: nat): Race
    requires n <= |ms|
  {
    RunRace(FIVE_A_DAY, 100.0, Untouched(2), ms[..n])
  }

  lemma AfterNext(ms: seq<Move>, n: nat)
    requires n < |ms|
    ensures After(ms, n + 1) == Stride(FIVE_A_DAY, 100.0, After(ms, n), ms[n]) && After(ms, 0) == Untouched(2)
  {
    assert ms[..n + 1][..n] == ms[..n];
  }

  /** Two instances read the shipment a day apart, before either claims; then each claims, saves and charges. */
  const STALE_READ := [
    Plan(0, 1), Plan(1, 2), Claim(0), Save(0), Claim(1), Save(1), Charge(0, 5.0), Charge(1, 10.0)]

  lemma BothRead()
    ensures After(STALE_READ, 4)
      == Race(Late(1, 5.0), 5.0, 0.0, 0.0, [Owing(5.0), Planned(2, 0.0)], [Win(1, 5.0, 0.0, 0.0)])
  {
    FiveADay();
    AfterNext(STALE_READ, 0);
    AfterNext(STALE_READ, 1);
    AfterNext(STALE_READ, 2);
    AfterNext(STALE_READ, 3);
  }

  lemma BothWon()
    ensures After(STALE_READ, 6)
      == Race(Late(2, 10.0), 15.0, 0.0, 0.0, [Owing(5.0), Owing(10.0)],
              [Win(1, 5.0, 0.0, 0.0), Win(2, 10.0, 0.0, 5.0)])
  {
    FiveADay();
    BothRead();
    AfterNext(STALE_READ, 4);
    AfterNext(STALE_READ, 5);
  }

  /** The first day is charged twice. */
  lemma StaleReadOvercharges()
    ensures var r := RunRace(FIVE_A_DAY, 100.0, Untouched(2), STALE_READ); r.late.amount == 10.0 && r.charged == 15.0
  {
    BothWon();
    AfterNext(STALE_READ, 6);
    AfterNext(STALE_READ, 7);
    assert STALE_READ[..8] == STALE_READ;
  }

  /** The first day is won, the second is won on a fresh read and saved, and then the first winner saves its tier. */
  const LATE_SAVE := [
    Plan(0, 1), Claim(0), Plan(1, 2), Claim(1), Save(1), Save(0), Charge(1, 5.0), Charge(0, 5.0), Plan(1, 2), Claim(1)]

  const TWO_WINS := [Win(1, 5.0, 0.0, 0.0), Win(2, 10.0, 5.0, 5.0)]

  lemma TwoDaysWon()
    ensures After(LATE_SAVE, 4)
      == Race(Late(2, 10.0), 10.0, 0.0, 0.0, [Won(1, 5.0, 5.0), Won(2, 10.0, 5.0)], TWO_WINS)
  {
    FiveADay();
    AfterNext(LATE_SAVE, 0);
    AfterNext(LATE_SAVE, 1);
    AfterNext(LATE_SAVE, 2);
    AfterNext(LATE_SAVE, 3);
  }

  lemma FirstDaySavedLate()
    ensures After(LATE_SAVE, 6) == Race(Late(1, 5.0), 10.0, 0.0, 0.0, [Owing(5.0), Owing(5.0)], TWO_WINS)
  {
    TwoDaysWon();
    AfterNext(LATE_SAVE, 4);
    AfterNext(LATE_SAVE, 5);
  }

  lemma FirstDayStoredAgain()
    ensures After(LATE_SAVE, 8) == Race(Late(1, 5.0), 10.0, 10.0, 0.0, [Resting, Resting], TWO_WINS)
  {
    FirstDaySavedLate();
    AfterNext(LATE_SAVE, 6);
    AfterNext(LATE_SAVE, 7);
  }

  /** The stored tier is the first day again, ten having been charged; and the second day is won once more. */
  lemma LateSaveReopensTier()
    ensures After(LATE_SAVE, 8).late == Late(1, 5.0) && After(LATE_SAVE, 8).charged == 10.0
    ensures AllFresh(After(LATE_SAVE, 8).wins)
    ensures var again := RunRace(FIVE_A_DAY, 100.0, Untouched(2), LATE_SAVE);
      again.claimed == 15.0 && |again.wins| == 3 && again.wins[1].days == again.wins[2].days == 2
  {
    FiveADay();
    FirstDayStoredAgain();
    AfterNext(LATE_SAVE, 8);
    AfterNext(LATE_SAVE, 9);
    assert LATE_SAVE[..10] == LATE_SAVE;
  }

  /** A winner that crashes before it charges: five are stored as the penalty, and nothing is charged. */
  lemma CrashLosesCharge()
    ensures var r := RunRace(FIVE_A_DAY, 100.0, Untouched(2), [Plan(0, 1), Claim(0), Save(0), Crash(0)]);
      r.late.amount == 5.0 && r.charged == 0.0 && r.lost == 5.0
  {
    var ms := [Plan(0, 1), Claim(0), Save(0), Crash(0)];
    FiveADay();
    AfterNext(ms, 0);
    AfterNext(ms, 1);
    AfterNext(ms, 2);
    AfterNext(ms, 3);
    assert ms[..4] == ms;
  }
}
