/**
  The release of an earning against what may happen to the same earning at the same time: its reversal, and a late
  penalty. Every database operation is one step, and the steps of the two interleave freely.
 */
module ReleaseRaces {
  import opened Prelude

  datatype Held = Held(net: real, released: bool)

  /** The release credits what it read at the scan. */
  datatype Release = Before | Scanned(net: real) | Claimed(net: real) | Paid | Passed

  /** The vendor's wallet, as far as it is not this earning's: `pending` and `balance` before the order, and its net. */
  datatype Terms = Terms(pending: real, net: real, balance: real)

  ghost predicate Fair(t: Terms) {
    t.pending >= 0.0 && t.net > 0.0 && t.balance >= 0.0
  }

  function Unreleased(e: Option<Held>): real {
    if e.Some? && !e.value.released then e.value.net else 0.0
  }

  predicate HasClaim(r: Release) {
    r.Claimed? || r.Paid?
  }

  predicate Over(r: Release) {
    r.Before? || r.Paid? || r.Passed?
  }

  function Scan(e: Option<Held>): Release {
    if e.Some? && !e.value.released && e.value.net != 0.0 then Scanned(e.value.net) else Passed
  }

  predicate Claimable(e: Option<Held>) {
    e.Some? && !e.value.released
  }

  // ---------- Against a reversal ----------

  /** `Between` the deletion of open earnings and the claw-back of paid ones. */
  datatype Reversal = Unstarted | Open(net: real) | Debited | Between | Found(net: real) | Clawed | Finished

  /** `crossed`: claimed while the reversal held it as open; `early`: clawed back after the claim, before the credit. */
  datatype Undoing = Undoing(
    earning: Option<Held>, pending: real, balance: real, release: Release, reversal: Reversal,
    crossed: bool, early: bool)

  datatype UndoStep =
    | ScanFirst | ClaimIt | CreditIt
    | ReadOpen | Debit | Delete | ReadPaid | Claw | Zero

  function Undo(c: Undoing, a: UndoStep): Undoing {
    match a
    case ScanFirst => if c.release.Before? then c.(release := Scan(c.earning)) else c
    case ClaimIt =>
      if !c.release.Scanned? then c
      else if !Claimable(c.earning) then c.(release := Passed)
      else c.(earning := Some(c.earning.value.(released := true)), release := Claimed(c.release.net),
              crossed := c.reversal.Open? || c.reversal.Debited?)
    case CreditIt =>
      if !c.release.Claimed? then c
      else c.(pending := c.pending - c.release.net, balance := c.balance + c.release.net, release := Paid)
    case ReadOpen =>
      if !c.reversal.Unstarted? then c
      else c.(reversal := if Claimable(c.earning) then Open(c.earning.value.net) else Between)
    case Debit => if c.reversal.Open? then c.(pending := Max0(c.pending - c.reversal.net), reversal := Debited) else c
    case Delete => if c.reversal.Debited? then c.(earning := None, reversal := Between) else c
    case ReadPaid =>
      if !c.reversal.Between? then c
      else c.(reversal := if c.earning.Some? && c.earning.value.released then Found(c.earning.value.net) else Finished)
    case Claw =>
      if !c.reversal.Found? then c
      else c.(balance := Max0(c.balance - c.reversal.net), reversal := Clawed, early := c.release.Claimed?)
    case Zero =>
      if c.reversal.Clawed? && c.earning.Some? then
        c.(earning := Some(c.earning.value.(net := 0.0)), reversal := Finished)
      else c
  }

  function Undone(c: Undoing, steps: seq<UndoStep>): Undoing {
    if steps == [] then c else Undo(Undone(c, steps[..|steps| - 1]), steps[|steps| - 1])
  }

  function Recorded(t: Terms): Undoing {
    Undoing(Some(Held(t.net, false)), t.pending + t.net, t.balance, Before, Unstarted, false, false)
  }

  /** Where the earning is, by how far both have come. */
  predicate EarningFits(t: Terms, c: Undoing) {
    match c.reversal
    case Unstarted => c.earning == Some(Held(t.net, HasClaim(c.release))) && !c.crossed
    case Open(net) => net == t.net && c.earning == Some(Held(t.net, HasClaim(c.release)))
      && (HasClaim(c.release) <==> c.crossed)
    case Debited => c.earning == Some(Held(t.net, HasClaim(c.release))) && (HasClaim(c.release) <==> c.crossed)
    case Between => EarningDecided(t.net, c)
    case Found(net) => net == t.net && c.earning.Some? && EarningDecided(t.net, c)
    case Clawed => c.earning.Some? && EarningDecided(t.net, c)
    case Finished => EarningDecided(0.0, c)
  }

  predicate EarningDecided(net: real, c: Undoing) {
    if c.earning.None? then (HasClaim(c.release) <==> c.crossed)
    else c.earning == Some(Held(net, true)) && HasClaim(c.release) && !c.crossed
  }

  predicate ReleaseFits(t: Terms, c: Undoing) {
    && (c.release.Scanned? ==> c.release.net == t.net) && (c.release.Claimed? ==> c.release.net == t.net)
    && (c.release.Passed? && c.earning.Some? ==> false)
    && (c.early ==> c.earning.Some? && (c.reversal.Clawed? || c.reversal.Finished?))
  }

  predicate PendingFits(t: Terms, c: Undoing) {
    var taken := if c.release.Paid? then t.net else 0.0;
    if c.earning.None? || c.reversal.Debited? then
      t.pending - taken <= c.pending <= Max0(t.pending - taken)
    else c.pending == t.pending + t.net - taken
  }

  predicate BalanceFits(t: Terms, c: Undoing) {
    var paid := if c.release.Paid? then t.net else 0.0;
    if c.earning.Some? && (c.reversal.Clawed? || c.reversal.Finished?) then
      if c.early then c.balance == Max0(t.balance - t.net) + paid else c.release.Paid? && c.balance == t.balance
    else c.balance == t.balance + paid
  }

  lemma UndoFits(t: Terms, c: Undoing, a: UndoStep)
    requires Fair(t) && EarningFits(t, c) && ReleaseFits(t, c) && PendingFits(t, c) && BalanceFits(t, c)
    ensures var c' := Undo(c, a);
      EarningFits(t, c') && ReleaseFits(t, c') && PendingFits(t, c') && BalanceFits(t, c')
  {
  }

  lemma {:induction false} UndoneFits(t: Terms, steps: seq<UndoStep>)
    requires Fair(t)
    ensures var c := Undone(Recorded(t), steps);
      EarningFits(t, c) && ReleaseFits(t, c) && PendingFits(t, c) && BalanceFits(t, c)
  {
    if steps != [] {
      UndoneFits(t, steps[..|steps| - 1]);
      UndoFits(t, Undone(Recorded(t), steps[..|steps| - 1]), steps[|steps| - 1]);
    }
  }

  /**
    Once the reversal has finished, and a release under way too, the vendor has what it had before the order, if and
    only if the claim did not fall between the reversal's reading and deleting the open earning, and the balance
    covered a claw-back that came before the credit.
   */
  lemma ReversalIsExactIff(t: Terms, steps: seq<UndoStep>)
    requires Fair(t)
    ensures var c := Undone(Recorded(t), steps);
      c.reversal.Finished? && Over(c.release) ==>
        && (c.pending == t.pending && c.balance == t.balance <==> !c.crossed && (c.early ==> t.net <= t.balance))
        && (c.crossed ==> c.balance == t.balance + t.net)
  {
    UndoneFits(t, steps);
  }

  lemma UndoneNext(c: Undoing, steps: seq<UndoStep>, n: nat)
    requires n < |steps|
    ensures Undone(c, steps[..n + 1]) == Undo(Undone(c, steps[..n]), steps[n]) && Undone(c, steps[..0]) == c
  {
    assert steps[..n + 1][..n] == steps[..n];
  }

  const CROSSING := [ScanFirst, ReadOpen, ClaimIt, Debit, Delete, CreditIt, ReadPaid]

  lemma ClaimCrosses()
    ensures Undone(Recorded(Terms(100.0, 60.0, 0.0)), CROSSING[..3])
      == Undoing(Some(Held(60.0, true)), 160.0, 0.0, Claimed(60.0), Open(60.0), true, false)
  {
    var c := Recorded(Terms(100.0, 60.0, 0.0));
    UndoneNext(c, CROSSING, 0);
    UndoneNext(c, CROSSING, 1);
    UndoneNext(c, CROSSING, 2);
  }

  lemma DeletedUnderClaim()
    ensures Undone(Recorded(Terms(100.0, 60.0, 0.0)), CROSSING[..5])
      == Undoing(None, 100.0, 0.0, Claimed(60.0), Between, true, false)
  {
    var c := Recorded(Terms(100.0, 60.0, 0.0));
    ClaimCrosses();
    UndoneNext(c, CROSSING, 3);
    UndoneNext(c, CROSSING, 4);
  }

  /** The release claims between the reading and the deletion: the vendor keeps the payout, and pending pays for it. */
  lemma CrossedReversalPays()
    ensures var c := Undone(Recorded(Terms(100.0, 60.0, 0.0)), CROSSING);
      c.reversal.Finished? && c.earning == None && c.balance == 60.0 && c.pending == 40.0
  {
    var c := Recorded(Terms(100.0, 60.0, 0.0));
    DeletedUnderClaim();
    UndoneNext(c, CROSSING, 5);
    UndoneNext(c, CROSSING, 6);
    assert CROSSING[..7] == CROSSING;
  }

  // ---------- Against a late penalty ----------

  datatype Docking = Waiting | Read(net: real) | Saved(taken: real) | Rest(taken: real) | Docked(taken: real)

  /**
    `stale`: the release read the earning before the penalty was taken from it; `early`: the claw-back came after
    the claim, before the credit; `ahead`: the credit came before the penalty was taken from pending.
   */
  datatype Fining = Fining(
    earning: Option<Held>, pending: real, balance: real, release: Release, docking: Docking,
    stale: bool, early: bool, ahead: bool)

  datatype FineStep =
    | ScanDue | ClaimDue | CreditDue
    | ReadUnreleased | SaveNet | TakePending | ClawRest

  /** One step of a release, or of docking a penalty of `amount`. */
  function Fine(amount: real, c: Fining, a: FineStep): Fining {
    match a
    case ScanDue => if c.release.Before? then c.(release := Scan(c.earning)) else c
    case ClaimDue =>
      if !c.release.Scanned? then c
      else if !Claimable(c.earning) then c.(release := Passed)
      else c.(earning := Some(c.earning.value.(released := true)), release := Claimed(c.release.net))
    case CreditDue =>
      if !c.release.Claimed? then c
      else c.(pending := c.pending - c.release.net, balance := c.balance + c.release.net, release := Paid,
              ahead := c.docking.Read? || c.docking.Saved?)
    case ReadUnreleased =>
      if !c.docking.Waiting? then c
      else c.(docking := if Claimable(c.earning) && c.earning.value.net > 0.0 then Read(c.earning.value.net)
                         else Rest(0.0))
    case SaveNet =>
      if !c.docking.Read? || c.earning.None? then c
      else
        var taken := Min(amount, c.docking.net);
        c.(earning := Some(c.earning.value.(net := c.docking.net - taken)), docking := Saved(taken),
           stale := !c.release.Before?)
    case TakePending =>
      if c.docking.Saved? then c.(pending := Max0(c.pending - c.docking.taken), docking := Rest(c.docking.taken)) else c
    case ClawRest =>
      if !c.docking.Rest? then c
      else if amount - c.docking.taken <= 0.0 then c.(docking := Docked(c.docking.taken))
      else c.(balance := Max0(c.balance - (amount - c.docking.taken)), docking := Docked(c.docking.taken),
              early := c.release.Claimed?)
  }

  function Fined(amount: real, c: Fining, steps: seq<FineStep>): Fining {
    if steps == [] then c else Fine(amount, Fined(amount, c, steps[..|steps| - 1]), steps[|steps| - 1])
  }

  function Due(t: Terms): Fining {
    Fining(Some(Held(t.net, false)), t.pending + t.net, t.balance, Before, Waiting, false, false, false)
  }

  predicate Took(d: Docking) {
    (d.Saved? || d.Rest? || d.Docked?) && d.taken > 0.0
  }

  /** What the release credits. */
  function CreditOf(amount: real, t: Terms, c: Fining): real {
    if Took(c.docking) && !c.stale then t.net - Min(amount, t.net) else t.net
  }

  function PaidSoFar(amount: real, t: Terms, c: Fining): real {
    if c.release.Paid? then CreditOf(amount, t, c) else 0.0
  }

  predicate DockingFits(amount: real, t: Terms, c: Fining) {
    && (match c.docking
        case Waiting => true
        case Read(net) => net == t.net
        case Saved(taken) => taken == Min(amount, t.net)
        case Rest(taken) => taken == Min(amount, t.net) || (taken == 0.0 && HasClaim(c.release))
        case Docked(taken) => taken == Min(amount, t.net) || (taken == 0.0 && HasClaim(c.release)))
    && c.earning == Some(Held(if Took(c.docking) then t.net - Min(amount, t.net) else t.net, HasClaim(c.release)))
  }

  predicate CreditFits(amount: real, t: Terms, c: Fining) {
    && (c.release.Scanned? || c.release.Claimed? ==> c.release.net == CreditOf(amount, t, c) != 0.0)
    && (c.release.Passed? ==> Took(c.docking) && !c.stale && CreditOf(amount, t, c) == 0.0)
    && (c.release.Paid? ==> CreditOf(amount, t, c) != 0.0)
    && (c.stale ==> Took(c.docking) && !c.release.Before?)
    && (c.early ==> c.docking.Docked? && (c.release.Claimed? || c.release.Paid?))
    && (c.ahead ==> c.release.Paid? && (c.docking.Read? || Took(c.docking)))
    && (c.release.Paid? && (c.docking.Read? || c.docking.Saved?) ==> c.ahead)
  }

  predicate PendingLeft(amount: real, t: Terms, c: Fining) {
    var charged := if Took(c.docking) && !c.docking.Saved? then Min(amount, t.net) else 0.0;
    c.pending ==
      if c.stale && c.ahead then Max0(t.pending - charged)
      else t.pending + t.net - PaidSoFar(amount, t, c) - charged
  }

  predicate BalanceLeft(amount: real, t: Terms, c: Fining) {
    if !c.docking.Docked? then c.balance == t.balance + PaidSoFar(amount, t, c)
    else
      var rest, paid := amount - c.docking.taken, PaidSoFar(amount, t, c);
      && Max0(t.balance + paid - rest) <= c.balance <= Max0(t.balance - rest) + paid
      && (!c.early && !Took(c.docking) ==> c.release.Paid? && c.balance == Max0(t.balance + paid - rest))
      && (c.early ==> c.balance == Max0(t.balance - rest) + paid && rest > 0.0)
      && (c.ahead ==> c.balance == Max0(t.balance + paid - rest))
  }

  predicate FineInv(amount: real, t: Terms, c: Fining) {
    DockingFits(amount, t, c) && CreditFits(amount, t, c) && PendingLeft(amount, t, c) && BalanceLeft(amount, t, c)
  }

  lemma ReleaseFines(amount: real, t: Terms, c: Fining, a: FineStep)
    requires Fair(t) && amount > 0.0 && FineInv(amount, t, c) && (a.ScanDue? || a.ClaimDue? || a.CreditDue?)
    ensures FineInv(amount, t, Fine(amount, c, a))
  {
  }

  lemma DockingFines(amount: real, t: Terms, c: Fining, a: FineStep)
    requires Fair(t) && amount > 0.0 && FineInv(amount, t, c) && (a.ReadUnreleased? || a.SaveNet?)
    ensures FineInv(amount, t, Fine(amount, c, a))
  {
  }

  lemma TakingFines(amount: real, t: Terms, c: Fining)
    requires Fair(t) && amount > 0.0 && FineInv(amount, t, c)
    ensures FineInv(amount, t, Fine(amount, c, TakePending))
  {
  }

  lemma ClawingFines(amount: real, t: Terms, c: Fining)
    requires Fair(t) && amount > 0.0 && FineInv(amount, t, c)
    ensures FineInv(amount, t, Fine(amount, c, ClawRest))
  {
  }

  lemma FineFits(amount: real, t: Terms, c: Fining, a: FineStep)
    requires Fair(t) && amount > 0.0 && FineInv(amount, t, c)
    ensures FineInv(amount, t, Fine(amount, c, a))
  {
    match a
    case ScanDue => ReleaseFines(amount, t, c, a);
    case ClaimDue => ReleaseFines(amount, t, c, a);
    case CreditDue => ReleaseFines(amount, t, c, a);
    case ReadUnreleased => DockingFines(amount, t, c, a);
    case SaveNet => DockingFines(amount, t, c, a);
    case TakePending => TakingFines(amount, t, c);
    case ClawRest => ClawingFines(amount, t, c);
  }

  lemma {:induction false} FinedFits(amount: real, t: Terms, steps: seq<FineStep>)
    requires Fair(t) && amount > 0.0
    ensures FineInv(amount, t, Fined(amount, Due(t), steps))
  {
    if steps != [] {
      FinedFits(amount, t, steps[..|steps| - 1]);
      FineFits(amount, t, Fined(amount, Due(t), steps[..|steps| - 1]), steps[|steps| - 1]);
    }
  }

  /**
    Once the penalty has been docked, and a release under way has finished too, the vendor has lost the penalty, or
    all it had if that is less, and pending is what is unreleased, if and only if the balance covered a claw-back
    that came between claim and credit, and the release had not read the earning before the penalty was taken from
    it; that is made good only where the credit came first, nothing else is pending, and the penalty eats up the
    balance and twice the earning.
   */
  lemma PenaltyIsExactIff(amount: real, t: Terms, steps: seq<FineStep>)
    requires Fair(t) && amount > 0.0
    ensures var c := Fined(amount, Due(t), steps);
      c.docking.Docked? && Over(c.release) ==>
        (c.pending == t.pending + Unreleased(c.earning)
         && c.balance + Unreleased(c.earning) == Max0(t.balance + t.net - amount)
         <==> (c.early ==> amount <= t.balance)
              && (c.stale ==> c.ahead && t.pending == 0.0 && t.balance + 2.0 * t.net <= amount))
  {
    FinedFits(amount, t, steps);
  }

  lemma FinedNext(amount: real, c: Fining, steps: seq<FineStep>, n: nat)
    requires n < |steps|
    ensures Fined(amount, c, steps[..n + 1]) == Fine(amount, Fined(amount, c, steps[..n]), steps[n])
    ensures Fined(amount, c, steps[..0]) == c
  {
    assert steps[..n + 1][..n] == steps[..n];
  }

  const STALE := [ScanDue, ReadUnreleased, SaveNet, TakePending, ClawRest, ClaimDue, CreditDue]

  lemma DockedAfterScan()
    ensures Fined(20.0, Due(Terms(100.0, 60.0, 0.0)), STALE[..3])
      == Fining(Some(Held(40.0, false)), 160.0, 0.0, Scanned(60.0), Saved(20.0), true, false, false)
  {
    var c := Due(Terms(100.0, 60.0, 0.0));
    FinedNext(20.0, c, STALE, 0);
    FinedNext(20.0, c, STALE, 1);
    FinedNext(20.0, c, STALE, 2);
  }

  lemma PenaltyTaken()
    ensures Fined(20.0, Due(Terms(100.0, 60.0, 0.0)), STALE[..5])
      == Fining(Some(Held(40.0, false)), 140.0, 0.0, Scanned(60.0), Docked(20.0), true, false, false)
  {
    var c := Due(Terms(100.0, 60.0, 0.0));
    DockedAfterScan();
    FinedNext(20.0, c, STALE, 3);
    FinedNext(20.0, c, STALE, 4);
  }

  /** The release read the earning before it was docked: the vendor is paid in full, and pending pays the penalty. */
  lemma StaleReleasePaysPenaltyBack()
    ensures var c := Fined(20.0, Due(Terms(100.0, 60.0, 0.0)), STALE);
      c.docking == Docked(20.0) && c.release.Paid? && c.balance == 60.0 && c.pending == 80.0
  {
    var c := Due(Terms(100.0, 60.0, 0.0));
    PenaltyTaken();
    FinedNext(20.0, c, STALE, 5);
    FinedNext(20.0, c, STALE, 6);
    assert STALE[..7] == STALE;
  }
}
