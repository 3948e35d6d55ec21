/** Fabric reservations: locking, claiming, cancelling and expiring yards of a fabric's stock. */
module Reservations {
  import opened Prelude

  datatype Status = Active | Completed | Cancelled | Expired

  datatype Stock = Stock(yards: real, minCut: real)

  datatype Reservation = Reservation(
    organizer: Id,
    fabric: Id,
    total: real,
    claimed: real,
    deadline: int,
    status: Status)

  /** An audit record of yards claimed from the reservation at index `on`. */
  datatype Claim = Claim(on: nat, yards: real)

  datatype Desk = Desk(stock: map<Id, Stock>, reservations: seq<Reservation>, claims: seq<Claim>)

  /** A fabric's stored stock may not fall below this. */
  const LEAST_STOCK := 0.1

  // ---------- Operations ----------

  predicate CreateRefused(d: Desk, f: Id, total: real, deadline: int, now: int) {
    || total < 1.0 || f !in d.stock
    || d.stock[f].yards < total || total < d.stock[f].minCut
    || deadline <= now
    || d.stock[f].yards - total < LEAST_STOCK
  }

  function Created(d: Desk, organizer: Id, f: Id, total: real, deadline: int, now: int): Desk {
    if CreateRefused(d, f, total, deadline, now) then d
    else
      d.(stock := d.stock[f := d.stock[f].(yards := d.stock[f].yards - total)],
         reservations := d.reservations + [Reservation(organizer, f, total, 0.0, deadline, Active)])
  }

  predicate ClaimRefused(d: Desk, i: nat, yards: real, now: int) {
    || yards < 0.1 || i >= |d.reservations|
    || var r := d.reservations[i];
       || r.status != Active || r.deadline < now
       || yards > r.total - r.claimed
       || (r.fabric in d.stock && d.stock[r.fabric].minCut != 0.0 && yards < d.stock[r.fabric].minCut)
  }

  function Claimed(d: Desk, i: nat, yards: real, now: int): Desk {
    if ClaimRefused(d, i, yards, now) then d
    else
      var r := d.reservations[i];
      var r' := r.(claimed := r.claimed + yards, status := if r.claimed + yards >= r.total then Completed
                   else r.status);
      d.(reservations := d.reservations[i := r'], claims := d.claims + [Claim(i, yards)])
  }

  /** Ends reservation `i`, returning its unclaimed yards to the fabric. */
  function Closed(d: Desk, i: nat, status: Status): Desk
    requires i < |d.reservations|
  {
    var r := d.reservations[i];
    var unclaimed := r.total - r.claimed;
    d.(stock := if unclaimed > 0.0 && r.fabric in d.stock
                then d.stock[r.fabric := d.stock[r.fabric].(yards := d.stock[r.fabric].yards + unclaimed)] else d.stock,
       reservations := d.reservations[i := r.(status := status)])
  }

  predicate CancelRefused(d: Desk, i: nat, organizer: Id) {
    i >= |d.reservations| || d.reservations[i].organizer != organizer || d.reservations[i].status != Active
  }

  function CancelledBy(d: Desk, i: nat, organizer: Id): Desk {
    if CancelRefused(d, i, organizer) then d else Closed(d, i, Cancelled)
  }

  predicate Overdue(r: Reservation, now: int) {
    r.status == Active && r.deadline < now
  }

  /** The expiry pass over the first `n` reservations. */
  function ExpiredUpTo(d: Desk, n: nat, now: int): (d': Desk)
    requires n <= |d.reservations|
    ensures |d'.reservations| == |d.reservations|
  {
    if n == 0 then d
    else
      var prior := ExpiredUpTo(d, n - 1, now);
      if Overdue(prior.reservations[n - 1], now) then Closed(prior, n - 1, Expired) else prior
  }

  class ReservationDesk {
    var stock: map<Id, Stock>
    var reservations: seq<Reservation>
    var claims: seq<Claim>

    function State(): Desk
      reads this
    {
      Desk(stock, reservations, claims)
    }

    constructor (stock: map<Id, Stock>)
      ensures State() == Desk(stock, [], [])
    {
      this.stock, reservations, claims := stock, [], [];
    }

    method CreateReservation(organizer: Id, f: Id, total: real, deadline: int, now: int) returns (ok: bool)
      modifies this
      ensures State() == Created(old(State()), organizer, f, total, deadline, now)
      ensures ok == !CreateRefused(old(State()), f, total, deadline, now)
    {
      if total < 1.0 || f !in stock { return false; }
      if stock[f].yards < total || total < stock[f].minCut || deadline <= now { return false; }
      var left := stock[f].yards - total;
      if left < LEAST_STOCK { return false; }
      stock := stock[f := stock[f].(yards := left)];
      reservations := reservations + [Reservation(organizer, f, total, 0.0, deadline, Active)];
      return true;
    }

    method ClaimFromReservation(i: nat, yards: real, now: int) returns (ok: bool)
      modifies this
      ensures State() == Claimed(old(State()), i, yards, now)
      ensures ok == !ClaimRefused(old(State()), i, yards, now)
    {
      if yards < 0.1 || i >= |reservations| { return false; }
      var r := reservations[i];
      if r.status != Active || r.deadline < now || yards > r.total - r.claimed { return false; }
      if r.fabric in stock && stock[r.fabric].minCut != 0.0 && yards < stock[r.fabric].minCut { return false; }
      claims := claims + [Claim(i, yards)];
      var claimed := r.claimed + yards;
      reservations := reservations[i :=
                                   r.(claimed := claimed, status := if claimed >= r.total then Completed
                                      else r.status)];
      return true;
    }

    method Close(i: nat, status: Status)
      requires i < |reservations|
      modifies this
      ensures State() == Closed(old(State()), i, status)
    {
      var r := reservations[i];
      var unclaimed := r.total - r.claimed;
      if unclaimed > 0.0 {
        if r.fabric in stock {
          stock := stock[r.fabric := stock[r.fabric].(yards := stock[r.fabric].yards + unclaimed)];
        }
      }
      reservations := reservations[i := r.(status := status)];
    }

    method CancelReservation(i: nat, organizer: Id) returns (ok: bool)
      modifies this
      ensures State() == CancelledBy(old(State()), i, organizer)
      ensures ok == !CancelRefused(old(State()), i, organizer)
    {
      if i >= |reservations| || reservations[i].organizer != organizer
        || reservations[i].status != Active { return false; }
      Close(i, Cancelled);
      return true;
    }

    method ReleaseExpiredReservations(now: int)
      modifies this
      ensures State() == ExpiredUpTo(old(State()), |old(reservations)|, now)
    {
      for n := 0 to |reservations|
        invariant |reservations| == |old(reservations)| && State() == ExpiredUpTo(old(State()), n, now)
      {
        if reservations[n].deadline < now && reservations[n].status == Active {
          Close(n, Expired);
        }
      }
    }
  }

  // ---------- Conservation ----------

  /** The yards of fabric `f` that a reservation keeps out of stock. */
  function HeldOf(f: Id): Reservation -> real {
    (r: Reservation) =>
      if r.fabric != f then 0.0 else if r.status == Active || r.status == Completed then r.total else r.claimed
  }

  function YardsOn(i: nat): Claim -> real {
    (c: Claim) => if c.on == i then c.yards else 0.0
  }

  predicate Sound(d: Desk, i: nat)
    requires i < |d.reservations|
  {
    var r := d.reservations[i];
    && r.fabric in d.stock
    && 0.0 <= r.claimed <= r.total
    && (r.status == Completed <==> r.claimed == r.total)
    && r.claimed == Sum(d.claims, YardsOn(i))
  }

  predicate Conserved(d: Desk, initial: map<Id, real>, f: Id)
    requires f in d.stock && f in initial
  {
    d.stock[f].yards + Sum(d.reservations, HeldOf(f)) == initial[f]
  }

  /** Every yard of the initial stock is in stock, reserved, or was claimed. */
  ghost predicate Balanced(d: Desk, initial: map<Id, real>) {
    && d.stock.Keys == initial.Keys
    && (forall i :: 0 <= i < |d.reservations| ==> Sound(d, i))
    && (forall k :: 0 <= k < |d.claims| ==> d.claims[k].on < |d.reservations|)
    && (forall f {:trigger Conserved(d, initial, f)} :: f in initial ==> Conserved(d, initial, f))
  }

  lemma CreatedBalanced(d: Desk, initial: map<Id, real>, organizer: Id, f: Id, total: real, deadline: int, now: int)
    requires Balanced(d, initial)
    ensures Balanced(Created(d, organizer, f, total, deadline, now), initial)
  {
    if !CreateRefused(d, f, total, deadline, now) {
      var r := Reservation(organizer, f, total, 0.0, deadline, Active);
      var d' := Created(d, organizer, f, total, deadline, now);
      forall i | 0 <= i < |d'.reservations| ensures Sound(d', i) {
        if i < |d.reservations| {
          assert Sound(d, i);
        } else {
          SumZero(d.claims, YardsOn(i));
        }
      }
      forall g | g in initial ensures Conserved(d', initial, g) {
        assert Conserved(d, initial, g);
        SumAppend(d.reservations, r, HeldOf(g));
      }
    }
  }

  lemma ClaimedBalanced(d: Desk, initial: map<Id, real>, i: nat, yards: real, now: int)
    requires Balanced(d, initial)
    ensures Balanced(Claimed(d, i, yards, now), initial)
  {
    if !ClaimRefused(d, i, yards, now) {
      var d' := Claimed(d, i, yards, now);
      forall j | 0 <= j < |d'.reservations| ensures Sound(d', j) {
        assert Sound(d, j);
        SumAppend(d.claims, Claim(i, yards), YardsOn(j));
      }
      forall g | g in initial ensures Conserved(d', initial, g) {
        assert Conserved(d, initial, g);
        SumUpdate(d.reservations, i, d'.reservations[i], HeldOf(g));
      }
    }
  }

  lemma ClosedBalanced(d: Desk, initial: map<Id, real>, i: nat, status: Status)
    requires Balanced(d, initial) && i < |d.reservations| && d.reservations[i].status == Active
    requires status == Cancelled || status == Expired
    ensures Balanced(Closed(d, i, status), initial)
  {
    var d' := Closed(d, i, status);
    assert Sound(d, i);
    forall j | 0 <= j < |d'.reservations| ensures Sound(d', j) {
      assert Sound(d, j);
    }
    forall g | g in initial ensures Conserved(d', initial, g) {
      assert Conserved(d, initial, g);
      SumUpdate(d.reservations, i, d'.reservations[i], HeldOf(g));
    }
  }

  lemma {:induction false} ExpiredBalanced(d: Desk, initial: map<Id, real>, n: nat, now: int)
    requires Balanced(d, initial) && n <= |d.reservations|
    ensures Balanced(ExpiredUpTo(d, n, now), initial)
  {
    if n > 0 {
      ExpiredBalanced(d, initial, n - 1, now);
      var prior := ExpiredUpTo(d, n - 1, now);
      if Overdue(prior.reservations[n - 1], now) {
        ClosedBalanced(prior, initial, n - 1, Expired);
      }
    }
  }

  // ---------- Runs ----------

  datatype Action =
    | Create(organizer: Id, fabric: Id, total: real, deadline: int, now: int)
    | ClaimYards(reservation: nat, yards: real, now: int)
    | Cancel(reservation: nat, organizer: Id)
    | Expire(now: int)

  function Step(d: Desk, a: Action): Desk {
    match a
    case Create(organizer, f, total, deadline, now) => Created(d, organizer, f, total, deadline, now)
    case ClaimYards(i, yards, now) => Claimed(d, i, yards, now)
    case Cancel(i, organizer) => CancelledBy(d, i, organizer)
    case Expire(now) => ExpiredUpTo(d, |d.reservations|, now)
  }

  function Run(d: Desk, actions: seq<Action>): Desk {
    if actions == [] then d else Step(Run(d, actions[..|actions| - 1]), actions[|actions| - 1])
  }

  /**
    Over every run of creations, claims, cancellations and expiry passes, for every fabric: what the stock
    started with is what it holds now, plus what reservations hold, plus what was claimed from ended ones.
   */
  lemma {:induction false} YardsConserved(stock: map<Id, Stock>, actions: seq<Action>)
    ensures Balanced(Run(Desk(stock, [], []), actions), map f | f in stock :: stock[f].yards)
  {
    var d, initial := Desk(stock, [], []), map f | f in stock :: stock[f].yards;
    if actions == [] {
      assert forall f :: f in initial ==> Conserved(d, initial, f);
    } else {
      YardsConserved(stock, actions[..|actions| - 1]);
      var before := Run(d, actions[..|actions| - 1]);
      match actions[|actions| - 1]
      case Create(organizer, f, total, deadline, now) =>
        CreatedBalanced(before, initial, organizer, f, total, deadline, now);
      case ClaimYards(i, yards, now) => ClaimedBalanced(before, initial, i, yards, now);
      case Cancel(i, organizer) =>
        if !CancelRefused(before, i, organizer) { ClosedBalanced(before, initial, i, Cancelled); }
      case Expire(now) => ExpiredBalanced(before, initial, |before.reservations|, now);
    }
  }

  /** A later state: reservations only advance, and one that has ended changes no more. */
  ghost predicate Advances(a: Desk, b: Desk) {
    && |a.reservations| <= |b.reservations|
    && forall i :: 0 <= i < |a.reservations| ==>
         && b.reservations[i].total == a.reservations[i].total
         && b.reservations[i].claimed >= a.reservations[i].claimed
         && (a.reservations[i].status != Active ==> b.reservations[i] == a.reservations[i])
  }

  lemma {:induction false} ExpiredAdvances(d: Desk, n: nat, now: int)
    requires n <= |d.reservations|
    ensures Advances(d, ExpiredUpTo(d, n, now))
  {
    if n > 0 {
      ExpiredAdvances(d, n - 1, now);
    }
  }

  /** A reservation that has ended never changes again, so its unclaimed yards return at most once. */
  lemma {:induction false} EndedStaysEnded(d: Desk, actions: seq<Action>)
    ensures Advances(d, Run(d, actions))
  {
    if actions != [] {
      var before := Run(d, actions[..|actions| - 1]);
      EndedStaysEnded(d, actions[..|actions| - 1]);
      if actions[|actions| - 1].Expire? {
        ExpiredAdvances(before, |before.reservations|, actions[|actions| - 1].now);
      }
      assert Advances(before, Run(d, actions));
    }
  }

  /** After an expiry pass no active reservation is past its deadline. */
  lemma {:induction false} NoneOverdueAfterExpiry(d: Desk, n: nat, now: int)
    requires n <= |d.reservations|
    ensures var d' := ExpiredUpTo(d, n, now);
      && (forall i :: 0 <= i < n ==> !Overdue(d'.reservations[i], now))
      && (forall i :: n <= i < |d.reservations| ==> d'.reservations[i] == d.reservations[i])
  {
    if n > 0 {
      NoneOverdueAfterExpiry(d, n - 1, now);
    }
  }

  // ---------- Terms ----------

  /**
    Yards of a reservation can be claimed as long as it is active, up to its deadline and on it, from a tenth of a
    yard and the fabric's least cut up to what is left, and not otherwise.
   */
  lemma ClaimTerms(d: Desk, i: nat, yards: real, now: int)
    requires i < |d.reservations|
    ensures var r := d.reservations[i];
      var least := if r.fabric in d.stock && d.stock[r.fabric].minCut != 0.0 then d.stock[r.fabric].minCut else 0.1;
      if r.status == Active && now <= r.deadline && 0.1 <= yards && least <= yards <= r.total - r.claimed
      then Claimed(d, i, yards, now).claims == d.claims + [Claim(i, yards)]
      else Claimed(d, i, yards, now) == d
  {
  }

  /**
    Reserving takes at least one yard and the fabric's least cut, for a deadline still to come, and leaves a tenth of
    a yard in stock; then it is active, and can be claimed whole until the deadline.
   */
  lemma ReserveThenClaim(d: Desk, organizer: Id, f: Id, total: real, deadline: int, now: int, later: int)
    requires f in d.stock
    ensures var d' := Created(d, organizer, f, total, deadline, now);
      if 1.0 <= total && d.stock[f].minCut <= total <= d.stock[f].yards - 0.1 && now < deadline
      then |d'.reservations| == |d.reservations| + 1
           && (later <= deadline ==>
                 Claimed(d', |d.reservations|, total, later).reservations
                 == d.reservations + [Reservation(organizer, f, total, total, deadline, Completed)])
      else d' == d
  {
  }

  /** Only its organizer cancels a reservation, and only an active one; only one past its deadline expires. */
  lemma EndingTerms(d: Desk, i: nat, organizer: Id, now: int)
    requires i < |d.reservations|
    ensures var r := d.reservations[i];
      && (if r.status == Active && r.organizer == organizer
          then |CancelledBy(d, i, organizer).reservations| == |d.reservations|
               && CancelledBy(d, i, organizer).reservations[i] == r.(status := Cancelled)
          else CancelledBy(d, i, organizer) == d)
      && ExpiredUpTo(d, |d.reservations|, now).reservations[i]
         == (if r.status == Active && r.deadline < now then r.(status := Expired) else r)
  {
    ExpiredOne(d, |d.reservations|, now, i);
  }

  lemma {:induction false} ExpiredOne(d: Desk, n: nat, now: int, i: nat)
    requires i < |d.reservations| && n <= |d.reservations|
    ensures var r := d.reservations[i];
      ExpiredUpTo(d, n, now).reservations[i]
      == if i < n && r.status == Active && r.deadline < now then r.(status := Expired) else r
  {
    if n > 0 { ExpiredOne(d, n - 1, now, i); }
  }
}
