/**
 The delivery state machine of one table row.

 A channel message row and a topic subscription row carry the same delivery columns (status,
 retry_count, visibility_timeout, available_at, claim_id, ...) and are driven by the same
 transitions. `Lease` is that group of columns; `Table` is the part of the database made of them,
 together with the database clock and the claim tokens `uuidv7()` has handed out.

 A run is any sequence of attempted actions: an action whose WHERE clause does not match changes
 nothing. A transaction of the queue is a short run, so what holds of every run holds of every
 interleaving of committed transactions.
 */
module Lease {
  import opened Basics

  datatype Status = Pending | Processing | Done

  /** `limit` is the effective max_retries; `Done` is `completed` in a channel, `acked` in a topic. */
  datatype Lease = Lease(
    status: Status,
    retries: nat,
    limit: nat,
    visibility: Option<int>,
    availableAt: int,
    claim: Option<Uuid>,
    doneAt: Option<int>,
    error: Option<Bytes>)

  datatype Table = Table(rows: map<Uuid, Lease>, now: int, minted: set<Uuid>)

  datatype Action =
    | Tick(span: nat)
    | Insert(k: Uuid, limit: nat)                                  // publish, DLQ reinstatement
    | Remove(k: Uuid)                                              // any purge
    | Claim(k: Uuid, token: Uuid, lease: nat)                      // consume: pending probe
    | Reclaim(k: Uuid, token: Uuid, lease: nat)                    // consume: timed-out probe, no backoff
    | Defer(k: Uuid, delay: nat)                                   // consume: timed-out probe, backoff
    | Reset(k: Uuid)                                               // garbage collector
    | Bury(k: Uuid)                                                // timed out and exhausted: to the DLQ
    | Ack(k: Uuid, claim: Uuid)
    | Extend(k: Uuid, claim: Uuid, lease: nat)
    | Retry(k: Uuid, claim: Uuid, delay: nat, reason: Bytes)       // nack with retries left
    | BuryClaimed(k: Uuid, claim: Uuid)                            // nack without: to the DLQ
    | Replay(k: Uuid)                                              // ReplayFrom
    | Rearm(k: Uuid)                                               // ReplayMessage

  // ---------------------------------------------------------------- row predicates

  predicate Eligible(l: Lease, now: int) {
    l.status == Pending && l.availableAt <= now
  }

  predicate TimedOut(l: Lease, now: int) {
    l.status == Processing && l.visibility.Some? && l.visibility.value < now
  }

  /** The `retry_count + 1 > max_retries` dead-letter guard. */
  predicate Exhausted(l: Lease) {
    l.retries + 1 > l.limit
  }

  predicate HeldUnder(l: Lease, claim: Uuid) {
    l.status == Processing && l.claim == Some(claim)
  }

  // ---------------------------------------------------------------- row updates

  function NewLease(limit: nat, now: int): Lease {
    Lease(Pending, 0, limit, None, now, None, None, None)
  }

  function Claimed(l: Lease, retries: nat, token: Uuid, lease: nat, now: int): Lease {
    l.(status := Processing, retries := retries, claim := Some(token), visibility := Some(now + lease))
  }

  /** Back to pending, the failed delivery counted. */
  function Returned(l: Lease): Lease {
    l.(status := Pending, claim := None, visibility := None, retries := l.retries + 1)
  }

  /** Back to pending with a fresh budget. */
  function Replayed(l: Lease): Lease {
    l.(status := Pending, retries := 0, visibility := None, claim := None, doneAt := None, error := None)
  }

  // ---------------------------------------------------------------- table actions

  predicate Unused(t: Table, token: Uuid) {
    token != NIL && token !in t.minted
  }

  predicate Enabled(t: Table, a: Action) {
    match a
    case Tick(_) => true
    case Insert(k, _) => k !in t.rows
    case Remove(k) => k in t.rows
    case Claim(k, token, _) => k in t.rows && Eligible(t.rows[k], t.now) && Unused(t, token)
    case Reclaim(k, token, _) => k in t.rows && TimedOut(t.rows[k], t.now) && !Exhausted(t.rows[k]) && Unused(t, token)
    case Defer(k, _) => k in t.rows && TimedOut(t.rows[k], t.now) && !Exhausted(t.rows[k])
    case Reset(k) => k in t.rows && TimedOut(t.rows[k], t.now) && !Exhausted(t.rows[k])
    case Bury(k) => k in t.rows && TimedOut(t.rows[k], t.now) && Exhausted(t.rows[k])
    case Ack(k, claim) => k in t.rows && HeldUnder(t.rows[k], claim)
    case Extend(k, claim, _) => k in t.rows && HeldUnder(t.rows[k], claim)
    case Retry(k, claim, _, _) => k in t.rows && HeldUnder(t.rows[k], claim) && !Exhausted(t.rows[k])
    case BuryClaimed(k, claim) => k in t.rows && HeldUnder(t.rows[k], claim) && Exhausted(t.rows[k])
    case Replay(k) => k in t.rows && t.rows[k].status == Done
    case Rearm(k) => k in t.rows && t.rows[k].status != Processing
  }

  /** The actions that keep their row and rewrite its columns. */
  predicate Rewrites(a: Action) {
    !a.Tick? && !a.Insert? && !a.Remove? && !a.Bury? && !a.BuryClaimed?
  }

  function Rewritten(l: Lease, a: Action, now: int): Lease
    requires Rewrites(a)
  {
    match a
    case Claim(_, token, lease) => Claimed(l, l.retries, token, lease, now)
    case Reclaim(_, token, lease) => Claimed(l, l.retries + 1, token, lease, now)
    case Defer(_, delay) => Returned(l).(availableAt := now + delay)
    case Reset(_) => Returned(l)
    case Ack(_, _) => l.(status := Done, doneAt := Some(now))
    case Extend(_, _, lease) => l.(visibility := Some(now + lease))
    case Retry(_, _, delay, reason) => Returned(l).(availableAt := now + delay, error := Some(reason))
    case Replay(_) => Replayed(l)
    case Rearm(_) => Replayed(l).(availableAt := now)
  }

  function Tokens(a: Action): set<Uuid> {
    if a.Claim? || a.Reclaim? then {a.token} else {}
  }

  function Apply(t: Table, a: Action): Table {
    if !Enabled(t, a) then t
    else if a.Tick? then t.(now := t.now + a.span)
    else if a.Insert? then t.(rows := t.rows[a.k := NewLease(a.limit, t.now)])
    else if Rewrites(a) then
      t.(rows := t.rows[a.k := Rewritten(t.rows[a.k], a, t.now)], minted := t.minted + Tokens(a))
    else t.(rows := t.rows - {a.k})
  }

  function Run(t: Table, run: seq<Action>): Table {
    if run == [] then t else Apply(Run(t, run[..|run| - 1]), run[|run| - 1])
  }

  lemma {:induction false} RunAppend(t: Table, p: seq<Action>, q: seq<Action>)
    ensures Run(t, p + q) == Run(Run(t, p), q)
  {
    if q == [] {
      assert p + q == p;
    } else {
      RunAppend(t, p, q[..|q| - 1]);
      assert (p + q)[..|p + q| - 1] == p + q[..|q| - 1];
    }
  }

  function Empty(now: int): Table {
    Table(map[], now, {})
  }

  // ---------------------------------------------------------------- the row invariant

  predicate LeaseOk(l: Lease, now: int) {
    && l.retries <= l.limit
    && (l.status == Pending ==> l.claim.None? && l.visibility.None?)
    && (l.status != Pending ==> l.claim.Some? && l.visibility.Some? && l.availableAt <= now)
    && (l.status == Done <==> l.doneAt.Some?)
  }

  /** Well-formed rows; every stored claim was minted, and no two rows share one. */
  ghost predicate Inv(t: Table) {
    && (forall k :: k in t.rows ==> LeaseOk(t.rows[k], t.now))
    && (forall k :: k in t.rows && t.rows[k].claim.Some? ==> t.rows[k].claim.value in t.minted)
    && (forall k, j :: k in t.rows && j in t.rows && k != j && t.rows[k].claim.Some? ==> t.rows[k].claim != t.rows[j].claim)
    && NIL !in t.minted
  }

  lemma StepKeepsInv(t: Table, a: Action)
    requires Inv(t)
    ensures Inv(Apply(t, a))
  {
    var t' := Apply(t, a);
    if Enabled(t, a) && Rewrites(a) {
      forall k | k in t'.rows ensures LeaseOk(t'.rows[k], t'.now) {
        assert LeaseOk(t.rows[k], t.now);
      }
    }
  }

  /** Every reachable table is well formed; in particular a row that has left `pending` stays
      behind the clock, so returning it to `pending` makes it deliverable at once. */
  lemma {:induction false} RunKeepsInv(t: Table, run: seq<Action>)
    requires Inv(t)
    ensures Inv(Run(t, run))
  {
    if run != [] {
      RunKeepsInv(t, run[..|run| - 1]);
      StepKeepsInv(Run(t, run[..|run| - 1]), run[|run| - 1]);
    }
  }

  /** A published, reinstated, reset or replayed row is deliverable at once, and with a whole budget unless it
      was reset; ReplayFrom and the GC reset never write available_at, and need not. */
  lemma {:induction false} ReturnedRowIsEligible(t0: Table, run: seq<Action>, a: Action)
    requires Inv(t0) && (a.Insert? || a.Reset? || a.Replay? || a.Rearm?)
    requires Enabled(Run(t0, run), a)
    ensures var t := Apply(Run(t0, run), a);
            a.k in t.rows && Eligible(t.rows[a.k], t.now) && (!a.Reset? ==> t.rows[a.k].retries == 0)
  {
    RunKeepsInv(t0, run);
  }

  // ---------------------------------------------------------------- fencing

  predicate Owns(t: Table, k: Uuid, claim: Uuid) {
    k in t.rows && HeldUnder(t.rows[k], claim)
  }

  /** Once a minted claim does not own a row it never owns it again, whatever runs afterwards:
      reset, replay, a round trip through the DLQ or a republish of the same id. */
  lemma {:induction false} Fenced(t: Table, run: seq<Action>, k: Uuid, claim: Uuid)
    requires claim in t.minted && !Owns(t, k, claim)
    ensures claim in Run(t, run).minted && !Owns(Run(t, run), k, claim)
  {
    if run != [] {
      Fenced(t, run[..|run| - 1], k, claim);
    }
  }

  /** A claim is bound to one row for life: while it owns `k` it owns nothing else, and it never will. */
  lemma {:induction false} ClaimNeverMoves(t: Table, run: seq<Action>, k: Uuid, j: Uuid, claim: Uuid)
    requires Inv(t) && Owns(t, k, claim) && j != k
    ensures !Owns(Run(t, run), j, claim)
  {
    assert claim in t.minted && !Owns(t, j, claim);
    Fenced(t, run, j, claim);
  }

  /** Attempt `i` of the run matched its row. */
  predicate Fires(t: Table, run: seq<Action>, i: nat)
    requires i < |run|
  {
    Enabled(Run(t, run[..i]), run[i])
  }

  /** A successful ack or nack under `claim`. */
  predicate Settles(a: Action, claim: Uuid) {
    (a.Ack? || a.Retry? || a.BuryClaimed?) && a.claim == claim
  }

  lemma SettledClaimIsSpent(t: Table, a: Action, claim: Uuid, k: Uuid)
    requires Inv(t) && Enabled(t, a) && Settles(a, claim)
    ensures claim in Apply(t, a).minted && !Owns(Apply(t, a), k, claim)
  {
    assert Owns(t, a.k, claim);
  }

  /** One delivery is settled by at most one successful ack or nack, over a whole run. */
  lemma {:induction false} SettledAtMostOnce(t: Table, run: seq<Action>, i: nat, j: nat, claim: Uuid)
    requires Inv(t) && i < |run| && j < |run|
    requires Settles(run[i], claim) && Fires(t, run, i)
    requires Settles(run[j], claim) && Fires(t, run, j)
    ensures i == j
  {
    if i < j {
      SettledEarlier(t, run, i, j, claim);
    } else if j < i {
      SettledEarlier(t, run, j, i, claim);
    }
  }

  lemma {:induction false} SettledEarlier(t: Table, run: seq<Action>, i: nat, j: nat, claim: Uuid)
    requires Inv(t) && i < j < |run|
    requires Settles(run[i], claim) && Fires(t, run, i)
    ensures !(Settles(run[j], claim) && Fires(t, run, j))
  {
    RunKeepsInv(t, run[..i]);
    assert run[..i + 1][..i] == run[..i];
    assert run[..j] == run[..i + 1] + run[i + 1..j];
    RunAppend(t, run[..i + 1], run[i + 1..j]);
    if Settles(run[j], claim) {
      SettledClaimIsSpent(Run(t, run[..i]), run[i], claim, run[j].k);
      Fenced(Run(t, run[..i + 1]), run[i + 1..j], run[j].k, claim);
    }
  }

  // ---------------------------------------------------------------- the lease itself

  /** The actions that hand a row out, or prolong its lease. */
  predicate Grants(a: Action) {
    a.Claim? || a.Reclaim? || a.Extend?
  }

  function Holder(a: Action): Uuid
    requires Grants(a)
  {
    if a.Extend? then a.claim else a.token
  }

  /** The holder itself ends or changes its lease on row `k`, or the row is deleted. */
  predicate Ends(a: Action, k: Uuid, claim: Uuid) {
    (a.Remove? && a.k == k) || ((Settles(a, claim) || (a.Extend? && a.claim == claim)) && a.k == k)
  }

  lemma LeaseStep(t: Table, a: Action, k: Uuid, claim: Uuid, deadline: int)
    requires claim in t.minted && !Ends(a, k, claim)
    requires Owns(t, k, claim) ==> t.rows[k].visibility == Some(deadline)
    requires t.now <= deadline ==> Owns(t, k, claim)
    ensures claim in Apply(t, a).minted && t.now <= Apply(t, a).now
    ensures Owns(Apply(t, a), k, claim) ==> Apply(t, a).rows[k].visibility == Some(deadline)
    ensures Apply(t, a).now <= deadline ==> Owns(Apply(t, a), k, claim)
  {
  }

  lemma {:induction false} LeaseRuns(t: Table, run: seq<Action>, k: Uuid, claim: Uuid, deadline: int)
    requires claim in t.minted && Owns(t, k, claim) && t.rows[k].visibility == Some(deadline)
    requires forall i :: 0 <= i < |run| ==> !Ends(run[i], k, claim)
    ensures var t' := Run(t, run);
            && claim in t'.minted
            && (Owns(t', k, claim) ==> t'.rows[k].visibility == Some(deadline))
            && (t'.now <= deadline ==> Owns(t', k, claim))
  {
    if run != [] {
      LeaseRuns(t, run[..|run| - 1], k, claim, deadline);
      LeaseStep(Run(t, run[..|run| - 1]), run[|run| - 1], k, claim, deadline);
    }
  }

  /** A lease is exclusive and lasts exactly as long as it was granted for. After a claim, a reclaim or an
      extension at time `now`, whatever else runs: up to and including now + lease the holder owns the row
      and no other consumer, collector or replay can take it; after that a row it still owns is timed out. */
  lemma {:induction false} LeaseIsExclusive(t: Table, a: Action, run: seq<Action>, other: Action)
    requires Inv(t) && Grants(a) && Enabled(t, a)
    requires forall i :: 0 <= i < |run| ==> !Ends(run[i], a.k, Holder(a))
    requires !other.Tick? && other.k == a.k && !Ends(other, a.k, Holder(a))
    ensures var t' := Run(Apply(t, a), run);
            && (t'.now <= t.now + a.lease ==>
                  Owns(t', a.k, Holder(a)) && t'.rows[a.k].visibility == Some(t.now + a.lease) && !Enabled(t', other))
            && (t'.now > t.now + a.lease && Owns(t', a.k, Holder(a)) ==> TimedOut(t'.rows[a.k], t'.now))
  {
    LeaseRuns(Apply(t, a), run, a.k, Holder(a), t.now + a.lease);
  }

  // ---------------------------------------------------------------- the retry delay

  predicate PutsOff(a: Action) {
    a.Defer? || a.Retry?
  }

  /** Row `k` waits until `ready`: pending, and no sooner eligible. */
  predicate WaitsUntil(t: Table, k: Uuid, ready: int) {
    k in t.rows && t.rows[k].status == Pending && t.rows[k].availableAt == ready
  }

  lemma {:induction false} WaitRuns(t: Table, run: seq<Action>, k: Uuid, ready: int)
    requires WaitsUntil(t, k, ready)
    requires forall i :: 0 <= i < |run| && !run[i].Tick? && run[i].k == k ==> !run[i].Remove? && !run[i].Rearm?
    ensures Run(t, run).now < ready ==> WaitsUntil(Run(t, run), k, ready)
    ensures t.now <= Run(t, run).now
  {
    if run != [] {
      WaitRuns(t, run[..|run| - 1], k, ready);
    }
  }

  /** A nacked or deferred row stays away exactly for its delay. Whatever runs, short of deleting the row or
      replaying it by hand, it is not handed out before now + delay, and as long as nobody has taken it
      since it is eligible from that moment on. */
  lemma {:induction false} RetryDelayIsExact(t: Table, a: Action, run: seq<Action>, token: Uuid, lease: nat)
    requires PutsOff(a) && Enabled(t, a)
    requires forall i :: 0 <= i < |run| && !run[i].Tick? && run[i].k == a.k ==> !run[i].Remove? && !run[i].Rearm?
    ensures var t' := Run(Apply(t, a), run);
            && (t'.now < t.now + a.delay ==> WaitsUntil(t', a.k, t.now + a.delay) && !Enabled(t', Claim(a.k, token, lease)))
            && (t'.now >= t.now + a.delay && WaitsUntil(t', a.k, t.now + a.delay) ==> Eligible(t'.rows[a.k], t'.now))
  {
    WaitRuns(Apply(t, a), run, a.k, t.now + a.delay);
  }

  // ---------------------------------------------------------------- retry budget

  /** Deliveries of row `k` since it was inserted or last replayed. */
  function Deliveries(t: Table, run: seq<Action>, k: Uuid): nat {
    if run == [] then 0
    else
      var a := run[|run| - 1];
      var p := run[..|run| - 1];
      if a.Tick? || a.k != k || !Enabled(Run(t, p), a) then Deliveries(t, p, k)
      else if a.Insert? || a.Replay? || a.Rearm? then 0
      else if a.Claim? || a.Reclaim? then Deliveries(t, p, k) + 1
      else Deliveries(t, p, k)
  }

  /** retry_count is exact: equal to the deliveries while pending, one less once handed out. */
  predicate BudgetExact(l: Lease, deliveries: nat) {
    l.retries + (if l.status == Pending then 0 else 1) == deliveries
  }

  lemma {:induction false} RetryCountIsDeliveries(now: int, run: seq<Action>, k: Uuid)
    requires k in Run(Empty(now), run).rows
    ensures BudgetExact(Run(Empty(now), run).rows[k], Deliveries(Empty(now), run, k))
  {
    if run != [] {
      var p := run[..|run| - 1];
      if k in Run(Empty(now), p).rows {
        RetryCountIsDeliveries(now, p, k);
      }
    }
  }

  /** A row leaves for the DLQ exactly at delivery number max_retries + 1, whichever mix of nack,
      consume-path reclaim and garbage collection handled the earlier failures. */
  lemma {:induction false} BuriedAfterExactBudget(now: int, run: seq<Action>, a: Action)
    requires a.Bury? || a.BuryClaimed?
    requires Enabled(Run(Empty(now), run), a)
    ensures var l := Run(Empty(now), run).rows[a.k];
            l.retries + 1 == l.limit + 1 == Deliveries(Empty(now), run, a.k)
  {
    RunKeepsInv(Empty(now), run);
    RetryCountIsDeliveries(now, run, a.k);
    assert LeaseOk(Run(Empty(now), run).rows[a.k], Run(Empty(now), run).now);
  }

  /** No row is ever handed out more than max_retries + 1 times. */
  lemma {:induction false} DeliveriesNeverExceedBudget(now: int, run: seq<Action>, k: Uuid)
    requires k in Run(Empty(now), run).rows
    ensures Deliveries(Empty(now), run, k) <= Run(Empty(now), run).rows[k].limit + 1
  {
    RunKeepsInv(Empty(now), run);
    RetryCountIsDeliveries(now, run, k);
    assert LeaseOk(Run(Empty(now), run).rows[k], Run(Empty(now), run).now);
  }
}
