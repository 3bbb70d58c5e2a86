/**
 A point-to-point channel: its message table, its dead-letter table, the database clock and the
 claim tokens handed out so far. Each action is one row's part of a committed transaction; the
 methods of the later modules are proved to be runs of these actions.
 */
module Channel {
  import opened Basics
  import L = Lease

  datatype Message = Message(body: Body, createdAt: int, lease: L.Lease)

  datatype Channel = Channel(msgs: map<Uuid, Message>, dlq: map<Uuid, DeadLetter>, now: int, minted: set<Uuid>)

  datatype Action =
    | Publish(id: Uuid, body: Body, limit: nat)
    | Row(act: L.Action)                                     // an in-place update, or the clock
    | Kill(act: L.Action, dlqId: Uuid, reason: FailureReason)  // row to DLQ
    | Purge(id: Uuid)                                        // message row deleted
    | PurgeDead(d: Uuid)                                     // DLQ row deleted
    | Reinstate(d: Uuid, original: Uuid, limit: nat)         // DLQ row back to the message table

  /** The delivery columns of the message table. */
  function Leases(c: Channel): L.Table {
    L.Table(map id | id in c.msgs :: c.msgs[id].lease, c.now, c.minted)
  }

  predicate Enabled(c: Channel, x: Action) {
    match x
    case Publish(id, _, _) => id != NIL && id !in c.msgs
    case Row(a) => (a.Tick? || L.Rewrites(a)) && L.Enabled(Leases(c), a)
    case Kill(a, d, _) => (a.Bury? || a.BuryClaimed?) && L.Enabled(Leases(c), a) && d != NIL && d !in c.dlq
    case Purge(id) => id in c.msgs
    case PurgeDead(d) => d in c.dlq
    case Reinstate(d, original, _) => d in c.dlq && c.dlq[d].original == original && original !in c.msgs
  }

  function DeadLetterOf(id: Uuid, m: Message, reason: FailureReason, now: int): DeadLetter {
    DeadLetter(id, None, m.body, reason, m.lease.retries + 1, now)
  }

  function NewMessage(body: Body, limit: nat, now: int): Message {
    Message(body, now, L.NewLease(limit, now))
  }

  function Apply(c: Channel, x: Action): Channel {
    if !Enabled(c, x) then c
    else
      match x
      case Publish(id, body, limit) => c.(msgs := c.msgs[id := NewMessage(body, limit, c.now)])
      case Row(a) =>
        if a.Tick? then c.(now := c.now + a.span)
        else
          var m := c.msgs[a.k];
          c.(msgs := c.msgs[a.k := m.(lease := L.Rewritten(m.lease, a, c.now))], minted := c.minted + L.Tokens(a))
      case Kill(a, d, reason) =>
        c.(msgs := c.msgs - {a.k}, dlq := c.dlq[d := DeadLetterOf(a.k, c.msgs[a.k], reason, c.now)])
      case Purge(id) => c.(msgs := c.msgs - {id})
      case PurgeDead(d) => c.(dlq := c.dlq - {d})
      case Reinstate(d, original, limit) =>
        c.(msgs := c.msgs[original := NewMessage(c.dlq[d].body, limit, c.now)], dlq := c.dlq - {d})
  }

  function Run(c: Channel, xs: seq<Action>): Channel {
    if xs == [] then c else Apply(Run(c, xs[..|xs| - 1]), xs[|xs| - 1])
  }

  lemma {:induction false} RunAppend(c: Channel, p: seq<Action>, q: seq<Action>)
    ensures Run(c, p + q) == Run(Run(c, p), q)
  {
    if q == [] {
      assert p + q == p;
    } else {
      RunAppend(c, p, q[..|q| - 1]);
      assert (p + q)[..|p + q| - 1] == p + q[..|q| - 1];
    }
  }

  /** A run of one action. */
  lemma RunOne(c: Channel, x: Action)
    ensures Run(c, [x]) == Apply(c, x)
  {
    assert [x][..0] == [];
    assert Run(c, [x][..0]) == c;
  }

  /** Extending a run by one action. */
  lemma {:induction false} RunSnoc(c: Channel, xs: seq<Action>, x: Action)
    ensures Run(c, xs + [x]) == Apply(Run(c, xs), x)
  {
    assert (xs + [x])[..|xs + [x]| - 1] == xs;
  }

  function Empty(now: int): Channel {
    Channel(map[], map[], now, {})
  }

  // ---------------------------------------------------------------- projection on the lease machine

  function Project(x: Action): seq<L.Action> {
    match x
    case Publish(id, _, limit) => [L.Insert(id, limit)]
    case Row(a) => [a]
    case Kill(a, _, _) => [a]
    case Purge(id) => [L.Remove(id)]
    case PurgeDead(_) => []
    case Reinstate(_, original, limit) => [L.Insert(original, limit)]
  }

  lemma StepProjects(c: Channel, x: Action)
    requires Enabled(c, x)
    ensures L.Run(Leases(c), Project(x)) == Leases(Apply(c, x))
  {
    var t := Leases(c);
    if !x.PurgeDead? {
      var a := Project(x)[0];
      assert Project(x)[..0] == [];
      assert L.Run(t, Project(x)) == L.Apply(L.Run(t, Project(x)[..0]), a);
      assert L.Run(t, Project(x)[..0]) == t;
      assert L.Apply(t, a).rows == Leases(Apply(c, x)).rows;
    }
  }

  /** The lease actions a run performs: those of its actions that matched. */
  function Trace(c: Channel, xs: seq<Action>): seq<L.Action> {
    if xs == [] then []
    else
      var p := xs[..|xs| - 1];
      var x := xs[|xs| - 1];
      Trace(c, p) + if Enabled(Run(c, p), x) then Project(x) else []
  }

  /** The delivery columns of a channel run exactly as the lease machine does. */
  lemma {:induction false} RunProjects(c: Channel, xs: seq<Action>)
    ensures L.Run(Leases(c), Trace(c, xs)) == Leases(Run(c, xs))
  {
    if xs != [] {
      var p := xs[..|xs| - 1];
      var x := xs[|xs| - 1];
      RunProjects(c, p);
      if Enabled(Run(c, p), x) {
        StepProjects(Run(c, p), x);
        L.RunAppend(Leases(c), Trace(c, p), Project(x));
      } else {
        assert Trace(c, xs) == Trace(c, p);
      }
    }
  }

  // ---------------------------------------------------------------- invariant

  /** The schema's constraints and the lease invariant. */
  ghost predicate Inv(c: Channel) {
    && L.Inv(Leases(c))
    && NIL !in c.msgs && NIL !in c.dlq
    && forall d :: d in c.dlq ==> c.dlq[d].subscriber == None && c.dlq[d].original != NIL
  }

  lemma StepKeepsInv(c: Channel, x: Action)
    requires Inv(c)
    ensures Inv(Apply(c, x))
  {
    if Enabled(c, x) {
      StepProjects(c, x);
      L.RunKeepsInv(Leases(c), Project(x));
    }
  }

  lemma {:induction false} RunKeepsInv(c: Channel, xs: seq<Action>)
    requires Inv(c)
    ensures Inv(Run(c, xs))
  {
    if xs != [] {
      RunKeepsInv(c, xs[..|xs| - 1]);
      StepKeepsInv(Run(c, xs[..|xs| - 1]), xs[|xs| - 1]);
    }
  }

  /** Some sequence of committed transactions leads here from a newly created channel. */
  ghost predicate Reachable(c: Channel) {
    exists start, xs :: c == Run(Empty(start), xs)
  }

  lemma ReachableIsOk(c: Channel)
    requires Reachable(c)
    ensures Inv(c)
  {
    var start, xs :| c == Run(Empty(start), xs);
    EmptyProjects(start);
    RunKeepsInv(Empty(start), xs);
  }

  lemma {:induction false} RunReaches(c: Channel, xs: seq<Action>)
    requires Reachable(c)
    ensures Reachable(Run(c, xs))
  {
    var start, ys :| c == Run(Empty(start), ys);
    RunAppend(Empty(start), ys, xs);
  }

  lemma StepReaches(c: Channel, x: Action)
    requires Reachable(c)
    ensures Reachable(Apply(c, x))
  {
    RunOne(c, x);
    RunReaches(c, [x]);
  }

  // ---------------------------------------------------------------- fencing

  predicate Owns(c: Channel, id: Uuid, claim: Uuid) {
    id in c.msgs && L.HeldUnder(c.msgs[id].lease, claim)
  }

  /** A claim that does not own a message never owns it again: across redelivery, nack, garbage
      collection, replay, a DLQ round trip and a republish under the same id. */
  lemma {:induction false} Fenced(c: Channel, xs: seq<Action>, id: Uuid, claim: Uuid)
    requires claim in c.minted && !Owns(c, id, claim)
    ensures claim in Run(c, xs).minted && !Owns(Run(c, xs), id, claim)
  {
    RunProjects(c, xs);
    L.Fenced(Leases(c), Trace(c, xs), id, claim);
    assert !L.Owns(Leases(Run(c, xs)), id, claim);
  }

  /** A successful ack or nack of `id` under `claim`. */
  predicate Settles(x: Action, id: Uuid, claim: Uuid) {
    (x.Row? || x.Kill?) && L.Settles(x.act, claim) && x.act.k == id
  }

  predicate Fires(c: Channel, xs: seq<Action>, i: nat)
    requires i < |xs|
  {
    Enabled(Run(c, xs[..i]), xs[i])
  }

  lemma SettledClaimIsSpent(c: Channel, x: Action, id: Uuid, other: Uuid, claim: Uuid)
    requires Inv(c) && Enabled(c, x) && Settles(x, id, claim)
    ensures claim in Apply(c, x).minted && !Owns(Apply(c, x), other, claim)
  {
    var t := Leases(c);
    assert t.rows[id].claim.value in t.minted;
    if other in c.msgs && other != id {
      assert t.rows[id].claim != t.rows[other].claim;
    }
  }

  lemma {:induction false} RunThrough(c: Channel, xs: seq<Action>, i: nat, j: nat)
    requires i < j <= |xs|
    ensures Run(c, xs[..j]) == Run(Apply(Run(c, xs[..i]), xs[i]), xs[i + 1..j])
  {
    assert xs[..i + 1][..i] == xs[..i];
    assert xs[..j] == xs[..i + 1] + xs[i + 1..j];
    RunAppend(c, xs[..i + 1], xs[i + 1..j]);
  }

  /** After one successful ack or nack, no later one under the same claim succeeds on any message. */
  lemma {:induction false} SettledAtMostOnce(c: Channel, xs: seq<Action>, i: nat, j: nat, id: Uuid, other: Uuid, claim: Uuid)
    requires Inv(c) && i < j < |xs|
    requires Settles(xs[i], id, claim) && Fires(c, xs, i)
    requires Settles(xs[j], other, claim)
    ensures !Fires(c, xs, j)
  {
    RunKeepsInv(c, xs[..i]);
    SettledClaimIsSpent(Run(c, xs[..i]), xs[i], id, other, claim);
    RunThrough(c, xs, i, j);
    Fenced(Apply(Run(c, xs[..i]), xs[i]), xs[i + 1..j], other, claim);
  }

  // ---------------------------------------------------------------- leases and delays

  /** The holder itself ends or changes its lease on message `id`, or the row is deleted. */
  predicate Ends(x: Action, id: Uuid, claim: Uuid) {
    (x.Purge? && x.id == id) || ((x.Row? || x.Kill?) && L.Ends(x.act, id, claim))
  }

  lemma {:induction false} TraceKeepsLease(c: Channel, xs: seq<Action>, id: Uuid, claim: Uuid)
    requires forall i :: 0 <= i < |xs| ==> !Ends(xs[i], id, claim)
    ensures forall i :: 0 <= i < |Trace(c, xs)| ==> !L.Ends(Trace(c, xs)[i], id, claim)
  {
    if xs != [] {
      TraceKeepsLease(c, xs[..|xs| - 1], id, claim);
    }
  }

  lemma RowProjects(c: Channel, a: L.Action)
    requires Enabled(c, Row(a))
    ensures Leases(Apply(c, Row(a))) == L.Apply(Leases(c), a) && L.Enabled(Leases(c), a)
  {
    StepProjects(c, Row(a));
    assert [a][..0] == [] && L.Run(Leases(c), []) == Leases(c);
  }

  lemma {:induction false} LeaseRuns(c: Channel, xs: seq<Action>, id: Uuid, claim: Uuid, deadline: int)
    requires claim in c.minted && Owns(c, id, claim) && c.msgs[id].lease.visibility == Some(deadline)
    requires forall i :: 0 <= i < |xs| ==> !Ends(xs[i], id, claim)
    ensures var c' := Run(c, xs);
            && (Owns(c', id, claim) ==> c'.msgs[id].lease.visibility == Some(deadline))
            && (c'.now <= deadline ==> Owns(c', id, claim))
  {
    RunProjects(c, xs);
    TraceKeepsLease(c, xs, id, claim);
    L.LeaseRuns(Leases(c), Trace(c, xs), id, claim, deadline);
    var c' := Run(c, xs);
    assert Owns(c', id, claim) <==> L.Owns(Leases(c'), id, claim);
  }

  lemma GrantStarts(c: Channel, a: L.Action)
    requires Inv(c) && L.Grants(a) && Enabled(c, Row(a))
    ensures var c' := Apply(c, Row(a));
            L.Holder(a) in c'.minted && Owns(c', a.k, L.Holder(a)) && c'.msgs[a.k].lease.visibility == Some(c.now + a.lease)
  {
    if a.Extend? {
      assert Leases(c).rows[a.k].claim.value in c.minted;
    }
  }

  lemma HeldShutsOut(c: Channel, other: Action, claim: Uuid)
    requires (other.Row? || other.Kill?) && !other.act.Tick? && Owns(c, other.act.k, claim) && !L.Ends(other.act, other.act.k, claim)
    requires c.msgs[other.act.k].lease.visibility.Some? && c.now <= c.msgs[other.act.k].lease.visibility.value
    ensures !Enabled(c, other)
  {
    assert Leases(c).rows[other.act.k] == c.msgs[other.act.k].lease;
  }

  /** Whoever is handed a message has it alone until exactly the deadline it was given, across everything
      else that runs on the channel. */
  lemma {:induction false} LeaseIsExclusive(c: Channel, a: L.Action, xs: seq<Action>, other: Action)
    requires Inv(c) && L.Grants(a) && Enabled(c, Row(a))
    requires forall i :: 0 <= i < |xs| ==> !Ends(xs[i], a.k, L.Holder(a))
    requires (other.Row? || other.Kill?) && !other.act.Tick? && other.act.k == a.k && !Ends(other, a.k, L.Holder(a))
    ensures var c' := Run(Apply(c, Row(a)), xs);
            && (c'.now <= c.now + a.lease ==>
                  Owns(c', a.k, L.Holder(a)) && c'.msgs[a.k].lease.visibility == Some(c.now + a.lease) && !Enabled(c', other))
            && (c'.now > c.now + a.lease && Owns(c', a.k, L.Holder(a)) ==> L.TimedOut(c'.msgs[a.k].lease, c'.now))
  {
    GrantStarts(c, a);
    LeaseRuns(Apply(c, Row(a)), xs, a.k, L.Holder(a), c.now + a.lease);
    var c' := Run(Apply(c, Row(a)), xs);
    if c'.now <= c.now + a.lease {
      HeldShutsOut(c', other, L.Holder(a));
    }
  }

  /** Deletes message `id`, or makes it deliverable by hand. */
  predicate CutsShort(x: Action, id: Uuid) {
    (x.Purge? && x.id == id) || (x.Row? && x.act.Rearm? && x.act.k == id)
  }

  lemma {:induction false} TraceKeepsDelay(c: Channel, xs: seq<Action>, id: Uuid)
    requires forall i :: 0 <= i < |xs| ==> !CutsShort(xs[i], id)
    ensures forall i :: 0 <= i < |Trace(c, xs)| && !Trace(c, xs)[i].Tick? && Trace(c, xs)[i].k == id ==>
              !Trace(c, xs)[i].Remove? && !Trace(c, xs)[i].Rearm?
  {
    if xs != [] {
      TraceKeepsDelay(c, xs[..|xs| - 1], id);
    }
  }

  /** A nacked or deferred message is not handed out before its delay is over, and waits no longer. */
  lemma {:induction false} RetryDelayIsExact(c: Channel, a: L.Action, xs: seq<Action>, token: Uuid, lease: nat)
    requires L.PutsOff(a) && Enabled(c, Row(a)) && forall i :: 0 <= i < |xs| ==> !CutsShort(xs[i], a.k)
    ensures var c' := Run(Apply(c, Row(a)), xs);
            && (c'.now < c.now + a.delay ==>
                  a.k in c'.msgs && c'.msgs[a.k].lease.status == L.Pending && c'.msgs[a.k].lease.availableAt == c.now + a.delay
                  && !Enabled(c', Row(L.Claim(a.k, token, lease))))
            && (c'.now >= c.now + a.delay && L.WaitsUntil(Leases(c'), a.k, c.now + a.delay) ==> L.Eligible(c'.msgs[a.k].lease, c'.now))
  {
    var c1 := Apply(c, Row(a));
    RowProjects(c, a);
    RunProjects(c1, xs);
    TraceKeepsDelay(c1, xs, a.k);
    L.RetryDelayIsExact(Leases(c), a, Trace(c1, xs), token, lease);
  }

  // ---------------------------------------------------------------- where the other columns come from

  /** Step `i` put message `id` into the table, as it is now: published, or back from the DLQ. */
  predicate InsertedAt(c: Channel, xs: seq<Action>, id: Uuid, i: nat)
    requires i < |xs| && id in Run(c, xs).msgs
  {
    var m, x, before := Run(c, xs).msgs[id], xs[i], Run(c, xs[..i]);
    && Fires(c, xs, i) && m.createdAt == before.now
    && ((x.Publish? && x.id == id && m.body == x.body && m.lease.limit == x.limit)
        || (x.Reinstate? && x.original == id && x.d in before.dlq && m.body == before.dlq[x.d].body && m.lease.limit == x.limit))
  }

  /** created_at, the body and max_retries of every message of every reachable channel are those of the
      publish or DLQ replay that inserted it. */
  lemma {:induction false} CreatedWhenInserted(now: int, xs: seq<Action>, id: Uuid) returns (i: nat)
    requires id in Run(Empty(now), xs).msgs
    ensures i < |xs| && InsertedAt(Empty(now), xs, id, i)
  {
    var p, x := xs[..|xs| - 1], xs[|xs| - 1];
    var before := Run(Empty(now), p);
    if id in before.msgs {
      i := CreatedWhenInserted(now, p, id);
      assert xs[..i] == p[..i];
      SameRow(before, x, id);
    } else {
      i := |xs| - 1;
    }
  }

  lemma SameRow(c: Channel, x: Action, id: Uuid)
    requires id in c.msgs && id in Apply(c, x).msgs
    ensures var m, m' := c.msgs[id], Apply(c, x).msgs[id];
            m'.body == m.body && m'.createdAt == m.createdAt && m'.lease.limit == m.lease.limit
  {
  }

  /** Step `i` is the ack that settled message `id`. */
  predicate AckedAt(c: Channel, xs: seq<Action>, id: Uuid, i: nat)
    requires i < |xs| && id in Run(c, xs).msgs
  {
    var l := Run(c, xs).msgs[id].lease;
    && Fires(c, xs, i) && l.claim.Some? && xs[i] == Row(L.Ack(id, l.claim.value)) && l.doneAt == Some(Run(c, xs[..i]).now)
  }

  /** processed_at of a completed message is the time of the ack that completed it. */
  lemma {:induction false} DoneWhenAcked(now: int, xs: seq<Action>, id: Uuid) returns (i: nat)
    requires id in Run(Empty(now), xs).msgs && Run(Empty(now), xs).msgs[id].lease.status == L.Done
    ensures i < |xs| && AckedAt(Empty(now), xs, id, i)
  {
    var p, x := xs[..|xs| - 1], xs[|xs| - 1];
    var before := Run(Empty(now), p);
    if id in before.msgs && before.msgs[id].lease.status == L.Done {
      i := DoneWhenAcked(now, p, id);
      assert xs[..i] == p[..i];
      StaysDone(before, x, id);
    } else {
      i := |xs| - 1;
      JustDone(before, x, id);
    }
  }

  lemma StaysDone(c: Channel, x: Action, id: Uuid)
    requires id in c.msgs && c.msgs[id].lease.status == L.Done && id in Apply(c, x).msgs && Apply(c, x).msgs[id].lease.status == L.Done
    ensures Apply(c, x).msgs[id].lease == c.msgs[id].lease
  {
  }

  lemma JustDone(c: Channel, x: Action, id: Uuid)
    requires id in Apply(c, x).msgs && Apply(c, x).msgs[id].lease.status == L.Done
    requires !(id in c.msgs && c.msgs[id].lease.status == L.Done)
    ensures var l := Apply(c, x).msgs[id].lease;
            Enabled(c, x) && l.claim.Some? && x == Row(L.Ack(id, l.claim.value)) && l.doneAt == Some(c.now)
  {
  }

  /** The reason given with the last nack since the message was inserted or replayed. */
  function LastReason(c: Channel, xs: seq<Action>, id: Uuid): Option<Bytes> {
    if xs == [] then None
    else
      var p, x := xs[..|xs| - 1], xs[|xs| - 1];
      if !Enabled(Run(c, p), x) then LastReason(c, p, id)
      else if x.Row? && x.act.Retry? && x.act.k == id then Some(x.act.reason)
      else if x.Row? && (x.act.Replay? || x.act.Rearm?) && x.act.k == id then None
      else if (x.Publish? && x.id == id) || (x.Reinstate? && x.original == id) then None
      else LastReason(c, p, id)
  }

  /** error_message is that reason. */
  lemma {:induction false} ErrorIsLastReason(now: int, xs: seq<Action>, id: Uuid)
    requires id in Run(Empty(now), xs).msgs
    ensures Run(Empty(now), xs).msgs[id].lease.error == LastReason(Empty(now), xs, id)
  {
    if xs != [] {
      var p := xs[..|xs| - 1];
      if id in Run(Empty(now), p).msgs {
        ErrorIsLastReason(now, p, id);
      }
    }
  }

  // ---------------------------------------------------------------- retry budget

  /** Deliveries of message `id` since it was inserted, reinstated or last replayed. */
  function Deliveries(c: Channel, xs: seq<Action>, id: Uuid): nat {
    L.Deliveries(Leases(c), Trace(c, xs), id)
  }

  lemma EmptyProjects(now: int)
    ensures Leases(Empty(now)) == L.Empty(now) && Inv(Empty(now))
  {
    assert Leases(Empty(now)).rows == map[];
  }

  /** retry_count counts exactly the deliveries that have failed so far. */
  lemma {:induction false} RetryCountIsDeliveries(now: int, xs: seq<Action>, id: Uuid)
    requires id in Run(Empty(now), xs).msgs
    ensures var l := Run(Empty(now), xs).msgs[id].lease;
            L.BudgetExact(l, Deliveries(Empty(now), xs, id)) && l.retries <= l.limit
  {
    EmptyProjects(now);
    RunProjects(Empty(now), xs);
    L.RetryCountIsDeliveries(now, Trace(Empty(now), xs), id);
    L.RunKeepsInv(L.Empty(now), Trace(Empty(now), xs));
    assert L.LeaseOk(Leases(Run(Empty(now), xs)).rows[id], Run(Empty(now), xs).now);
  }

  /** `d` entered the DLQ at step `i`, after exactly max_retries + 1 deliveries, which it records along with
      the time and the reason. */
  predicate DiedOnBudget(c: Channel, xs: seq<Action>, d: Uuid, i: nat)
    requires i < |xs| && d in Run(c, xs).dlq
  {
    var row := Run(c, xs).dlq[d];
    var before := Run(c, xs[..i]);
    && xs[i].Kill? && xs[i].dlqId == d && Fires(c, xs, i)
    && xs[i].act.k == row.original && row.original in before.msgs
    && row.body == before.msgs[row.original].body
    && row.retries == before.msgs[row.original].lease.limit + 1 == Deliveries(c, xs[..i], row.original)
    && row.movedAt == before.now && row.reason == xs[i].reason && row.subscriber == None
  }

  /** Every DLQ row of every reachable channel was put there on exactly that budget. */
  lemma {:induction false} DeadAfterExactBudget(now: int, xs: seq<Action>, d: Uuid) returns (i: nat)
    requires d in Run(Empty(now), xs).dlq
    ensures i < |xs| && DiedOnBudget(Empty(now), xs, d, i)
  {
    var p := xs[..|xs| - 1];
    var before := Run(Empty(now), p);
    if d in before.dlq {
      i := DeadAfterExactBudget(now, p, d);
      assert xs[..i] == p[..i];
      assert Run(Empty(now), xs).dlq[d] == before.dlq[d];
    } else {
      i := |xs| - 1;
      var a := xs[i].act;
      EmptyProjects(now);
      RunProjects(Empty(now), p);
      L.BuriedAfterExactBudget(now, Trace(Empty(now), p), a);
    }
  }

  // ---------------------------------------------------------------- conservation

  /** The DLQ rows holding this exact message. */
  function DeadCopies(dlq: map<Uuid, DeadLetter>, id: Uuid, body: Body): set<Uuid> {
    set d | d in dlq && Holds(dlq[d], id, body)
  }

  predicate Holds(row: DeadLetter, id: Uuid, body: Body) {
    row.original == id && row.body == body
  }

  /** How many rows of either table hold this exact (id, body). */
  function Copies(c: Channel, id: Uuid, body: Body): nat {
    (if id in c.msgs && c.msgs[id].body == body then 1 else 0) + |DeadCopies(c.dlq, id, body)|
  }

  /** Whether `x` is an accepted publish of this exact (id, body). */
  predicate Accepts(c: Channel, x: Action, id: Uuid, body: Body) {
    Enabled(c, x) && x.Publish? && x.id == id && x.body == body
  }

  /** Whether `x` purges a row holding this exact (id, body). */
  predicate Removes(c: Channel, x: Action, id: Uuid, body: Body) {
    Enabled(c, x) && ((x.Purge? && x.id == id && c.msgs[id].body == body) || (x.PurgeDead? && Holds(c.dlq[x.d], id, body)))
  }

  /** Publishes of this exact (id, body) that were accepted. */
  function Accepted(c: Channel, xs: seq<Action>, id: Uuid, body: Body): nat {
    if xs == [] then 0
    else
      var p := xs[..|xs| - 1];
      Accepted(c, p, id, body) + if Accepts(Run(c, p), xs[|xs| - 1], id, body) then 1 else 0
  }

  /** Rows holding this exact (id, body) that a purge deleted. */
  function Removed(c: Channel, xs: seq<Action>, id: Uuid, body: Body): nat {
    if xs == [] then 0
    else
      var p := xs[..|xs| - 1];
      Removed(c, p, id, body) + if Removes(Run(c, p), xs[|xs| - 1], id, body) then 1 else 0
  }

  lemma DeadCopiesAdd(dlq: map<Uuid, DeadLetter>, d: Uuid, row: DeadLetter, id: Uuid, body: Body)
    requires d !in dlq
    ensures |DeadCopies(dlq[d := row], id, body)| == |DeadCopies(dlq, id, body)| + if Holds(row, id, body) then 1 else 0
  {
    assert DeadCopies(dlq[d := row], id, body) == DeadCopies(dlq, id, body) + if Holds(row, id, body) then {d} else {};
  }

  lemma DeadCopiesDrop(dlq: map<Uuid, DeadLetter>, d: Uuid, id: Uuid, body: Body)
    requires d in dlq
    ensures |DeadCopies(dlq - {d}, id, body)| == |DeadCopies(dlq, id, body)| - if Holds(dlq[d], id, body) then 1 else 0
  {
    assert DeadCopies(dlq - {d}, id, body) == DeadCopies(dlq, id, body) - {d};
  }

  lemma ConservationStep(c: Channel, x: Action, id: Uuid, body: Body)
    ensures Copies(c, id, body) + (if Accepts(c, x, id, body) then 1 else 0)
            == Copies(Apply(c, x), id, body) + (if Removes(c, x, id, body) then 1 else 0)
  {
    if Enabled(c, x) {
      match x
      case Kill(a, d, reason) => DeadCopiesAdd(c.dlq, d, DeadLetterOf(a.k, c.msgs[a.k], reason, c.now), id, body);
      case PurgeDead(d) => DeadCopiesDrop(c.dlq, d, id, body);
      case Reinstate(d, _, _) => DeadCopiesDrop(c.dlq, d, id, body);
      case _ => assert Apply(c, x).dlq == c.dlq;
    }
  }

  /** Nothing is lost and nothing is duplicated: for every (id, body), the rows at the start plus
      the accepted publishes equal the rows now in either table plus the rows purged. */
  lemma {:induction false} Conservation(c: Channel, xs: seq<Action>, id: Uuid, body: Body)
    ensures Copies(c, id, body) + Accepted(c, xs, id, body)
            == Copies(Run(c, xs), id, body) + Removed(c, xs, id, body)
  {
    if xs != [] {
      Conservation(c, xs[..|xs| - 1], id, body);
      ConservationStep(Run(c, xs[..|xs| - 1]), xs[|xs| - 1], id, body);
    }
  }
}
