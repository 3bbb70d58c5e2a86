/**
 What the columns of a reachable topic mean in terms of its run: how long a delivery stays leased or put
 off, and which step a message, a delivery, a dead letter or a subscriber's standing goes back to.
 */
module TopicHistory {
  import opened Basics
  import L = Lease
  import opened Topic

  // ---------------------------------------------------------------- leases and delays

  /** Deletes subscription row `k` of message `message`. */
  predicate Deletes(x: Action, k: Uuid, message: Uuid) {
    x == DropSub(k) || x == DropMessage(message) || x.PurgeAll?
  }

  /** The holder itself ends or changes its lease on row `k`, or the row is deleted. */
  predicate Ends(x: Action, k: Uuid, message: Uuid, claim: Uuid) {
    Deletes(x, k, message) || ((x.Row? || x.Kill?) && L.Ends(x.act, k, claim))
  }

  /** The lease under `claim` on row `k` as long as it lasts. */
  ghost predicate Leased(t: Topic, k: Uuid, message: Uuid, claim: Uuid, deadline: int) {
    && claim in t.minted
    && (Owns(t, k, claim) ==> t.subs[k].message == message && t.subs[k].lease.visibility == Some(deadline))
    && (t.now <= deadline ==> Owns(t, k, claim))
  }

  lemma RowLeaseStep(t: Topic, x: Action, k: Uuid, message: Uuid, claim: Uuid, deadline: int)
    requires Leased(t, k, message, claim, deadline) && !Ends(x, k, message, claim) && Enabled(t, x) && (x.Row? || x.Kill?)
    ensures Leased(Apply(t, x), k, message, claim, deadline)
  {
    RowProjects(t, x);
    L.LeaseStep(Leases(t), x.act, k, claim, deadline);
    var t' := Apply(t, x);
    assert Owns(t', k, claim) <==> L.Owns(Leases(t'), k, claim);
  }

  lemma LeaseStep(t: Topic, x: Action, k: Uuid, message: Uuid, claim: Uuid, deadline: int)
    requires Leased(t, k, message, claim, deadline) && !Ends(x, k, message, claim)
    ensures Leased(Apply(t, x), k, message, claim, deadline)
  {
    if Enabled(t, x) && (x.Row? || x.Kill?) {
      RowLeaseStep(t, x, k, message, claim, deadline);
    }
  }

  lemma {:induction false} LeaseRuns(t: Topic, xs: seq<Action>, k: Uuid, message: Uuid, claim: Uuid, deadline: int)
    requires Leased(t, k, message, claim, deadline) && forall i :: 0 <= i < |xs| ==> !Ends(xs[i], k, message, claim)
    ensures Leased(Run(t, xs), k, message, claim, deadline)
  {
    if xs != [] {
      LeaseRuns(t, xs[..|xs| - 1], k, message, claim, deadline);
      LeaseStep(Run(t, xs[..|xs| - 1]), xs[|xs| - 1], k, message, claim, deadline);
    }
  }

  lemma GrantStarts(t: Topic, a: L.Action)
    requires Inv(t) && L.Grants(a) && Enabled(t, Row(a))
    ensures Leased(Apply(t, Row(a)), a.k, t.subs[a.k].message, L.Holder(a), t.now + a.lease)
  {
    if a.Extend? {
      assert Leases(t).rows[a.k].claim.value in t.minted;
    }
  }

  /** Whoever is handed a delivery has it alone until exactly the deadline it was given, whatever else runs
      on the topic, short of a purge of the row; after that a delivery it still holds is timed out. */
  lemma {:induction false} LeaseIsExclusive(t: Topic, a: L.Action, xs: seq<Action>, other: Action)
    requires Inv(t) && L.Grants(a) && Enabled(t, Row(a))
    requires forall i :: 0 <= i < |xs| ==> !Ends(xs[i], a.k, t.subs[a.k].message, L.Holder(a))
    requires (other.Row? || other.Kill?) && !other.act.Tick? && other.act.k == a.k && !L.Ends(other.act, a.k, L.Holder(a))
    ensures var t' := Run(Apply(t, Row(a)), xs);
            && (t'.now <= t.now + a.lease ==>
                  Owns(t', a.k, L.Holder(a)) && t'.subs[a.k].lease.visibility == Some(t.now + a.lease) && !Enabled(t', other))
            && (t'.now > t.now + a.lease && Owns(t', a.k, L.Holder(a)) ==> L.TimedOut(t'.subs[a.k].lease, t'.now))
  {
    var message, claim := t.subs[a.k].message, L.Holder(a);
    GrantStarts(t, a);
    LeaseRuns(Apply(t, Row(a)), xs, a.k, message, claim, t.now + a.lease);
    var t' := Run(Apply(t, Row(a)), xs);
    if t'.now <= t.now + a.lease {
      HeldShutsOut(t', other, claim);
    }
  }

  lemma HeldShutsOut(t: Topic, other: Action, claim: Uuid)
    requires (other.Row? || other.Kill?) && !other.act.Tick? && Owns(t, other.act.k, claim) && !L.Ends(other.act, other.act.k, claim)
    requires t.subs[other.act.k].lease.visibility.Some? && t.now <= t.subs[other.act.k].lease.visibility.value
    ensures !Enabled(t, other)
  {
    assert Leases(t).rows[other.act.k] == t.subs[other.act.k].lease;
  }

  predicate WaitsUntil(t: Topic, k: Uuid, message: Uuid, ready: int) {
    k in t.subs && t.subs[k].message == message && t.subs[k].lease.status == L.Pending && t.subs[k].lease.availableAt == ready
  }

  predicate CutsShort(x: Action, k: Uuid, message: Uuid) {
    Deletes(x, k, message) || (x.Row? && x.act.Rearm? && x.act.k == k)
  }

  lemma WaitStep(t: Topic, x: Action, k: Uuid, message: Uuid, ready: int)
    requires t.now < ready ==> WaitsUntil(t, k, message, ready)
    requires !CutsShort(x, k, message)
    ensures t.now <= Apply(t, x).now && (Apply(t, x).now < ready ==> WaitsUntil(Apply(t, x), k, message, ready))
  {
    if Enabled(t, x) && x.Row? && !x.act.Tick? {
      assert Leases(t).rows[x.act.k] == t.subs[x.act.k].lease;
    } else if Enabled(t, x) && x.Kill? {
      assert Leases(t).rows[x.act.k] == t.subs[x.act.k].lease;
    }
  }

  lemma {:induction false} WaitRuns(t: Topic, xs: seq<Action>, k: Uuid, message: Uuid, ready: int)
    requires WaitsUntil(t, k, message, ready) && forall i :: 0 <= i < |xs| ==> !CutsShort(xs[i], k, message)
    ensures Run(t, xs).now < ready ==> WaitsUntil(Run(t, xs), k, message, ready)
  {
    if xs != [] {
      WaitRuns(t, xs[..|xs| - 1], k, message, ready);
      WaitStep(Run(t, xs[..|xs| - 1]), xs[|xs| - 1], k, message, ready);
    }
  }

  /** A nacked or deferred delivery is not handed out before its delay is over, and waits no longer. */
  lemma {:induction false} RetryDelayIsExact(t: Topic, a: L.Action, xs: seq<Action>, token: Uuid, lease: nat)
    requires L.PutsOff(a) && Enabled(t, Row(a)) && forall i :: 0 <= i < |xs| ==> !CutsShort(xs[i], a.k, t.subs[a.k].message)
    ensures var t', message := Run(Apply(t, Row(a)), xs), t.subs[a.k].message;
            && (t'.now < t.now + a.delay ==>
                  WaitsUntil(t', a.k, message, t.now + a.delay) && !Enabled(t', Row(L.Claim(a.k, token, lease))))
            && (t'.now >= t.now + a.delay && WaitsUntil(t', a.k, message, t.now + a.delay) ==> L.Eligible(t'.subs[a.k].lease, t'.now))
  {
    WaitRuns(Apply(t, Row(a)), xs, a.k, t.subs[a.k].message, t.now + a.delay);
  }

  // ---------------------------------------------------------------- where the rows come from

  /** Step `i` published message `id`, as it is now. */
  predicate PublishedAt(t: Topic, xs: seq<Action>, id: Uuid, i: nat)
    requires i < |xs| && id in Run(t, xs).msgs
  {
    var m := Run(t, xs).msgs[id];
    Fires(t, xs, i) && xs[i].Publish? && xs[i].id == id && m.body == xs[i].body && m.createdAt == Run(t, xs[..i]).now
  }

  lemma {:induction false} CreatedWhenPublished(limit: nat, now: int, xs: seq<Action>, id: Uuid) returns (i: nat)
    requires id in Run(Empty(limit, now), xs).msgs
    ensures i < |xs| && PublishedAt(Empty(limit, now), xs, id, i)
  {
    var p, x := xs[..|xs| - 1], xs[|xs| - 1];
    var before := Run(Empty(limit, now), p);
    if id in before.msgs {
      i := CreatedWhenPublished(limit, now, p, id);
      assert xs[..i] == p[..i];
      SameMessage(before, x, id);
    } else {
      i := |xs| - 1;
      NewMessage(before, x, id);
    }
  }

  lemma SameMessage(t: Topic, x: Action, id: Uuid)
    requires id in t.msgs && id in Apply(t, x).msgs
    ensures Apply(t, x).msgs[id] == t.msgs[id]
  {
  }

  lemma NewMessage(t: Topic, x: Action, id: Uuid)
    requires id !in t.msgs && id in Apply(t, x).msgs
    ensures Enabled(t, x) && x.Publish? && x.id == id && Apply(t, x).msgs[id] == Message(x.body, t.now)
  {
  }

  /** Step `i` made row `k` for this message and subscriber: the fan-out of a publish, or a DLQ replay. */
  predicate DeliveryStartedAt(t: Topic, xs: seq<Action>, k: Uuid, i: nat)
    requires i < |xs| && k in Run(t, xs).subs
  {
    var s, x, before := Run(t, xs).subs[k], xs[i], Run(t, xs[..i]);
    && Fires(t, xs, i)
    && ((x.Publish? && k in x.fan && s.message == x.id && s.subscriber == x.fan[k] && s.subscriber in before.active)
        || (x.Reinstate? && x.k == k && x.d in before.dlq && IsDeadPair(before.dlq[x.d], s.message, s.subscriber)))
  }

  /** Every delivery goes back to a subscriber that was active when its message was published, or to the
      dead letter of that very subscriber. */
  lemma {:induction false} DeliveryHasAnOrigin(limit: nat, now: int, xs: seq<Action>, k: Uuid) returns (i: nat)
    requires k in Run(Empty(limit, now), xs).subs
    ensures i < |xs| && DeliveryStartedAt(Empty(limit, now), xs, k, i)
  {
    var p, x := xs[..|xs| - 1], xs[|xs| - 1];
    var before := Run(Empty(limit, now), p);
    if k in before.subs {
      i := DeliveryHasAnOrigin(limit, now, p, k);
      assert xs[..i] == p[..i];
      SameDelivery(before, x, k);
    } else {
      i := |xs| - 1;
      NewDelivery(before, x, k);
    }
  }

  lemma SameDelivery(t: Topic, x: Action, k: Uuid)
    requires k in t.subs && k in Apply(t, x).subs
    ensures Apply(t, x).subs[k].message == t.subs[k].message && Apply(t, x).subs[k].subscriber == t.subs[k].subscriber
  {
  }

  lemma NewDelivery(t: Topic, x: Action, k: Uuid)
    requires k !in t.subs && k in Apply(t, x).subs
    ensures Enabled(t, x)
    ensures var s := Apply(t, x).subs[k];
            || (x.Publish? && k in x.fan && s.message == x.id && s.subscriber == x.fan[k] && s.subscriber in t.active)
            || (x.Reinstate? && x.k == k && x.d in t.dlq && IsDeadPair(t.dlq[x.d], s.message, s.subscriber))
  {
  }

  /** A delivery just started, by a publish or a DLQ replay, is deliverable at once with a whole budget. */
  lemma NewDeliveryIsEligible(t: Topic, x: Action, k: Uuid)
    requires k !in t.subs && k in Apply(t, x).subs
    ensures var s := Apply(t, x).subs[k];
            L.Eligible(s.lease, Apply(t, x).now) && s.lease.retries == 0 && s.lease.limit == t.limit && s.lease.claim.None?
  {
  }

  /** `d` entered the DLQ at step `i`, which gave up this subscriber's delivery. */
  predicate DiedAt(t: Topic, xs: seq<Action>, d: Uuid, i: nat)
    requires i < |xs| && d in Run(t, xs).dlq
  {
    var row, x, before := Run(t, xs).dlq[d], xs[i], Run(t, xs[..i]);
    && Fires(t, xs, i) && x.Kill? && x.dlqId == d && x.act.k in before.subs
    && IsDeadPair(row, before.subs[x.act.k].message, before.subs[x.act.k].subscriber)
    && row.original in before.msgs && row.body == before.msgs[row.original].body
    && row.reason == x.reason && row.movedAt == before.now
    && row.retries == t.limit + 1 == Deliveries(t, xs[..i], x.act.k)
  }

  /** Every DLQ row of every reachable topic was put there for its own subscriber, after exactly
      max_retries + 1 deliveries, with the message's body, the reason and the time. */
  lemma {:induction false} DeadAfterExactBudget(limit: nat, now: int, xs: seq<Action>, d: Uuid) returns (i: nat)
    requires d in Run(Empty(limit, now), xs).dlq
    ensures i < |xs| && DiedAt(Empty(limit, now), xs, d, i)
  {
    var p, x := xs[..|xs| - 1], xs[|xs| - 1];
    var before := Run(Empty(limit, now), p);
    if d in before.dlq {
      i := DeadAfterExactBudget(limit, now, p, d);
      assert xs[..i] == p[..i];
      SameDead(before, x, d);
    } else {
      i := |xs| - 1;
      NewDead(before, x, d);
      BuriedAfterExactBudget(limit, now, p, x);
    }
  }

  lemma SameDead(t: Topic, x: Action, d: Uuid)
    requires d in t.dlq && d in Apply(t, x).dlq
    ensures Apply(t, x).dlq[d] == t.dlq[d]
  {
  }

  lemma NewDead(t: Topic, x: Action, d: Uuid)
    requires d !in t.dlq && d in Apply(t, x).dlq
    ensures Enabled(t, x) && x.Kill? && x.dlqId == d && x.act.k in t.subs && t.subs[x.act.k].message in t.msgs
    ensures var s := t.subs[x.act.k];
            Apply(t, x).dlq[d] == DeadLetter(s.message, Some(s.subscriber), t.msgs[s.message].body, x.reason, s.lease.retries + 1, t.now)
  {
  }

  /** Whether the subscriber's last call was a Subscribe. */
  function LastSubscribed(xs: seq<Action>, who: string): bool {
    if xs == [] then false
    else if xs[|xs| - 1] == Subscribe(who) then true
    else if xs[|xs| - 1] == Unsubscribe(who) then false
    else LastSubscribed(xs[..|xs| - 1], who)
  }

  lemma {:induction false} ActiveIsSubscribed(limit: nat, now: int, xs: seq<Action>, who: string)
    ensures who in Run(Empty(limit, now), xs).active <==> LastSubscribed(xs, who)
  {
    if xs != [] {
      ActiveIsSubscribed(limit, now, xs[..|xs| - 1], who);
    }
  }
}
