/** The topic purges: which rows they may take, and what they never take. */
module TopicGc {
  import opened Basics
  import opened TopicStore
  import L = Lease
  import T = Topic
  import H = TopicHistory

  datatype MessagePurge = CompletedOlderThan(ttl: int) | Orphans

  datatype SubPurge = PendingOlderThan(age: int) | OfInactiveSubscribers

  predicate HasDead(t: T.Topic, id: Uuid) {
    exists d :: d in t.dlq && t.dlq[d].original == id
  }

  /** Every delivery of the message has been acked. */
  predicate AllAcked(t: T.Topic, id: Uuid) {
    forall k :: k in t.subs && t.subs[k].message == id ==> t.subs[k].lease.status == L.Done
  }

  predicate NoDeliveries(t: T.Topic, id: Uuid) {
    forall k :: k in t.subs ==> t.subs[k].message != id
  }

  /** Neither purge takes a message that a DLQ row refers to. */
  function PurgeableMessages(t: T.Topic, p: MessagePurge): set<Uuid> {
    match p
    case CompletedOlderThan(ttl) => set id | id in t.msgs && t.msgs[id].createdAt < t.now - ttl && AllAcked(t, id) && !HasDead(t, id)
    case Orphans => set id | id in t.msgs && NoDeliveries(t, id) && !HasDead(t, id)
  }

  /** A row whose claim is still running is never taken. */
  function PurgeableSubs(t: T.Topic, p: SubPurge): set<Uuid> {
    match p
    case PendingOlderThan(age) =>
      set k | k in t.subs && t.subs[k].lease.status == L.Pending && t.subs[k].message in t.msgs
              && t.msgs[t.subs[k].message].createdAt < t.now - age
    case OfInactiveSubscribers =>
      set k | k in t.subs && t.subs[k].subscriber !in t.active
              && !(t.subs[k].lease.status == L.Processing && t.subs[k].lease.visibility.Some? && t.subs[k].lease.visibility.value > t.now)
  }

  /** DELETE of messages, with ON DELETE CASCADE on their subscription rows. */
  function WithoutMessages(t: T.Topic, ids: set<Uuid>): T.Topic {
    t.(msgs := t.msgs - ids, subs := map k | k in t.subs && t.subs[k].message !in ids :: t.subs[k])
  }

  lemma {:induction false} MessagePurgeIsRun(t: T.Topic, ids: set<Uuid>) returns (trace: seq<T.Action>)
    requires ids <= t.msgs.Keys && forall id :: id in ids ==> !HasDead(t, id)
    ensures T.Run(t, trace) == WithoutMessages(t, ids)
    decreases ids
  {
    if ids == {} {
      assert WithoutMessages(t, ids).msgs == t.msgs && WithoutMessages(t, ids).subs == t.subs;
      return [];
    }
    var id :| id in ids;
    var p := MessagePurgeIsRun(t, ids - {id});
    DropOneMore(t, ids - {id}, id);
    T.RunSnoc(t, p, T.DropMessage(id));
    assert ids - {id} + {id} == ids;
    return p + [T.DropMessage(id)];
  }

  lemma DropOneMore(t: T.Topic, ids: set<Uuid>, id: Uuid)
    requires id in t.msgs && id !in ids && !HasDead(t, id)
    ensures T.Apply(WithoutMessages(t, ids), T.DropMessage(id)) == WithoutMessages(t, ids + {id})
  {
    var t1 := T.Apply(WithoutMessages(t, ids), T.DropMessage(id));
    assert t1.msgs == WithoutMessages(t, ids + {id}).msgs;
    assert t1.subs == WithoutMessages(t, ids + {id}).subs;
  }

  lemma {:induction false} SubPurgeIsRun(t: T.Topic, ids: set<Uuid>) returns (trace: seq<T.Action>)
    requires ids <= t.subs.Keys
    ensures T.Run(t, trace) == t.(subs := t.subs - ids)
    decreases ids
  {
    if ids == {} {
      assert t.subs - ids == t.subs;
      return [];
    }
    var k :| k in ids;
    var p := SubPurgeIsRun(t, ids - {k});
    assert (t.subs - (ids - {k})) - {k} == t.subs - ids;
    T.RunSnoc(t, p, T.DropSub(k));
    return p + [T.DropSub(k)];
  }

  /** Deliveries still owed outlive a message purge: only acked rows go with their message. */
  lemma MessagePurgeSparesDeliveries(t: T.Topic, p: MessagePurge, k: Uuid)
    requires T.Inv(t) && k in t.subs && t.subs[k].lease.status != L.Done
    ensures var t' := WithoutMessages(t, PurgeableMessages(t, p));
            k in t'.subs && t'.subs[k] == t.subs[k] && t.subs[k].message in t'.msgs
  {
    assert t.subs[k].message in t.msgs;
  }

  /** A dead letter keeps its message, so it stays replayable. */
  lemma MessagePurgeSparesDeadLetters(t: T.Topic, p: MessagePurge, d: Uuid)
    requires T.Inv(t) && d in t.dlq
    ensures t.dlq[d].original in WithoutMessages(t, PurgeableMessages(t, p)).msgs
  {
    assert HasDead(t, t.dlq[d].original);
  }

  // ---------------------------------------------------------------- what a purge spares

  /** The topic after a purge of subscription rows. */
  function WithoutSubs(t: T.Topic, p: SubPurge): T.Topic {
    t.(subs := t.subs - PurgeableSubs(t, p))
  }

  /** In flight, with time left. */
  predicate Runs(s: T.Sub, now: int) {
    s.lease.status == L.Processing && s.lease.visibility.Some? && s.lease.visibility.value > now
  }

  /** The inactive purge leaves exactly the rows of active subscribers and those whose claim still runs,
      and leaves them as they are; so a claim that held one of them holds it still. */
  lemma InactivePurgeIsExact(t: T.Topic, k: Uuid, claim: Uuid)
    requires k in t.subs
    ensures var t' := WithoutSubs(t, OfInactiveSubscribers);
            && (k in t'.subs <==> t.subs[k].subscriber in t.active || Runs(t.subs[k], t.now))
            && (k in t'.subs ==> t'.subs[k] == t.subs[k])
            && (k in t'.subs && T.Owns(t, k, claim) ==>
                  T.Enabled(t', T.Row(L.Ack(k, claim))) && T.OwnsPair(t', t.subs[k].message, t.subs[k].subscriber, claim))
  {
    var t' := WithoutSubs(t, OfInactiveSubscribers);
    if k in t'.subs && T.Owns(t, k, claim) {
      assert T.Owns(t', k, claim) && T.IsPair(t'.subs[k], t.subs[k].message, t.subs[k].subscriber);
      assert T.Leases(t').rows[k] == t'.subs[k].lease;
    }
  }

  /** An unsubscribed subscriber drains what it holds: a delivery handed out at some time survives every
      inactive purge until its lease is over, whatever else runs. */
  lemma InFlightDrains(t: T.Topic, a: L.Action, xs: seq<T.Action>)
    requires T.Inv(t) && L.Grants(a) && T.Enabled(t, T.Row(a))
    requires forall i :: 0 <= i < |xs| ==> !H.Ends(xs[i], a.k, t.subs[a.k].message, L.Holder(a))
    requires T.Run(T.Apply(t, T.Row(a)), xs).now < t.now + a.lease
    ensures T.Owns(WithoutSubs(T.Run(T.Apply(t, T.Row(a)), xs), OfInactiveSubscribers), a.k, L.Holder(a))
  {
    H.LeaseIsExclusive(t, a, xs, T.Row(L.Reset(a.k)));
    InactivePurgeIsExact(T.Run(T.Apply(t, T.Row(a)), xs), a.k, L.Holder(a));
  }

  /** The pending purge deletes exactly the pending deliveries of messages published more than `age` ago,
      by the clock of the publish. */
  lemma PendingPurgeIsExact(limit: nat, now: int, xs: seq<T.Action>, age: int, k: Uuid) returns (i: nat)
    requires k in T.Run(T.Empty(limit, now), xs).subs
    ensures var t := T.Run(T.Empty(limit, now), xs);
            && i < |xs| && t.subs[k].message in t.msgs && H.PublishedAt(T.Empty(limit, now), xs, t.subs[k].message, i)
            && (k in WithoutSubs(t, PendingOlderThan(age)).subs <==>
                  !(t.subs[k].lease.status == L.Pending && T.Run(T.Empty(limit, now), xs[..i]).now < t.now - age))
            && (k in WithoutSubs(t, PendingOlderThan(age)).subs ==> WithoutSubs(t, PendingOlderThan(age)).subs[k] == t.subs[k])
  {
    var t := T.Run(T.Empty(limit, now), xs);
    T.EmptyIsOk(limit, now);
    T.RunKeepsInv(T.Empty(limit, now), xs);
    i := H.CreatedWhenPublished(limit, now, xs, t.subs[k].message);
  }

  /** The completed purge deletes exactly the messages published more than `ttl` ago that nobody still needs:
      every delivery acked, and no dead letter. */
  lemma CompletedPurgeIsExact(limit: nat, now: int, xs: seq<T.Action>, ttl: int, id: Uuid) returns (i: nat)
    requires id in T.Run(T.Empty(limit, now), xs).msgs
    ensures var t := T.Run(T.Empty(limit, now), xs);
            var t' := WithoutMessages(t, PurgeableMessages(t, CompletedOlderThan(ttl)));
            && i < |xs| && H.PublishedAt(T.Empty(limit, now), xs, id, i)
            && (id in t'.msgs <==>
                  || T.Run(T.Empty(limit, now), xs[..i]).now >= t.now - ttl
                  || (exists k :: k in t.subs && t.subs[k].message == id && t.subs[k].lease.status != L.Done)
                  || (exists d :: d in t.dlq && t.dlq[d].original == id))
            && (forall k :: k in t'.subs <==> k in t.subs && t.subs[k].message in t'.msgs)
  {
    var t := T.Run(T.Empty(limit, now), xs);
    T.EmptyIsOk(limit, now);
    T.RunKeepsInv(T.Empty(limit, now), xs);
    i := H.CreatedWhenPublished(limit, now, xs, id);
  }

  /** The orphan purge deletes exactly the messages that no delivery and no dead letter refers to. */
  lemma OrphanPurgeIsExact(t: T.Topic, id: Uuid)
    requires id in t.msgs
    ensures var t' := WithoutMessages(t, PurgeableMessages(t, Orphans));
            && (id in t'.msgs <==>
                  (exists k :: k in t.subs && t.subs[k].message == id) || (exists d :: d in t.dlq && t.dlq[d].original == id))
            && t'.subs == t.subs
  {
    var t' := WithoutMessages(t, PurgeableMessages(t, Orphans));
    assert forall k :: k in t.subs ==> t.subs[k].message !in PurgeableMessages(t, Orphans);
    assert t'.subs == t.subs;
  }

  // ---------------------------------------------------------------- page by page

  lemma MessagesLeft(t: T.Topic, p: MessagePurge, gone: set<Uuid>)
    requires gone <= PurgeableMessages(t, p)
    ensures PurgeableMessages(WithoutMessages(t, gone), p) == PurgeableMessages(t, p) - gone
  {
    var t' := WithoutMessages(t, gone);
    forall id | id in t.msgs && id !in gone
      ensures (AllAcked(t', id) <==> AllAcked(t, id)) && (NoDeliveries(t', id) <==> NoDeliveries(t, id)) && (HasDead(t', id) <==> HasDead(t, id))
    {
      assert forall k :: k in t.subs && t.subs[k].message == id ==> k in t'.subs && t'.subs[k] == t.subs[k];
    }
  }

  lemma WithoutMore(t: T.Topic, gone: set<Uuid>, page: set<Uuid>)
    ensures WithoutMessages(WithoutMessages(t, gone), page) == WithoutMessages(t, gone + page)
  {
    assert WithoutMessages(WithoutMessages(t, gone), page).msgs == WithoutMessages(t, gone + page).msgs;
    assert WithoutMessages(WithoutMessages(t, gone), page).subs == WithoutMessages(t, gone + page).subs;
  }

  lemma WithoutNone(t: T.Topic)
    ensures WithoutMessages(t, {}) == t
  {
    assert WithoutMessages(t, {}).msgs == t.msgs && WithoutMessages(t, {}).subs == t.subs;
  }

  /** `ORDER BY id LIMIT n`. */
  function FirstIds(s: set<Uuid>, n: nat): (ids: set<Uuid>)
    ensures ids <= s && |ids| == Min(n, |s|)
  {
    var page := PageBy(s, ById(s), n);
    ElemsSize(page);
    Elems(page)
  }

  method PurgeMessagePage(db: TopicDb, p: MessagePurge, pageSize: nat, ghost start: T.Topic, ghost gone: set<Uuid>)
    returns (count: nat, ghost ids: set<Uuid>)
    requires gone <= PurgeableMessages(start, p) && db.State() == WithoutMessages(start, gone)
    modifies db`msgs, db`subs
    ensures gone <= ids <= PurgeableMessages(start, p) && db.State() == WithoutMessages(start, ids)
    ensures count == Min(pageSize, |PurgeableMessages(start, p) - gone|) && |ids| == |gone| + count
  {
    MessagesLeft(start, p, gone);
    var page := FirstIds(PurgeableMessages(db.State(), p), pageSize);
    WithoutMore(start, gone, page);
    db.subs := map k | k in db.subs && db.subs[k].message !in page :: db.subs[k];
    db.msgs := db.msgs - page;
    return |page|, gone + page;
  }

  /** The paged delete removes exactly the purgeable messages and their rows, whatever the page size. */
  method PurgeMessages(db: TopicDb, p: MessagePurge, pageSize: nat) returns (total: nat)
    requires db.Valid() && pageSize > 0
    modifies db`msgs, db`subs
    ensures db.Valid() && total == |PurgeableMessages(old(db.State()), p)|
    ensures db.State() == WithoutMessages(old(db.State()), PurgeableMessages(old(db.State()), p))
  {
    ghost var start := db.State();
    ghost var ids := {};
    total := 0;
    WithoutNone(start);
    while true
      invariant db.State() == WithoutMessages(start, ids) && ids <= PurgeableMessages(start, p) && total == |ids|
      decreases |PurgeableMessages(start, p) - ids|
    {
      ghost var gone := ids;
      var count;
      count, ids := PurgeMessagePage(db, p, pageSize, start, ids);
      total := total + count;
      SubsetSizes(PurgeableMessages(start, p), gone, ids);
      if count < pageSize {
        assert |PurgeableMessages(start, p) - ids| == 0;
        assert ids == PurgeableMessages(start, p);
        ghost var trace := MessagePurgeIsRun(start, ids);
        T.RunReaches(start, trace);
        return;
      }
    }
  }

  lemma SubsLeft(t: T.Topic, p: SubPurge, gone: set<Uuid>, page: set<Uuid>)
    requires gone <= PurgeableSubs(t, p)
    ensures PurgeableSubs(t.(subs := t.subs - gone), p) == PurgeableSubs(t, p) - gone
    ensures (t.subs - gone) - page == t.subs - (gone + page)
  {
  }

  method PurgeSubPage(db: TopicDb, p: SubPurge, pageSize: nat, ghost start: T.Topic, ghost gone: set<Uuid>)
    returns (count: nat, ghost ids: set<Uuid>)
    requires gone <= PurgeableSubs(start, p) && db.State() == start.(subs := start.subs - gone)
    modifies db`subs
    ensures gone <= ids <= PurgeableSubs(start, p) && db.State() == start.(subs := start.subs - ids)
    ensures count == Min(pageSize, |PurgeableSubs(start, p) - gone|) && |ids| == |gone| + count
  {
    SubsLeft(start, p, gone, {});
    var page := FirstIds(PurgeableSubs(db.State(), p), pageSize);
    SubsLeft(start, p, gone, page);
    db.subs := db.subs - page;
    return |page|, gone + page;
  }

  /** The paged delete removes exactly the purgeable subscription rows, whatever the page size. */
  method PurgeSubs(db: TopicDb, p: SubPurge, pageSize: nat) returns (total: nat)
    requires db.Valid() && pageSize > 0
    modifies db`subs
    ensures db.Valid() && total == |PurgeableSubs(old(db.State()), p)|
    ensures db.State() == WithoutSubs(old(db.State()), p)
  {
    ghost var start := db.State();
    ghost var ids := {};
    total := 0;
    assert start.subs - {} == start.subs;
    while true
      invariant db.State() == start.(subs := start.subs - ids) && ids <= PurgeableSubs(start, p) && total == |ids|
      decreases |PurgeableSubs(start, p) - ids|
    {
      ghost var gone := ids;
      var count;
      count, ids := PurgeSubPage(db, p, pageSize, start, ids);
      total := total + count;
      SubsetSizes(PurgeableSubs(start, p), gone, ids);
      if count < pageSize {
        assert |PurgeableSubs(start, p) - ids| == 0;
        assert ids == PurgeableSubs(start, p);
        ghost var trace := SubPurgeIsRun(start, ids);
        T.RunReaches(start, trace);
        return;
      }
    }
  }
}
