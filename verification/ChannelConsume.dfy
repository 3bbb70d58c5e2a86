/** The consume transaction: deliver a pending message, or recover timed-out ones until one can be delivered. */
module ChannelConsume {
  import opened Basics
  import opened ChannelStore
  import L = Lease
  import C = Channel

  const MAX_RECLAIM_DEFERS: nat := 64

  /** What the consumer is handed. */
  datatype Delivered = Delivered(
    id: Uuid, claim: Uuid, body: Body, createdAt: int, retries: nat, limit: nat, error: Option<Bytes>, deadline: int)

  // ---------------------------------------------------------------- the two probes

  predicate WithinTtl(m: C.Message, now: int, ttl: int) {
    ttl > 0 ==> m.createdAt > now - ttl
  }

  function PendingIds(c: C.Channel, ttl: int): set<Uuid> {
    set id | id in c.msgs && L.Eligible(c.msgs[id].lease, c.now) && WithinTtl(c.msgs[id], c.now, ttl)
  }

  function TimedOutIds(c: C.Channel, ttl: int): set<Uuid> {
    set id | id in c.msgs && L.TimedOut(c.msgs[id].lease, c.now) && WithinTtl(c.msgs[id], c.now, ttl)
  }

  function AvailableAt(c: C.Channel): map<Uuid, int> {
    map id | id in c.msgs :: c.msgs[id].lease.availableAt
  }

  function VisibleAt(c: C.Channel): map<Uuid, int> {
    map id | id in c.msgs && c.msgs[id].lease.visibility.Some? :: c.msgs[id].lease.visibility.value
  }

  /** The row the pending probe selects. */
  predicate IsNextPending(c: C.Channel, ttl: int, id: Uuid) {
    PendingIds(c, ttl) != {} && id == FirstBy(PendingIds(c, ttl), AvailableAt(c))
  }

  /** No message is waiting to be delivered or redelivered; what is past its TTL is never delivered. */
  predicate NothingDue(c: C.Channel, ttl: int) {
    forall id :: id in c.msgs ==>
      var m := c.msgs[id];
      || (ttl > 0 && m.createdAt <= c.now - ttl)
      || (m.lease.status == L.Pending && m.lease.availableAt > c.now)
      || (m.lease.status == L.Processing && (m.lease.visibility.None? || m.lease.visibility.value >= c.now))
      || m.lease.status == L.Done
  }

  lemma NothingFound(c: C.Channel, ttl: int)
    requires PendingIds(c, ttl) == {} && TimedOutIds(c, ttl) == {}
    ensures NothingDue(c, ttl)
  {
    forall id | id in c.msgs
      ensures var m := c.msgs[id];
              || (ttl > 0 && m.createdAt <= c.now - ttl)
              || (m.lease.status == L.Pending && m.lease.availableAt > c.now)
              || (m.lease.status == L.Processing && (m.lease.visibility.None? || m.lease.visibility.value >= c.now))
              || m.lease.status == L.Done
    {
      assert id !in PendingIds(c, ttl) && id !in TimedOutIds(c, ttl);
    }
  }

  /** Pending, available and within its TTL. */
  predicate IsDue(c: C.Channel, ttl: int, id: Uuid) {
    && id in c.msgs && c.msgs[id].lease.status == L.Pending && c.msgs[id].lease.availableAt <= c.now
    && (ttl > 0 ==> c.msgs[id].createdAt > c.now - ttl)
  }

  /** The probe's row is due, and no due row comes before it by (available_at, id). */
  lemma NextPendingIsLeast(c: C.Channel, ttl: int, id: Uuid)
    requires IsNextPending(c, ttl, id)
    ensures IsDue(c, ttl, id)
    ensures forall j :: IsDue(c, ttl, j) && j != id ==>
              c.msgs[id].lease.availableAt < c.msgs[j].lease.availableAt
              || (c.msgs[id].lease.availableAt == c.msgs[j].lease.availableAt && id < j)
  {
    forall j | IsDue(c, ttl, j) && j != id
      ensures c.msgs[id].lease.availableAt < c.msgs[j].lease.availableAt
              || (c.msgs[id].lease.availableAt == c.msgs[j].lease.availableAt && id < j)
    {
      assert j in PendingIds(c, ttl);
    }
  }

  /** A timed-out row is handed out only when no pending one is ready. */
  predicate IsChoice(c: C.Channel, ttl: int, reclaim: bool, id: Uuid) {
    if reclaim then PendingIds(c, ttl) == {} else IsNextPending(c, ttl, id)
  }

  /** The timed-out messages in the order the reclaim probe meets them. */
  function Backlog(c: C.Channel, ttl: int): seq<Uuid> {
    OrderBy(TimedOutIds(c, ttl), VisibleAt(c))
  }

  /** In flight past its deadline, and within its TTL. */
  predicate IsLate(c: C.Channel, ttl: int, id: Uuid) {
    && id in c.msgs && c.msgs[id].lease.status == L.Processing && c.msgs[id].lease.visibility.Some?
    && c.msgs[id].lease.visibility.value < c.now && (ttl > 0 ==> c.msgs[id].createdAt > c.now - ttl)
  }

  /** The backlog is exactly the late rows, ordered by (visibility_timeout, id). */
  lemma BacklogIsOrdered(c: C.Channel, ttl: int)
    ensures var q := Backlog(c, ttl);
            && (forall id :: id in q <==> IsLate(c, ttl, id))
            && (forall i, j :: 0 <= i < j < |q| ==>
                  q[i] in c.msgs && q[j] in c.msgs && c.msgs[q[i]].lease.visibility.Some? && c.msgs[q[j]].lease.visibility.Some?
                  && var a, b := c.msgs[q[i]].lease.visibility.value, c.msgs[q[j]].lease.visibility.value;
                     a < b || (a == b && q[i] < q[j]))
  {
    var q := Backlog(c, ttl);
    forall i, j | 0 <= i < j < |q|
      ensures q[i] in c.msgs && q[j] in c.msgs && c.msgs[q[i]].lease.visibility.Some? && c.msgs[q[j]].lease.visibility.Some?
              && var a, b := c.msgs[q[i]].lease.visibility.value, c.msgs[q[j]].lease.visibility.value;
                 a < b || (a == b && q[i] < q[j])
    {
      assert q[i] in q && q[j] in q;
      assert Before(VisibleAt(c), q[i], q[j]);
    }
  }

  // ---------------------------------------------------------------- one skipped row

  /** A timed-out row put aside: deferred under the backoff policy, or dead-lettered. */
  predicate Skips(x: C.Action, id: Uuid, backoff: bool) {
    || (backoff && x.Row? && x.act.Defer? && x.act.k == id)
    || (x.Kill? && x.act == L.Bury(id) && x.reason == VisibilityTimeout)
  }

  /** Only row `id` differs, and it is no longer in flight. */
  ghost predicate PutAside(c: C.Channel, c': C.Channel, id: Uuid) {
    && c'.now == c.now && c'.minted == c.minted
    && c'.msgs.Keys - {id} == c.msgs.Keys - {id}
    && (forall j :: j in c.msgs && j != id ==> j in c'.msgs && c'.msgs[j] == c.msgs[j])
    && (id in c'.msgs ==> c'.msgs[id].lease.status == L.Pending)
    && KeepsDead(c, c')
  }

  ghost predicate KeepsDead(c: C.Channel, c': C.Channel) {
    forall d :: d in c.dlq ==> d in c'.dlq && c'.dlq[d] == c.dlq[d]
  }

  /** The row was put off until `ready`, the lost delivery counted. */
  predicate Deferred(was: C.Message, m: C.Message, ready: int) {
    && m.body == was.body && m.createdAt == was.createdAt && m.lease.limit == was.lease.limit && m.lease.error == was.lease.error
    && m.lease.status == L.Pending && m.lease.claim.None? && m.lease.visibility.None?
    && m.lease.retries == was.lease.retries + 1 && m.lease.availableAt == ready
  }

  /** What became of a timed-out row of `c` that was skipped: dead if its budget was spent, otherwise put
      off by the delay that the backoff policy computes from its new retry count. */
  ghost predicate Accounted(c: C.Channel, c': C.Channel, id: Uuid, attempt: nat, backoff: Option<(nat, nat) -> nat>)
    requires id in c.msgs
  {
    var l := c.msgs[id].lease;
    if l.retries + 1 > l.limit then id !in c'.msgs && Died(c, c', id, VisibilityTimeout)
    else backoff.Some? && id in c'.msgs && Deferred(c.msgs[id], c'.msgs[id], c.now + backoff.value(attempt, l.retries + 1))
  }

  lemma BacklogShrinks(c: C.Channel, c': C.Channel, id: Uuid, ttl: int)
    requires PutAside(c, c', id)
    ensures TimedOutIds(c', ttl) == TimedOutIds(c, ttl) - {id}
    ensures forall j :: j in VisibleAt(c) && j != id ==> j in VisibleAt(c') && VisibleAt(c')[j] == VisibleAt(c)[j]
  {
    forall j ensures j in TimedOutIds(c', ttl) <==> j in TimedOutIds(c, ttl) - {id} {
      assert j in c'.msgs.Keys - {id} <==> j in c.msgs.Keys - {id};
    }
    forall j | j in VisibleAt(c) && j != id ensures j in VisibleAt(c') && VisibleAt(c')[j] == VisibleAt(c)[j] {
      assert j in c.msgs.Keys - {id};
    }
  }

  /** The probe's first row among the remaining backlog is the next one of the original order. */
  lemma NextOfBacklog(s: set<Uuid>, key: map<Uuid, int>, queue: seq<Uuid>, order: map<Uuid, int>)
    requires s != {} && s <= key.Keys
    requires forall x :: x in s <==> x in queue
    requires forall x :: x in queue ==> x in order && x in key && key[x] == order[x]
    requires forall i, j :: 0 <= i < j < |queue| ==> Before(order, queue[i], queue[j])
    ensures queue != [] && FirstBy(s, key) == queue[0]
  {
    var m := FirstBy(s, key);
    assert m in queue;
    assert queue[0] in s;
    var i :| 0 <= i < |queue| && queue[i] == m;
    assert i == 0 || Before(order, queue[0], queue[i]);
  }

  // ---------------------------------------------------------------- the transaction

  /** The consumer holds the message it was given, and was told the truth about it. */
  predicate Handed(c: C.Channel, d: Delivered, visibility: nat) {
    && C.Owns(c, d.id, d.claim)
    && var m := c.msgs[d.id];
       && d == Delivered(d.id, d.claim, m.body, m.createdAt, m.lease.retries, m.lease.limit, m.lease.error, c.now + visibility)
       && m.lease.visibility == Some(d.deadline)
  }

  /** Hand row `id` out under a fresh claim. */
  method ClaimMessage(db: ChannelDb, id: Uuid, reclaim: bool, visibility: nat, ghost start: C.Channel, ghost before: seq<C.Action>)
    returns (d: Delivered, ghost trace: seq<C.Action>)
    requires db.Valid() && id in db.msgs && db.State() == C.Run(start, before)
    requires !reclaim ==> L.Eligible(db.msgs[id].lease, db.now)
    requires reclaim ==> L.TimedOut(db.msgs[id].lease, db.now) && !L.Exhausted(db.msgs[id].lease)
    modifies db
    ensures db.Valid()
    ensures d.claim !in old(db.minted)
    ensures trace == before + [C.Row(HandOut(id, d.claim, visibility, reclaim))] && db.State() == C.Run(start, trace)
    ensures d.id == id && Handed(db.State(), d, visibility)
    ensures d.createdAt == old(db.msgs)[id].createdAt && db.now == old(db.now)
  {
    var token := db.NextToken();
    ghost var x := C.Row(HandOut(id, token, visibility, reclaim));
    assert C.Enabled(db.State(), x);
    C.StepReaches(db.State(), x);
    C.RunSnoc(start, before, x);
    trace := before + [x];
    var m := db.msgs[id];
    var retries := if reclaim then m.lease.retries + 1 else m.lease.retries;
    db.msgs := db.msgs[id := m.(lease := m.lease.(
        status := L.Processing, retries := retries, claim := Some(token), visibility := Some(db.now + visibility)))];
    db.minted := db.minted + {token};
    d := Delivered(id, token, m.body, m.createdAt, retries, m.lease.limit, m.lease.error, db.now + visibility);
  }

  function HandOut(id: Uuid, token: Uuid, visibility: nat, reclaim: bool): L.Action {
    if reclaim then L.Reclaim(id, token, visibility) else L.Claim(id, token, visibility)
  }

  /** A timed-out row whose budget is spent goes to the DLQ. */
  method BuryTimedOut(db: ChannelDb, id: Uuid, ghost start: C.Channel, ghost before: seq<C.Action>) returns (ghost x: C.Action)
    requires db.Valid() && db.State() == C.Run(start, before)
    requires id in db.msgs && L.TimedOut(db.msgs[id].lease, db.now) && L.Exhausted(db.msgs[id].lease)
    modifies db
    ensures db.Valid() && db.State() == C.Run(start, before + [x])
    ensures Skips(x, id, false) && PutAside(old(db.State()), db.State(), id)
    ensures id !in db.msgs && Died(old(db.State()), db.State(), id, VisibilityTimeout)
  {
    var dlqId := db.NextDlqId();
    x := C.Kill(L.Bury(id), dlqId, VisibilityTimeout);
    C.StepReaches(db.State(), x);
    C.RunSnoc(start, before, x);
    db.MoveToDlq(id, VisibilityTimeout, dlqId);
    assert dlqId in db.dlq && dlqId !in old(db.dlq);
  }

  /** A timed-out row goes back to pending, to be available after the delay. */
  method DeferTimedOut(db: ChannelDb, id: Uuid, delay: nat, ghost start: C.Channel, ghost before: seq<C.Action>) returns (ghost x: C.Action)
    requires db.Valid() && db.State() == C.Run(start, before)
    requires id in db.msgs && L.TimedOut(db.msgs[id].lease, db.now) && !L.Exhausted(db.msgs[id].lease)
    modifies db
    ensures db.Valid() && db.State() == C.Run(start, before + [x])
    ensures x == C.Row(L.Defer(id, delay)) && PutAside(old(db.State()), db.State(), id)
    ensures id in db.msgs && Deferred(old(db.msgs)[id], db.msgs[id], old(db.now) + delay)
  {
    x := C.Row(L.Defer(id, delay));
    C.StepReaches(db.State(), x);
    C.RunSnoc(start, before, x);
    var m := db.msgs[id];
    db.msgs := db.msgs[id := m.(lease := m.lease.(
        status := L.Pending, claim := None, retries := m.lease.retries + 1, visibility := None, availableAt := db.now + delay))];
  }

  /** Account for one timed-out row. `skipped`: it was consumed here, not handed back for delivery. */
  method ReclaimAttempt(db: ChannelDb, id: Uuid, attempt: nat, backoff: Option<(nat, nat) -> nat>,
                        ghost start: C.Channel, ghost before: seq<C.Action>)
    returns (retries: nat, skipped: bool, ghost x: C.Action)
    requires db.State() == C.Run(start, before)
    requires db.Valid() && id in db.msgs && L.TimedOut(db.msgs[id].lease, db.now)
    modifies db
    ensures db.Valid()
    ensures skipped ==> Skips(x, id, backoff.Some?) && db.State() == C.Run(start, before + [x]) && PutAside(old(db.State()), db.State(), id)
    ensures skipped ==> Accounted(old(db.State()), db.State(), id, attempt, backoff)
    ensures !skipped ==> backoff.None? && db.State() == old(db.State())
    ensures !skipped ==> !L.Exhausted(db.msgs[id].lease) && retries == db.msgs[id].lease.retries + 1
  {
    retries := db.msgs[id].lease.retries + 1;
    if retries > db.msgs[id].lease.limit {
      x := BuryTimedOut(db, id, start, before);
      return 0, true, x;
    }
    if backoff.Some? {
      x := DeferTimedOut(db, id, backoff.value(attempt, retries), start, before);
      return 0, true, x;
    }
    return retries, false, C.Purge(NIL);
  }

  /** Every skipped row is the next of the old backlog, and is skipped once. */
  ghost predicate SkipsBacklog(trace: seq<C.Action>, backlog: seq<Uuid>, backoff: bool) {
    |trace| <= |backlog| && forall i :: 0 <= i < |trace| ==> Skips(trace[i], backlog[i], backoff)
  }

  /** The first `n` rows of the backlog have been accounted for. */
  ghost predicate AllAccounted(start: C.Channel, c: C.Channel, queue: seq<Uuid>, n: nat, backoff: Option<(nat, nat) -> nat>) {
    n <= |queue| && forall i :: 0 <= i < n ==> queue[i] in start.msgs && Accounted(start, c, queue[i], i, backoff)
  }

  /** The rows of `rest` are untouched. */
  ghost predicate Untouched(start: C.Channel, c: C.Channel, rest: seq<Uuid>) {
    forall x :: x in rest ==> x in start.msgs && x in c.msgs && c.msgs[x] == start.msgs[x]
  }

  /** After the skips of `trace`, the rest of the backlog `queue` is timed out still, its order unchanged. */
  ghost predicate Skipped(start: C.Channel, c: C.Channel, queue: seq<Uuid>, trace: seq<C.Action>, ttl: int,
                          backoff: Option<(nat, nat) -> nat>) {
    && c.now == start.now && c.minted == start.minted && KeepsDead(start, c)
    && SkipsBacklog(trace, queue, backoff.Some?)
    && (forall x :: x in TimedOutIds(c, ttl) <==> x in queue[|trace|..])
    && Untouched(start, c, queue[|trace|..])
    && AllAccounted(start, c, queue, |trace|, backoff)
  }

  ghost predicate IsOrdered(queue: seq<Uuid>, order: map<Uuid, int>) {
    && (forall x :: x in queue ==> x in order)
    && (forall i, j :: 0 <= i < j < |queue| ==> Before(order, queue[i], queue[j]))
  }

  lemma NextSkipped(start: C.Channel, c: C.Channel, queue: seq<Uuid>, trace: seq<C.Action>, ttl: int, backoff: Option<(nat, nat) -> nat>)
    requires Skipped(start, c, queue, trace, ttl, backoff) && IsOrdered(queue, VisibleAt(start)) && TimedOutIds(c, ttl) != {}
    ensures |trace| < |queue| && FirstBy(TimedOutIds(c, ttl), VisibleAt(c)) == queue[|trace|]
  {
    var rest := queue[|trace|..];
    forall i, j | 0 <= i < j < |rest| ensures Before(VisibleAt(start), rest[i], rest[j]) {
      assert rest[i] == queue[|trace| + i] && rest[j] == queue[|trace| + j];
    }
    assert forall x :: x in rest ==> x in queue;
    NextOfBacklog(TimedOutIds(c, ttl), VisibleAt(c), rest, VisibleAt(start));
  }

  lemma OrderedIsDistinct(queue: seq<Uuid>, order: map<Uuid, int>, n: nat)
    requires IsOrdered(queue, order) && n < |queue|
    ensures queue[n] !in queue[n + 1..]
  {
    var rest := queue[n + 1..];
    forall i | 0 <= i < |rest| ensures rest[i] != queue[n] {
      assert Before(order, queue[n], queue[n + 1 + i]);
    }
  }

  lemma SkipsMore(trace: seq<C.Action>, x: C.Action, backlog: seq<Uuid>, backoff: bool)
    requires SkipsBacklog(trace, backlog, backoff) && |trace| < |backlog| && Skips(x, backlog[|trace|], backoff)
    ensures SkipsBacklog(trace + [x], backlog, backoff)
  {
  }

  lemma SkipRest(start: C.Channel, c: C.Channel, c': C.Channel, rest: seq<Uuid>, id: Uuid, ttl: int)
    requires PutAside(c, c', id) && id !in rest && Untouched(start, c, rest)
    requires forall x :: x in TimedOutIds(c, ttl) <==> x == id || x in rest
    ensures forall x :: x in TimedOutIds(c', ttl) <==> x in rest
    ensures Untouched(start, c', rest)
  {
    BacklogShrinks(c, c', id, ttl);
  }

  /** A row skipped earlier stays as it was left. */
  lemma StaysAccounted(start: C.Channel, c: C.Channel, c': C.Channel, was: Uuid, id: Uuid, attempt: nat, backoff: Option<(nat, nat) -> nat>)
    requires was in start.msgs && Accounted(start, c, was, attempt, backoff) && PutAside(c, c', id) && was != id
    ensures Accounted(start, c', was, attempt, backoff)
  {
    assert was in c'.msgs.Keys - {id} <==> was in c.msgs.Keys - {id};
    if was !in c.msgs {
      var d :| d in c.dlq && d !in start.dlq
               && c.dlq[d] == DeadLetter(was, None, start.msgs[was].body, VisibilityTimeout, start.msgs[was].lease.retries + 1, start.now);
      assert d in c'.dlq && c'.dlq[d] == c.dlq[d];
    }
  }

  /** The row just skipped was as at the start. */
  lemma NowAccounted(start: C.Channel, c: C.Channel, c': C.Channel, id: Uuid, attempt: nat, backoff: Option<(nat, nat) -> nat>)
    requires id in start.msgs && id in c.msgs && c.msgs[id] == start.msgs[id] && c.now == start.now && KeepsDead(start, c)
    requires Accounted(c, c', id, attempt, backoff)
    ensures Accounted(start, c', id, attempt, backoff)
  {
    if id !in c'.msgs {
      var d :| d in c'.dlq && d !in c.dlq
               && c'.dlq[d] == DeadLetter(id, None, c.msgs[id].body, VisibilityTimeout, c.msgs[id].lease.retries + 1, c.now);
      assert d !in start.dlq;
    }
  }

  lemma SkipAccounts(start: C.Channel, c: C.Channel, c': C.Channel, queue: seq<Uuid>, n: nat, backoff: Option<(nat, nat) -> nat>)
    requires n < |queue| && IsOrdered(queue, VisibleAt(start)) && AllAccounted(start, c, queue, n, backoff)
    requires queue[n] in start.msgs && queue[n] in c.msgs && c.msgs[queue[n]] == start.msgs[queue[n]]
    requires c.now == start.now && KeepsDead(start, c) && PutAside(c, c', queue[n]) && Accounted(c, c', queue[n], n, backoff)
    ensures AllAccounted(start, c', queue, n + 1, backoff)
  {
    forall i | 0 <= i < n + 1 ensures queue[i] in start.msgs && Accounted(start, c', queue[i], i, backoff) {
      if i < n {
        assert Before(VisibleAt(start), queue[i], queue[n]);
        StaysAccounted(start, c, c', queue[i], queue[n], i, backoff);
      } else {
        NowAccounted(start, c, c', queue[n], n, backoff);
      }
    }
  }

  lemma SkipOne(start: C.Channel, c: C.Channel, c': C.Channel, queue: seq<Uuid>, trace: seq<C.Action>, x: C.Action, ttl: int,
                backoff: Option<(nat, nat) -> nat>)
    requires Skipped(start, c, queue, trace, ttl, backoff) && IsOrdered(queue, VisibleAt(start)) && |trace| < |queue|
    requires Skips(x, queue[|trace|], backoff.Some?) && PutAside(c, c', queue[|trace|])
    requires queue[|trace|] in c.msgs && Accounted(c, c', queue[|trace|], |trace|, backoff)
    ensures Skipped(start, c', queue, trace + [x], ttl, backoff)
  {
    var n := |trace|;
    SkipsMore(trace, x, queue, backoff.Some?);
    TailOf(queue, n);
    OrderedIsDistinct(queue, VisibleAt(start), n);
    SkipRest(start, c, c', queue[n + 1..], queue[n], ttl);
    SkipAccounts(start, c, c', queue, n, backoff);
  }

  lemma TailOf(queue: seq<Uuid>, n: nat)
    requires n < |queue|
    ensures forall x :: x in queue[n..] <==> x == queue[n] || x in queue[n + 1..]
  {
    assert queue[n..] == [queue[n]] + queue[n + 1..];
  }

  lemma BacklogAtStart(c: C.Channel, ttl: int, backoff: Option<(nat, nat) -> nat>)
    ensures IsOrdered(Backlog(c, ttl), VisibleAt(c)) && Skipped(c, c, Backlog(c, ttl), [], ttl, backoff)
  {
    assert Backlog(c, ttl)[0..] == Backlog(c, ttl);
  }

  /** Why the scan stopped. */
  datatype Stop = PendingReady | Nothing | Reclaimable(id: Uuid) | CapReached

  /** The next row of the backlog, put aside or found deliverable. */
  method TryNext(db: ChannelDb, ttl: int, attempt: nat, backoff: Option<(nat, nat) -> nat>,
                 ghost start: C.Channel, ghost queue: seq<Uuid>, ghost trace: seq<C.Action>)
    returns (id: Uuid, skipped: bool, ghost x: C.Action)
    requires db.Valid() && db.State() == C.Run(start, trace) && IsOrdered(queue, VisibleAt(start)) && attempt == |trace|
    requires Skipped(start, db.State(), queue, trace, ttl, backoff) && TimedOutIds(db.State(), ttl) != {}
    modifies db
    ensures db.Valid() && |trace| < |queue| && id == queue[|trace|]
    ensures skipped ==> db.State() == C.Run(start, trace + [x]) && Skipped(start, db.State(), queue, trace + [x], ttl, backoff)
    ensures !skipped ==> db.State() == old(db.State()) && backoff.None?
    ensures !skipped ==> id in TimedOutIds(db.State(), ttl) && !L.Exhausted(db.msgs[id].lease)
  {
    id := FirstBy(TimedOutIds(db.State(), ttl), VisibleAt(db.State()));
    NextSkipped(start, db.State(), queue, trace, ttl, backoff);
    ghost var before := db.State();
    var retries;
    retries, skipped, x := ReclaimAttempt(db, id, attempt, backoff, start, trace);
    if skipped {
      SkipOne(start, before, db.State(), queue, trace, x, ttl, backoff);
    }
  }

  /** Put timed-out rows aside until a row can be delivered, none is left, or 64 were put aside. */
  method ScanBacklog(db: ChannelDb, ttl: int, backoff: Option<(nat, nat) -> nat>)
    returns (stop: Stop, skips: nat, ghost trace: seq<C.Action>)
    requires db.Valid()
    modifies db
    ensures db.Valid() && db.State() == C.Run(old(db.State()), trace) && db.minted == old(db.minted)
    ensures SkipsBacklog(trace, Backlog(old(db.State()), ttl), backoff.Some?)
    ensures AllAccounted(old(db.State()), db.State(), Backlog(old(db.State()), ttl), |trace|, backoff)
    ensures skips == |trace| <= MAX_RECLAIM_DEFERS && (stop.CapReached? <==> skips == MAX_RECLAIM_DEFERS)
    ensures PendingIds(old(db.State()), ttl) != {} ==> stop.PendingReady? && skips == 0
    ensures stop.PendingReady? ==> PendingIds(db.State(), ttl) != {}
    ensures stop.Nothing? ==> PendingIds(db.State(), ttl) == {} && TimedOutIds(db.State(), ttl) == {}
    ensures stop.Reclaimable? ==>
              && PendingIds(db.State(), ttl) == {}
              && backoff.None? && skips < |Backlog(old(db.State()), ttl)| && stop.id == Backlog(old(db.State()), ttl)[skips]
              && stop.id in TimedOutIds(db.State(), ttl) && !L.Exhausted(db.msgs[stop.id].lease)
  {
    skips, trace := 0, [];
    ghost var start, queue := db.State(), Backlog(db.State(), ttl);
    BacklogAtStart(start, ttl, backoff);
    while true
      invariant db.Valid() && db.State() == C.Run(start, trace)
      invariant Skipped(start, db.State(), queue, trace, ttl, backoff)
      invariant skips == |trace| < MAX_RECLAIM_DEFERS
      invariant skips == 0 ==> db.State() == start
      invariant skips > 0 ==> PendingIds(start, ttl) == {}
      decreases MAX_RECLAIM_DEFERS - skips
    {
      if PendingIds(db.State(), ttl) != {} {
        return PendingReady, skips, trace;
      }
      if TimedOutIds(db.State(), ttl) == {} {
        return Nothing, skips, trace;
      }
      var id, skipped, x := TryNext(db, ttl, skips, backoff, start, queue, trace);
      if !skipped {
        return Reclaimable(id), skips, trace;
      }
      skips, trace := skips + 1, trace + [x];
      if skips >= MAX_RECLAIM_DEFERS {
        return CapReached, skips, trace;
      }
    }
  }

  /** Deliver the chosen row. */
  method HandChoice(db: ChannelDb, id: Uuid, reclaim: bool, visibility: nat, ttl: int, ghost start: C.Channel, ghost scan: seq<C.Action>)
    returns (d: Delivered, ghost trace: seq<C.Action>)
    requires db.Valid() && db.State() == C.Run(start, scan) && IsChoice(db.State(), ttl, reclaim, id)
    requires reclaim ==> id in TimedOutIds(db.State(), ttl) && !L.Exhausted(db.msgs[id].lease)
    modifies db
    ensures db.Valid() && d.id == id && d.claim !in old(db.minted) && Handed(db.State(), d, visibility)
    ensures trace == scan + [C.Row(HandOut(id, d.claim, visibility, reclaim))] && db.State() == C.Run(start, trace)
    ensures ttl > 0 ==> d.createdAt > db.now - ttl
  {
    assert ttl > 0 ==> db.msgs[id].createdAt > db.now - ttl;
    d, trace := ClaimMessage(db, id, reclaim, visibility, start, scan);
  }

  /**
   One consume call.
   - A pending, available message is delivered before anything else, also one that a skip has just made
     available: the first by (available_at, id).
   - Otherwise timed-out messages are met in (visibility_timeout, id) order, each counted once; at
     most 64 are put aside.
   - `ready` is the state after the skips, in which the choice is made.
   - An empty answer after fewer than 64 skips means nothing deliverable is left.
   */
  method FetchPending(db: ChannelDb, visibility: nat, ttl: int, backoff: Option<(nat, nat) -> nat>)
    returns (got: Option<Delivered>, skips: nat, ghost reclaim: bool, ghost trace: seq<C.Action>, ghost ready: C.Channel)
    requires db.Valid()
    modifies db
    ensures db.Valid() && db.State() == C.Run(old(db.State()), trace)
    ensures skips <= MAX_RECLAIM_DEFERS && skips <= |trace| == skips + if got.Some? then 1 else 0
    ensures SkipsBacklog(trace[..skips], Backlog(old(db.State()), ttl), backoff.Some?)
    ensures ready == C.Run(old(db.State()), trace[..skips])
    ensures AllAccounted(old(db.State()), ready, Backlog(old(db.State()), ttl), skips, backoff)
    ensures PendingIds(old(db.State()), ttl) != {} ==> got.Some? && skips == 0 && !reclaim
    ensures got.None? && skips < MAX_RECLAIM_DEFERS ==> NothingDue(db.State(), ttl)
    ensures got.Some? && ttl > 0 ==> got.value.createdAt > db.now - ttl
    ensures got.Some? ==> got.value.claim !in old(db.minted) && Handed(db.State(), got.value, visibility)
    ensures got.Some? ==> trace[skips] == C.Row(HandOut(got.value.id, got.value.claim, visibility, reclaim))
    ensures got.Some? ==> IsChoice(ready, ttl, reclaim, got.value.id)
    ensures got.Some? && reclaim ==> skips < |Backlog(old(db.State()), ttl)| && got.value.id == Backlog(old(db.State()), ttl)[skips]
  {
    ghost var start := db.State();
    var stop;
    ghost var scan;
    stop, skips, scan := ScanBacklog(db, ttl, backoff);
    trace, reclaim, ready := scan, stop.Reclaimable?, db.State();
    assert trace[..skips] == scan;
    if stop.Nothing? {
      NothingFound(db.State(), ttl);
    }
    if stop.Nothing? || stop.CapReached? {
      return None, skips, reclaim, trace, ready;
    }
    var id := if stop.PendingReady? then FirstBy(PendingIds(db.State(), ttl), AvailableAt(db.State())) else stop.id;
    var d;
    d, trace := HandChoice(db, id, stop.Reclaimable?, visibility, ttl, start, scan);
    assert trace[..skips] == scan;
    got := Some(d);
  }
}
