/**
 The in-memory test double of a channel, as a simulation of the channel machine run with zero backoff
 and no timeouts: every operation of the fake is matched by a run of channel actions that ends in a
 matching state.
 */
module Fake {
  import opened Basics
  import U = UuidV7
  import L = Lease
  import C = Channel
  import Consume = ChannelConsume

  /** `claim` is the nil id while the message is not in flight. */
  datatype Entry = Entry(id: Uuid, claim: Uuid, body: Body, retries: nat)

  predicate HasId(q: seq<Entry>, id: Uuid) {
    exists i :: 0 <= i < |q| && q[i].id == id
  }

  predicate DistinctIds(q: seq<Entry>) {
    forall i, j :: 0 <= i < j < |q| ==> q[i].id != q[j].id
  }

  predicate SortedById(q: seq<Entry>) {
    forall i, j :: 0 <= i < j < |q| ==> q[i].id < q[j].id
  }

  /** The byte-wise comparison of two UUIDs decides their byte order. */
  method BytesLess(a: Bytes, b: Bytes) returns (less: bool)
    requires |a| == |b|
    ensures less <==> U.Less(a, b)
  {
    for i := 0 to |a|
      invariant a[..i] == b[..i]
    {
      if a[i] != b[i] {
        if a[i] > b[i] {
          U.LessIsStrict(b, a);
        }
        return a[i] < b[i];
      }
    }
    return false;
  }

  // ---------------------------------------------------------------- the simulation relation

  /** A message waiting in both. */
  predicate Waits(e: Entry, m: C.Message, limit: nat, now: int) {
    m.body == e.body && m.lease.status == L.Pending && m.lease.retries == e.retries && m.lease.limit == limit && m.lease.availableAt <= now
  }

  /** A message in flight in both, under the same claim. */
  predicate Flies(e: Entry, m: C.Message, limit: nat) {
    m.body == e.body && L.HeldUnder(m.lease, e.claim) && m.lease.retries == e.retries && m.lease.limit == limit
  }

  /** A dead letter in both; the channel's row counts the last delivery too. */
  predicate Died(e: Entry, row: DeadLetter) {
    row.original == e.id && row.body == e.body && row.retries == e.retries + 1
  }

  /** The dead letters correspond one to one: entry `i` is row `names[i]`. */
  ghost predicate SameDead(dlq: seq<Entry>, rows: map<Uuid, DeadLetter>, names: seq<Uuid>) {
    && |names| == |dlq| && (forall i, j :: 0 <= i < j < |names| ==> names[i] != names[j])
    && (forall d :: d in rows <==> d in names)
    && (forall i :: 0 <= i < |names| ==> Died(dlq[i], rows[names[i]]))
  }

  ghost predicate SameLive(pending: seq<Entry>, claimed: map<Uuid, Entry>, limit: nat, c: C.Channel) {
    && (forall id :: id in c.msgs <==> HasId(pending, id) || id in claimed)
    && (forall i :: 0 <= i < |pending| ==> Waits(pending[i], c.msgs[pending[i].id], limit, c.now))
    && (forall id :: id in claimed ==> Flies(claimed[id], c.msgs[id], limit))
  }

  /** Each id is in one place only. */
  ghost predicate Separate(pending: seq<Entry>, claimed: map<Uuid, Entry>, dlq: seq<Entry>) {
    && DistinctIds(pending) && DistinctIds(dlq)
    && (forall id :: id in claimed ==> claimed[id].id == id && !HasId(pending, id) && !HasId(dlq, id))
    && (forall id :: HasId(pending, id) ==> !HasId(dlq, id))
    && !HasId(pending, NIL) && NIL !in claimed
  }

  /** How many entries come before the first one whose id is not smaller. */
  function Position(q: seq<Entry>, id: Uuid): (at: nat)
    ensures at <= |q| && (forall i :: 0 <= i < at ==> q[i].id < id) && (at < |q| ==> q[at].id >= id)
  {
    if q == [] || q[0].id >= id then 0 else 1 + Position(q[1..], id)
  }

  lemma PositionIsUnique(q: seq<Entry>, id: Uuid, at: nat)
    requires at <= |q| && (forall i :: 0 <= i < at ==> q[i].id < id) && (at < |q| ==> q[at].id >= id)
    ensures at == Position(q, id)
  {
  }

  function Inserted(q: seq<Entry>, e: Entry): seq<Entry> {
    var at := Position(q, e.id);
    q[..at] + [e] + q[at..]
  }

  lemma InsertedIsSorted(q: seq<Entry>, e: Entry)
    requires SortedById(q) && !HasId(q, e.id)
    ensures SortedById(Inserted(q, e))
  {
    var at := Position(q, e.id);
    assert at < |q| ==> HasId(q, q[at].id);
  }

  /** `pending` with `e` before the first greater id. */
  method InsertSortedById(pending: seq<Entry>, e: Entry) returns (q: seq<Entry>)
    requires !HasId(pending, e.id)
    ensures q == Inserted(pending, e)
    ensures SortedById(pending) ==> SortedById(q)
  {
    var i := 0;
    while i < |pending| && pending[i].id < e.id
      invariant 0 <= i <= |pending| && forall k :: 0 <= k < i ==> pending[k].id < e.id
    {
      i := i + 1;
    }
    PositionIsUnique(pending, e.id, i);
    if SortedById(pending) {
      InsertedIsSorted(pending, e);
    }
    return pending[..i] + [e] + pending[i..];
  }

  lemma InsertedAt(pending: seq<Entry>, e: Entry, at: nat, q: seq<Entry>)
    requires at <= |pending| && q == pending[..at] + [e] + pending[at..]
    ensures |q| == |pending| + 1 && q[at] == e
    ensures forall i :: 0 <= i < at ==> q[i] == pending[i]
    ensures forall i :: at < i < |q| ==> q[i] == pending[i - 1]
  {
  }

  lemma InsertedHas(pending: seq<Entry>, e: Entry, at: nat, q: seq<Entry>, id: Uuid)
    requires at <= |pending| && q == pending[..at] + [e] + pending[at..]
    ensures HasId(q, id) <==> HasId(pending, id) || id == e.id
  {
    InsertedAt(pending, e, at, q);
    if HasId(pending, id) {
      var i :| 0 <= i < |pending| && pending[i].id == id;
      assert q[if i < at then i else i + 1].id == id;
    }
    if HasId(q, id) {
      var i :| 0 <= i < |q| && q[i].id == id;
      assert i != at ==> pending[if i < at then i else i - 1].id == id;
    }
  }

  lemma InsertedIds(pending: seq<Entry>, e: Entry, at: nat, q: seq<Entry>)
    requires at <= |pending| && q == pending[..at] + [e] + pending[at..]
    ensures forall id :: HasId(q, id) <==> HasId(pending, id) || id == e.id
    ensures DistinctIds(pending) && !HasId(pending, e.id) ==> DistinctIds(q)
  {
    forall id ensures HasId(q, id) <==> HasId(pending, id) || id == e.id {
      InsertedHas(pending, e, at, q, id);
    }
    if DistinctIds(pending) && !HasId(pending, e.id) {
      InsertedDistinct(pending, e, at, q);
    }
  }

  lemma InsertedDistinct(pending: seq<Entry>, e: Entry, at: nat, q: seq<Entry>)
    requires at <= |pending| && q == pending[..at] + [e] + pending[at..] && DistinctIds(pending) && !HasId(pending, e.id)
    ensures DistinctIds(q)
  {
    InsertedAt(pending, e, at, q);
    forall i, j | 0 <= i < j < |q| ensures q[i].id != q[j].id {
      assert i != at ==> q[i] == pending[if i < at then i else i - 1];
      assert j != at ==> q[j] == pending[if j < at then j else j - 1];
    }
  }

  /** The fake's state for one channel. */
  datatype State = State(pending: seq<Entry>, claimed: map<Uuid, Entry>, dlq: seq<Entry>, limit: nat)

  ghost predicate Sim(f: State, c: C.Channel, names: seq<Uuid>) {
    && Separate(f.pending, f.claimed, f.dlq)
    && SameLive(f.pending, f.claimed, f.limit, c)
    && SameDead(f.dlq, c.dlq, names)
  }

  /** The fake refuses an id it still knows, in its DLQ included. */
  predicate Knows(f: State, id: Uuid) {
    HasId(f.pending, id) || id in f.claimed || HasId(f.dlq, id)
  }

  lemma SnocIds(q: seq<Entry>, e: Entry)
    ensures forall id :: HasId(q + [e], id) <==> HasId(q, id) || id == e.id
    ensures DistinctIds(q) && !HasId(q, e.id) ==> DistinctIds(q + [e])
  {
    InsertedIds(q, e, |q|, q + [e]);
    assert q[..|q|] + [e] + q[|q|..] == q + [e];
  }

  // ---------------------------------------------------------------- operation by operation

  lemma SimPublish(f: State, c: C.Channel, names: seq<Uuid>, id: Uuid, body: Body)
    requires Sim(f, c, names) && id != NIL && !Knows(f, id)
    ensures Sim(f.(pending := f.pending + [Entry(id, NIL, body, 0)]), C.Apply(c, C.Publish(id, body, f.limit)), names)
  {
    SnocIds(f.pending, Entry(id, NIL, body, 0));
    var q := f.pending + [Entry(id, NIL, body, 0)];
    forall i | 0 <= i < |f.pending| ensures q[i] == f.pending[i] && q[i].id != id {
      assert HasId(f.pending, f.pending[i].id);
    }
  }

  lemma TailIds(q: seq<Entry>)
    requires q != [] && DistinctIds(q)
    ensures DistinctIds(q[1..]) && forall id :: HasId(q[1..], id) <==> HasId(q, id) && id != q[0].id
  {
    assert forall i :: 0 <= i < |q| - 1 ==> q[1..][i] == q[i + 1];
    forall id | HasId(q, id) && id != q[0].id ensures HasId(q[1..], id) {
      var i :| 0 <= i < |q| && q[i].id == id;
      assert q[1..][i - 1].id == id;
    }
  }

  function ClaimedMessage(m: C.Message, token: Uuid, lease: nat, now: int): C.Message {
    m.(lease := L.Claimed(m.lease, m.lease.retries, token, lease, now))
  }

  lemma ClaimEffect(c: C.Channel, id: Uuid, token: Uuid, lease: nat)
    requires id in c.msgs && L.Eligible(c.msgs[id].lease, c.now) && token != NIL && token !in c.minted
    ensures var x := C.Row(L.Claim(id, token, lease));
            C.Enabled(c, x) && C.Apply(c, x) ==
              c.(msgs := c.msgs[id := ClaimedMessage(c.msgs[id], token, lease, c.now)], minted := c.minted + {token})
  {
  }

  lemma ClaimLive(f: State, c: C.Channel, token: Uuid, lease: nat, m: C.Message)
    requires Separate(f.pending, f.claimed, f.dlq) && SameLive(f.pending, f.claimed, f.limit, c) && f.pending != []
    requires Flies(f.pending[0].(claim := token), m, f.limit)
    ensures var e := f.pending[0];
            && Separate(f.pending[1..], f.claimed[e.id := e.(claim := token)], f.dlq)
            && SameLive(f.pending[1..], f.claimed[e.id := e.(claim := token)], f.limit, c.(msgs := c.msgs[e.id := m]))
  {
    assert HasId(f.pending, f.pending[0].id);
    TailIds(f.pending);
    assert forall i :: 0 <= i < |f.pending| - 1 ==> f.pending[1..][i] == f.pending[i + 1];
  }

  lemma SimClaim(f: State, c: C.Channel, names: seq<Uuid>, token: Uuid, lease: nat)
    requires Sim(f, c, names) && f.pending != [] && token != NIL && token !in c.minted
    ensures var e := f.pending[0];
            var x := C.Row(L.Claim(e.id, token, lease));
            C.Enabled(c, x) &&
            Sim(f.(pending := f.pending[1..], claimed := f.claimed[e.id := e.(claim := token)]), C.Apply(c, x), names)
  {
    var e := f.pending[0];
    assert HasId(f.pending, e.id);
    assert Waits(e, c.msgs[e.id], f.limit, c.now);
    ClaimEffect(c, e.id, token, lease);
    ClaimLive(f, c, token, lease, ClaimedMessage(c.msgs[e.id], token, lease, c.now));
  }

  lemma AckEffect(c: C.Channel, id: Uuid, claim: Uuid)
    requires id in c.msgs && L.HeldUnder(c.msgs[id].lease, claim)
    ensures var c1 := C.Apply(c, C.Row(L.Ack(id, claim)));
            C.Enabled(c, C.Row(L.Ack(id, claim))) && C.Enabled(c1, C.Purge(id)) && C.Apply(c1, C.Purge(id)) == c.(msgs := c.msgs - {id})
  {
    assert C.Apply(C.Apply(c, C.Row(L.Ack(id, claim))), C.Purge(id)).msgs == c.msgs - {id};
  }

  /** An acked message is gone from the fake at once; the channel keeps it until a purge. */
  lemma SimAck(f: State, c: C.Channel, names: seq<Uuid>, id: Uuid, claim: Uuid)
    requires Sim(f, c, names) && id in f.claimed && f.claimed[id].claim == claim
    ensures var c1 := C.Apply(c, C.Row(L.Ack(id, claim)));
            C.Enabled(c, C.Row(L.Ack(id, claim))) && C.Enabled(c1, C.Purge(id)) &&
            Sim(f.(claimed := f.claimed - {id}), C.Apply(c1, C.Purge(id)), names)
  {
    assert Flies(f.claimed[id], c.msgs[id], f.limit);
    AckEffect(c, id, claim);
  }

  /** The entry as a retry puts it back. */
  function Back(e: Entry): Entry {
    e.(claim := NIL, retries := e.retries + 1)
  }

  function RetriedMessage(m: C.Message, reason: Bytes, now: int): C.Message {
    m.(lease := L.Returned(m.lease).(availableAt := now, error := Some(reason)))
  }

  lemma RetryEffect(c: C.Channel, id: Uuid, claim: Uuid, reason: Bytes)
    requires id in c.msgs && L.HeldUnder(c.msgs[id].lease, claim) && !L.Exhausted(c.msgs[id].lease)
    ensures var x := C.Row(L.Retry(id, claim, 0, reason));
            C.Enabled(c, x) && C.Apply(c, x) == c.(msgs := c.msgs[id := RetriedMessage(c.msgs[id], reason, c.now)])
  {
  }

  lemma RetryLive(f: State, c: C.Channel, id: Uuid, m: C.Message)
    requires Separate(f.pending, f.claimed, f.dlq) && SameLive(f.pending, f.claimed, f.limit, c) && id in f.claimed
    requires Waits(Back(f.claimed[id]), m, f.limit, c.now)
    ensures var q := Inserted(f.pending, Back(f.claimed[id]));
            Separate(q, f.claimed - {id}, f.dlq) && SameLive(q, f.claimed - {id}, f.limit, c.(msgs := c.msgs[id := m]))
  {
    var e := Back(f.claimed[id]);
    var q := Inserted(f.pending, e);
    InsertedIds(f.pending, e, Position(f.pending, e.id), q);
    RetryWaits(f, c, id, m);
  }

  lemma RetryWaits(f: State, c: C.Channel, id: Uuid, m: C.Message)
    requires Separate(f.pending, f.claimed, f.dlq) && SameLive(f.pending, f.claimed, f.limit, c) && id in f.claimed
    requires Waits(Back(f.claimed[id]), m, f.limit, c.now)
    ensures var q := Inserted(f.pending, Back(f.claimed[id]));
            forall i :: 0 <= i < |q| ==> q[i].id in c.msgs[id := m] && Waits(q[i], c.msgs[id := m][q[i].id], f.limit, c.now)
  {
    var e := Back(f.claimed[id]);
    var q, at := Inserted(f.pending, e), Position(f.pending, e.id);
    forall i | 0 <= i < |q| ensures q[i].id in c.msgs[id := m] && Waits(q[i], c.msgs[id := m][q[i].id], f.limit, c.now) {
      if i != at {
        var k := if i < at then i else i - 1;
        assert q[i] == f.pending[k] && HasId(f.pending, f.pending[k].id);
        assert Waits(f.pending[k], c.msgs[f.pending[k].id], f.limit, c.now);
      }
    }
  }

  lemma SimRetry(f: State, c: C.Channel, names: seq<Uuid>, id: Uuid, claim: Uuid, reason: Bytes)
    requires Sim(f, c, names) && id in f.claimed && f.claimed[id].claim == claim && f.claimed[id].retries + 1 <= f.limit
    ensures var x := C.Row(L.Retry(id, claim, 0, reason));
            C.Enabled(c, x) && Sim(f.(pending := Inserted(f.pending, Back(f.claimed[id])), claimed := f.claimed - {id}), C.Apply(c, x), names)
  {
    assert Flies(f.claimed[id], c.msgs[id], f.limit);
    RetryEffect(c, id, claim, reason);
    RetryLive(f, c, id, RetriedMessage(c.msgs[id], reason, c.now));
  }

  lemma BuryEffect(c: C.Channel, id: Uuid, claim: Uuid, reason: Bytes, d: Uuid)
    requires id in c.msgs && L.HeldUnder(c.msgs[id].lease, claim) && L.Exhausted(c.msgs[id].lease) && d != NIL && d !in c.dlq
    ensures var x := C.Kill(L.BuryClaimed(id, claim), d, Reported(reason));
            C.Enabled(c, x) && C.Apply(c, x) ==
              c.(msgs := c.msgs - {id}, dlq := c.dlq[d := C.DeadLetterOf(id, c.msgs[id], Reported(reason), c.now)])
  {
  }

  lemma BuryDead(dlq: seq<Entry>, rows: map<Uuid, DeadLetter>, names: seq<Uuid>, e: Entry, d: Uuid, row: DeadLetter)
    requires SameDead(dlq, rows, names) && d !in rows && Died(e, row)
    ensures SameDead(dlq + [e], rows[d := row], names + [d])
  {
  }

  lemma SimBury(f: State, c: C.Channel, names: seq<Uuid>, id: Uuid, claim: Uuid, reason: Bytes, d: Uuid)
    requires Sim(f, c, names) && id in f.claimed && f.claimed[id].claim == claim && f.claimed[id].retries + 1 > f.limit
    requires d != NIL && d !in c.dlq
    ensures var x := C.Kill(L.BuryClaimed(id, claim), d, Reported(reason));
            C.Enabled(c, x) && Sim(f.(claimed := f.claimed - {id}, dlq := f.dlq + [f.claimed[id]]), C.Apply(c, x), names + [d])
  {
    assert Flies(f.claimed[id], c.msgs[id], f.limit);
    BuryEffect(c, id, claim, reason, d);
    BuryDead(f.dlq, c.dlq, names, f.claimed[id], d, C.DeadLetterOf(id, c.msgs[id], Reported(reason), c.now));
    SnocIds(f.dlq, f.claimed[id]);
  }

  lemma SimTick(f: State, c: C.Channel, names: seq<Uuid>, span: nat)
    requires Sim(f, c, names)
    ensures Sim(f, C.Apply(c, C.Row(L.Tick(span))), names)
  {
  }

  // ---------------------------------------------------------------- when both choose the same message

  function Available(c: C.Channel, id: Uuid): int {
    if id in c.msgs then c.msgs[id].lease.availableAt else 0
  }

  lemma PendingInBoth(f: State, c: C.Channel, names: seq<Uuid>, id: Uuid)
    requires Sim(f, c, names)
    ensures id in Consume.PendingIds(c, 0) <==> HasId(f.pending, id)
  {
    if HasId(f.pending, id) {
      var i :| 0 <= i < |f.pending| && f.pending[i].id == id;
      assert Waits(f.pending[i], c.msgs[id], f.limit, c.now);
    }
    if id in f.claimed {
      assert Flies(f.claimed[id], c.msgs[id], f.limit);
    }
  }

  /** The message the channel would deliver next. */
  ghost function Next(c: C.Channel): Option<Uuid> {
    var ready := Consume.PendingIds(c, 0);
    if ready == {} then None else Some(FirstBy(ready, Consume.AvailableAt(c)))
  }

  /** No waiting message became available before the head did. */
  ghost predicate HeadIsOldest(f: State, c: C.Channel) {
    forall i :: 0 <= i < |f.pending| ==> Available(c, f.pending[0].id) <= Available(c, f.pending[i].id)
  }

  lemma HeadIsNext(f: State, c: C.Channel, names: seq<Uuid>)
    requires Sim(f, c, names) && SortedById(f.pending) && f.pending != [] && HeadIsOldest(f, c)
    ensures Next(c) == Some(f.pending[0].id)
  {
    var head := f.pending[0].id;
    assert HasId(f.pending, head);
    PendingInBoth(f, c, names, head);
    var first := FirstBy(Consume.PendingIds(c, 0), Consume.AvailableAt(c));
    PendingInBoth(f, c, names, first);
    var i :| 0 <= i < |f.pending| && f.pending[i].id == first;
    assert Available(c, head) <= Available(c, f.pending[i].id);
  }

  lemma NextIsOldest(f: State, c: C.Channel, names: seq<Uuid>)
    requires Sim(f, c, names) && f.pending != [] && Next(c) == Some(f.pending[0].id)
    ensures HeadIsOldest(f, c)
  {
    forall i | 0 <= i < |f.pending| ensures Available(c, f.pending[0].id) <= Available(c, f.pending[i].id) {
      var id := f.pending[i].id;
      assert HasId(f.pending, id);
      PendingInBoth(f, c, names, id);
    }
  }

  /** The fake delivers what the channel would if and only if no waiting message became available
      before the fake's head. */
  lemma NextAgreesIff(f: State, c: C.Channel, names: seq<Uuid>)
    requires Sim(f, c, names) && SortedById(f.pending) && f.pending != []
    ensures Next(c) == Some(f.pending[0].id) <==> HeadIsOldest(f, c)
  {
    if HeadIsOldest(f, c) {
      HeadIsNext(f, c, names);
    } else if Next(c) == Some(f.pending[0].id) {
      NextIsOldest(f, c, names);
    }
  }

  // ---------------------------------------------------------------- runs of both

  datatype Op =
    | Publish(id: Uuid, body: Body)
    | Claim(token: Uuid, lease: nat)
    | Ack(id: Uuid, claim: Uuid)
    | Nack(id: Uuid, claim: Uuid, reason: Bytes, d: Uuid)
    | Tick(span: nat)

  /** The fake and the channel side by side. */
  datatype Pair = Pair(fake: State, channel: C.Channel, names: seq<Uuid>)

  predicate Holds(f: State, id: Uuid, claim: Uuid) {
    id in f.claimed && f.claimed[id].claim == claim
  }

  /** A retry or the dead-letter queue, by the budget. */
  predicate Spent(f: State, id: Uuid)
    requires id in f.claimed
  {
    f.claimed[id].retries + 1 > f.limit
  }

  predicate Fires(p: Pair, op: Op) {
    match op
    case Publish(id, _) => id != NIL && !Knows(p.fake, id)
    case Claim(token, _) => p.fake.pending != [] && token != NIL && token !in p.channel.minted
    case Ack(id, claim) => Holds(p.fake, id, claim)
    case Nack(id, claim, _, d) => Holds(p.fake, id, claim) && d != NIL && d !in p.channel.dlq
    case Tick(_) => true
  }

  function FakeStep(p: Pair, op: Op): State
    requires Fires(p, op)
  {
    var f := p.fake;
    match op
    case Publish(id, body) => f.(pending := f.pending + [Entry(id, NIL, body, 0)])
    case Claim(token, _) => f.(pending := f.pending[1..], claimed := f.claimed[f.pending[0].id := f.pending[0].(claim := token)])
    case Ack(id, _) => f.(claimed := f.claimed - {id})
    case Nack(id, _, _, _) =>
      if Spent(f, id) then f.(claimed := f.claimed - {id}, dlq := f.dlq + [f.claimed[id]])
      else f.(pending := Inserted(f.pending, Back(f.claimed[id])), claimed := f.claimed - {id})
    case Tick(_) => f
  }

  /** What the channel does for the same call; it keeps an acked row until a purge. */
  function ChannelStep(p: Pair, op: Op): C.Channel
    requires Fires(p, op)
  {
    var c := p.channel;
    match op
    case Publish(id, body) => C.Apply(c, C.Publish(id, body, p.fake.limit))
    case Claim(token, lease) => C.Apply(c, C.Row(L.Claim(p.fake.pending[0].id, token, lease)))
    case Ack(id, claim) => C.Apply(C.Apply(c, C.Row(L.Ack(id, claim))), C.Purge(id))
    case Nack(id, claim, reason, d) =>
      if Spent(p.fake, id) then C.Apply(c, C.Kill(L.BuryClaimed(id, claim), d, Reported(reason)))
      else C.Apply(c, C.Row(L.Retry(id, claim, 0, reason)))
    case Tick(span) => C.Apply(c, C.Row(L.Tick(span)))
  }

  function Step(p: Pair, op: Op): Pair {
    if !Fires(p, op) then p
    else Pair(FakeStep(p, op), ChannelStep(p, op), if op.Nack? && Spent(p.fake, op.id) then p.names + [op.d] else p.names)
  }

  function Run(limit: nat, start: int, ops: seq<Op>): Pair {
    if ops == [] then Pair(State([], map[], [], limit), C.Empty(start), []) else Step(Run(limit, start, ops[..|ops| - 1]), ops[|ops| - 1])
  }

  lemma StepKeepsSim(p: Pair, op: Op)
    requires Sim(p.fake, p.channel, p.names)
    ensures var p' := Step(p, op); Sim(p'.fake, p'.channel, p'.names)
  {
    if Fires(p, op) {
      match op
      case Publish(id, body) => SimPublish(p.fake, p.channel, p.names, id, body);
      case Claim(token, lease) => SimClaim(p.fake, p.channel, p.names, token, lease);
      case Ack(id, claim) => SimAck(p.fake, p.channel, p.names, id, claim);
      case Nack(id, claim, reason, d) =>
        if Spent(p.fake, id) {
          SimBury(p.fake, p.channel, p.names, id, claim, reason, d);
        } else {
          SimRetry(p.fake, p.channel, p.names, id, claim, reason);
        }
      case Tick(span) => SimTick(p.fake, p.channel, p.names, span);
    }
  }

  /** Every run of the fake is a run of the channel. */
  lemma {:induction false} RunsMatch(limit: nat, start: int, ops: seq<Op>)
    ensures var p := Run(limit, start, ops); Sim(p.fake, p.channel, p.names)
  {
    if ops != [] {
      RunsMatch(limit, start, ops[..|ops| - 1]);
      StepKeepsSim(Run(limit, start, ops[..|ops| - 1]), ops[|ops| - 1]);
    }
  }

  // ---------------------------------------------------------------- ascending ids

  /** Message ids are given out in ascending order, as the id generator does. */
  predicate Ascending(ops: seq<Op>) {
    forall i, j :: 0 <= i < j < |ops| && ops[i].Publish? && ops[j].Publish? ==> ops[i].id < ops[j].id
  }

  predicate WasPublished(ops: seq<Op>, id: Uuid) {
    exists k :: 0 <= k < |ops| && ops[k].Publish? && ops[k].id == id
  }

  lemma PublishedBefore(ops: seq<Op>, id: Uuid)
    requires ops != [] && WasPublished(ops[..|ops| - 1], id)
    ensures WasPublished(ops, id)
  {
    var k :| 0 <= k < |ops| - 1 && ops[..|ops| - 1][k].Publish? && ops[..|ops| - 1][k].id == id;
    assert ops[k].Publish? && ops[k].id == id;
  }

  lemma StepIds(p: Pair, op: Op, id: Uuid)
    requires Sim(p.fake, p.channel, p.names)
    requires HasId(Step(p, op).fake.pending, id) || id in Step(p, op).fake.claimed
    ensures HasId(p.fake.pending, id) || id in p.fake.claimed || (op.Publish? && op.id == id)
  {
    if Fires(p, op) {
      match op
      case Publish(k, body) => SnocIds(p.fake.pending, Entry(k, NIL, body, 0));
      case Claim(token, _) =>
        TailIds(p.fake.pending);
        assert HasId(p.fake.pending, p.fake.pending[0].id);
      case Nack(k, _, _, _) =>
        var e := Back(p.fake.claimed[k]);
        InsertedIds(p.fake.pending, e, Position(p.fake.pending, e.id), Inserted(p.fake.pending, e));
      case _ =>
    }
  }

  lemma {:induction false} RunPublished(limit: nat, start: int, ops: seq<Op>, id: Uuid)
    requires var f := Run(limit, start, ops).fake; HasId(f.pending, id) || id in f.claimed
    ensures WasPublished(ops, id)
  {
    var before := ops[..|ops| - 1];
    var p, op := Run(limit, start, before), ops[|ops| - 1];
    RunsMatch(limit, start, before);
    StepIds(p, op, id);
    if HasId(p.fake.pending, id) || id in p.fake.claimed {
      RunPublished(limit, start, before, id);
      PublishedBefore(ops, id);
    } else {
      assert ops[|ops| - 1].Publish? && ops[|ops| - 1].id == id;
    }
  }

  lemma StepSorts(p: Pair, op: Op)
    requires Sim(p.fake, p.channel, p.names) && SortedById(p.fake.pending)
    requires op.Publish? ==> forall i :: 0 <= i < |p.fake.pending| ==> p.fake.pending[i].id < op.id
    ensures SortedById(Step(p, op).fake.pending)
  {
    if Fires(p, op) && op.Nack? && !Spent(p.fake, op.id) {
      InsertedIsSorted(p.fake.pending, Back(p.fake.claimed[op.id]));
    }
  }

  /** Ascending publishes keep the fake's queue in id order, nacks included. */
  lemma {:induction false} RunSorts(limit: nat, start: int, ops: seq<Op>)
    requires Ascending(ops)
    ensures SortedById(Run(limit, start, ops).fake.pending)
  {
    if ops != [] {
      var before := ops[..|ops| - 1];
      var p, op := Run(limit, start, before), ops[|ops| - 1];
      RunSorts(limit, start, before);
      RunsMatch(limit, start, before);
      if op.Publish? {
        forall i | 0 <= i < |p.fake.pending| ensures p.fake.pending[i].id < op.id {
          assert HasId(p.fake.pending, p.fake.pending[i].id);
          RunPublished(limit, start, before, p.fake.pending[i].id);
          var k :| 0 <= k < |before| && before[k].Publish? && before[k].id == p.fake.pending[i].id;
          assert ops[k].Publish? && ops[k].id < ops[|ops| - 1].id;
        }
      }
      StepSorts(p, op);
    }
  }

  /** With ascending publishes, after any run: the next deliveries agree if and only if no waiting message
      became available before the one with the lowest id. */
  lemma RunAgreesIff(limit: nat, start: int, ops: seq<Op>)
    requires Ascending(ops) && Run(limit, start, ops).fake.pending != []
    ensures var p := Run(limit, start, ops); Next(p.channel) == Some(p.fake.pending[0].id) <==> HeadIsOldest(p.fake, p.channel)
  {
    RunSorts(limit, start, ops);
    RunsMatch(limit, start, ops);
    var p := Run(limit, start, ops);
    NextAgreesIff(p.fake, p.channel, p.names);
  }

  // ---------------------------------------------------------------- runs without a retry

  /** The waiting messages became available in queue order. */
  ghost predicate InOrder(q: seq<Entry>, c: C.Channel) {
    forall i, j :: 0 <= i < j < |q| ==> Available(c, q[i].id) <= Available(c, q[j].id)
  }

  predicate Retries(p: Pair, op: Op) {
    Fires(p, op) && op.Nack? && !Spent(p.fake, op.id)
  }

  lemma PublishInOrder(p: Pair, id: Uuid, body: Body)
    requires Sim(p.fake, p.channel, p.names) && InOrder(p.fake.pending, p.channel) && Fires(p, Publish(id, body))
    ensures var p' := Step(p, Publish(id, body)); InOrder(p'.fake.pending, p'.channel)
  {
    var c' := ChannelStep(p, Publish(id, body));
    var q := p.fake.pending;
    forall i | 0 <= i < |q| ensures Available(c', q[i].id) == Available(p.channel, q[i].id) <= p.channel.now {
      assert HasId(q, q[i].id);
      assert Waits(q[i], p.channel.msgs[q[i].id], p.fake.limit, p.channel.now);
    }
    assert Available(c', id) == p.channel.now;
  }

  /** Steps that touch no waiting message, other than taking the head. */
  lemma SameAvailable(p: Pair, op: Op, id: Uuid)
    requires Sim(p.fake, p.channel, p.names) && !op.Publish? && !Retries(p, op)
    requires HasId(p.fake.pending, id)
    ensures Available(Step(p, op).channel, id) == Available(p.channel, id)
  {
    if Fires(p, op) {
      match op
      case Claim(token, lease) =>
        var head := p.fake.pending[0];
        assert HasId(p.fake.pending, head.id);
        assert Waits(head, p.channel.msgs[head.id], p.fake.limit, p.channel.now);
        ClaimEffect(p.channel, head.id, token, lease);
      case Ack(k, claim) =>
        assert Flies(p.fake.claimed[k], p.channel.msgs[k], p.fake.limit);
        AckEffect(p.channel, k, claim);
      case Nack(k, claim, reason, d) =>
        assert Flies(p.fake.claimed[k], p.channel.msgs[k], p.fake.limit);
        BuryEffect(p.channel, k, claim, reason, d);
      case _ =>
    }
  }

  lemma StepInOrder(p: Pair, op: Op)
    requires Sim(p.fake, p.channel, p.names) && InOrder(p.fake.pending, p.channel) && !Retries(p, op)
    ensures var p' := Step(p, op); InOrder(p'.fake.pending, p'.channel)
  {
    if op.Publish? {
      if Fires(p, op) {
        PublishInOrder(p, op.id, op.body);
      }
    } else {
      var q, p' := p.fake.pending, Step(p, op);
      forall i | 0 <= i < |q| ensures Available(p'.channel, q[i].id) == Available(p.channel, q[i].id) {
        assert HasId(q, q[i].id);
        SameAvailable(p, op, q[i].id);
      }
      var k := if Fires(p, op) && op.Claim? then 1 else 0;
      assert p'.fake.pending == q[k..];
    }
  }

  lemma {:induction false} RunInOrder(limit: nat, start: int, ops: seq<Op>)
    requires forall k :: 0 <= k < |ops| ==> !Retries(Run(limit, start, ops[..k]), ops[k])
    ensures var p := Run(limit, start, ops); InOrder(p.fake.pending, p.channel)
  {
    if ops != [] {
      var before := ops[..|ops| - 1];
      forall k | 0 <= k < |before| ensures !Retries(Run(limit, start, before[..k]), before[k]) {
        assert before[..k] == ops[..k];
      }
      RunInOrder(limit, start, before);
      RunsMatch(limit, start, before);
      StepInOrder(Run(limit, start, before), ops[|ops| - 1]);
    }
  }

  /** As long as publishes ascend and no nack has been retried, the fake delivers exactly what the
      channel would. */
  lemma NoRetryAgrees(limit: nat, start: int, ops: seq<Op>)
    requires Ascending(ops) && Run(limit, start, ops).fake.pending != []
    requires forall k :: 0 <= k < |ops| ==> !Retries(Run(limit, start, ops[..k]), ops[k])
    ensures var p := Run(limit, start, ops); Next(p.channel) == Some(p.fake.pending[0].id)
  {
    RunInOrder(limit, start, ops);
    RunAgreesIff(limit, start, ops);
  }

  lemma RunStep(limit: nat, start: int, ops: seq<Op>, op: Op)
    ensures Run(limit, start, ops + [op]) == Step(Run(limit, start, ops), op)
  {
    assert (ops + [op])[..|ops|] == ops;
  }

  lemma TwoPublished(body: Body) returns (ops: seq<Op>)
    ensures ops == [Publish(1, body), Publish(2, body)]
    ensures Run(3, 0, ops) == Pair(
              State([Entry(1, NIL, body, 0), Entry(2, NIL, body, 0)], map[], [], 3),
              C.Channel(map[1 := C.NewMessage(body, 3, 0), 2 := C.NewMessage(body, 3, 0)], map[], 0, {}), [])
  {
    RunStep(3, 0, [], Publish(1, body));
    RunStep(3, 0, [Publish(1, body)], Publish(2, body));
    ops := [Publish(1, body)] + [Publish(2, body)];
  }

  lemma FirstClaimed(body: Body) returns (ops: seq<Op>)
    ensures ops == [Publish(1, body), Publish(2, body), Claim(10, 5), Tick(1)]
    ensures var p := Run(3, 0, ops);
            && p.fake == State([Entry(2, NIL, body, 0)], map[1 := Entry(1, 10, body, 0)], [], 3)
            && 2 in p.channel.msgs && p.channel.msgs[2] == C.NewMessage(body, 3, 0) && p.channel.now == 1 && p.channel.dlq == map[]
            && 1 in p.channel.msgs && p.channel.msgs[1] == ClaimedMessage(C.NewMessage(body, 3, 0), 10, 5, 0)
  {
    ops := TwoPublished(body);
    RunStep(3, 0, ops, Claim(10, 5));
    ClaimEffect(Run(3, 0, ops).channel, 1, 10, 5);
    ops := ops + [Claim(10, 5)];
    RunStep(3, 0, ops, Tick(1));
    ops := ops + [Tick(1)];
  }

  lemma RetryStep(p: Pair, id: Uuid, claim: Uuid, reason: Bytes, d: Uuid)
    requires Fires(p, Nack(id, claim, reason, d)) && !Spent(p.fake, id)
    requires id in p.channel.msgs && L.HeldUnder(p.channel.msgs[id].lease, claim) && !L.Exhausted(p.channel.msgs[id].lease)
    ensures var p' := Step(p, Nack(id, claim, reason, d));
            && p'.fake.pending == Inserted(p.fake.pending, Back(p.fake.claimed[id]))
            && Available(p'.channel, id) == p.channel.now
            && forall j :: j != id ==> Available(p'.channel, j) == Available(p.channel, j)
  {
    RetryEffect(p.channel, id, claim, reason);
  }

  lemma ThenRetried(body: Body) returns (ops: seq<Op>)
    ensures ops == [Publish(1, body), Publish(2, body), Claim(10, 5), Tick(1), Nack(1, 10, [], 20)]
    ensures var p := Run(3, 0, ops);
            && p.fake.pending == [Entry(1, NIL, body, 1), Entry(2, NIL, body, 0)]
            && Available(p.channel, 1) == 1 && Available(p.channel, 2) == 0
  {
    ops := FirstClaimed(body);
    RetryStep(Run(3, 0, ops), 1, 10, [], 20);
    assert Position([Entry(2, NIL, body, 0)], 1) == 0;
    RunStep(3, 0, ops, Nack(1, 10, [], 20));
    ops := ops + [Nack(1, 10, [], 20)];
  }

  /** The fake hands out the lowest id; the channel orders by (available_at, id), so a retried message
      comes first in the one and not in the other. */
  lemma OrderCanDiffer(body: Body) returns (ops: seq<Op>)
    ensures Ascending(ops) && Run(3, 0, ops).fake.pending != []
    ensures var p := Run(3, 0, ops); Next(p.channel) != Some(p.fake.pending[0].id)
  {
    ops := ThenRetried(body);
    var p := Run(3, 0, ops);
    assert Available(p.channel, p.fake.pending[0].id) > Available(p.channel, p.fake.pending[1].id);
    RunAgreesIff(3, 0, ops);
  }

  // ---------------------------------------------------------------- the fake itself

  class FakeChannel {
    var pending: seq<Entry>
    var claimed: map<Uuid, Entry>
    var dlq: seq<Entry>
    const maxRetries: nat

    function Value(): State
      reads this
    {
      State(pending, claimed, dlq, maxRetries)
    }

    constructor (limit: nat, ghost start: int)
      ensures Value() == State([], map[], [], limit) && Sim(Value(), C.Empty(start), [])
    {
      pending, claimed, dlq, maxRetries := [], map[], [], limit;
    }

    method HasMessage(id: Uuid) returns (known: bool)
      ensures known == Knows(Value(), id)
    {
      for i := 0 to |pending|
        invariant forall k :: 0 <= k < i ==> pending[k].id != id
      {
        if pending[i].id == id {
          return true;
        }
      }
      if id in claimed {
        return true;
      }
      for i := 0 to |dlq|
        invariant forall k :: 0 <= k < i ==> dlq[k].id != id
      {
        if dlq[i].id == id {
          return true;
        }
      }
      return false;
    }

    /** An accepted publish is an accepted channel publish; ascending ids keep the queue sorted. */
    method Publish(id: Uuid, body: Body, ghost c: C.Channel, ghost names: seq<Uuid>) returns (accepted: bool)
      requires id != NIL && Sim(Value(), c, names)
      modifies this`pending
      ensures accepted == !Knows(old(Value()), id)
      ensures accepted ==> C.Enabled(c, C.Publish(id, body, maxRetries)) && Sim(Value(), C.Apply(c, C.Publish(id, body, maxRetries)), names)
      ensures !accepted ==> Value() == old(Value())
      ensures SortedById(old(pending)) && (forall i :: 0 <= i < |old(pending)| ==> old(pending)[i].id < id) ==> SortedById(pending)
    {
      var known := HasMessage(id);
      if known {
        return false;
      }
      SimPublish(Value(), c, names, id, body);
      pending := pending + [Entry(id, NIL, body, 0)];
      return true;
    }

    /** Pops the head under a claim never used before; the channel can make the same delivery. */
    method Claim(token: Uuid, ghost lease: nat, ghost c: C.Channel, ghost names: seq<Uuid>) returns (e: Option<Entry>)
      requires Sim(Value(), c, names) && token != NIL && token !in c.minted
      modifies this`pending, this`claimed
      ensures e.None? <==> old(pending) == []
      ensures e.None? ==> Value() == old(Value())
      ensures e.Some? ==> e.value == old(pending)[0].(claim := token)
      ensures e.Some? && SortedById(old(pending)) ==> (Next(c) == Some(e.value.id) <==> HeadIsOldest(old(Value()), c))
      ensures e.Some? ==> C.Enabled(c, C.Row(L.Claim(e.value.id, token, lease)))
                          && Sim(Value(), C.Apply(c, C.Row(L.Claim(e.value.id, token, lease))), names)
      ensures SortedById(old(pending)) ==> SortedById(pending)
    {
      if pending == [] {
        return None;
      }
      SimClaim(Value(), c, names, token, lease);
      if SortedById(pending) {
        NextAgreesIff(Value(), c, names);
      }
      var head := pending[0].(claim := token);
      pending := pending[1..];
      claimed := claimed[head.id := head];
      return Some(head);
    }

    /** A stale claim changes nothing; a held one leaves as an ack and a purge leave the channel. */
    method Ack(id: Uuid, claim: Uuid, ghost c: C.Channel, ghost names: seq<Uuid>) returns (ok: bool)
      requires Sim(Value(), c, names)
      modifies this`claimed
      ensures ok == (id in old(claimed) && old(claimed)[id].claim == claim)
      ensures !ok ==> Value() == old(Value()) && !C.Owns(c, id, claim)
      ensures ok ==> C.Owns(c, id, claim) && Sim(Value(), C.Apply(C.Apply(c, C.Row(L.Ack(id, claim))), C.Purge(id)), names)
    {
      StaleInBoth(Value(), c, names, id, claim);
      if id !in claimed || claimed[id].claim != claim {
        return false;
      }
      SimAck(Value(), c, names, id, claim);
      claimed := claimed - {id};
      return true;
    }

    /** Retried at its place in the order, or dead-lettered on the same guard as the channel. */
    method Nack(id: Uuid, claim: Uuid, ghost reason: Bytes, ghost d: Uuid, ghost c: C.Channel, ghost names: seq<Uuid>)
      returns (ok: bool, ghost x: C.Action, ghost names': seq<Uuid>)
      requires Sim(Value(), c, names) && d != NIL && d !in c.dlq
      modifies this
      ensures ok == (id in old(claimed) && old(claimed)[id].claim == claim)
      ensures !ok ==> Value() == old(Value()) && !C.Owns(c, id, claim)
      ensures ok ==> C.Enabled(c, x) && Sim(Value(), C.Apply(c, x), names')
      ensures ok ==> x == if old(claimed)[id].retries + 1 > maxRetries then C.Kill(L.BuryClaimed(id, claim), d, Reported(reason))
                          else C.Row(L.Retry(id, claim, 0, reason))
      ensures SortedById(old(pending)) ==> SortedById(pending)
    {
      StaleInBoth(Value(), c, names, id, claim);
      x, names' := C.PurgeDead(d), names;
      if id !in claimed || claimed[id].claim != claim {
        return false, x, names';
      }
      var e := claimed[id];
      if e.retries + 1 > maxRetries {
        SimBury(Value(), c, names, id, claim, reason, d);
        claimed := claimed - {id};
        dlq := dlq + [e];
        return true, C.Kill(L.BuryClaimed(id, claim), d, Reported(reason)), names + [d];
      }
      var q := InsertSortedById(pending, Back(e));
      SimRetry(Value(), c, names, id, claim, reason);
      claimed := claimed - {id};
      pending := q;
      return true, C.Row(L.Retry(id, claim, 0, reason)), names;
    }
  }

  /** A claim is held in the fake exactly when it is held in the channel. */
  lemma StaleInBoth(f: State, c: C.Channel, names: seq<Uuid>, id: Uuid, claim: Uuid)
    requires Sim(f, c, names)
    ensures C.Owns(c, id, claim) <==> id in f.claimed && f.claimed[id].claim == claim
  {
    if HasId(f.pending, id) {
      var i :| 0 <= i < |f.pending| && f.pending[i].id == id;
      assert Waits(f.pending[i], c.msgs[id], f.limit, c.now);
    }
    if id in f.claimed {
      assert Flies(f.claimed[id], c.msgs[id], f.limit);
    }
  }
}
