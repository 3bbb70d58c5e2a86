/** A channel's tables as a mutable store, and the transactions that touch one message. */
module ChannelStore {
  import opened Basics
  import opened Claims
  import opened ErrorText
  import L = Lease
  import C = Channel

  /** Durations are in microseconds. */
  const MIN_VISIBILITY: int := 1_000
  const MAX_VISIBILITY: int := 86_400_000_000

  datatype ReplayOutcome = ReplayOk | ReplayMessageNotFound | MessageInProcessing

  datatype ExtendOutcome = Extended | InvalidVisibilityTimeout | ExtendMissed(reason: Reason)

  /** One message of a publish batch, its id already chosen. */
  datatype Outgoing = Outgoing(id: Uuid, body: Body)

  /** The row actions of a publish batch. */
  function Publishes(batch: seq<Outgoing>, limit: nat): seq<C.Action> {
    seq(|batch|, i requires 0 <= i < |batch| => C.Publish(batch[i].id, batch[i].body, limit))
  }

  function IdsOf(batch: seq<Outgoing>): set<Uuid> {
    set o | o in batch :: o.id
  }

  /** No id of the batch is taken, in the table or earlier in the batch. */
  predicate NoDuplicates(batch: seq<Outgoing>, taken: set<Uuid>) {
    && (forall i, j :: 0 <= i < j < |batch| ==> batch[i].id != batch[j].id)
    && (forall i :: 0 <= i < |batch| ==> batch[i].id !in taken)
  }

  lemma NoDuplicatesSnoc(batch: seq<Outgoing>, o: Outgoing, taken: set<Uuid>)
    ensures NoDuplicates(batch + [o], taken) <==> NoDuplicates(batch, taken) && o.id !in taken + IdsOf(batch)
    ensures IdsOf(batch + [o]) == IdsOf(batch) + {o.id}
  {
    var all := batch + [o];
    assert forall i :: 0 <= i < |batch| ==> all[i] == batch[i];
    assert all[|batch|] == o;
    forall i | 0 <= i < |batch| ensures batch[i].id in IdsOf(batch) {}
  }

  lemma PublishesSnoc(c: C.Channel, batch: seq<Outgoing>, o: Outgoing, limit: nat)
    ensures C.Run(c, Publishes(batch + [o], limit))
            == C.Apply(C.Run(c, Publishes(batch, limit)), C.Publish(o.id, o.body, limit))
  {
    assert Publishes(batch + [o], limit) == Publishes(batch, limit) + [C.Publish(o.id, o.body, limit)];
    C.RunSnoc(c, Publishes(batch, limit), C.Publish(o.id, o.body, limit));
  }

  /** In the middle of a batch: the rows so far, and whether no duplicate has been met. */
  ghost predicate Batched(c: C.Channel, done: seq<Outgoing>, limit: nat, rows: map<Uuid, C.Message>, clean: bool) {
    && rows.Keys == c.msgs.Keys + IdsOf(done) && (clean <==> NoDuplicates(done, c.msgs.Keys))
    && (clean ==> (forall i :: 0 <= i < |done| ==> done[i].id != NIL) ==> C.Run(c, Publishes(done, limit)) == c.(msgs := rows))
    && (clean ==> Stores(c, done, limit, rows))
  }

  /** The rows of the batch are new messages with their own bodies; the old rows are kept. */
  ghost predicate Stores(c: C.Channel, done: seq<Outgoing>, limit: nat, rows: map<Uuid, C.Message>) {
    && (forall id :: id in c.msgs ==> id in rows && rows[id] == c.msgs[id])
    && (forall i :: 0 <= i < |done| ==>
          done[i].id in rows && rows[done[i].id] == C.Message(done[i].body, c.now, L.NewLease(limit, c.now)))
  }

  lemma BatchStart(c: C.Channel, limit: nat)
    ensures Batched(c, [], limit, c.msgs, true)
  {
  }

  lemma BatchStep(c: C.Channel, done: seq<Outgoing>, o: Outgoing, limit: nat, rows: map<Uuid, C.Message>, clean: bool)
    requires Batched(c, done, limit, rows, clean) && o.id != NIL
    ensures Batched(c, done + [o], limit, if o.id in rows then rows else rows[o.id := C.NewMessage(o.body, limit, c.now)], clean && o.id !in rows)
  {
    NoDuplicatesSnoc(done, o, c.msgs.Keys);
    PublishesSnoc(c, done, o, limit);
    assert forall i :: 0 <= i < |done| ==> (done + [o])[i] == done[i];
    if clean && o.id !in rows {
      var rows' := rows[o.id := C.NewMessage(o.body, limit, c.now)];
      forall i | 0 <= i < |done + [o]|
        ensures (done + [o])[i].id in rows' && rows'[(done + [o])[i].id] == C.Message((done + [o])[i].body, c.now, L.NewLease(limit, c.now))
      {
        assert i < |done| ==> done[i].id in rows;
      }
    }
  }

  /** Deleting a set of message rows is a run of single deletions. */
  lemma {:induction false} PurgeIsRun(c: C.Channel, ids: set<Uuid>) returns (trace: seq<C.Action>)
    requires ids <= c.msgs.Keys
    ensures C.Run(c, trace) == c.(msgs := c.msgs - ids)
    ensures forall x :: x in trace ==> x.Purge? && x.id in ids
    decreases ids
  {
    if ids == {} {
      assert c.msgs - ids == c.msgs;
      return [];
    }
    var id :| id in ids;
    var p := PurgeIsRun(c, ids - {id});
    assert (c.msgs - (ids - {id})) - {id} == c.msgs - ids;
    C.RunSnoc(c, p, C.Purge(id));
    return p + [C.Purge(id)];
  }

  /** Deleting a set of DLQ rows is a run of single deletions. */
  lemma {:induction false} PurgeDeadIsRun(c: C.Channel, ds: set<Uuid>) returns (trace: seq<C.Action>)
    requires ds <= c.dlq.Keys
    ensures C.Run(c, trace) == c.(dlq := c.dlq - ds)
    ensures forall x :: x in trace ==> x.PurgeDead? && x.d in ds
    decreases ds
  {
    if ds == {} {
      assert c.dlq - ds == c.dlq;
      return [];
    }
    var d :| d in ds;
    var p := PurgeDeadIsRun(c, ds - {d});
    assert (c.dlq - (ds - {d})) - {d} == c.dlq - ds;
    C.RunSnoc(c, p, C.PurgeDead(d));
    return p + [C.PurgeDead(d)];
  }

  /** The message is back in the queue, the failed delivery and its reason recorded, available at `ready`. */
  predicate PutBack(was: C.Message, m: C.Message, ready: int, reason: Bytes) {
    && m.body == was.body && m.createdAt == was.createdAt && m.lease.limit == was.lease.limit
    && m.lease.status == L.Pending && m.lease.claim.None? && m.lease.visibility.None? && m.lease.doneAt == was.lease.doneAt
    && m.lease.retries == was.lease.retries + 1 && m.lease.availableAt == ready && m.lease.error == Some(reason)
  }

  /** A new DLQ row holds the message, the failed delivery and its reason recorded. */
  ghost predicate Died(c: C.Channel, c': C.Channel, id: Uuid, reason: FailureReason)
    requires id in c.msgs
  {
    exists d :: d in c'.dlq && d !in c.dlq
                && c'.dlq[d] == DeadLetter(id, None, c.msgs[id].body, reason, c.msgs[id].lease.retries + 1, c.now)
  }

  /** What a nack does to its message: dead if the budget is spent, otherwise back after the delay. */
  ghost predicate Nacked(c: C.Channel, c': C.Channel, id: Uuid, reason: Bytes, delay: nat)
    requires id in c.msgs
  {
    if c.msgs[id].lease.retries + 1 > c.msgs[id].lease.limit then id !in c'.msgs && Died(c, c', id, Reported(reason))
    else id in c'.msgs && PutBack(c.msgs[id], c'.msgs[id], c.now + delay, reason)
  }

  /** No other message is touched, and no dead letter is lost. */
  ghost predicate OthersKept(c: C.Channel, c': C.Channel, ids: set<Uuid>) {
    && (forall j :: j !in ids ==> (j in c'.msgs <==> j in c.msgs))
    && (forall j :: j !in ids && j in c.msgs && j in c'.msgs ==> c'.msgs[j] == c.msgs[j])
    && (forall d :: d in c.dlq ==> d in c'.dlq && c'.dlq[d] == c.dlq[d])
  }

  lemma NackColumns(c: C.Channel, id: Uuid, claim: Uuid, reason: Bytes, delay: nat, dlqId: Uuid)
    requires C.Owns(c, id, claim) && dlqId != NIL && dlqId !in c.dlq
    ensures var c' := C.Apply(c, NackAction(c, id, claim, reason, delay, dlqId));
            Nacked(c, c', id, reason, delay) && OthersKept(c, c', {id})
  {
    NackEffect(c, id, claim, reason, delay, dlqId);
    var c' := C.Apply(c, NackAction(c, id, claim, reason, delay, dlqId));
    if c.msgs[id].lease.retries + 1 > c.msgs[id].lease.limit {
      assert dlqId in c'.dlq && dlqId !in c.dlq;
    }
  }

  class ChannelDb {
    var msgs: map<Uuid, C.Message>
    var dlq: map<Uuid, DeadLetter>
    var now: int
    var minted: set<Uuid>

    function State(): C.Channel
      reads this
    {
      C.Channel(msgs, dlq, now, minted)
    }

    ghost predicate Valid()
      reads this
    {
      C.Reachable(State())
    }

    constructor (start: int)
      ensures Valid() && State() == C.Empty(start)
    {
      msgs, dlq, now, minted := map[], map[], start, {};
      new;
      assert State() == C.Run(C.Empty(start), []);
    }

    /** `uuidv7()` for a claim: a token never handed out before. */
    method NextToken() returns (t: Uuid)
      ensures t != NIL && t !in minted
    {
      FreshExists(minted);
      t :| t != NIL && t !in minted;
    }

    /** `uuidv7()` for a DLQ row: an id unused in its table. */
    method NextDlqId() returns (d: Uuid)
      ensures d != NIL && d !in dlq
    {
      FreshExists(dlq.Keys);
      d :| d != NIL && d !in dlq;
    }

    /** The database clock moves forward. */
    method Elapse(span: nat)
      requires Valid()
      modifies this`now
      ensures Valid() && State() == C.Apply(old(State()), C.Row(L.Tick(span)))
    {
      C.StepReaches(State(), C.Row(L.Tick(span)));
      now := now + span;
    }

    /** A nil requested id means "generate one"; a taken id is rejected and changes nothing. */
    method Publish(requested: Uuid, generated: Uuid, body: Body, limit: nat) returns (id: Uuid, accepted: bool)
      requires Valid() && generated != NIL
      modifies this
      ensures Valid()
      ensures id != NIL && (requested != NIL ==> id == requested)
      ensures accepted <==> id !in old(msgs)
      ensures State() == C.Apply(old(State()), C.Publish(id, body, limit))
    {
      id := if requested == NIL then generated else requested;
      C.StepReaches(State(), C.Publish(id, body, limit));
      accepted := id !in msgs;
      if accepted {
        msgs := msgs[id := C.NewMessage(body, limit, now)];
      }
    }

    /** All or nothing: one duplicate, inside the batch or in the table, rolls everything back. */
    method PublishBatch(batch: seq<Outgoing>, limit: nat) returns (accepted: bool)
      requires Valid() && forall i :: 0 <= i < |batch| ==> batch[i].id != NIL
      modifies this
      ensures Valid()
      ensures accepted <==> NoDuplicates(batch, old(msgs).Keys)
      ensures State() == if accepted then C.Run(old(State()), Publishes(batch, limit)) else old(State())
      ensures accepted ==> msgs.Keys == old(msgs).Keys + IdsOf(batch) && Stores(old(State()), batch, limit, msgs)
    {
      var rows: map<Uuid, C.Message> := msgs;
      var affected := 0;
      ghost var done := [];
      BatchStart(State(), limit);
      for i := 0 to |batch|
        invariant State() == old(State()) && done == batch[..i] && 0 <= affected <= i
        invariant Batched(State(), done, limit, rows, affected == i)
      {
        var o := batch[i];
        BatchStep(State(), done, o, limit, rows, affected == i);
        if o.id !in rows {
          rows := rows[o.id := C.NewMessage(o.body, limit, now)];
          affected := affected + 1;
        }
        done := done + [o];
      }
      assert done == batch;
      accepted := affected == |batch|;
      if accepted {
        C.RunReaches(State(), Publishes(batch, limit));
        msgs := rows;
      }
    }

    /** Success depends on claim and status, not on the clock; a stale receipt changes nothing. */
    method Ack(id: Uuid, claim: Uuid) returns (outcome: Outcome)
      requires Valid()
      modifies this
      ensures Valid()
      ensures outcome.Settled? <==> C.Owns(old(State()), id, claim)
      ensures outcome.Missed? ==> State() == old(State()) && outcome.reason == Classify(C.Leases(State()), id, claim)
      ensures State() == C.Apply(old(State()), C.Row(L.Ack(id, claim)))
    {
      C.StepReaches(State(), C.Row(L.Ack(id, claim)));
      if id in msgs && msgs[id].lease.claim == Some(claim) && msgs[id].lease.status == L.Processing {
        var m := msgs[id];
        msgs := msgs[id := m.(lease := m.lease.(status := L.Done, doneAt := Some(now)))];
        return Settled;
      }
      var why := ClassifyMiss(id, claim);
      return Missed(why);
    }

    /** The lease is measured from now and the claim is kept. */
    method ExtendVisibility(id: Uuid, claim: Uuid, d: int) returns (outcome: ExtendOutcome)
      requires Valid()
      modifies this
      ensures Valid()
      ensures outcome.InvalidVisibilityTimeout? <==> !(MIN_VISIBILITY <= d <= MAX_VISIBILITY)
      ensures outcome.Extended? <==> MIN_VISIBILITY <= d <= MAX_VISIBILITY && C.Owns(old(State()), id, claim)
      ensures outcome.ExtendMissed? ==> outcome.reason == Classify(C.Leases(State()), id, claim)
      ensures State() == if outcome.Extended? then C.Apply(old(State()), C.Row(L.Extend(id, claim, d))) else old(State())
    {
      if d < MIN_VISIBILITY || d > MAX_VISIBILITY {
        return InvalidVisibilityTimeout;
      }
      C.StepReaches(State(), C.Row(L.Extend(id, claim, d)));
      if id in msgs && msgs[id].lease.claim == Some(claim) && msgs[id].lease.status == L.Processing {
        var m := msgs[id];
        msgs := msgs[id := m.(lease := m.lease.(visibility := Some(now + d)))];
        return Extended;
      }
      var why := ClassifyMiss(id, claim);
      return ExtendMissed(why);
    }

    /** Retried while the budget lasts, dead-lettered when it is spent, untouched when stale. */
    method Nack(id: Uuid, claim: Uuid, errorMsg: Bytes, delay: nat) returns (outcome: Outcome, dlqId: Uuid)
      requires Valid()
      modifies this
      ensures Valid()
      ensures outcome.Settled? <==> C.Owns(old(State()), id, claim)
      ensures outcome.Missed? ==> State() == old(State()) && outcome.reason == Classify(C.Leases(State()), id, claim)
      ensures dlqId != NIL && dlqId !in old(dlq)
      ensures State() == C.Apply(old(State()), NackAction(old(State()), id, claim, Truncated(errorMsg), delay, dlqId))
      ensures outcome.Settled? ==> Nacked(old(State()), State(), id, Truncated(errorMsg), delay) && OthersKept(old(State()), State(), {id})
    {
      dlqId := NextDlqId();
      NackEffect(State(), id, claim, Truncated(errorMsg), delay, dlqId);
      if id in msgs && msgs[id].lease.claim == Some(claim) && msgs[id].lease.status == L.Processing {
        NackColumns(State(), id, claim, Truncated(errorMsg), delay, dlqId);
        NackHeld(id, claim, errorMsg, delay, dlqId);
        return Settled, dlqId;
      }
      var why := ClassifyMiss(id, claim);
      return Missed(why), dlqId;
    }

    /** The nack of a message the caller holds. */
    method NackHeld(id: Uuid, claim: Uuid, errorMsg: Bytes, delay: nat, dlqId: Uuid)
      requires Valid() && C.Owns(State(), id, claim) && dlqId != NIL && dlqId !in dlq
      modifies this
      ensures Valid()
      ensures State() == C.Apply(old(State()), NackAction(old(State()), id, claim, Truncated(errorMsg), delay, dlqId))
    {
      var reason := TruncateErrorMsg(errorMsg);
      NackEffect(State(), id, claim, reason, delay, dlqId);
      C.StepReaches(State(), NackAction(State(), id, claim, reason, delay, dlqId));
      if msgs[id].lease.retries + 1 > msgs[id].lease.limit {
        TruncatedIsIdempotent(errorMsg);
        MoveToDlq(id, Reported(reason), dlqId);
      } else {
        RetryMessage(id, reason, delay);
      }
    }

    /** The DLQ row takes over the body and records the failed delivery as one more attempt. */
    method MoveToDlq(id: Uuid, reason: FailureReason, dlqId: Uuid)
      requires id in msgs && dlqId !in dlq
      modifies this`msgs, this`dlq
      ensures msgs == old(msgs) - {id}
      ensures dlq == old(dlq)[dlqId := C.DeadLetterOf(id, old(msgs)[id], Stored(reason), now)]
    {
      var stored := reason;
      if reason.Reported? {
        var text := TruncateErrorMsg(reason.text);
        stored := Reported(text);
      }
      dlq := dlq[dlqId := DeadLetter(id, None, msgs[id].body, stored, msgs[id].lease.retries + 1, now)];
      msgs := msgs - {id};
    }

    method RetryMessage(id: Uuid, reason: Bytes, delay: nat)
      requires id in msgs
      modifies this`msgs
      ensures msgs == old(msgs)[id := old(msgs)[id].(lease :=
                L.Returned(old(msgs)[id].lease).(availableAt := now + delay, error := Some(reason)))]
    {
      var m := msgs[id];
      msgs := msgs[id := m.(lease := m.lease.(
          status := L.Pending, claim := None, retries := m.lease.retries + 1,
          visibility := None, availableAt := now + delay, error := Some(reason)))];
    }

    method ClassifyMiss(id: Uuid, claim: Uuid) returns (reason: Reason)
      ensures reason == Classify(C.Leases(State()), id, claim)
    {
      if id in msgs {
        reason := ClassifyClaimState(true, msgs[id].lease.status, msgs[id].lease.claim, claim);
      } else {
        reason := ClassifyClaimState(false, L.Pending, None, claim);
      }
    }

    /** Any message not in flight becomes deliverable now, with its whole budget back. */
    method ReplayMessage(id: Uuid) returns (outcome: ReplayOutcome)
      requires Valid()
      modifies this
      ensures Valid()
      ensures outcome.ReplayMessageNotFound? <==> id !in old(msgs)
      ensures outcome.MessageInProcessing? <==> id in old(msgs) && old(msgs)[id].lease.status == L.Processing
      ensures State() == C.Apply(old(State()), C.Row(L.Rearm(id)))
      ensures outcome.ReplayOk? ==> id in msgs && L.Eligible(msgs[id].lease, now) && msgs[id].lease.retries == 0
    {
      C.StepReaches(State(), C.Row(L.Rearm(id)));
      if id !in msgs {
        return ReplayMessageNotFound;
      }
      var m := msgs[id];
      if m.lease.status == L.Processing {
        return MessageInProcessing;
      }
      msgs := msgs[id := m.(lease := m.lease.(
          status := L.Pending, retries := 0, visibility := None, claim := None,
          availableAt := now, doneAt := None, error := None))];
      return ReplayOk;
    }

    /** Empties both tables and keeps the queue. */
    method PurgeQueue() returns (ghost trace: seq<C.Action>)
      requires Valid()
      modifies this
      ensures Valid() && msgs == map[] && dlq == map[] && now == old(now) && minted == old(minted)
      ensures State() == C.Run(old(State()), trace)
      ensures forall x :: x in trace ==> x.Purge? || x.PurgeDead?
    {
      ghost var p := PurgeIsRun(State(), msgs.Keys);
      ghost var q := PurgeDeadIsRun(C.Run(State(), p), dlq.Keys);
      C.RunAppend(State(), p, q);
      C.RunReaches(State(), p + q);
      assert msgs - msgs.Keys == map[] && dlq - dlq.Keys == map[];
      trace := p + q;
      msgs := map[];
      dlq := map[];
    }
  }

  /** A reason as the DLQ stores it; the fixed text is short and valid already. */
  function Stored(reason: FailureReason): FailureReason {
    if reason.Reported? then Reported(Truncated(reason.text)) else reason
  }

  /** What a nack does to the message its receipt names. */
  function NackAction(c: C.Channel, id: Uuid, claim: Uuid, reason: Bytes, delay: nat, dlqId: Uuid): C.Action {
    if id in c.msgs && L.Exhausted(c.msgs[id].lease) then C.Kill(L.BuryClaimed(id, claim), dlqId, Reported(reason))
    else C.Row(L.Retry(id, claim, delay, reason))
  }

  lemma NackEffect(c: C.Channel, id: Uuid, claim: Uuid, reason: Bytes, delay: nat, dlqId: Uuid)
    requires dlqId != NIL && dlqId !in c.dlq
    ensures C.Apply(c, NackAction(c, id, claim, reason, delay, dlqId)) ==
            if !C.Owns(c, id, claim) then c
            else if L.Exhausted(c.msgs[id].lease) then
              c.(msgs := c.msgs - {id}, dlq := c.dlq[dlqId := C.DeadLetterOf(id, c.msgs[id], Reported(reason), c.now)])
            else
              c.(msgs := c.msgs[id := c.msgs[id].(lease :=
                L.Returned(c.msgs[id].lease).(availableAt := c.now + delay, error := Some(reason)))])
  {
  }
}
