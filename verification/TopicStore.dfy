/** A topic's tables as a mutable store, and the transactions on one delivery. */
module TopicStore {
  import opened Basics
  import opened Claims
  import opened ErrorText
  import L = Lease
  import T = Topic

  /** The reason a receipt for (message, subscriber) does not match, in one snapshot. */
  function ClassifyPair(t: T.Topic, row: Option<Uuid>, expected: Uuid): Reason {
    if row.Some? && row.value in t.subs then
      ClassifyClaimState(true, t.subs[row.value].lease.status, t.subs[row.value].lease.claim, expected)
    else ClassifyClaimState(false, L.Pending, None, expected)
  }

  /** What a nack does to the delivery under row `k`. */
  function NackAction(t: T.Topic, k: Uuid, claim: Uuid, reason: Bytes, delay: nat, dlqId: Uuid): T.Action {
    if k in t.subs && L.Exhausted(t.subs[k].lease) then T.Kill(L.BuryClaimed(k, claim), dlqId, Reported(reason))
    else T.Row(L.Retry(k, claim, delay, reason))
  }

  /** What a nack does to a delivery: dead for its subscriber if the budget is spent, otherwise back after
      the delay, with the reason. */
  ghost predicate Nacked(t: T.Topic, t': T.Topic, k: Uuid, reason: Bytes, delay: nat)
    requires k in t.subs && t.subs[k].message in t.msgs
  {
    var s := t.subs[k];
    if s.lease.retries + 1 > t.limit then
      && k !in t'.subs
      && exists d :: d in t'.dlq && d !in t.dlq && t'.dlq[d] ==
           DeadLetter(s.message, Some(s.subscriber), t.msgs[s.message].body, Reported(reason), s.lease.retries + 1, t.now)
    else
      && k in t'.subs && t'.subs[k].message == s.message && t'.subs[k].subscriber == s.subscriber
      && var l := t'.subs[k].lease;
         && l.status == L.Pending && l.claim.None? && l.visibility.None? && l.retries == s.lease.retries + 1
         && l.limit == s.lease.limit && l.availableAt == t.now + delay && l.error == Some(reason)
  }

  /** Nothing but this delivery is touched. */
  ghost predicate OthersKept(t: T.Topic, t': T.Topic, k: Uuid) {
    && t'.msgs == t.msgs && t'.active == t.active && t'.now == t.now
    && (forall j :: j != k ==> (j in t'.subs <==> j in t.subs))
    && (forall j :: j != k && j in t.subs && j in t'.subs ==> t'.subs[j] == t.subs[j])
    && (forall d :: d in t.dlq ==> d in t'.dlq && t'.dlq[d] == t.dlq[d])
  }

  class TopicDb {
    var msgs: map<Uuid, T.Message>
    var subs: map<Uuid, T.Sub>
    var dlq: map<Uuid, DeadLetter>
    var active: set<string>
    const limit: nat
    var now: int
    var minted: set<Uuid>

    function State(): T.Topic
      reads this
    {
      T.Topic(msgs, subs, dlq, active, limit, now, minted)
    }

    ghost predicate Valid()
      reads this
    {
      T.Reachable(State())
    }

    constructor (maxRetries: nat, start: int)
      ensures Valid() && State() == T.Empty(maxRetries, start)
    {
      msgs, subs, dlq, active, limit, now, minted := map[], map[], map[], {}, maxRetries, start, {};
      new;
      assert State() == T.Run(T.Empty(maxRetries, start), []);
    }

    method NextDlqId() returns (d: Uuid)
      ensures d != NIL && d !in dlq
    {
      FreshExists(dlq.Keys);
      d :| d != NIL && d !in dlq;
    }

    /** `WHERE message_id = $1 AND subscriber_id = $2`; the pair is unique. */
    method FindSub(message: Uuid, subscriber: string) returns (row: Option<Uuid>)
      ensures row.Some? <==> T.HasSub(State(), message, subscriber)
      ensures row.Some? ==> row.value in subs && T.IsPair(subs[row.value], message, subscriber)
    {
      if k :| k in subs && T.IsPair(subs[k], message, subscriber) {
        return Some(k);
      }
      return None;
    }

    /** One new row per active subscriber. */
    method FanOut() returns (fan: map<Uuid, string>)
      ensures T.IsFanout(State(), fan)
    {
      fan := map[];
      var left := active;
      while left != {}
        invariant left <= active
        invariant forall k :: k in fan ==> k != NIL && k !in subs && fan[k] in active && fan[k] !in left
        invariant forall k, j :: k in fan && j in fan && k != j ==> fan[k] != fan[j]
        invariant forall s :: s in active && s !in left ==> exists k :: k in fan && fan[k] == s
        decreases left
      {
        var s :| s in left;
        FreshExists(subs.Keys + fan.Keys);
        var k :| k != NIL && k !in subs.Keys + fan.Keys;
        ghost var before := fan;
        fan := fan[k := s];
        left := left - {s};
        forall z | z in active && z !in left ensures exists j :: j in fan && fan[j] == z {
          if z != s {
            var j :| j in before && before[j] == z;
            assert j in fan && fan[j] == z;
          } else {
            assert k in fan && fan[k] == z;
          }
        }
      }
    }

    /** A taken id is rejected and changes nothing; otherwise every active subscriber gets its delivery. */
    method Publish(id: Uuid, body: Body) returns (accepted: bool, ghost fan: map<Uuid, string>)
      requires Valid() && id != NIL
      modifies this
      ensures Valid() && (accepted <==> id !in old(msgs))
      ensures !accepted ==> State() == old(State())
      ensures accepted ==> T.IsFanout(old(State()), fan) && State() == T.Apply(old(State()), T.Publish(id, body, fan))
    {
      if id in msgs {
        return false, map[];
      }
      var rows := FanOut();
      T.StepReaches(State(), T.Publish(id, body, rows));
      var t := State();
      msgs := msgs[id := T.Message(body, now)];
      subs := subs + map k | k in rows :: T.NewSub(t, id, rows[k]);
      return true, rows;
    }

    /** Success depends on the claim and the status; a stale receipt changes nothing. */
    method Ack(message: Uuid, subscriber: string, claim: Uuid) returns (outcome: Outcome, ghost row: Option<Uuid>)
      requires Valid()
      modifies this
      ensures Valid()
      ensures outcome.Settled? <==> T.OwnsPair(old(State()), message, subscriber, claim)
      ensures outcome.Missed? ==> State() == old(State()) && outcome.reason == ClassifyPair(State(), row, claim)
      ensures outcome.Settled? ==> row.Some? && State() == T.Apply(old(State()), T.Row(L.Ack(row.value, claim)))
      ensures row.Some? <==> T.HasSub(old(State()), message, subscriber)
    {
      T.ReachableIsOk(State());
      var found := FindSub(message, subscriber);
      row := found;
      if found.Some? {
        OnlyRow(State(), message, subscriber, found.value, claim);
        var k := found.value;
        var s := subs[k];
        if s.lease.claim == Some(claim) && s.lease.status == L.Processing {
          T.StepReaches(State(), T.Row(L.Ack(k, claim)));
          subs := subs[k := s.(lease := s.lease.(status := L.Done, doneAt := Some(now)))];
          return Settled, row;
        }
        return Missed(ClassifyClaimState(true, s.lease.status, s.lease.claim, claim)), row;
      }
      return Missed(ClassifyClaimState(false, L.Pending, None, claim)), row;
    }

    /** Retried while the budget lasts, dead-lettered when it is spent, untouched when stale. */
    method Nack(message: Uuid, subscriber: string, claim: Uuid, errorMsg: Bytes, delay: nat)
      returns (outcome: Outcome, ghost row: Option<Uuid>, dlqId: Uuid)
      requires Valid()
      modifies this
      ensures Valid()
      ensures outcome.Settled? <==> T.OwnsPair(old(State()), message, subscriber, claim)
      ensures outcome.Missed? ==> State() == old(State()) && outcome.reason == ClassifyPair(State(), row, claim)
      ensures outcome.Settled? ==> row.Some? && dlqId != NIL && dlqId !in old(dlq)
      ensures outcome.Settled? ==>
                State() == T.Apply(old(State()), NackAction(old(State()), row.value, claim, Truncated(errorMsg), delay, dlqId))
      ensures outcome.Settled? ==>
                && row.value in old(subs) && T.IsPair(old(subs)[row.value], message, subscriber) && message in old(msgs)
                && Nacked(old(State()), State(), row.value, Truncated(errorMsg), delay) && OthersKept(old(State()), State(), row.value)
      ensures row.Some? <==> T.HasSub(old(State()), message, subscriber)
    {
      T.ReachableIsOk(State());
      var found := FindSub(message, subscriber);
      row := found;
      if found.Some? {
        OnlyRow(State(), message, subscriber, found.value, claim);
        var lease := subs[found.value].lease;
        if lease.claim == Some(claim) && lease.status == L.Processing {
          dlqId := NackRow(found.value, claim, errorMsg, delay);
          return Settled, row, dlqId;
        }
        return Missed(ClassifyClaimState(true, lease.status, lease.claim, claim)), row, NIL;
      }
      return Missed(ClassifyClaimState(false, L.Pending, None, claim)), row, NIL;
    }

    /** The delivery is dead-lettered. */
    method BuryHeld(k: Uuid, claim: Uuid, reason: Bytes, dlqId: Uuid)
      requires Valid() && k in subs && L.HeldUnder(subs[k].lease, claim) && subs[k].message in msgs
      requires L.Exhausted(subs[k].lease) && dlqId != NIL && dlqId !in dlq && Truncated(reason) == reason
      modifies this`subs, this`dlq
      ensures Valid() && State() == T.Apply(old(State()), T.Kill(L.BuryClaimed(k, claim), dlqId, Reported(reason)))
      ensures subs == old(subs) - {k} && dlq == old(dlq)[dlqId := T.DeadLetterOf(old(State()), k, Reported(reason))]
    {
      BuryEffect(State(), k, claim, reason, dlqId);
      T.StepReaches(State(), T.Kill(L.BuryClaimed(k, claim), dlqId, Reported(reason)));
      MoveSubToDlq(k, reason, dlqId);
    }

    /** Back to pending with the attempt counted, claim cleared, available after the delay. */
    method RetryHeld(k: Uuid, claim: Uuid, reason: Bytes, delay: nat)
      requires Valid() && k in subs && L.HeldUnder(subs[k].lease, claim) && !L.Exhausted(subs[k].lease)
      modifies this`subs
      ensures Valid() && State() == T.Apply(old(State()), T.Row(L.Retry(k, claim, delay, reason)))
      ensures subs == old(subs)[k := old(subs)[k].(lease :=
                        L.Returned(old(subs)[k].lease).(availableAt := now + delay, error := Some(reason)))]
    {
      RetryEffect(State(), k, claim, reason, delay);
      T.StepReaches(State(), T.Row(L.Retry(k, claim, delay, reason)));
      var s := subs[k];
      subs := subs[k := s.(lease := s.lease.(
          status := L.Pending, claim := None, retries := s.lease.retries + 1,
          visibility := None, availableAt := now + delay, error := Some(reason)))];
    }

    /** The nack of a delivery the caller holds. */
    method NackRow(k: Uuid, claim: Uuid, errorMsg: Bytes, delay: nat) returns (dlqId: Uuid)
      requires Valid() && k in subs && L.HeldUnder(subs[k].lease, claim) && subs[k].message in msgs
      modifies this
      ensures Valid() && dlqId != NIL && dlqId !in old(dlq)
      ensures State() == T.Apply(old(State()), NackAction(old(State()), k, claim, Truncated(errorMsg), delay, dlqId))
      ensures Nacked(old(State()), State(), k, Truncated(errorMsg), delay) && OthersKept(old(State()), State(), k)
    {
      var reason := TruncateErrorMsg(errorMsg);
      dlqId := NextDlqId();
      T.ReachableLimit(State(), k);
      if subs[k].lease.retries + 1 > limit {
        TruncatedIsIdempotent(errorMsg);
        BuryHeld(k, claim, reason, dlqId);
        assert dlqId in dlq && dlqId !in old(dlq);
      } else {
        RetryHeld(k, claim, reason, delay);
      }
    }

    /** The DLQ row takes the message's body; the subscription row goes, the message stays. */
    method MoveSubToDlq(k: Uuid, reason: Bytes, dlqId: Uuid)
      requires k in subs && subs[k].message in msgs && dlqId !in dlq
      modifies this`subs, this`dlq
      ensures subs == old(subs) - {k}
      ensures dlq == old(dlq)[dlqId := T.DeadLetterOf(old(State()), k, Reported(Truncated(reason)))]
    {
      var text := TruncateErrorMsg(reason);
      var s := subs[k];
      dlq := dlq[dlqId := DeadLetter(s.message, Some(s.subscriber), msgs[s.message].body, Reported(text), s.lease.retries + 1, now)];
      subs := subs - {k};
    }
  }

  lemma BuryEffect(t: T.Topic, k: Uuid, claim: Uuid, reason: Bytes, dlqId: Uuid)
    requires k in t.subs && L.HeldUnder(t.subs[k].lease, claim) && t.subs[k].message in t.msgs
    requires L.Exhausted(t.subs[k].lease) && dlqId != NIL && dlqId !in t.dlq
    ensures T.Apply(t, T.Kill(L.BuryClaimed(k, claim), dlqId, Reported(reason))) ==
              t.(subs := t.subs - {k}, dlq := t.dlq[dlqId := T.DeadLetterOf(t, k, Reported(reason))])
  {
  }

  lemma RetryEffect(t: T.Topic, k: Uuid, claim: Uuid, reason: Bytes, delay: nat)
    requires k in t.subs && L.HeldUnder(t.subs[k].lease, claim) && !L.Exhausted(t.subs[k].lease)
    ensures T.Apply(t, T.Row(L.Retry(k, claim, delay, reason))) ==
              t.(subs := t.subs[k := t.subs[k].(lease :=
                L.Returned(t.subs[k].lease).(availableAt := t.now + delay, error := Some(reason)))])
  {
  }

  /** The pair's only row decides whether a claim holds the delivery. */
  lemma OnlyRow(t: T.Topic, message: Uuid, subscriber: string, k: Uuid, claim: Uuid)
    requires T.OneRowPerPair(t) && k in t.subs && T.IsPair(t.subs[k], message, subscriber)
    ensures T.OwnsPair(t, message, subscriber, claim) <==> T.Owns(t, k, claim)
  {
    if T.OwnsPair(t, message, subscriber, claim) {
      var j :| T.Owns(t, j, claim) && T.IsPair(t.subs[j], message, subscriber);
      assert j == k;
    }
  }
}
