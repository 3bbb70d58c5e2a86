/**
 A pub/sub topic: messages, one subscription row per (message, subscriber), a dead-letter table, the
 active subscribers, the database clock and the claim tokens handed out so far. Each action is one
 committed change; the theorems hold of every run of attempted actions.
 */
module Topic {
  import opened Basics
  import L = Lease

  datatype Message = Message(body: Body, createdAt: int)

  datatype Sub = Sub(message: Uuid, subscriber: string, lease: L.Lease)

  /** `limit` is the topic's max_retries. */
  datatype Topic = Topic(
    msgs: map<Uuid, Message>,
    subs: map<Uuid, Sub>,
    dlq: map<Uuid, DeadLetter>,
    active: set<string>,
    limit: nat,
    now: int,
    minted: set<Uuid>)

  datatype Action =
    | Subscribe(who: string)
    | Unsubscribe(who: string)
    | Publish(id: Uuid, body: Body, fan: map<Uuid, string>)    // the message and its subscription rows
    | Row(act: L.Action)                                       // an in-place update, or the clock
    | Kill(act: L.Action, dlqId: Uuid, reason: FailureReason)  // subscription row to DLQ
    | DropSub(k: Uuid)                                         // subscription row deleted
    | DropMessage(id: Uuid)                                    // message deleted, its subscription rows with it
    | PurgeDead(d: Uuid)                                       // DLQ row deleted
    | PurgeAll                                                 // PurgeQueue
    | Reinstate(d: Uuid, k: Uuid)                              // DLQ row back to a subscription row

  /** The delivery columns of the subscription table. */
  function Leases(t: Topic): L.Table {
    L.Table(map k | k in t.subs :: t.subs[k].lease, t.now, t.minted)
  }

  predicate IsPair(s: Sub, message: Uuid, subscriber: string) {
    s.message == message && s.subscriber == subscriber
  }

  predicate HasSub(t: Topic, message: Uuid, subscriber: string) {
    exists k :: k in t.subs && IsPair(t.subs[k], message, subscriber)
  }

  /** New row ids, one for each active subscriber. */
  predicate IsFanout(t: Topic, fan: map<Uuid, string>) {
    && (forall k :: k in fan ==> k != NIL && k !in t.subs && fan[k] in t.active)
    && (forall k, j :: k in fan && j in fan && k != j ==> fan[k] != fan[j])
    && (forall s :: s in t.active ==> exists k :: k in fan && fan[k] == s)
  }

  predicate Enabled(t: Topic, x: Action) {
    match x
    case Subscribe(_) => true
    case Unsubscribe(who) => who in t.active
    case Publish(id, _, fan) => id != NIL && id !in t.msgs && IsFanout(t, fan)
    case Row(a) => (a.Tick? || L.Rewrites(a)) && L.Enabled(Leases(t), a)
    case Kill(a, d, _) =>
      (a.Bury? || a.BuryClaimed?) && L.Enabled(Leases(t), a) && d != NIL && d !in t.dlq && t.subs[a.k].message in t.msgs
    case DropSub(k) => k in t.subs
    case DropMessage(id) => id in t.msgs && forall d :: d in t.dlq ==> t.dlq[d].original != id
    case PurgeDead(d) => d in t.dlq
    case PurgeAll => true
    case Reinstate(d, k) => d in t.dlq && t.dlq[d].subscriber.Some? && t.dlq[d].original in t.msgs && k != NIL && k !in t.subs
  }

  function DeadLetterOf(t: Topic, k: Uuid, reason: FailureReason): DeadLetter
    requires k in t.subs && t.subs[k].message in t.msgs
  {
    var s := t.subs[k];
    DeadLetter(s.message, Some(s.subscriber), t.msgs[s.message].body, reason, s.lease.retries + 1, t.now)
  }

  function NewSub(t: Topic, message: Uuid, subscriber: string): Sub {
    Sub(message, subscriber, L.NewLease(t.limit, t.now))
  }

  function Apply(t: Topic, x: Action): Topic {
    if !Enabled(t, x) then t
    else
      match x
      case Subscribe(who) => t.(active := t.active + {who})
      case Unsubscribe(who) => t.(active := t.active - {who})
      case Publish(id, body, fan) =>
        t.(msgs := t.msgs[id := Message(body, t.now)], subs := t.subs + map k | k in fan :: NewSub(t, id, fan[k]))
      case Row(a) =>
        if a.Tick? then t.(now := t.now + a.span)
        else
          var s := t.subs[a.k];
          t.(subs := t.subs[a.k := s.(lease := L.Rewritten(s.lease, a, t.now))], minted := t.minted + L.Tokens(a))
      case Kill(a, d, reason) => t.(subs := t.subs - {a.k}, dlq := t.dlq[d := DeadLetterOf(t, a.k, reason)])
      case DropSub(k) => t.(subs := t.subs - {k})
      case DropMessage(id) =>
        t.(msgs := t.msgs - {id}, subs := map k | k in t.subs && t.subs[k].message != id :: t.subs[k])
      case PurgeDead(d) => t.(dlq := t.dlq - {d})
      case PurgeAll => t.(msgs := map[], subs := map[], dlq := map[])
      case Reinstate(d, k) =>
        var row := t.dlq[d];
        t.(dlq := t.dlq - {d},
           subs := if HasSub(t, row.original, row.subscriber.value) then t.subs
                   else t.subs[k := NewSub(t, row.original, row.subscriber.value)])
  }

  function Run(t: Topic, xs: seq<Action>): Topic {
    if xs == [] then t else Apply(Run(t, xs[..|xs| - 1]), xs[|xs| - 1])
  }

  lemma {:induction false} RunAppend(t: Topic, p: seq<Action>, q: seq<Action>)
    ensures Run(t, p + q) == Run(Run(t, p), q)
  {
    if q == [] {
      assert p + q == p;
    } else {
      RunAppend(t, p, q[..|q| - 1]);
      assert (p + q)[..|p + q| - 1] == p + q[..|q| - 1];
    }
  }

  lemma RunSnoc(t: Topic, xs: seq<Action>, x: Action)
    ensures Run(t, xs + [x]) == Apply(Run(t, xs), x)
  {
    assert (xs + [x])[..|xs + [x]| - 1] == xs;
  }

  function Empty(limit: nat, now: int): Topic {
    Topic(map[], map[], map[], {}, limit, now, {})
  }

  // ---------------------------------------------------------------- the lease invariant

  /** Only fresh pending rows were added, only old rows were lost, nothing else changed. */
  ghost predicate OnlyFresh(t: L.Table, t': L.Table) {
    && t'.now == t.now && t'.minted == t.minted
    && forall k :: k in t'.rows ==> (k in t.rows && t'.rows[k] == t.rows[k]) || exists n :: t'.rows[k] == L.NewLease(n, t.now)
  }

  lemma FreshKeepsInv(t: L.Table, t': L.Table)
    requires L.Inv(t) && OnlyFresh(t, t')
    ensures L.Inv(t')
  {
  }

  /** The lease action behind an in-place change or a move to the DLQ. */
  lemma RowProjects(t: Topic, x: Action)
    requires Enabled(t, x) && (x.Row? || x.Kill?)
    ensures Leases(Apply(t, x)) == L.Apply(Leases(t), x.act)
  {
    assert Leases(Apply(t, x)).rows == L.Apply(Leases(t), x.act).rows;
  }

  lemma OthersOnlyAdd(t: Topic, x: Action)
    requires Enabled(t, x) && !x.Row? && !x.Kill?
    ensures OnlyFresh(Leases(t), Leases(Apply(t, x)))
  {
  }

  lemma StepKeepsLeases(t: Topic, x: Action)
    requires L.Inv(Leases(t))
    ensures L.Inv(Leases(Apply(t, x)))
  {
    if Enabled(t, x) {
      if x.Row? || x.Kill? {
        RowProjects(t, x);
        L.StepKeepsInv(Leases(t), x.act);
      } else {
        OthersOnlyAdd(t, x);
        FreshKeepsInv(Leases(t), Leases(Apply(t, x)));
      }
    }
  }

  // ---------------------------------------------------------------- referential integrity

  /** Every subscription row and every DLQ row refers to a message that exists. */
  ghost predicate RefersToMessages(t: Topic) {
    && (forall k :: k in t.subs ==> t.subs[k].message in t.msgs)
    && (forall d :: d in t.dlq ==> t.dlq[d].subscriber.Some? && t.dlq[d].original in t.msgs)
    && (forall d :: d in t.dlq ==> t.dlq[d].body == t.msgs[t.dlq[d].original].body)
    && NIL !in t.msgs && NIL !in t.subs && NIL !in t.dlq
  }

  predicate IsDeadPair(row: DeadLetter, message: Uuid, subscriber: string) {
    row.original == message && row.subscriber == Some(subscriber)
  }

  /** Each (message, subscriber) pair has at most one row, in one of the two tables. */
  ghost predicate OneRowPerPair(t: Topic) {
    && (forall k, j :: k in t.subs && j in t.subs && k != j ==> !IsPair(t.subs[j], t.subs[k].message, t.subs[k].subscriber))
    && (forall d, e :: d in t.dlq && e in t.dlq && d != e && t.dlq[d].subscriber.Some? ==>
                        !IsDeadPair(t.dlq[e], t.dlq[d].original, t.dlq[d].subscriber.value))
    && (forall k, d :: k in t.subs && d in t.dlq ==> !IsDeadPair(t.dlq[d], t.subs[k].message, t.subs[k].subscriber))
  }

  lemma RowKeepsReferences(t: Topic, x: Action)
    requires RefersToMessages(t) && (x.Row? || x.Kill?)
    ensures RefersToMessages(Apply(t, x))
  {
  }

  lemma PurgeKeepsReferences(t: Topic, x: Action)
    requires RefersToMessages(t) && Purges(x)
    ensures RefersToMessages(Apply(t, x))
  {
  }

  lemma StepKeepsReferences(t: Topic, x: Action)
    requires RefersToMessages(t)
    ensures RefersToMessages(Apply(t, x))
  {
    if x.Row? || x.Kill? {
      RowKeepsReferences(t, x);
    } else if Purges(x) {
      PurgeKeepsReferences(t, x);
    }
  }

  /** A row of the topic after a publish is an old one of another message, or one of the fan-out. */
  lemma PublishedRow(t: Topic, x: Action, k: Uuid)
    requires RefersToMessages(t) && Enabled(t, x) && x.Publish? && k in Apply(t, x).subs
    ensures var s := Apply(t, x).subs[k];
            if k in x.fan then IsPair(s, x.id, x.fan[k]) else k in t.subs && s == t.subs[k] && s.message != x.id
  {
  }

  lemma PublishKeepsPairs(t: Topic, x: Action)
    requires RefersToMessages(t) && OneRowPerPair(t) && Enabled(t, x) && x.Publish?
    ensures OneRowPerPair(Apply(t, x))
  {
    var t' := Apply(t, x);
    assert t'.dlq == t.dlq;
    forall k, j | k in t'.subs && j in t'.subs && k != j ensures !IsPair(t'.subs[j], t'.subs[k].message, t'.subs[k].subscriber) {
      PublishedRow(t, x, k);
      PublishedRow(t, x, j);
    }
    forall k, d | k in t'.subs && d in t'.dlq ensures !IsDeadPair(t'.dlq[d], t'.subs[k].message, t'.subs[k].subscriber) {
      PublishedRow(t, x, k);
    }
  }

  lemma KillKeepsPairs(t: Topic, x: Action)
    requires RefersToMessages(t) && OneRowPerPair(t) && Enabled(t, x) && x.Kill?
    ensures OneRowPerPair(Apply(t, x))
  {
    var row := DeadLetterOf(t, x.act.k, x.reason);
    assert forall d :: d in t.dlq ==> !IsDeadPair(t.dlq[d], row.original, row.subscriber.value);
  }

  lemma ReinstateKeepsPairs(t: Topic, x: Action)
    requires RefersToMessages(t) && OneRowPerPair(t) && Enabled(t, x) && x.Reinstate?
    ensures OneRowPerPair(Apply(t, x))
  {
  }

  lemma StepKeepsPairs(t: Topic, x: Action)
    requires RefersToMessages(t) && OneRowPerPair(t)
    ensures OneRowPerPair(Apply(t, x))
  {
    if Enabled(t, x) && x.Publish? {
      PublishKeepsPairs(t, x);
    } else if Enabled(t, x) && x.Kill? {
      KillKeepsPairs(t, x);
    } else if Enabled(t, x) && x.Reinstate? {
      ReinstateKeepsPairs(t, x);
    }
  }

  ghost predicate Inv(t: Topic) {
    L.Inv(Leases(t)) && RefersToMessages(t) && OneRowPerPair(t)
  }

  lemma {:induction false} RunKeepsInv(t: Topic, xs: seq<Action>)
    requires Inv(t)
    ensures Inv(Run(t, xs))
  {
    if xs != [] {
      var p, x := Run(t, xs[..|xs| - 1]), xs[|xs| - 1];
      RunKeepsInv(t, xs[..|xs| - 1]);
      StepKeepsLeases(p, x);
      StepKeepsReferences(p, x);
      StepKeepsPairs(p, x);
    }
  }

  lemma EmptyIsOk(limit: nat, now: int)
    ensures Leases(Empty(limit, now)) == L.Empty(now) && Inv(Empty(limit, now))
  {
    assert Leases(Empty(limit, now)).rows == map[];
  }

  /** Some sequence of committed transactions leads here from a newly created topic. */
  ghost predicate Reachable(t: Topic) {
    exists limit, start, xs :: t == Run(Empty(limit, start), xs)
  }

  /** In every reachable topic: rows refer to existing messages, and no pair has two rows. */
  lemma ReachableIsOk(t: Topic)
    requires Reachable(t)
    ensures Inv(t)
  {
    var limit, start, xs :| t == Run(Empty(limit, start), xs);
    EmptyIsOk(limit, start);
    RunKeepsInv(Empty(limit, start), xs);
  }

  lemma RunReaches(t: Topic, xs: seq<Action>)
    requires Reachable(t)
    ensures Reachable(Run(t, xs))
  {
    var limit, start, ys :| t == Run(Empty(limit, start), ys);
    RunAppend(Empty(limit, start), ys, xs);
  }

  lemma StepReaches(t: Topic, x: Action)
    requires Reachable(t)
    ensures Reachable(Apply(t, x))
  {
    RunSnoc(t, [], x);
    assert [] + [x] == [x];
    RunReaches(t, [x]);
  }

  /** So replaying a dead letter always finds its message, and never finds a row in its place. */
  lemma ReinstateNeverSkips(t: Topic, d: Uuid, k: Uuid)
    requires Inv(t) && d in t.dlq && k != NIL && k !in t.subs
    ensures Enabled(t, Reinstate(d, k)) && !HasSub(t, t.dlq[d].original, t.dlq[d].subscriber.value)
    ensures var t' := Apply(t, Reinstate(d, k));
            t'.dlq == t.dlq - {d} && t'.subs == t.subs[k := NewSub(t, t.dlq[d].original, t.dlq[d].subscriber.value)]
  {
  }

  // ---------------------------------------------------------------- conservation of deliveries

  /** The (message, subscriber) deliveries the topic still owes or has parked. */
  ghost predicate Tracked(t: Topic, message: Uuid, subscriber: string) {
    HasSub(t, message, subscriber) || exists d :: d in t.dlq && IsDeadPair(t.dlq[d], message, subscriber)
  }

  /** The actions that may end a delivery. */
  predicate Purges(x: Action) {
    x.DropSub? || x.DropMessage? || x.PurgeDead? || x.PurgeAll?
  }

  lemma SubTracks(t: Topic, x: Action, k: Uuid, message: Uuid, subscriber: string)
    requires Enabled(t, x) && !Purges(x) && k in t.subs && IsPair(t.subs[k], message, subscriber)
    ensures Tracked(Apply(t, x), message, subscriber)
  {
    var t' := Apply(t, x);
    if x.Kill? && x.act.k == k {
      assert IsDeadPair(t'.dlq[x.dlqId], message, subscriber);
    } else {
      assert k in t'.subs && IsPair(t'.subs[k], message, subscriber);
    }
  }

  lemma StepTracks(t: Topic, x: Action, message: Uuid, subscriber: string)
    requires Inv(t) && Tracked(t, message, subscriber) && !Purges(x)
    ensures Tracked(Apply(t, x), message, subscriber)
  {
    if Enabled(t, x) {
      var t' := Apply(t, x);
      if HasSub(t, message, subscriber) {
        var k :| k in t.subs && IsPair(t.subs[k], message, subscriber);
        SubTracks(t, x, k, message, subscriber);
      } else {
        var d :| d in t.dlq && IsDeadPair(t.dlq[d], message, subscriber);
        if x.Reinstate? && x.d == d {
          ReinstateNeverSkips(t, d, x.k);
          assert IsPair(t'.subs[x.k], message, subscriber);
        } else {
          assert d in t'.dlq && IsDeadPair(t'.dlq[d], message, subscriber);
        }
      }
    }
  }

  /** A delivery is never lost: through any run without a purge, across failures, dead-lettering and
      DLQ replay, the pair keeps a row (and by integrity exactly one). */
  lemma {:induction false} DeliveriesAreKept(t: Topic, xs: seq<Action>, message: Uuid, subscriber: string)
    requires Inv(t) && Tracked(t, message, subscriber) && forall i :: 0 <= i < |xs| ==> !Purges(xs[i])
    ensures Tracked(Run(t, xs), message, subscriber)
  {
    if xs != [] {
      DeliveriesAreKept(t, xs[..|xs| - 1], message, subscriber);
      RunKeepsInv(t, xs[..|xs| - 1]);
      StepTracks(Run(t, xs[..|xs| - 1]), xs[|xs| - 1], message, subscriber);
    }
  }

  /** A publish starts exactly one delivery per active subscriber. */
  lemma PublishFansOut(t: Topic, id: Uuid, body: Body, fan: map<Uuid, string>, subscriber: string)
    requires Inv(t) && Enabled(t, Publish(id, body, fan))
    ensures HasSub(Apply(t, Publish(id, body, fan)), id, subscriber) <==> subscriber in t.active
  {
    var t' := Apply(t, Publish(id, body, fan));
    if subscriber in t.active {
      var k :| k in fan && fan[k] == subscriber;
      assert IsPair(t'.subs[k], id, subscriber);
    }
  }

  // ---------------------------------------------------------------- fencing

  predicate Owns(t: Topic, k: Uuid, claim: Uuid) {
    k in t.subs && L.HeldUnder(t.subs[k].lease, claim)
  }

  /** The claim holds this subscriber's delivery of this message. */
  ghost predicate OwnsPair(t: Topic, message: Uuid, subscriber: string, claim: Uuid) {
    exists k :: Owns(t, k, claim) && IsPair(t.subs[k], message, subscriber)
  }

  lemma {:induction false} OwnershipOnlyShrinks(t: Topic, xs: seq<Action>, k: Uuid, claim: Uuid)
    requires claim in t.minted && Owns(Run(t, xs), k, claim)
    ensures Owns(t, k, claim)
    ensures Run(t, xs).subs[k].message == t.subs[k].message && Run(t, xs).subs[k].subscriber == t.subs[k].subscriber
  {
    if xs != [] {
      MintedGrows(t, xs[..|xs| - 1]);
      OwnershipStep(Run(t, xs[..|xs| - 1]), xs[|xs| - 1], k, claim);
      OwnershipOnlyShrinks(t, xs[..|xs| - 1], k, claim);
    }
  }

  lemma OwnershipStep(t: Topic, x: Action, k: Uuid, claim: Uuid)
    requires claim in t.minted && Owns(Apply(t, x), k, claim)
    ensures Owns(t, k, claim)
    ensures Apply(t, x).subs[k].message == t.subs[k].message && Apply(t, x).subs[k].subscriber == t.subs[k].subscriber
  {
  }

  lemma {:induction false} MintedGrows(t: Topic, xs: seq<Action>)
    ensures t.minted <= Run(t, xs).minted
  {
    if xs != [] {
      MintedGrows(t, xs[..|xs| - 1]);
    }
  }

  /** Once a claim does not hold a (message, subscriber) delivery it never holds it again. */
  lemma Fenced(t: Topic, xs: seq<Action>, message: Uuid, subscriber: string, claim: Uuid)
    requires claim in t.minted && !OwnsPair(t, message, subscriber, claim)
    ensures !OwnsPair(Run(t, xs), message, subscriber, claim)
  {
    var t' := Run(t, xs);
    forall k | Owns(t', k, claim) ensures !IsPair(t'.subs[k], message, subscriber) {
      OwnershipOnlyShrinks(t, xs, k, claim);
      assert Owns(t, k, claim);
    }
  }

  predicate Fires(t: Topic, xs: seq<Action>, i: nat)
    requires i < |xs|
  {
    Enabled(Run(t, xs[..i]), xs[i])
  }

  /** A successful ack or nack under `claim`. */
  predicate Settles(x: Action, claim: Uuid) {
    (x.Row? || x.Kill?) && L.Settles(x.act, claim)
  }

  lemma SettledClaimIsSpent(t: Topic, x: Action, claim: Uuid, k: Uuid)
    requires Inv(t) && Enabled(t, x) && Settles(x, claim)
    ensures claim in Apply(t, x).minted && !Owns(Apply(t, x), k, claim)
  {
    RowProjects(t, x);
    L.SettledClaimIsSpent(Leases(t), x.act, claim, k);
    assert !L.Owns(Leases(Apply(t, x)), k, claim);
  }

  lemma SettlingOwns(t: Topic, x: Action, claim: Uuid)
    requires Enabled(t, x) && Settles(x, claim)
    ensures Owns(t, x.act.k, claim)
  {
  }

  lemma RunSplit(t: Topic, xs: seq<Action>, i: nat, j: nat)
    requires i < j <= |xs|
    ensures Run(t, xs[..j]) == Run(Apply(Run(t, xs[..i]), xs[i]), xs[i + 1..j])
  {
    assert xs[..i + 1][..i] == xs[..i];
    assert xs[..j] == xs[..i + 1] + xs[i + 1..j];
    RunAppend(t, xs[..i + 1], xs[i + 1..j]);
  }

  /** One delivery is settled by at most one successful ack or nack, over a whole run. */
  lemma SettledAtMostOnce(t: Topic, xs: seq<Action>, i: nat, j: nat, claim: Uuid)
    requires Inv(t) && i < j < |xs|
    requires Settles(xs[i], claim) && Fires(t, xs, i) && Settles(xs[j], claim)
    ensures !Fires(t, xs, j)
  {
    var k := xs[j].act.k;
    RunKeepsInv(t, xs[..i]);
    SettledClaimIsSpent(Run(t, xs[..i]), xs[i], claim, k);
    RunSplit(t, xs, i, j);
    if Fires(t, xs, j) {
      SettlingOwns(Run(t, xs[..j]), xs[j], claim);
      OwnershipOnlyShrinks(Apply(Run(t, xs[..i]), xs[i]), xs[i + 1..j], k, claim);
    }
  }

  // ---------------------------------------------------------------- retry budget

  /** Deliveries under subscription row `k` since it was inserted or last replayed. */
  function Deliveries(t: Topic, xs: seq<Action>, k: Uuid): nat {
    if xs == [] then 0
    else
      var p, x := xs[..|xs| - 1], xs[|xs| - 1];
      if !Enabled(Run(t, p), x) then Deliveries(t, p, k)
      else if (x.Publish? && k in x.fan) || (x.Reinstate? && x.k == k) then 0
      else if !x.Row? || x.act.Tick? || x.act.k != k then Deliveries(t, p, k)
      else if x.act.Replay? || x.act.Rearm? then 0
      else if x.act.Claim? || x.act.Reclaim? then Deliveries(t, p, k) + 1
      else Deliveries(t, p, k)
  }

  lemma BudgetStep(t: Topic, x: Action, k: Uuid, before: nat, after: nat)
    requires k in Apply(t, x).subs && (k in t.subs ==> L.BudgetExact(t.subs[k].lease, before))
    requires after == if !Enabled(t, x) then before
                      else if (x.Publish? && k in x.fan) || (x.Reinstate? && x.k == k) then 0
                      else if !x.Row? || x.act.Tick? || x.act.k != k then before
                      else if x.act.Replay? || x.act.Rearm? then 0
                      else if x.act.Claim? || x.act.Reclaim? then before + 1
                      else before
    ensures L.BudgetExact(Apply(t, x).subs[k].lease, after)
  {
  }

  /** retry_count counts exactly the deliveries that have failed so far, per subscriber. */
  lemma {:induction false} RetryCountIsDeliveries(limit: nat, now: int, xs: seq<Action>, k: Uuid)
    requires k in Run(Empty(limit, now), xs).subs
    ensures L.BudgetExact(Run(Empty(limit, now), xs).subs[k].lease, Deliveries(Empty(limit, now), xs, k))
  {
    if xs != [] {
      var p, x := xs[..|xs| - 1], xs[|xs| - 1];
      var t := Run(Empty(limit, now), p);
      if k in t.subs {
        RetryCountIsDeliveries(limit, now, p, k);
      }
      BudgetStep(t, x, k, Deliveries(Empty(limit, now), p, k), Deliveries(Empty(limit, now), xs, k));
    }
  }

  lemma {:induction false} LimitIsFixed(limit: nat, now: int, xs: seq<Action>)
    ensures var t := Run(Empty(limit, now), xs);
            t.limit == limit && forall k :: k in t.subs ==> t.subs[k].lease.limit == limit
  {
    if xs != [] {
      LimitIsFixed(limit, now, xs[..|xs| - 1]);
      LimitStep(Run(Empty(limit, now), xs[..|xs| - 1]), xs[|xs| - 1]);
    }
  }

  lemma LimitStep(t: Topic, x: Action)
    requires forall k :: k in t.subs ==> t.subs[k].lease.limit == t.limit
    ensures Apply(t, x).limit == t.limit && forall k :: k in Apply(t, x).subs ==> Apply(t, x).subs[k].lease.limit == t.limit
  {
  }

  lemma ReachableLimit(t: Topic, k: Uuid)
    requires Reachable(t) && k in t.subs
    ensures t.subs[k].lease.limit == t.limit
  {
    var limit, start, xs :| t == Run(Empty(limit, start), xs);
    LimitIsFixed(limit, start, xs);
  }

  /** A delivery moves to the DLQ exactly at delivery number max_retries + 1, which its row records. */
  lemma BuriedAfterExactBudget(limit: nat, now: int, xs: seq<Action>, x: Action)
    requires x.Kill? && Enabled(Run(Empty(limit, now), xs), x)
    ensures Deliveries(Empty(limit, now), xs, x.act.k) == limit + 1
    ensures Apply(Run(Empty(limit, now), xs), x).dlq[x.dlqId].retries == limit + 1
  {
    var t := Run(Empty(limit, now), xs);
    EmptyIsOk(limit, now);
    RunKeepsInv(Empty(limit, now), xs);
    RetryCountIsDeliveries(limit, now, xs, x.act.k);
    LimitIsFixed(limit, now, xs);
    assert L.LeaseOk(Leases(t).rows[x.act.k], t.now);
  }

  /** So every DLQ row of every reachable topic records exactly max_retries + 1 deliveries. */
  lemma {:induction false} DeadOnBudget(limit: nat, now: int, xs: seq<Action>, d: Uuid)
    requires d in Run(Empty(limit, now), xs).dlq
    ensures Run(Empty(limit, now), xs).dlq[d].retries == limit + 1
  {
    if xs != [] {
      var p, x := xs[..|xs| - 1], xs[|xs| - 1];
      if d in Run(Empty(limit, now), p).dlq {
        DeadOnBudget(limit, now, p, d);
      }
      if x.Kill? && Enabled(Run(Empty(limit, now), p), x) {
        BuriedAfterExactBudget(limit, now, p, x);
      }
    }
  }
}
