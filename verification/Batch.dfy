/** Batch acknowledgement: receipts grouped by queue, one set-based transaction per group. */
module Batch {
  import opened Basics
  import opened Claims
  import opened ErrorText
  import opened ChannelStore
  import L = Lease
  import C = Channel

  datatype QueueKind = NoKind | ChannelKind | TopicKind

  datatype Receipt = Receipt(id: Uuid, claim: Uuid, queue: string, kind: QueueKind, subscriber: string)

  /** The queue a receipt is bound to, and its subscriber when it is a topic. */
  datatype Key = Key(kind: QueueKind, queue: string, subscriber: string)

  datatype FailedReceipt = FailedReceipt(receipt: Receipt, reason: Reason)

  datatype BatchResult = BatchResult(succeeded: seq<Receipt>, failed: seq<FailedReceipt>)

  function KeyOf(r: Receipt): Key {
    Key(r.kind, r.queue, r.subscriber)
  }

  // ---------------------------------------------------------------- grouping

  /** The receipts of one queue, in input order, each once. */
  function Group(rs: seq<Receipt>, k: Key): seq<Receipt> {
    if rs == [] then []
    else
      var p, r := Group(rs[..|rs| - 1], k), rs[|rs| - 1];
      if KeyOf(r) == k && r !in rs[..|rs| - 1] then p + [r] else p
  }

  predicate DistinctPairs(g: seq<Receipt>) {
    forall i, j :: 0 <= i < j < |g| ==> g[i].id != g[j].id || g[i].claim != g[j].claim
  }

  /** A group holds exactly the receipts of its queue, with no (message, claim) pair twice. */
  lemma {:induction false} GroupIsDistinct(rs: seq<Receipt>, k: Key)
    ensures forall r :: r in Group(rs, k) <==> r in rs && KeyOf(r) == k
    ensures DistinctPairs(Group(rs, k))
  {
    if rs != [] {
      var p, r := rs[..|rs| - 1], rs[|rs| - 1];
      GroupIsDistinct(p, k);
      assert rs == p + [r];
      if KeyOf(r) == k && r !in p {
        var g := Group(p, k);
        forall i | 0 <= i < |g| ensures g[i].id != r.id || g[i].claim != r.claim {
          assert g[i] in p && KeyOf(g[i]) == k;
        }
      }
    }
  }

  function Lookup(table: map<Key, seq<Receipt>>, k: Key): seq<Receipt> {
    if k in table then table[k] else []
  }

  lemma GroupStep(p: seq<Receipt>, r: Receipt, k: Key)
    ensures Group(p + [r], k) == Group(p, k) + if KeyOf(r) == k && r !in p then [r] else []
  {
    assert (p + [r])[..|p|] == p;
  }

  lemma GroupIsEmpty(rs: seq<Receipt>, k: Key)
    ensures Group(rs, k) != [] <==> exists r :: r in rs && KeyOf(r) == k
  {
    GroupIsDistinct(rs, k);
    if Group(rs, k) != [] {
      assert Group(rs, k)[0] in Group(rs, k);
    }
  }

  /** The table holds the groups of the receipts so far. */
  ghost predicate AreGroups(table: map<Key, seq<Receipt>>, done: seq<Receipt>) {
    && (forall k :: Lookup(table, k) == Group(done, k))
    && (forall k :: k in table ==> table[k] != [])
  }

  /** One more receipt, unless it was there before, goes to the end of its group. */
  function Added(table: map<Key, seq<Receipt>>, done: seq<Receipt>, r: Receipt): map<Key, seq<Receipt>> {
    if r in done then table else table[KeyOf(r) := Lookup(table, KeyOf(r)) + [r]]
  }

  lemma GroupsStepAt(table: map<Key, seq<Receipt>>, done: seq<Receipt>, r: Receipt, k: Key)
    requires Lookup(table, k) == Group(done, k)
    ensures Lookup(Added(table, done, r), k) == Group(done + [r], k)
  {
    GroupStep(done, r, k);
  }

  lemma GroupsStep(table: map<Key, seq<Receipt>>, done: seq<Receipt>, r: Receipt)
    requires AreGroups(table, done)
    ensures AreGroups(Added(table, done, r), done + [r])
  {
    var table' := Added(table, done, r);
    forall k ensures Lookup(table', k) == Group(done + [r], k) {
      GroupsStepAt(table, done, r, k);
    }
  }

  /** A receipt without a queue type rejects the whole call; otherwise each queue gets its group. */
  method GroupReceiptsByQueue(rs: seq<Receipt>) returns (groups: Option<map<Key, seq<Receipt>>>)
    ensures groups.None? <==> exists r :: r in rs && r.kind == NoKind
    ensures groups.Some? ==> forall k :: k in groups.value <==> exists r :: r in rs && KeyOf(r) == k
    ensures groups.Some? ==> forall k :: k in groups.value ==> groups.value[k] == Group(rs, k)
  {
    var table: map<Key, seq<Receipt>> := map[];
    var seen: set<Receipt> := {};
    ghost var done: seq<Receipt> := [];
    for i := 0 to |rs|
      invariant done == rs[..i] && (forall r :: r in seen <==> r in done)
      invariant forall r :: r in done ==> r.kind != NoKind
      invariant AreGroups(table, done)
    {
      var r := rs[i];
      if r.kind == NoKind {
        return None;
      }
      GroupsStep(table, done, r);
      if r !in seen {
        seen := seen + {r};
        table := table[KeyOf(r) := Lookup(table, KeyOf(r)) + [r]];
      }
      done := done + [r];
    }
    assert done == rs;
    forall k ensures k in table <==> exists r :: r in rs && KeyOf(r) == k {
      assert Lookup(table, k) == Group(rs, k);
      GroupIsEmpty(rs, k);
    }
    return Some(table);
  }

  // ---------------------------------------------------------------- partition

  /** The receipts that own their message, in input order. */
  function Held(c: C.Channel, g: seq<Receipt>): seq<Receipt> {
    if g == [] then []
    else
      var r := g[|g| - 1];
      Held(c, g[..|g| - 1]) + if C.Owns(c, r.id, r.claim) then [r] else []
  }

  /** The receipts that do not, in input order. */
  function Stale(c: C.Channel, g: seq<Receipt>): seq<Receipt> {
    if g == [] then []
    else
      var r := g[|g| - 1];
      Stale(c, g[..|g| - 1]) + if C.Owns(c, r.id, r.claim) then [] else [r]
  }

  lemma {:induction false} PartitionSides(c: C.Channel, g: seq<Receipt>)
    ensures forall r :: r in Held(c, g) <==> r in g && C.Owns(c, r.id, r.claim)
    ensures forall r :: r in Stale(c, g) <==> r in g && !C.Owns(c, r.id, r.claim)
  {
    if g != [] {
      var p, r := g[..|g| - 1], g[|g| - 1];
      PartitionSides(c, p);
      assert g == p + [r];
    }
  }

  /** `q` is what `g` has at the ascending positions `at`. */
  ghost predicate InOrder(q: seq<Receipt>, g: seq<Receipt>, at: seq<nat>) {
    && |at| == |q| && (forall i :: 0 <= i < |at| ==> at[i] < |g| && q[i] == g[at[i]])
    && (forall i, j :: 0 <= i < j < |at| ==> at[i] < at[j])
  }

  lemma MorePositions(q: seq<Receipt>, p: seq<Receipt>, at: seq<nat>, r: Receipt, taken: bool, q': seq<Receipt>, g: seq<Receipt>)
    returns (more: seq<nat>)
    requires InOrder(q, p, at) && g == p + [r] && q' == q + if taken then [r] else []
    ensures InOrder(q', g, more)
  {
    more := if taken then at + [|p|] else at;
  }

  /** The succeeded receipts are in input order. */
  lemma {:induction false} HeldInOrder(c: C.Channel, g: seq<Receipt>) returns (at: seq<nat>)
    ensures InOrder(Held(c, g), g, at)
  {
    at := [];
    if g != [] {
      var p, r := g[..|g| - 1], g[|g| - 1];
      at := HeldInOrder(c, p);
      at := MorePositions(Held(c, p), p, at, r, C.Owns(c, r.id, r.claim), Held(c, g), g);
    }
  }

  /** Position `k` of the input is where it should be in the output: after the held ones before it. */
  lemma {:induction false} HeldAt(c: C.Channel, g: seq<Receipt>, k: nat)
    requires k < |g| && C.Owns(c, g[k].id, g[k].claim)
    ensures |Held(c, g[..k])| < |Held(c, g)| && Held(c, g)[|Held(c, g[..k])|] == g[k]
  {
    var p := g[..|g| - 1];
    if k < |p| {
      HeldAt(c, p, k);
      assert p[..k] == g[..k];
    }
  }

  /** The missed ones are in input order. */
  lemma {:induction false} StaleInOrder(c: C.Channel, g: seq<Receipt>) returns (at: seq<nat>)
    ensures InOrder(Stale(c, g), g, at)
  {
    at := [];
    if g != [] {
      var p, r := g[..|g| - 1], g[|g| - 1];
      at := StaleInOrder(c, p);
      at := MorePositions(Stale(c, p), p, at, r, !C.Owns(c, r.id, r.claim), Stale(c, g), g);
    }
  }

  /** Position `k` of the input is where it should be in the output: after the stale ones before it. */
  lemma {:induction false} StaleAt(c: C.Channel, g: seq<Receipt>, k: nat)
    requires k < |g| && !C.Owns(c, g[k].id, g[k].claim)
    ensures |Stale(c, g[..k])| < |Stale(c, g)| && Stale(c, g)[|Stale(c, g[..k])|] == g[k]
  {
    var p := g[..|g| - 1];
    if k < |p| {
      StaleAt(c, p, k);
      assert p[..k] == g[..k];
    }
  }

  /** A group holds its receipts by first occurrence, in input order. */
  lemma {:induction false} GroupInOrder(g: seq<Receipt>, key: Key) returns (at: seq<nat>)
    ensures InOrder(Group(g, key), g, at)
  {
    at := [];
    if g != [] {
      var p, r := g[..|g| - 1], g[|g| - 1];
      at := GroupInOrder(p, key);
      at := MorePositions(Group(p, key), p, at, r, KeyOf(r) == key && r !in p, Group(g, key), g);
    }
  }

  /** Position `k` of the input is where it should be in the output: after those of its group before it. */
  lemma {:induction false} GroupAt(g: seq<Receipt>, key: Key, k: nat)
    requires k < |g| && KeyOf(g[k]) == key && g[k] !in g[..k]
    ensures |Group(g[..k], key)| < |Group(g, key)| && Group(g, key)[|Group(g[..k], key)|] == g[k]
  {
    var p := g[..|g| - 1];
    if k < |p| {
      GroupAt(p, key, k);
      assert p[..k] == g[..k];
    }
  }

  /** How often a receipt is in a sequence. */
  function Times(q: seq<Receipt>, x: Receipt): nat {
    if q == [] then 0 else Times(q[..|q| - 1], x) + if q[|q| - 1] == x then 1 else 0
  }

  lemma TimesSnoc(q: seq<Receipt>, r: Receipt, x: Receipt, whole: seq<Receipt>)
    requires whole == q + [r]
    ensures Times(whole, x) == Times(q, x) + if r == x then 1 else 0
  {
    assert whole[..|q|] == q;
  }

  lemma {:induction false} TimesIsCount(q: seq<Receipt>, x: Receipt)
    ensures Times(q, x) == multiset(q)[x]
  {
    if q != [] {
      var p, r := q[..|q| - 1], q[|q| - 1];
      TimesIsCount(p, x);
      assert q == p + [r];
    }
  }

  lemma {:induction false} HeldTimes(c: C.Channel, g: seq<Receipt>, x: Receipt)
    ensures Times(Held(c, g), x) == if C.Owns(c, x.id, x.claim) then Times(g, x) else 0
  {
    if g != [] {
      var p, r := g[..|g| - 1], g[|g| - 1];
      HeldTimes(c, p, x);
      if C.Owns(c, r.id, r.claim) {
        TimesSnoc(Held(c, p), r, x, Held(c, g));
      } else {
        assert Held(c, g) == Held(c, p);
      }
    }
  }

  lemma {:induction false} StaleTimes(c: C.Channel, g: seq<Receipt>, x: Receipt)
    ensures Times(Stale(c, g), x) == if C.Owns(c, x.id, x.claim) then 0 else Times(g, x)
  {
    if g != [] {
      var p, r := g[..|g| - 1], g[|g| - 1];
      StaleTimes(c, p, x);
      if C.Owns(c, r.id, r.claim) {
        assert Stale(c, g) == Stale(c, p);
      } else {
        TimesSnoc(Stale(c, p), r, x, Stale(c, g));
      }
    }
  }

  lemma PartitionTimes(c: C.Channel, g: seq<Receipt>, x: Receipt)
    ensures multiset(Held(c, g))[x] + multiset(Stale(c, g))[x] == multiset(g)[x]
  {
    HeldTimes(c, g, x);
    StaleTimes(c, g, x);
    TimesIsCount(Held(c, g), x);
    TimesIsCount(Stale(c, g), x);
    TimesIsCount(g, x);
  }

  /** Every receipt is reported exactly once, as often as it was given. */
  lemma PartitionIsExact(c: C.Channel, g: seq<Receipt>)
    ensures multiset(Held(c, g)) + multiset(Stale(c, g)) == multiset(g)
  {
    forall x ensures (multiset(Held(c, g)) + multiset(Stale(c, g)))[x] == multiset(g)[x] {
      PartitionTimes(c, g, x);
    }
  }

  lemma {:induction false} HeldIsDistinct(c: C.Channel, g: seq<Receipt>)
    requires DistinctPairs(g)
    ensures forall i :: 0 <= i < |Held(c, g)| ==> C.Owns(c, Held(c, g)[i].id, Held(c, g)[i].claim)
    ensures forall i, j :: 0 <= i < j < |Held(c, g)| ==> Held(c, g)[i].id != Held(c, g)[j].id
  {
    if g != [] {
      var p, r := g[..|g| - 1], g[|g| - 1];
      HeldIsDistinct(c, p);
      PartitionSides(c, p);
      assert g == p + [r];
      var h := Held(c, p);
      forall i | 0 <= i < |h| && C.Owns(c, r.id, r.claim) ensures h[i].id != r.id {
        assert h[i] in p;
      }
    }
  }

  /** The reason each missed receipt is given, in one snapshot. */
  function Reasons(c: C.Channel, misses: seq<Receipt>): seq<FailedReceipt> {
    seq(|misses|, i requires 0 <= i < |misses| => FailedReceipt(misses[i], Classify(C.Leases(c), misses[i].id, misses[i].claim)))
  }

  /** Classifies the misses from one status query; the answer is index-aligned with `misses`. */
  method ClassifyBatchMisses(db: ChannelDb, misses: seq<Receipt>) returns (failed: seq<FailedReceipt>)
    ensures failed == Reasons(db.State(), misses)
  {
    failed := [];
    for i := 0 to |misses|
      invariant |failed| == i
      invariant forall k :: 0 <= k < i ==>
                  failed[k] == FailedReceipt(misses[k], Classify(C.Leases(db.State()), misses[k].id, misses[k].claim))
    {
      var why := db.ClassifyMiss(misses[i].id, misses[i].claim);
      failed := failed + [FailedReceipt(misses[i], why)];
    }
  }

  /** Splits the receipts by whether their (message, claim) pair was matched. */
  method FinishBatch(db: ChannelDb, g: seq<Receipt>, matched: set<(Uuid, Uuid)>, ghost c: C.Channel) returns (res: BatchResult)
    requires forall r :: r in g ==> ((r.id, r.claim) in matched <==> C.Owns(c, r.id, r.claim))
    ensures res.succeeded == Held(c, g) && res.failed == Reasons(db.State(), Stale(c, g))
  {
    var succeeded, misses: seq<Receipt> := [], [];
    for i := 0 to |g|
      invariant succeeded == Held(c, g[..i]) && misses == Stale(c, g[..i])
    {
      assert g[..i + 1][..i] == g[..i];
      assert g[i] in g;
      if (g[i].id, g[i].claim) in matched {
        succeeded := succeeded + [g[i]];
      } else {
        misses := misses + [g[i]];
      }
    }
    assert g[..|g|] == g;
    var failed := ClassifyBatchMisses(db, misses);
    return BatchResult(succeeded, failed);
  }

  /** Whatever commits between the statement that missed and the classifying query, the batch's own
      changes included: a miss whose claim was issued is given the reason that is true at the query. */
  lemma BatchMissIsExplained(c: C.Channel, gap: seq<C.Action>, g: seq<Receipt>, i: nat)
    requires C.Reachable(c) && i < |Stale(c, g)| && Stale(c, g)[i].claim in c.minted
    ensures var later := C.Run(c, gap);
            var r, why := Stale(c, g)[i], Reasons(later, Stale(c, g))[i].reason;
            && (why == MessageNotFound <==> r.id !in later.msgs)
            && (why == MessageAlreadyAcked <==>
                r.id in later.msgs && later.msgs[r.id].lease.status == L.Done && later.msgs[r.id].lease.claim == Some(r.claim))
            && (why == ClaimExpired <==> r.id in later.msgs && later.msgs[r.id].lease.claim != Some(r.claim))
  {
    var r := Stale(c, g)[i];
    PartitionSides(c, g);
    assert r in Stale(c, g);
    C.ReachableIsOk(c);
    C.RunProjects(c, gap);
    MissIsExplained(C.Leases(c), C.Trace(c, gap), r.id, r.claim);
  }

  // ---------------------------------------------------------------- ack

  function Acked(m: C.Message, now: int): C.Message {
    m.(lease := m.lease.(status := L.Done, doneAt := Some(now)))
  }

  /** Some receipt of `g` owns message `id`. */
  predicate Hits(c: C.Channel, g: seq<Receipt>, id: Uuid) {
    exists r :: r in g && r.id == id && C.Owns(c, id, r.claim)
  }

  /** The set-based UPDATE. */
  function AckedBy(c: C.Channel, g: seq<Receipt>): C.Channel {
    c.(msgs := map id | id in c.msgs :: if Hits(c, g, id) then Acked(c.msgs[id], c.now) else c.msgs[id])
  }

  /** Receipts that own pairwise different messages. */
  predicate AllOwn(c: C.Channel, h: seq<Receipt>) {
    && (forall i :: 0 <= i < |h| ==> C.Owns(c, h[i].id, h[i].claim))
    && (forall i, j :: 0 <= i < j < |h| ==> h[i].id != h[j].id)
  }

  function Acks(h: seq<Receipt>): seq<C.Action> {
    seq(|h|, i requires 0 <= i < |h| => C.Row(L.Ack(h[i].id, h[i].claim)))
  }

  /** Every attempt of the run matched its row. */
  ghost predicate AllFire(c: C.Channel, xs: seq<C.Action>) {
    forall i :: 0 <= i < |xs| ==> C.Fires(c, xs, i)
  }

  lemma AllFireSnoc(c: C.Channel, xs: seq<C.Action>, x: C.Action)
    requires AllFire(c, xs) && C.Enabled(C.Run(c, xs), x)
    ensures AllFire(c, xs + [x])
  {
    var ys := xs + [x];
    forall i | 0 <= i < |ys| ensures C.Fires(c, ys, i) {
      if i < |xs| {
        assert ys[..i] == xs[..i];
        assert C.Fires(c, xs, i);
      } else {
        assert ys[..i] == xs;
      }
    }
  }

  lemma AcksSnoc(p: seq<Receipt>, r: Receipt)
    ensures Acks(p + [r]) == Acks(p) + [C.Row(L.Ack(r.id, r.claim))]
  {
  }

  lemma AckOneMore(c: C.Channel, p: seq<Receipt>, r: Receipt)
    requires AllOwn(c, p + [r])
    ensures AllOwn(c, p)
    ensures C.Enabled(AckedBy(c, p), C.Row(L.Ack(r.id, r.claim)))
    ensures C.Apply(AckedBy(c, p), C.Row(L.Ack(r.id, r.claim))) == AckedBy(c, p + [r])
  {
    var g := p + [r];
    assert forall i :: 0 <= i < |p| ==> g[i] == p[i];
    assert g[|p|] == r;
    forall id ensures Hits(c, g, id) <==> Hits(c, p, id) || id == r.id {
      if Hits(c, p, id) {
        var q :| q in p && q.id == id && C.Owns(c, id, q.claim);
        assert q in g;
      }
    }
    assert !Hits(c, p, r.id);
    assert C.Apply(AckedBy(c, p), C.Row(L.Ack(r.id, r.claim))).msgs == AckedBy(c, g).msgs;
  }

  /** The UPDATE is the single acks one after the other, each of which succeeds. */
  lemma {:induction false} AcksAreSingles(c: C.Channel, h: seq<Receipt>)
    requires AllOwn(c, h)
    ensures C.Run(c, Acks(h)) == AckedBy(c, h) && AllFire(c, Acks(h))
  {
    if h == [] {
      assert AckedBy(c, h).msgs == c.msgs;
    } else {
      var p, r := h[..|h| - 1], h[|h| - 1];
      assert h == p + [r];
      AckOneMore(c, p, r);
      AcksAreSingles(c, p);
      AcksSnoc(p, r);
      C.RunSnoc(c, Acks(p), C.Row(L.Ack(r.id, r.claim)));
      AllFireSnoc(c, Acks(p), C.Row(L.Ack(r.id, r.claim)));
    }
  }

  lemma OnlyHeldHit(c: C.Channel, g: seq<Receipt>)
    ensures AckedBy(c, g) == AckedBy(c, Held(c, g))
  {
    PartitionSides(c, g);
    assert forall id :: Hits(c, g, id) <==> Hits(c, Held(c, g), id);
  }

  /** The message is settled, now, and otherwise as it was. */
  predicate Completed(c: C.Channel, c': C.Channel, id: Uuid) {
    && id in c.msgs && id in c'.msgs
    && var m := c.msgs[id];
       c'.msgs[id] == C.Message(m.body, m.createdAt, m.lease.(status := L.Done, doneAt := Some(c.now)))
  }

  /** An ack batch, row by row: every succeeded receipt's message is completed now, and no other is touched. */
  lemma AckBatchColumns(c: C.Channel, h: seq<Receipt>)
    requires AllOwn(c, h)
    ensures (forall i :: 0 <= i < |h| ==> Completed(c, AckedBy(c, h), h[i].id)) && OthersKept(c, AckedBy(c, h), Ids(h))
  {
    forall i | 0 <= i < |h| ensures Hits(c, h, h[i].id) {
      assert h[i] in h;
    }
    assert forall id :: Hits(c, h, id) ==> id in Ids(h);
  }

  /** The set-based UPDATE: reachable by the single acks, exact on its rows, and of no use to a miss. */
  lemma AckBatchFacts(c: C.Channel, g: seq<Receipt>)
    requires C.Reachable(c) && DistinctPairs(g)
    ensures var c', h := AckedBy(c, g), Held(c, g);
            && C.Reachable(c') && c' == C.Run(c, Acks(h)) && AllFire(c, Acks(h))
            && (forall i :: 0 <= i < |h| ==> Completed(c, c', h[i].id)) && OthersKept(c, c', Ids(h))
            && (forall r :: r in Stale(c, g) ==> !C.Owns(c', r.id, r.claim))
  {
    HeldIsDistinct(c, g);
    PartitionSides(c, g);
    AcksAreSingles(c, Held(c, g));
    AckBatchColumns(c, Held(c, g));
    OnlyHeldHit(c, g);
    C.RunReaches(c, Acks(Held(c, g)));
  }

  /** One set-based transaction does what the single acks do, run on the receipts that match first
      and on the misses after; the misses then change nothing and get these very reasons. */
  method AckBatch(db: ChannelDb, g: seq<Receipt>) returns (res: BatchResult)
    requires db.Valid() && DistinctPairs(g)
    modifies db
    ensures db.Valid()
    ensures res.succeeded == Held(old(db.State()), g) && res.failed == Reasons(db.State(), Stale(old(db.State()), g))
    ensures db.State() == C.Run(old(db.State()), Acks(res.succeeded)) && AllFire(old(db.State()), Acks(res.succeeded))
    ensures forall i :: 0 <= i < |res.succeeded| ==>
              Completed(old(db.State()), db.State(), res.succeeded[i].id)
    ensures OthersKept(old(db.State()), db.State(), Ids(res.succeeded))
    ensures forall r :: r in Stale(old(db.State()), g) ==> !C.Owns(db.State(), r.id, r.claim)
  {
    ghost var c := db.State();
    PartitionSides(c, g);
    AckBatchFacts(c, g);
    var matched := set r | r in g && C.Owns(db.State(), r.id, r.claim) :: (r.id, r.claim);
    db.msgs := AckedBy(db.State(), g).msgs;
    res := FinishBatch(db, g, matched, c);
  }

  // ---------------------------------------------------------------- nack

  /** The held receipts whose message may be retried once more, or not. */
  function ByBudget(c: C.Channel, h: seq<Receipt>, spent: bool): seq<Receipt>
    requires forall i :: 0 <= i < |h| ==> h[i].id in c.msgs
  {
    if h == [] then []
    else
      var r := h[|h| - 1];
      ByBudget(c, h[..|h| - 1], spent) + if L.Exhausted(c.msgs[r.id].lease) == spent then [r] else []
  }

  /** Retried and dead-lettered receipts keep the order of the held ones. */
  lemma {:induction false} ByBudgetInOrder(c: C.Channel, g: seq<Receipt>, spent: bool) returns (at: seq<nat>)
    requires forall i :: 0 <= i < |g| ==> g[i].id in c.msgs
    ensures InOrder(ByBudget(c, g, spent), g, at)
  {
    at := [];
    if g != [] {
      var p, r := g[..|g| - 1], g[|g| - 1];
      at := ByBudgetInOrder(c, p, spent);
      at := MorePositions(ByBudget(c, p, spent), p, at, r, L.Exhausted(c.msgs[r.id].lease) == spent, ByBudget(c, g, spent), g);
    }
  }

  /** Position `k` of the input is where it should be in the output: after those of its side before it. */
  lemma {:induction false} ByBudgetAt(c: C.Channel, g: seq<Receipt>, spent: bool, k: nat)
    requires forall i :: 0 <= i < |g| ==> g[i].id in c.msgs
    requires k < |g| && L.Exhausted(c.msgs[g[k].id].lease) == spent
    ensures |ByBudget(c, g[..k], spent)| < |ByBudget(c, g, spent)| && ByBudget(c, g, spent)[|ByBudget(c, g[..k], spent)|] == g[k]
  {
    var p := g[..|g| - 1];
    if k < |p| {
      ByBudgetAt(c, p, spent, k);
      assert p[..k] == g[..k];
    }
  }

  lemma {:induction false} ByBudgetKeeps(c: C.Channel, h: seq<Receipt>, spent: bool)
    requires AllOwn(c, h)
    ensures var q := ByBudget(c, h, spent);
            && AllOwn(c, q) && (forall i :: 0 <= i < |q| ==> q[i] in h && L.Exhausted(c.msgs[q[i].id].lease) == spent)
  {
    if h != [] {
      var p, r := h[..|h| - 1], h[|h| - 1];
      ByBudgetKeeps(c, p, spent);
      assert h == p + [r];
      var q := ByBudget(c, p, spent);
      forall i | 0 <= i < |q| ensures q[i].id != r.id && q[i] in h {
        assert q[i] in p;
      }
    }
  }

  /** Each held message is either retried or dead-lettered. */
  lemma {:induction false} BudgetSplits(c: C.Channel, h: seq<Receipt>)
    requires forall i :: 0 <= i < |h| ==> h[i].id in c.msgs
    ensures multiset(ByBudget(c, h, false)) + multiset(ByBudget(c, h, true)) == multiset(h)
  {
    if h != [] {
      var p, r := h[..|h| - 1], h[|h| - 1];
      BudgetSplits(c, p);
      assert multiset(h) == multiset(p) + multiset{r} by {
        assert h == p + [r];
      }
    }
  }

  /** Without deduplication a repeated receipt would put its message into the DLQ twice. */
  lemma DuplicateReceiptBuriesTwice(c: C.Channel, r: Receipt)
    requires C.Owns(c, r.id, r.claim) && L.Exhausted(c.msgs[r.id].lease)
    ensures Held(c, [r, r]) == [r, r] && ByBudget(c, Held(c, [r, r]), true) == [r, r]
  {
    assert [r, r][..1] == [r] && [r][..0] == [];
    assert Held(c, [r]) == [r];
    assert ByBudget(c, [r], true) == [r];
  }

  /** The partition loop of the batch body. */
  method SplitByBudget(db: ChannelDb, h: seq<Receipt>) returns (retry: seq<Receipt>, dead: seq<Receipt>)
    requires forall i :: 0 <= i < |h| ==> h[i].id in db.msgs
    ensures retry == ByBudget(db.State(), h, false) && dead == ByBudget(db.State(), h, true)
  {
    retry, dead := [], [];
    for i := 0 to |h|
      invariant retry == ByBudget(db.State(), h[..i], false) && dead == ByBudget(db.State(), h[..i], true)
    {
      assert h[..i + 1][..i] == h[..i];
      if db.msgs[h[i].id].lease.retries + 1 > db.msgs[h[i].id].lease.limit {
        dead := dead + [h[i]];
      } else {
        retry := retry + [h[i]];
      }
    }
    assert h[..|h|] == h;
  }

  function Ids(q: seq<Receipt>): set<Uuid> {
    set r | r in q :: r.id
  }

  /** The set-based UPDATE of the retried messages, each with its own delay. */
  function RetriedBy(c: C.Channel, q: seq<Receipt>, delay: Uuid -> nat, reason: Bytes): C.Channel {
    c.(msgs := map id | id in c.msgs ::
        if id in Ids(q) then c.msgs[id].(lease := L.Returned(c.msgs[id].lease).(availableAt := c.now + delay(id), error := Some(reason)))
        else c.msgs[id])
  }

  function Retries(q: seq<Receipt>, delay: Uuid -> nat, reason: Bytes): seq<C.Action> {
    seq(|q|, i requires 0 <= i < |q| => C.Row(L.Retry(q[i].id, q[i].claim, delay(q[i].id), reason)))
  }

  lemma IdsSnoc(p: seq<Receipt>, r: Receipt)
    ensures Ids(p + [r]) == Ids(p) + {r.id}
  {
  }

  lemma RetriesSnoc(p: seq<Receipt>, r: Receipt, delay: Uuid -> nat, reason: Bytes)
    ensures Retries(p + [r], delay, reason) == Retries(p, delay, reason) + [C.Row(L.Retry(r.id, r.claim, delay(r.id), reason))]
  {
  }

  lemma RetryOneMore(c: C.Channel, p: seq<Receipt>, r: Receipt, delay: Uuid -> nat, reason: Bytes)
    requires C.Owns(c, r.id, r.claim) && r.id !in Ids(p) && !L.Exhausted(c.msgs[r.id].lease)
    ensures var x := C.Row(L.Retry(r.id, r.claim, delay(r.id), reason));
            C.Enabled(RetriedBy(c, p, delay, reason), x) &&
            C.Apply(RetriedBy(c, p, delay, reason), x) == RetriedBy(c, p + [r], delay, reason)
  {
    IdsSnoc(p, r);
    var c1 := RetriedBy(c, p, delay, reason);
    var x := C.Row(L.Retry(r.id, r.claim, delay(r.id), reason));
    assert c1.msgs[r.id] == c.msgs[r.id];
    assert C.Apply(c1, x).msgs == RetriedBy(c, p + [r], delay, reason).msgs;
  }

  /** The UPDATE is the single retries one after the other, each of which succeeds. */
  lemma {:induction false} RetriesAreSingles(c: C.Channel, q: seq<Receipt>, delay: Uuid -> nat, reason: Bytes)
    requires AllOwn(c, q) && forall i :: 0 <= i < |q| ==> !L.Exhausted(c.msgs[q[i].id].lease)
    ensures C.Run(c, Retries(q, delay, reason)) == RetriedBy(c, q, delay, reason) && AllFire(c, Retries(q, delay, reason))
  {
    if q == [] {
      assert RetriedBy(c, q, delay, reason).msgs == c.msgs;
    } else {
      var p, r := q[..|q| - 1], q[|q| - 1];
      RetriesAreSingles(c, p, delay, reason);
      assert q == p + [r];
      var x := C.Row(L.Retry(r.id, r.claim, delay(r.id), reason));
      RetryOneMore(c, p, r, delay, reason);
      RetriesSnoc(p, r, delay, reason);
      C.RunSnoc(c, Retries(p, delay, reason), x);
      AllFireSnoc(c, Retries(p, delay, reason), x);
    }
  }

  /** The single dead-lettering of the delivery `r`. */
  predicate Buries(x: C.Action, r: Receipt, reason: Bytes) {
    x.Kill? && x.act == L.BuryClaimed(r.id, r.claim) && x.reason == Reported(reason)
  }

  predicate AreBuries(xs: seq<C.Action>, dead: seq<Receipt>, reason: Bytes) {
    |xs| == |dead| && forall i :: 0 <= i < |xs| ==> Buries(xs[i], dead[i], reason)
  }

  /** The delivery is held and its budget is spent. */
  predicate Dying(c: C.Channel, r: Receipt) {
    C.Owns(c, r.id, r.claim) && L.Exhausted(c.msgs[r.id].lease)
  }

  lemma BuriesSnoc(xs: seq<C.Action>, dead: seq<Receipt>, i: nat, x: C.Action, reason: Bytes)
    requires i < |dead| && AreBuries(xs, dead[..i], reason) && Buries(x, dead[i], reason)
    ensures AreBuries(xs + [x], dead[..i + 1], reason)
  {
  }

  /** One dead message; the other dying ones keep dying. */
  method BuryRow(db: ChannelDb, r: Receipt, reason: Bytes, ghost start: C.Channel, ghost before: seq<C.Action>)
    returns (ghost x: C.Action)
    requires db.State() == C.Run(start, before) && AllFire(start, before) && Dying(db.State(), r) && Truncated(reason) == reason
    modifies db`msgs, db`dlq
    ensures Buries(x, r, reason) && AllFire(start, before + [x]) && db.State() == C.Run(start, before + [x])
    ensures forall s: Receipt {:trigger Dying(db.State(), s)} :: s.id != r.id && Dying(old(db.State()), s) ==> Dying(db.State(), s)
  {
    var d := db.NextDlqId();
    x := C.Kill(L.BuryClaimed(r.id, r.claim), d, Reported(reason));
    assert C.Enabled(db.State(), x);
    C.RunSnoc(start, before, x);
    AllFireSnoc(start, before, x);
    db.MoveToDlq(r.id, Reported(reason), d);
  }

  /** Every dead message enters the DLQ exactly once. */
  method MoveAllToDlq(db: ChannelDb, dead: seq<Receipt>, reason: Bytes) returns (ghost trace: seq<C.Action>)
    requires Truncated(reason) == reason
    requires forall i :: 0 <= i < |dead| ==> Dying(db.State(), dead[i])
    requires forall i, j :: 0 <= i < j < |dead| ==> dead[i].id != dead[j].id
    modifies db`msgs, db`dlq
    ensures db.State() == C.Run(old(db.State()), trace) && AllFire(old(db.State()), trace) && AreBuries(trace, dead, reason)
  {
    ghost var c := db.State();
    trace := [];
    for i := 0 to |dead|
      invariant db.State() == C.Run(c, trace) && AllFire(c, trace)
      invariant AreBuries(trace, dead[..i], reason)
      invariant forall k :: i <= k < |dead| ==> Dying(db.State(), dead[k])
    {
      ghost var x := BuryRow(db, dead[i], reason, c, trace);
      BuriesSnoc(trace, dead, i, x, reason);
      trace := trace + [x];
    }
    assert dead[..|dead|] == dead;
  }

  lemma AllFireAppend(c: C.Channel, xs: seq<C.Action>, ys: seq<C.Action>)
    requires AllFire(c, xs) && AllFire(C.Run(c, xs), ys)
    ensures AllFire(c, xs + ys)
  {
    var zs := xs + ys;
    forall i | 0 <= i < |zs| ensures C.Fires(c, zs, i) {
      if i < |xs| {
        assert zs[..i] == xs[..i];
        assert C.Fires(c, xs, i);
      } else {
        assert zs[..i] == xs + ys[..i - |xs|];
        C.RunAppend(c, xs, ys[..i - |xs|]);
        assert C.Fires(C.Run(c, xs), ys, i - |xs|);
      }
    }
  }

  /** What a nack action does when it matches is what the single `Nack` does in that state. */
  lemma FiredNackIsSingle(c: C.Channel, x: C.Action, r: Receipt, delay: nat, reason: Bytes, d: Uuid)
    requires C.Enabled(c, x)
    ensures x == C.Row(L.Retry(r.id, r.claim, delay, reason)) ==> x == NackAction(c, r.id, r.claim, reason, delay, d)
    ensures Buries(x, r, reason) ==> x == NackAction(c, r.id, r.claim, reason, delay, x.dlqId)
  {
  }

  /** A single ack or nack of a receipt that owns nothing changes nothing. */
  lemma StaleSingleIsNoOp(c: C.Channel, r: Receipt, reason: Bytes, delay: nat, d: Uuid)
    requires !C.Owns(c, r.id, r.claim)
    ensures C.Apply(c, C.Row(L.Ack(r.id, r.claim))) == c
    ensures C.Apply(c, NackAction(c, r.id, r.claim, reason, delay, d)) == c
  {
  }

  lemma {:induction false} DlqGrowth(c: C.Channel, xs: seq<C.Action>)
    requires AllFire(c, xs) && forall i :: 0 <= i < |xs| ==> xs[i].Kill?
    ensures |C.Run(c, xs).dlq| == |c.dlq| + |xs|
  {
    if xs != [] {
      var p, x := xs[..|xs| - 1], xs[|xs| - 1];
      forall i | 0 <= i < |p| ensures C.Fires(c, p, i) {
        assert p[..i] == xs[..i];
        assert C.Fires(c, xs, i);
      }
      DlqGrowth(c, p);
      assert C.Fires(c, xs, |xs| - 1);
      assert C.Run(c, xs).dlq.Keys == C.Run(c, p).dlq.Keys + {x.dlqId};
    }
  }

  /** Acks and nacks hand out no claim. */
  predicate OnlySettles(xs: seq<C.Action>) {
    forall i :: 0 <= i < |xs| ==> xs[i].Kill? || (xs[i].Row? && (xs[i].act.Ack? || xs[i].act.Retry?))
  }

  lemma {:induction false} NothingGained(c: C.Channel, xs: seq<C.Action>, id: Uuid, claim: Uuid)
    requires OnlySettles(xs) && !C.Owns(c, id, claim)
    ensures !C.Owns(C.Run(c, xs), id, claim)
  {
    if xs != [] {
      NothingGained(c, xs[..|xs| - 1], id, claim);
    }
  }

  lemma MissesStay(c: C.Channel, xs: seq<C.Action>, g: seq<Receipt>)
    requires OnlySettles(xs)
    ensures forall r :: r in Stale(c, g) ==> !C.Owns(C.Run(c, xs), r.id, r.claim)
  {
    PartitionSides(c, g);
    forall r | r in Stale(c, g) ensures !C.Owns(C.Run(c, xs), r.id, r.claim) {
      NothingGained(c, xs, r.id, r.claim);
    }
  }

  lemma SpentStaysDying(c: C.Channel, retry: seq<Receipt>, delay: Uuid -> nat, reason: Bytes, r: Receipt)
    requires Dying(c, r) && AllOwn(c, retry) && forall i :: 0 <= i < |retry| ==> !L.Exhausted(c.msgs[retry[i].id].lease)
    ensures Dying(RetriedBy(c, retry, delay, reason), r)
  {
    assert r.id !in Ids(retry);
  }

  /** The two halves of a nack batch as one run. */
  lemma NackRuns(c: C.Channel, retry: seq<Receipt>, dead: seq<Receipt>, delay: Uuid -> nat, buries: seq<C.Action>, reason: Bytes)
    requires var retries := Retries(retry, delay, reason); AllFire(c, retries) && AllFire(C.Run(c, retries), buries)
    requires AreBuries(buries, dead, reason)
    ensures var retries := Retries(retry, delay, reason);
            var c' := C.Run(C.Run(c, retries), buries);
            && C.Run(c, retries + buries) == c' && AllFire(c, retries + buries) && OnlySettles(retries + buries)
            && |c'.dlq| == |C.Run(c, retries).dlq| + |buries|
  {
    var retries := Retries(retry, delay, reason);
    DlqGrowth(C.Run(c, retries), buries);
    C.RunAppend(c, retries, buries);
    AllFireAppend(c, retries, buries);
  }

  /** The transaction body, on receipts known to be held. */
  method ProcessNackBatch(db: ChannelDb, h: seq<Receipt>, reason: Bytes, delay: Uuid -> nat)
    returns (ghost buries: seq<C.Action>)
    requires AllOwn(db.State(), h) && Truncated(reason) == reason
    modifies db`msgs, db`dlq
    ensures var c := old(db.State());
            var retries := Retries(ByBudget(c, h, false), delay, reason);
            && AreBuries(buries, ByBudget(c, h, true), reason)
            && db.State() == C.Run(c, retries + buries) && AllFire(c, retries + buries)
            && |db.dlq| == |c.dlq| + |buries| && OnlySettles(retries + buries)
  {
    ghost var c := db.State();
    ByBudgetKeeps(c, h, false);
    ByBudgetKeeps(c, h, true);
    var retry, dead := SplitByBudget(db, h);
    RetriesAreSingles(c, retry, delay, reason);
    db.msgs := RetriedBy(db.State(), retry, delay, reason).msgs;
    ghost var c1 := db.State();
    forall i | 0 <= i < |dead| ensures Dying(c1, dead[i]) {
      SpentStaysDying(c, retry, delay, reason, dead[i]);
    }
    buries := MoveAllToDlq(db, dead, reason);
    NackRuns(c, retry, dead, delay, buries, reason);
  }

  lemma FirePrefix(c: C.Channel, xs: seq<C.Action>)
    requires xs != [] && AllFire(c, xs)
    ensures AllFire(c, xs[..|xs| - 1]) && C.Enabled(C.Run(c, xs[..|xs| - 1]), xs[|xs| - 1])
  {
    var p := xs[..|xs| - 1];
    forall i | 0 <= i < |p| ensures C.Fires(c, p, i) {
      assert C.Fires(c, xs, i) && p[..i] == xs[..i];
    }
    assert C.Fires(c, xs, |p|);
  }

  /** Where a row of burials leaves its messages. */
  ghost predicate AllDied(c: C.Channel, c': C.Channel, dead: seq<Receipt>, reason: Bytes)
    requires AllOwn(c, dead)
  {
    && c'.now == c.now && OthersKept(c, c', Ids(dead))
    && (forall i :: 0 <= i < |dead| ==> dead[i].id !in c'.msgs && Died(c, c', dead[i].id, Reported(reason)))
  }

  lemma {:induction false} BuriesColumns(c: C.Channel, xs: seq<C.Action>, dead: seq<Receipt>, reason: Bytes)
    requires AllFire(c, xs) && AreBuries(xs, dead, reason) && AllOwn(c, dead)
    ensures AllDied(c, C.Run(c, xs), dead, reason)
  {
    if xs != [] {
      var n := |xs| - 1;
      FirePrefix(c, xs);
      BuriesColumns(c, xs[..n], dead[..n], reason);
      BuryColumns(c, C.Run(c, xs[..n]), xs[n], dead, reason);
    }
  }

  /** One more burial, after those of the receipts before it. */
  lemma BuryColumns(c: C.Channel, c1: C.Channel, x: C.Action, dead: seq<Receipt>, reason: Bytes)
    requires dead != [] && AllOwn(c, dead) && C.Enabled(c1, x) && Buries(x, dead[|dead| - 1], reason)
    requires AllDied(c, c1, dead[..|dead| - 1], reason)
    ensures AllDied(c, C.Apply(c1, x), dead, reason)
  {
    var n, c' := |dead| - 1, C.Apply(c1, x);
    LastId(dead, c);
    forall i | 0 <= i < |dead| ensures dead[i].id !in c'.msgs && Died(c, c', dead[i].id, Reported(reason)) {
      if i < n {
        assert dead[..n][i] == dead[i];
        StaysDied(c, c1, c', dead[i].id, reason);
      } else {
        assert x.dlqId in c'.dlq && x.dlqId !in c.dlq;
      }
    }
  }

  lemma LastId(dead: seq<Receipt>, c: C.Channel)
    requires dead != [] && AllOwn(c, dead)
    ensures var n := |dead| - 1; dead[n].id !in Ids(dead[..n]) && Ids(dead) == Ids(dead[..n]) + {dead[n].id}
  {
    var n := |dead| - 1;
    assert dead == dead[..n] + [dead[n]];
    assert forall r :: r in dead <==> r in dead[..n] || r == dead[n];
  }

  lemma StaysDied(c: C.Channel, c1: C.Channel, c': C.Channel, id: Uuid, reason: Bytes)
    requires id in c.msgs && Died(c, c1, id, Reported(reason)) && forall d :: d in c1.dlq ==> d in c'.dlq && c'.dlq[d] == c1.dlq[d]
    ensures Died(c, c', id, Reported(reason))
  {
    var d :| d in c1.dlq && d !in c.dlq
             && c1.dlq[d] == DeadLetter(id, None, c.msgs[id].body, Reported(reason), c.msgs[id].lease.retries + 1, c.now);
    assert d in c'.dlq && c'.dlq[d] == c1.dlq[d];
  }

  /** The two sides of the budget share no message. */
  lemma SidesApart(c: C.Channel, h: seq<Receipt>)
    requires AllOwn(c, h)
    ensures AllOwn(c, ByBudget(c, h, false)) && AllOwn(c, ByBudget(c, h, true))
    ensures Ids(ByBudget(c, h, false)) !! Ids(ByBudget(c, h, true))
    ensures Ids(ByBudget(c, h, false)) + Ids(ByBudget(c, h, true)) <= Ids(h)
  {
    ByBudgetKeeps(c, h, false);
    ByBudgetKeeps(c, h, true);
  }

  lemma RetriedRow(c: C.Channel, retry: seq<Receipt>, delay: Uuid -> nat, reason: Bytes, id: Uuid)
    requires id in c.msgs
    ensures var c1 := RetriedBy(c, retry, delay, reason);
            && id in c1.msgs && c1.now == c.now && c1.dlq == c.dlq
            && (if id in Ids(retry) then PutBack(c.msgs[id], c1.msgs[id], c.now + delay(id), reason) else c1.msgs[id] == c.msgs[id])
  {
  }

  lemma NackBatchRow(c: C.Channel, c': C.Channel, h: seq<Receipt>, delay: Uuid -> nat, reason: Bytes, i: nat)
    requires AllOwn(c, h) && i < |h| && AllOwn(RetriedBy(c, ByBudget(c, h, false), delay, reason), ByBudget(c, h, true))
    requires AllDied(RetriedBy(c, ByBudget(c, h, false), delay, reason), c', ByBudget(c, h, true), reason)
    ensures Nacked(c, c', h[i].id, reason, delay(h[i].id))
  {
    var spent := L.Exhausted(c.msgs[h[i].id].lease);
    SidesApart(c, h);
    ByBudgetAt(c, h, spent, i);
    var side := ByBudget(c, h, spent);
    var j := |ByBudget(c, h[..i], spent)|;
    assert side[j] == h[i] && h[i].id in Ids(side);
    RetriedRow(c, ByBudget(c, h, false), delay, reason, h[i].id);
  }

  lemma RetriedThenDied(c: C.Channel, h: seq<Receipt>, delay: Uuid -> nat, reason: Bytes, buries: seq<C.Action>)
    requires AllOwn(c, h) && AreBuries(buries, ByBudget(c, h, true), reason)
    requires AllFire(c, Retries(ByBudget(c, h, false), delay, reason) + buries)
    ensures var c1, dead := RetriedBy(c, ByBudget(c, h, false), delay, reason), ByBudget(c, h, true);
            AllOwn(c1, dead) && AllDied(c1, C.Run(c, Retries(ByBudget(c, h, false), delay, reason) + buries), dead, reason)
  {
    var retry, dead := ByBudget(c, h, false), ByBudget(c, h, true);
    SidesApart(c, h);
    ByBudgetKeeps(c, h, false);
    RetriesAreSingles(c, retry, delay, reason);
    C.RunAppend(c, Retries(retry, delay, reason), buries);
    LaterFire(c, Retries(retry, delay, reason), buries);
    DeadUntouched(c, retry, delay, reason, dead);
    BuriesColumns(RetriedBy(c, retry, delay, reason), buries, dead, reason);
  }

  /** A nack batch, row by row: every succeeded receipt's message is nacked with its own delay, and no other
      message is touched. */
  lemma NackBatchColumns(c: C.Channel, h: seq<Receipt>, delay: Uuid -> nat, reason: Bytes, buries: seq<C.Action>)
    requires AllOwn(c, h) && AreBuries(buries, ByBudget(c, h, true), reason)
    requires AllFire(c, Retries(ByBudget(c, h, false), delay, reason) + buries)
    ensures var c' := C.Run(c, Retries(ByBudget(c, h, false), delay, reason) + buries);
            (forall i :: 0 <= i < |h| ==> Nacked(c, c', h[i].id, reason, delay(h[i].id))) && OthersKept(c, c', Ids(h))
  {
    var c' := C.Run(c, Retries(ByBudget(c, h, false), delay, reason) + buries);
    RetriedThenDied(c, h, delay, reason, buries);
    forall i | 0 <= i < |h| ensures Nacked(c, c', h[i].id, reason, delay(h[i].id)) {
      NackBatchRow(c, c', h, delay, reason, i);
    }
    RestUntouched(c, RetriedBy(c, ByBudget(c, h, false), delay, reason), c', h, delay, reason);
  }

  lemma DeadUntouched(c: C.Channel, retry: seq<Receipt>, delay: Uuid -> nat, reason: Bytes, dead: seq<Receipt>)
    requires AllOwn(c, dead) && Ids(retry) !! Ids(dead)
    ensures AllOwn(RetriedBy(c, retry, delay, reason), dead)
  {
    forall i | 0 <= i < |dead| ensures C.Owns(RetriedBy(c, retry, delay, reason), dead[i].id, dead[i].claim) {
      assert dead[i] in dead && dead[i].id in Ids(dead);
    }
  }

  lemma RestUntouched(c: C.Channel, c1: C.Channel, c': C.Channel, h: seq<Receipt>, delay: Uuid -> nat, reason: Bytes)
    requires AllOwn(c, h) && c1 == RetriedBy(c, ByBudget(c, h, false), delay, reason) && OthersKept(c1, c', Ids(ByBudget(c, h, true)))
    ensures OthersKept(c, c', Ids(h))
  {
    SidesApart(c, h);
  }

  lemma LaterFire(c: C.Channel, p: seq<C.Action>, q: seq<C.Action>)
    requires AllFire(c, p + q)
    ensures AllFire(C.Run(c, p), q)
  {
    forall i | 0 <= i < |q| ensures C.Fires(C.Run(c, p), q, i) {
      assert C.Fires(c, p + q, |p| + i);
      assert (p + q)[..|p| + i] == p + q[..i];
      C.RunAppend(c, p, q[..i]);
    }
  }

  /** One transaction does what the single nacks do, run on the receipts that match first and on
      the misses after; each message that has spent its budget enters the DLQ once. */
  method NackBatch(db: ChannelDb, g: seq<Receipt>, errorMsg: Bytes, delay: Uuid -> nat)
    returns (res: BatchResult, ghost trace: seq<C.Action>, ghost buries: seq<C.Action>)
    requires db.Valid() && DistinctPairs(g)
    modifies db
    ensures db.Valid()
    ensures res.succeeded == Held(old(db.State()), g) && res.failed == Reasons(db.State(), Stale(old(db.State()), g))
    ensures AllOwn(old(db.State()), res.succeeded)
    ensures AreBuries(buries, ByBudget(old(db.State()), res.succeeded, true), Truncated(errorMsg))
    ensures trace == Retries(ByBudget(old(db.State()), res.succeeded, false), delay, Truncated(errorMsg)) + buries
    ensures db.State() == C.Run(old(db.State()), trace) && AllFire(old(db.State()), trace)
    ensures |db.dlq| == |old(db.dlq)| + |buries|
    ensures forall i :: 0 <= i < |res.succeeded| ==>
              Nacked(old(db.State()), db.State(), res.succeeded[i].id, Truncated(errorMsg), delay(res.succeeded[i].id))
    ensures OthersKept(old(db.State()), db.State(), Ids(res.succeeded))
    ensures forall r :: r in Stale(old(db.State()), g) ==> !C.Owns(db.State(), r.id, r.claim)
  {
    ghost var c := db.State();
    var reason := TruncateErrorMsg(errorMsg);
    TruncatedIsIdempotent(errorMsg);
    HeldIsDistinct(c, g);
    PartitionSides(c, g);
    var h := Held(db.State(), g);
    var matched := set r | r in h :: (r.id, r.claim);
    buries := ProcessNackBatch(db, h, reason, delay);
    trace := Retries(ByBudget(c, h, false), delay, reason) + buries;
    C.RunReaches(c, trace);
    MissesStay(c, trace, g);
    NackBatchColumns(c, h, delay, reason, buries);
    res := FinishBatch(db, g, matched, c);
  }
}
