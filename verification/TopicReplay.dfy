/** Paged DLQ replay of a topic: every dead letter goes back to its own subscriber, and none is skipped. */
module TopicReplay {
  import opened Basics
  import opened Paging
  import opened TopicStore
  import T = Topic

  /** The delivery the DLQ row `d` stands for, started afresh. */
  function Fresh(t: T.Topic, d: Uuid): T.Sub
    requires d in t.dlq && t.dlq[d].subscriber.Some?
  {
    T.NewSub(t, t.dlq[d].original, t.dlq[d].subscriber.value)
  }

  /** The DLQ row `d` became the subscription row `k`. */
  datatype Revival = Revival(d: Uuid, k: Uuid)

  predicate CanRevive(t: T.Topic, x: Revival) {
    x.d in t.dlq && t.dlq[x.d].subscriber.Some? && x.k !in t.subs
  }

  function ReviveOne(t: T.Topic, x: Revival): T.Topic {
    if CanRevive(t, x) then t.(subs := t.subs[x.k := Fresh(t, x.d)], dlq := t.dlq - {x.d}) else t
  }

  function Revive(t: T.Topic, q: seq<Revival>): T.Topic {
    if q == [] then t else ReviveOne(Revive(t, q[..|q| - 1]), q[|q| - 1])
  }

  /** Every step of the replay really moved a row. */
  predicate AllRevive(t: T.Topic, q: seq<Revival>) {
    q == [] || (AllRevive(t, q[..|q| - 1]) && CanRevive(Revive(t, q[..|q| - 1]), q[|q| - 1]))
  }

  /** The DLQ rows of a replay, in order. */
  function RowsOf(q: seq<Revival>): seq<Uuid> {
    seq(|q|, i requires 0 <= i < |q| => q[i].d)
  }

  /** The subscription rows of a replay, in order. */
  function KeysOf(q: seq<Revival>): seq<Uuid> {
    seq(|q|, i requires 0 <= i < |q| => q[i].k)
  }

  lemma ReviveSnoc(t: T.Topic, q: seq<Revival>, x: Revival)
    requires AllRevive(t, q) && CanRevive(Revive(t, q), x)
    ensures AllRevive(t, q + [x]) && Revive(t, q + [x]) == ReviveOne(Revive(t, q), x)
  {
    assert (q + [x])[..|q|] == q;
  }

  /** What a replay leaves alone, and what it makes of each row: exactly one fresh delivery. */
  lemma {:induction false} ReviveIsExact(t: T.Topic, q: seq<Revival>, i: nat)
    requires AllRevive(t, q) && i < |q|
    ensures q[i].d in t.dlq && q[i].k !in t.subs && t.dlq[q[i].d].subscriber.Some?
    ensures q[i].d !in Revive(t, q).dlq && q[i].k in Revive(t, q).subs && Revive(t, q).subs[q[i].k] == Fresh(t, q[i].d)
  {
    var p, x := q[..|q| - 1], q[|q| - 1];
    ReviveKeepsDead(t, p);
    ReviveKeepsSubs(t, p);
    if i < |p| {
      ReviveIsExact(t, p, i);
      assert p[i] == q[i];
    }
  }

  /** The DLQ rows not replayed are as before, and nothing but the two tables changed. */
  lemma {:induction false} ReviveKeepsDead(t: T.Topic, q: seq<Revival>)
    requires AllRevive(t, q)
    ensures var t' := Revive(t, q);
            && t' == t.(subs := t'.subs, dlq := t'.dlq)
            && (forall d :: d in t'.dlq <==> d in t.dlq && d !in RowsOf(q))
            && (forall d :: d in t'.dlq ==> t'.dlq[d] == t.dlq[d])
  {
    if q != [] {
      var p, x := q[..|q| - 1], q[|q| - 1];
      ReviveKeepsDead(t, p);
      assert RowsOf(q) == RowsOf(p) + [x.d];
    }
  }

  /** The old subscription rows are as before, and every new one comes from a DLQ row. */
  lemma {:induction false} ReviveKeepsSubs(t: T.Topic, q: seq<Revival>)
    requires AllRevive(t, q)
    ensures var t' := Revive(t, q);
            && (forall k :: k in t'.subs <==> k in t.subs || k in KeysOf(q))
            && (forall k :: k in t.subs ==> t'.subs[k] == t.subs[k])
  {
    if q != [] {
      var p, x := q[..|q| - 1], q[|q| - 1];
      ReviveKeepsSubs(t, p);
      assert KeysOf(q) == KeysOf(p) + [x.k];
    }
  }

  /** A replayed row finds its message, and no row in its way. */
  lemma ReviveOneReaches(t: T.Topic, x: Revival)
    requires T.Reachable(t) && CanRevive(t, x) && x.k != NIL
    ensures T.Reachable(ReviveOne(t, x)) && !T.HasSub(t, t.dlq[x.d].original, t.dlq[x.d].subscriber.value)
  {
    T.ReachableIsOk(t);
    T.ReinstateNeverSkips(t, x.d, x.k);
    T.StepReaches(t, T.Reinstate(x.d, x.k));
  }

  // ---------------------------------------------------------------- one page, set by set

  /** A failed delivery that a page re-creates. */
  datatype Record = Record(message: Uuid, subscriber: string)

  ghost predicate AllDead(t: T.Topic, q: seq<Uuid>) {
    forall i :: 0 <= i < |q| ==> q[i] in t.dlq && t.dlq[q[i]].subscriber.Some? && t.dlq[q[i]].original in t.msgs
  }

  function RecordOf(t: T.Topic, d: Uuid): Record
    requires d in t.dlq && t.dlq[d].subscriber.Some?
  {
    Record(t.dlq[d].original, t.dlq[d].subscriber.value)
  }

  function RecordsOf(t: T.Topic, q: seq<Uuid>): seq<Record>
    requires forall i :: 0 <= i < |q| ==> q[i] in t.dlq && t.dlq[q[i]].subscriber.Some?
  {
    seq(|q|, i requires 0 <= i < |q| => RecordOf(t, q[i]))
  }

  /** The rows whose message still exists, in order. */
  function Existing(t: T.Topic, q: seq<Uuid>): (live: seq<Uuid>)
    requires forall i :: 0 <= i < |q| ==> q[i] in t.dlq
    ensures AllDead(t, q) ==> live == q
  {
    if q == [] then []
    else
      var n := |q| - 1;
      Existing(t, q[..n]) + if t.dlq[q[n]].original in t.msgs then [q[n]] else []
  }

  method FilterExisting(t: T.Topic, q: seq<Uuid>) returns (live: seq<Uuid>)
    requires forall i :: 0 <= i < |q| ==> q[i] in t.dlq
    ensures live == Existing(t, q)
  {
    live := [];
    for i := 0 to |q|
      invariant live == Existing(t, q[..i])
    {
      assert q[..i + 1][..i] == q[..i];
      if t.dlq[q[i]].original in t.msgs {
        live := live + [q[i]];
      }
    }
    assert q[..|q|] == q;
  }

  predicate AllKnown(t: T.Topic, q: seq<Uuid>) {
    forall i :: 0 <= i < |q| ==> q[i] in t.dlq && t.dlq[q[i]].subscriber.Some?
  }

  ghost predicate AllDifferent(rs: seq<Record>) {
    forall i, j :: 0 <= i < j < |rs| ==> rs[i] != rs[j]
  }

  /** The first occurrence of each record. */
  function Dedupe(rs: seq<Record>): seq<Record> {
    if rs == [] then []
    else
      var p, r := Dedupe(rs[..|rs| - 1]), rs[|rs| - 1];
      if r in p then p else p + [r]
  }

  lemma {:induction false} DedupeIsExact(rs: seq<Record>)
    ensures AllDifferent(Dedupe(rs)) && (forall r :: r in Dedupe(rs) <==> r in rs)
    ensures AllDifferent(rs) ==> Dedupe(rs) == rs
  {
    if rs != [] {
      var p, r := rs[..|rs| - 1], rs[|rs| - 1];
      assert rs == p + [r];
      DedupeIsExact(p);
    }
  }

  lemma DeadAreWhole(t: T.Topic, q: seq<Uuid>)
    requires T.Reachable(t) && Distinct(q) && forall i :: 0 <= i < |q| ==> q[i] in t.dlq
    ensures AllDead(t, q) && AllDifferent(RecordsOf(t, q))
  {
    T.ReachableIsOk(t);
    forall i, j | 0 <= i < j < |q| ensures RecordOf(t, q[i]) != RecordOf(t, q[j]) {
      assert T.IsDeadPair(t.dlq[q[i]], t.dlq[q[i]].original, t.dlq[q[i]].subscriber.value);
    }
  }

  lemma DedupeSnoc(rs: seq<Record>, r: Record)
    ensures Dedupe(rs + [r]) == if r in Dedupe(rs) then Dedupe(rs) else Dedupe(rs) + [r]
  {
    assert (rs + [r])[..|rs|] == rs;
  }

  /** The records to re-create, each once, and the rows to delete, also those of a repeated record. */
  method ResolveRecords(t: T.Topic, q: seq<Uuid>) returns (records: seq<Record>, replayed: seq<Uuid>)
    requires AllKnown(t, q)
    ensures records == Dedupe(RecordsOf(t, q)) && replayed == q
  {
    records, replayed := [], [];
    var seen: set<Record> := {};
    ghost var all := [];
    for i := 0 to |q|
      invariant replayed == q[..i] && all == RecordsOf(t, replayed)
      invariant records == Dedupe(all) && forall r :: r in seen <==> r in records
    {
      var r := RecordOf(t, q[i]);
      DedupeSnoc(all, r);
      RecordsSnoc(t, replayed, q[i]);
      all := all + [r];
      if r !in seen {
        seen := seen + {r};
        records := records + [r];
      }
      replayed := replayed + [q[i]];
    }
    assert replayed == q;
  }

  lemma RecordsSnoc(t: T.Topic, q: seq<Uuid>, d: Uuid)
    requires AllKnown(t, q) && d in t.dlq && t.dlq[d].subscriber.Some?
    ensures AllKnown(t, q + [d]) && RecordsOf(t, q + [d]) == RecordsOf(t, q) + [RecordOf(t, d)]
  {
  }

  predicate HasPair(subs: map<Uuid, T.Sub>, r: Record) {
    exists k :: k in subs && T.IsPair(subs[k], r.message, r.subscriber)
  }

  /** In the middle of a page: the next record meets no row, and inserting it is reviving its dead letter. */
  lemma RecordStep(t: T.Topic, made: seq<Revival>, d: Uuid, k: Uuid)
    requires AllRevive(t, made) && T.Reachable(Revive(t, made))
    requires d in t.dlq && t.dlq[d].subscriber.Some? && d !in RowsOf(made) && k != NIL && k !in Revive(t, made).subs
    ensures !HasPair(Revive(t, made).subs, RecordOf(t, d))
    ensures var t' := Revive(t, made + [Revival(d, k)]);
            && AllRevive(t, made + [Revival(d, k)]) && T.Reachable(t')
            && t'.subs == Revive(t, made).subs[k := T.NewSub(t, t.dlq[d].original, t.dlq[d].subscriber.value)]
  {
    ReviveKeepsDead(t, made);
    ReviveOneReaches(Revive(t, made), Revival(d, k));
    ReviveSnoc(t, made, Revival(d, k));
  }

  method NextKey(used: set<Uuid>) returns (k: Uuid)
    ensures k != NIL && k !in used
  {
    FreshExists(used);
    k :| k != NIL && k !in used;
  }

  /** The multi-row INSERT with ON CONFLICT DO NOTHING, for the records of the rows `q`. */
  method InsertSubscriptionRecords(t: T.Topic, records: seq<Record>, ghost q: seq<Uuid>)
    returns (subs: map<Uuid, T.Sub>, ghost made: seq<Revival>)
    requires T.Reachable(t) && AllDead(t, q) && Distinct(q) && records == RecordsOf(t, q)
    ensures RowsOf(made) == q && AllRevive(t, made) && T.Reachable(Revive(t, made)) && subs == Revive(t, made).subs
  {
    subs, made := t.subs, [];
    for i := 0 to |records|
      invariant RowsOf(made) == q[..i] && AllRevive(t, made) && T.Reachable(Revive(t, made)) && subs == Revive(t, made).subs
    {
      var r := records[i];
      var k := NextKey(subs.Keys);
      RecordStep(t, made, q[i], k);
      if !HasPair(subs, r) {
        subs := subs[k := T.NewSub(t, r.message, r.subscriber)];
      }
      RowsSnoc(made, Revival(q[i], k));
      made := made + [Revival(q[i], k)];
    }
  }

  lemma RowsSnoc(made: seq<Revival>, x: Revival)
    ensures RowsOf(made + [x]) == RowsOf(made) + [x.d]
  {
  }

  /** One page: filter, deduplicate, insert, delete. Every row of it is replayed. */
  method RevivePage(db: TopicDb, q: seq<Uuid>) returns (replayed: nat, ghost made: seq<Revival>)
    requires db.Valid() && Distinct(q) && forall i :: 0 <= i < |q| ==> q[i] in db.dlq
    modifies db`subs, db`dlq
    ensures db.Valid() && replayed == |q| && RowsOf(made) == q
    ensures AllRevive(old(db.State()), made) && db.State() == Revive(old(db.State()), made)
  {
    var t := db.State();
    DeadAreWhole(t, q);
    DedupeIsExact(RecordsOf(t, q));
    var live := FilterExisting(t, q);
    var records, gone := ResolveRecords(t, live);
    var subs;
    subs, made := InsertSubscriptionRecords(t, records, q);
    ReviveKeepsDead(t, made);
    assert Revive(t, made).dlq == t.dlq - Elems(q);
    db.subs := subs;
    db.dlq := db.dlq - Elems(gone);
    replayed := |gone|;
  }

  lemma {:induction false} ReviveAppend(t: T.Topic, p: seq<Revival>, q: seq<Revival>)
    requires AllRevive(t, p) && AllRevive(Revive(t, p), q)
    ensures AllRevive(t, p + q) && Revive(t, p + q) == Revive(Revive(t, p), q)
  {
    if q == [] {
      assert p + q == p;
    } else {
      assert (p + q)[..|p + q| - 1] == p + q[..|q| - 1];
      ReviveAppend(t, p, q[..|q| - 1]);
    }
  }

  lemma ReviveLeaves(t: T.Topic, q: seq<Revival>)
    requires AllRevive(t, q)
    ensures Revive(t, q).dlq.Keys == t.dlq.Keys - Elems(RowsOf(q))
  {
    ReviveKeepsDead(t, q);
  }

  lemma AheadStep(t: T.Topic, after: Uuid, rest: seq<Uuid>, made: seq<Revival>, m: nat)
    requires IsOrder(rest) && Ahead(t.dlq.Keys, after, rest) && m <= |rest|
    requires AllRevive(t, made) && (RowsOf(made) == rest[..m] || made == [])
    ensures Ahead(Revive(t, made).dlq.Keys, if m == 0 then after else rest[m - 1], rest[m..])
  {
    ReviveLeaves(t, made);
    AfterPage(t.dlq.Keys, after, rest, Elems(RowsOf(made)), m);
  }

  /** The replay of the rows `seen`, as far as the calls so far have committed it. */
  ghost predicate Progress(start: T.Topic, t: T.Topic, made: seq<Revival>, seen: seq<Uuid>, dryRun: bool) {
    && AllRevive(start, made) && t == Revive(start, made)
    && RowsOf(made) == if dryRun then [] else seen
  }

  /** A page in the loop: `rest` is what lies ahead of the cursor. A dry run rolls the page back. */
  method ReplayPage(db: TopicDb, after: Uuid, pageLimit: nat, dryRun: bool, ghost rest: seq<Uuid>)
    returns (replayed: nat, last: Uuid, fetched: nat, ghost made: seq<Revival>)
    requires db.Valid() && IsOrder(rest) && Ahead(db.dlq.Keys, after, rest)
    modifies db`subs, db`dlq
    ensures db.Valid() && fetched == replayed == Min(pageLimit, |rest|)
    ensures Ahead(db.dlq.Keys, last, rest[fetched..])
    ensures Progress(old(db.State()), db.State(), made, rest[..fetched], dryRun)
  {
    ghost var t := db.State();
    FetchOf(db.dlq.Keys, after, rest, pageLimit);
    var subs, dlq := db.subs, db.dlq;
    var q := Fetch(db.dlq.Keys, after, pageLimit);
    last := if q == [] then after else q[|q| - 1];
    fetched := |q|;
    replayed, made := RevivePage(db, q);
    if dryRun {
      db.subs, db.dlq := subs, dlq;
      made := [];
    }
    AheadStep(t, after, rest, made, fetched);
  }

  lemma ProgressStep(start: T.Topic, t: T.Topic, t': T.Topic, made: seq<Revival>, more: seq<Revival>,
                     seen: seq<Uuid>, q: seq<Uuid>, dryRun: bool)
    requires Progress(start, t, made, seen, dryRun) && Progress(t, t', more, q, dryRun)
    ensures Progress(start, t', made + more, seen + q, dryRun)
  {
    ReviveAppend(start, made, more);
    assert RowsOf(made + more) == RowsOf(made) + RowsOf(more);
  }

  /** The rows examined so far, and those ahead of the cursor. */
  ghost predicate Position(t: T.Topic, order: seq<Uuid>, seen: seq<Uuid>, rest: seq<Uuid>, after: Uuid) {
    seen + rest == order && IsOrder(rest) && Ahead(t.dlq.Keys, after, rest)
  }

  lemma PageAdvances(start: T.Topic, t: T.Topic, t': T.Topic, made: seq<Revival>, more: seq<Revival>, order: seq<Uuid>,
                     seen: seq<Uuid>, rest: seq<Uuid>, after: Uuid, last: Uuid, m: nat, dryRun: bool)
    requires Progress(start, t, made, seen, dryRun) && Position(t, order, seen, rest, after) && m <= |rest|
    requires Progress(t, t', more, rest[..m], dryRun) && Ahead(t'.dlq.Keys, last, rest[m..])
    ensures Progress(start, t', made + more, seen + rest[..m], dryRun)
    ensures Position(t', order, seen + rest[..m], rest[m..], last)
  {
    var q := Split(order, seen, rest, m);
    ProgressStep(start, t, t', made, more, seen, q, dryRun);
  }

  /** The loop over pages: `seen` are the rows it examined, in order. */
  method ReplayPages(db: TopicDb, limit: nat, dryRun: bool, pageSize: nat, ghost order: seq<Uuid>)
    returns (replayed: nat, skipped: nat, ghost made: seq<Revival>, ghost seen: seq<Uuid>)
    requires db.Valid() && pageSize > 0 && IsOrder(order) && Ahead(db.dlq.Keys, NIL, order)
    modifies db`subs, db`dlq
    ensures db.Valid() && seen <= order && skipped == 0
    ensures replayed == |seen| == if limit > 0 then Min(limit, |order|) else |order|
    ensures Progress(old(db.State()), db.State(), made, seen, dryRun)
  {
    ghost var start, rest := db.State(), order;
    made, seen := [], [];
    var after := NIL;
    replayed, skipped := 0, 0;
    while true
      invariant db.Valid() && replayed == |seen| && skipped == 0 && (limit > 0 ==> |seen| <= limit)
      invariant Position(db.State(), order, seen, rest, after)
      invariant Progress(start, db.State(), made, seen, dryRun)
      decreases |rest|
    {
      var pageLimit := NextLimit(limit, replayed + skipped, pageSize);
      if pageLimit == 0 {
        break;
      }
      ghost var t, more := db.State(), [];
      var n, last, fetched;
      n, last, fetched, more := ReplayPage(db, after, pageLimit, dryRun, rest);
      PageAdvances(start, t, db.State(), made, more, order, seen, rest, after, last, fetched, dryRun);
      replayed := replayed + n;
      skipped := skipped + (fetched - n);
      made, seen, rest := made + more, seen + rest[..fetched], rest[fetched..];
      if fetched == 0 {
        break;
      }
      after := last;
    }
  }

  /** Nothing is skipped: the call reports every examined row as replayed, a dry run the same number,
      and the real run turns each of them into exactly one fresh delivery. */
  method ReplayDlq(db: TopicDb, limit: int, dryRun: bool, pageSize: nat)
    returns (r: ReplayResult, ghost made: seq<Revival>, ghost seen: seq<Uuid>)
    requires db.Valid() && pageSize > 0
    modifies db`subs, db`dlq
    ensures db.Valid() && (r.Invalid? <==> limit < 0)
    ensures seen == if limit < 0 then [] else Examined(old(db.dlq).Keys, limit)
    ensures limit >= 0 ==> r == Replayed(|seen|, 0)
    ensures Progress(old(db.State()), db.State(), made, seen, dryRun)
  {
    if limit < 0 {
      return Invalid, [], [];
    }
    ghost var start := db.State();
    T.ReachableIsOk(start);
    ghost var order := OrderOf(start.dlq.Keys);
    var replayed, skipped;
    replayed, skipped, made, seen := ReplayPages(db, limit, dryRun, pageSize, order);
    ExaminedIs(start.dlq.Keys, order, limit, seen);
    r := Replayed(replayed, skipped);
  }
}
