/** Garbage collection of a channel: retention purges, and the recovery of timed-out messages. */
module ChannelGc {
  import opened Basics
  import opened ChannelStore
  import opened ChannelConsume
  import L = Lease
  import C = Channel

  /** A duration of 0 (or KeepForever) disables the purge it governs. */
  datatype Policy = Policy(completedTtl: int, maxPendingAge: int, dlqRetention: int)

  // ---------------------------------------------------------------- set-based specifications

  function TimedOutRows(c: C.Channel): set<Uuid> {
    set id | id in c.msgs && L.TimedOut(c.msgs[id].lease, c.now)
  }

  /** `retry_count >= max_retries`: to the DLQ. */
  function ExhaustedRows(c: C.Channel): set<Uuid> {
    set id | id in c.msgs && L.TimedOut(c.msgs[id].lease, c.now) && c.msgs[id].lease.retries >= c.msgs[id].lease.limit
  }

  /** `retry_count < max_retries`: back to pending. */
  function RetryableRows(c: C.Channel): set<Uuid> {
    set id | id in c.msgs && L.TimedOut(c.msgs[id].lease, c.now) && c.msgs[id].lease.retries < c.msgs[id].lease.limit
  }

  function ResetRows(c: C.Channel, ids: set<Uuid>): C.Channel {
    c.(msgs := map id | id in c.msgs :: if id in ids then c.msgs[id].(lease := L.Returned(c.msgs[id].lease)) else c.msgs[id])
  }

  /** `d` is a DLQ row that was not there before. */
  predicate IsNew(was: map<Uuid, DeadLetter>, dlq: map<Uuid, DeadLetter>, d: Uuid) {
    d in dlq && d !in was
  }

  /** A DLQ row made of one of the messages `ids` of `c`. */
  predicate MadeOf(c: C.Channel, ids: set<Uuid>, row: DeadLetter) {
    row.original in ids && row.original in c.msgs && row == C.DeadLetterOf(row.original, c.msgs[row.original], VisibilityTimeout, c.now)
  }

  /** The old DLQ rows are kept; each new one is made of a message of `ids`, no two of the same. */
  ghost predicate BuriedRows(c: C.Channel, dlq: map<Uuid, DeadLetter>, ids: set<Uuid>) {
    && (forall d :: d in c.dlq ==> d in dlq && dlq[d] == c.dlq[d])
    && (forall d {:trigger IsNew(c.dlq, dlq, d)} :: IsNew(c.dlq, dlq, d) ==> MadeOf(c, ids, dlq[d]))
    && (forall d, e {:trigger IsNew(c.dlq, dlq, d), IsNew(c.dlq, dlq, e)} ::
          IsNew(c.dlq, dlq, d) && IsNew(c.dlq, dlq, e) && d != e ==> dlq[d].original != dlq[e].original)
  }

  /** And the new rows are as many as `ids`. */
  ghost predicate Buried(c: C.Channel, dlq: map<Uuid, DeadLetter>, ids: set<Uuid>) {
    |dlq| == |c.dlq| + |ids| && BuriedRows(c, dlq, ids)
  }

  /** The set-based promotion, up to the choice of fresh DLQ ids. */
  ghost predicate Promoted(c: C.Channel, c': C.Channel, ids: set<Uuid>) {
    && c'.msgs == c.msgs - ids && c'.now == c.now && c'.minted == c.minted
    && Buried(c, c'.dlq, ids)
  }

  /** So every promoted message has its DLQ row. */
  lemma EveryMessageBuried(c: C.Channel, c': C.Channel, ids: set<Uuid>, id: Uuid)
    requires Promoted(c, c', ids) && id in ids
    ensures exists d :: IsNew(c.dlq, c'.dlq, d) && c'.dlq[d].original == id
  {
    var made := map d | d in c'.dlq && IsNew(c.dlq, c'.dlq, d) :: c'.dlq[d].original;
    NewRowCount(c, c'.dlq, ids);
    Pigeonhole(made.Keys, made, ids, id);
    var d :| d in made && made[d] == id;
    assert IsNew(c.dlq, c'.dlq, d);
  }

  lemma NewRowCount(c: C.Channel, dlq: map<Uuid, DeadLetter>, ids: set<Uuid>)
    requires Buried(c, dlq, ids)
    ensures |set d | d in dlq && IsNew(c.dlq, dlq, d)| == |ids|
  {
    assert dlq.Keys == c.dlq.Keys + set d | d in dlq && IsNew(c.dlq, dlq, d);
  }

  lemma {:induction false} Pigeonhole(from: set<Uuid>, f: map<Uuid, Uuid>, into: set<Uuid>, y: Uuid)
    requires f.Keys == from && |from| == |into| && y in into
    requires forall d :: d in from ==> f[d] in into
    requires forall d, e :: d in from && e in from && d != e ==> f[d] != f[e]
    ensures exists d :: d in from && f[d] == y
    decreases |from|
  {
    assert from != {};
    var d :| d in from;
    if f[d] != y {
      Pigeonhole(from - {d}, f - {d}, into - {f[d]}, y);
    }
  }

  datatype Purge = CompletedOlderThan(ttl: int) | PendingOlderThan(age: int)

  function PurgeableRows(c: C.Channel, p: Purge): set<Uuid> {
    match p
    case CompletedOlderThan(ttl) =>
      set id | id in c.msgs && c.msgs[id].lease.status == L.Done
               && c.msgs[id].lease.doneAt.Some? && c.msgs[id].lease.doneAt.value < c.now - ttl
    case PendingOlderThan(age) =>
      set id | id in c.msgs && c.msgs[id].lease.status == L.Pending && c.msgs[id].createdAt < c.now - age
  }

  /** Completed rows are purged by (processed_at, id), pending ones by id. */
  function PurgeOrder(c: C.Channel, p: Purge): (key: map<Uuid, int>)
    ensures key.Keys == PurgeableRows(c, p)
  {
    match p
    case CompletedOlderThan(_) => map id | id in PurgeableRows(c, p) :: c.msgs[id].lease.doneAt.value
    case PendingOlderThan(_) => ById(PurgeableRows(c, p))
  }

  function PurgeableDead(c: C.Channel, retention: int): set<Uuid> {
    set d | d in c.dlq && c.dlq[d].movedAt < c.now - retention
  }

  // ---------------------------------------------------------------- what retention deletes

  /** Of the completed messages, exactly those acked more than `ttl` ago, by the clock of the ack. */
  lemma CompletedPurgeIsExact(now: int, xs: seq<C.Action>, ttl: int, id: Uuid)
    requires id in C.Run(C.Empty(now), xs).msgs
    ensures var c := C.Run(C.Empty(now), xs);
            id in PurgeableRows(c, CompletedOlderThan(ttl)) <==>
              c.msgs[id].lease.status == L.Done
              && exists i :: 0 <= i < |xs| && C.AckedAt(C.Empty(now), xs, id, i) && C.Run(C.Empty(now), xs[..i]).now < c.now - ttl
  {
    var c := C.Run(C.Empty(now), xs);
    if c.msgs[id].lease.status == L.Done {
      var i := C.DoneWhenAcked(now, xs, id);
    }
  }

  /** Of the pending messages, exactly those published or replayed from the DLQ more than `age` ago. */
  lemma PendingPurgeIsExact(now: int, xs: seq<C.Action>, age: int, id: Uuid)
    requires id in C.Run(C.Empty(now), xs).msgs
    ensures var c := C.Run(C.Empty(now), xs);
            id in PurgeableRows(c, PendingOlderThan(age)) <==>
              c.msgs[id].lease.status == L.Pending
              && exists i :: 0 <= i < |xs| && C.InsertedAt(C.Empty(now), xs, id, i) && C.Run(C.Empty(now), xs[..i]).now < c.now - age
  {
    var i := C.CreatedWhenInserted(now, xs, id);
  }

  /** Of the dead letters, exactly those that died more than the retention ago. */
  lemma DeadPurgeIsExact(now: int, xs: seq<C.Action>, retention: int, d: Uuid)
    requires d in C.Run(C.Empty(now), xs).dlq
    ensures var c := C.Run(C.Empty(now), xs);
            d in PurgeableDead(c, retention) <==>
              exists i :: 0 <= i < |xs| && C.DiedOnBudget(C.Empty(now), xs, d, i) && C.Run(C.Empty(now), xs[..i]).now < c.now - retention
  {
    var i := C.DeadAfterExactBudget(now, xs, d);
  }

  // ---------------------------------------------------------------- the two recovery passes commute

  lemma RecoverySplits(c: C.Channel)
    ensures ExhaustedRows(c) !! RetryableRows(c) && ExhaustedRows(c) + RetryableRows(c) == TimedOutRows(c)
    ensures |ExhaustedRows(c)| + |RetryableRows(c)| == |TimedOutRows(c)|
  {
    assert ExhaustedRows(c) + RetryableRows(c) == TimedOutRows(c);
  }

  lemma ResetLeaves(c: C.Channel)
    ensures var c' := ResetRows(c, RetryableRows(c));
            TimedOutRows(c') == ExhaustedRows(c') == ExhaustedRows(c)
  {
  }

  lemma BuriedTransfers(c: C.Channel, r: C.Channel, dlq: map<Uuid, DeadLetter>, ids: set<Uuid>)
    requires Buried(c, dlq, ids) && r.dlq == c.dlq && r.now == c.now
    requires forall id :: id in ids && id in c.msgs ==> id in r.msgs && r.msgs[id] == c.msgs[id]
    ensures Buried(r, dlq, ids)
  {
    forall d | IsNew(r.dlq, dlq, d) ensures MadeOf(r, ids, dlq[d]) {
      assert IsNew(c.dlq, dlq, d);
    }
  }

  lemma ResetCommutesWithRemoval(c: C.Channel, promoted: C.Channel)
    requires promoted.msgs == c.msgs - ExhaustedRows(c) && promoted.now == c.now
    ensures ResetRows(promoted, RetryableRows(promoted)).msgs == ResetRows(c, RetryableRows(c)).msgs - ExhaustedRows(c)
    ensures TimedOutRows(ResetRows(promoted, RetryableRows(promoted))) == {}
  {
    assert RetryableRows(promoted) == RetryableRows(c);
  }

  /** `both` is what promoting first and resetting afterwards can leave. */
  ghost predicate PromotedThenReset(c: C.Channel, both: C.Channel) {
    exists promoted :: Promoted(c, promoted, ExhaustedRows(c)) && both == ResetRows(promoted, RetryableRows(promoted))
  }

  /** `both` is what resetting first and promoting afterwards can leave. */
  ghost predicate ResetThenPromoted(c: C.Channel, both: C.Channel) {
    var reset := ResetRows(c, RetryableRows(c));
    Promoted(reset, both, ExhaustedRows(reset))
  }

  lemma PromoteFirst(c: C.Channel, promoted: C.Channel)
    requires Promoted(c, promoted, ExhaustedRows(c))
    ensures ResetThenPromoted(c, ResetRows(promoted, RetryableRows(promoted)))
  {
    ResetLeaves(c);
    RecoverySplits(c);
    ResetCommutesWithRemoval(c, promoted);
    BuriedTransfers(c, ResetRows(c, RetryableRows(c)), promoted.dlq, ExhaustedRows(c));
  }

  lemma ResetFirst(c: C.Channel, both: C.Channel)
    requires ResetThenPromoted(c, both)
    ensures PromotedThenReset(c, both)
  {
    var promoted := c.(msgs := c.msgs - ExhaustedRows(c), dlq := both.dlq);
    ResetLeaves(c);
    RecoverySplits(c);
    ResetCommutesWithRemoval(c, promoted);
    BuriedTransfers(ResetRows(c, RetryableRows(c)), c, both.dlq, ExhaustedRows(c));
    assert Promoted(c, promoted, ExhaustedRows(c));
    assert both == ResetRows(promoted, RetryableRows(promoted));
  }

  /** The two recovery passes give the same results in either order, and leave nothing timed out. */
  lemma RecoveryIsOrderFree(c: C.Channel, both: C.Channel)
    ensures PromotedThenReset(c, both) <==> ResetThenPromoted(c, both)
    ensures PromotedThenReset(c, both) ==> TimedOutRows(both) == {}
  {
    if PromotedThenReset(c, both) {
      var promoted :| Promoted(c, promoted, ExhaustedRows(c)) && both == ResetRows(promoted, RetryableRows(promoted));
      PromoteFirst(c, promoted);
      ResetCommutesWithRemoval(c, promoted);
    } else if ResetThenPromoted(c, both) {
      ResetFirst(c, both);
    }
  }

  // ---------------------------------------------------------------- promotion, page by page

  ghost predicate Promoting(start: C.Channel, c: C.Channel, ids: set<Uuid>) {
    ids <= ExhaustedRows(start) && Promoted(start, c, ids)
  }

  lemma StillExhausted(start: C.Channel, c: C.Channel, ids: set<Uuid>)
    requires Promoting(start, c, ids)
    ensures ExhaustedRows(c) == ExhaustedRows(start) - ids
  {
  }

  lemma OneMoreId(ids: set<Uuid>, id: Uuid)
    requires id !in ids
    ensures |ids + {id}| == |ids| + 1
  {
  }

  lemma OneMoreRow(dlq: map<Uuid, DeadLetter>, d: Uuid, row: DeadLetter)
    requires d !in dlq
    ensures |dlq[d := row]| == |dlq| + 1
  {
    assert dlq[d := row].Keys == dlq.Keys + {d};
  }

  lemma NewOrOld(was: map<Uuid, DeadLetter>, dlq: map<Uuid, DeadLetter>, d: Uuid, row: DeadLetter, e: Uuid)
    requires d !in dlq && IsNew(was, dlq[d := row], e)
    ensures e == d || (IsNew(was, dlq, e) && dlq[d := row][e] == dlq[e])
  {
  }

  lemma BuryOneRow(c: C.Channel, dlq: map<Uuid, DeadLetter>, ids: set<Uuid>, id: Uuid, d: Uuid, row: DeadLetter)
    requires BuriedRows(c, dlq, ids) && id !in ids && d !in dlq && row.original == id && MadeOf(c, {id}, row)
    ensures BuriedRows(c, dlq[d := row], ids + {id})
  {
    var dlq' := dlq[d := row];
    forall e | IsNew(c.dlq, dlq', e)
      ensures MadeOf(c, ids + {id}, dlq'[e]) && (e != d ==> IsNew(c.dlq, dlq, e) && dlq'[e].original in ids)
    {
      NewOrOld(c.dlq, dlq, d, row, e);
      if e != d {
        assert MadeOf(c, ids, dlq[e]);
      }
    }
    forall e, f | IsNew(c.dlq, dlq', e) && IsNew(c.dlq, dlq', f) && e != f ensures dlq'[e].original != dlq'[f].original {
      assert e != d ==> IsNew(c.dlq, dlq, e);
      assert f != d ==> IsNew(c.dlq, dlq, f);
    }
  }

  lemma BuryOne(c: C.Channel, dlq: map<Uuid, DeadLetter>, ids: set<Uuid>, id: Uuid, d: Uuid, row: DeadLetter)
    requires Buried(c, dlq, ids) && id !in ids && d !in dlq && row.original == id && MadeOf(c, {id}, row)
    ensures Buried(c, dlq[d := row], ids + {id})
  {
    OneMoreRow(dlq, d, row);
    BuryOneRow(c, dlq, ids, id, d, row);
  }

  lemma MinusOne(m: map<Uuid, C.Message>, ids: set<Uuid>, id: Uuid)
    ensures (m - ids) - {id} == m - (ids + {id})
  {
  }

  lemma PromoteOne(start: C.Channel, c: C.Channel, c': C.Channel, ids: set<Uuid>, id: Uuid, d: Uuid, row: DeadLetter)
    requires Promoted(start, c, ids) && id in start.msgs && id !in ids && d !in c.dlq
    requires row == C.DeadLetterOf(id, start.msgs[id], VisibilityTimeout, start.now)
    requires c'.msgs == c.msgs - {id} && c'.dlq == c.dlq[d := row] && c'.now == c.now && c'.minted == c.minted
    ensures Promoted(start, c', ids + {id})
  {
    BuryOne(start, c.dlq, ids, id, d, row);
    MinusOne(start.msgs, ids, id);
  }

  /** Message `id` becomes the DLQ row `d`. */
  datatype Burial = Burial(id: Uuid, d: Uuid)

  function BuryRow(c: C.Channel, b: Burial): C.Channel {
    if b.id in ExhaustedRows(c) && b.d != NIL && b.d !in c.dlq then
      c.(msgs := c.msgs - {b.id}, dlq := c.dlq[b.d := C.DeadLetterOf(b.id, c.msgs[b.id], VisibilityTimeout, c.now)])
    else c
  }

  function BuryRows(c: C.Channel, q: seq<Burial>): C.Channel {
    if q == [] then c else BuryRow(BuryRows(c, q[..|q| - 1]), q[|q| - 1])
  }

  lemma BurySnoc(c: C.Channel, q: seq<Burial>, b: Burial)
    ensures BuryRows(c, q + [b]) == BuryRow(BuryRows(c, q), b)
  {
    assert (q + [b])[..|q|] == q;
  }

  /** The rows' moves are row actions. */
  lemma {:induction false} BurialsAreRun(c: C.Channel, q: seq<Burial>) returns (trace: seq<C.Action>)
    ensures C.Run(c, trace) == BuryRows(c, q)
    ensures forall x :: x in trace ==> x.Kill? && x.act.Bury? && x.reason == VisibilityTimeout
  {
    if q == [] {
      return [];
    }
    var p, b := q[..|q| - 1], q[|q| - 1];
    trace := BurialsAreRun(c, p);
    var x := C.Kill(L.Bury(b.id), b.d, VisibilityTimeout);
    BuryIsAction(BuryRows(c, p), b);
    C.RunSnoc(c, trace, x);
    trace := trace + [x];
  }

  lemma BuryIsAction(c: C.Channel, b: Burial)
    ensures C.Apply(c, C.Kill(L.Bury(b.id), b.d, VisibilityTimeout)) == BuryRow(c, b)
  {
  }

  /** One row's share of the promotion transaction. */
  method PromoteRow(db: ChannelDb, id: Uuid, ghost start: C.Channel, ghost ids: set<Uuid>, ghost q: seq<Burial>)
    returns (ghost q': seq<Burial>)
    requires db.State() == BuryRows(start, q) && Promoting(start, db.State(), ids) && id in ExhaustedRows(start) - ids
    modifies db`msgs, db`dlq
    ensures db.State() == BuryRows(start, q') && Promoting(start, db.State(), ids + {id})
  {
    var d := db.NextDlqId();
    ghost var c := db.State();
    StillExhausted(start, c, ids);
    BurySnoc(start, q, Burial(id, d));
    db.MoveToDlq(id, VisibilityTimeout, d);
    PromoteOne(start, c, db.State(), ids, id, d, C.DeadLetterOf(id, c.msgs[id], VisibilityTimeout, c.now));
    q' := q + [Burial(id, d)];
  }

  /** The rows of one page, one after the other. */
  method PromoteEach(db: ChannelDb, page: seq<Uuid>, ghost start: C.Channel, ghost gone: set<Uuid>, ghost before: seq<Burial>)
    returns (ghost ids: set<Uuid>, ghost q: seq<Burial>)
    requires db.State() == BuryRows(start, before) && Promoting(start, db.State(), gone)
    requires forall i :: 0 <= i < |page| ==> page[i] in ExhaustedRows(start) && page[i] !in gone
    requires forall i, j :: 0 <= i < j < |page| ==> page[i] != page[j]
    modifies db`msgs, db`dlq
    ensures db.State() == BuryRows(start, q) && Promoting(start, db.State(), ids)
    ensures |ids| == |gone| + |page| && gone <= ids
  {
    ids, q := gone, before;
    for i := 0 to |page|
      invariant db.State() == BuryRows(start, q) && Promoting(start, db.State(), ids)
      invariant |ids| == |gone| + i && gone <= ids
      invariant forall j :: i <= j < |page| ==> page[j] !in ids
    {
      q := PromoteRow(db, page[i], start, ids, q);
      OneMoreId(ids, page[i]);
      ids := ids + {page[i]};
    }
  }

  /** One page: the first rows by id, each moved to the DLQ. */
  method PromotePage(db: ChannelDb, pageSize: nat, ghost start: C.Channel, ghost gone: set<Uuid>, ghost before: seq<Burial>)
    returns (count: nat, ghost ids: set<Uuid>, ghost q: seq<Burial>)
    requires db.State() == BuryRows(start, before) && Promoting(start, db.State(), gone)
    modifies db`msgs, db`dlq
    ensures db.State() == BuryRows(start, q) && Promoting(start, db.State(), ids)
    ensures count == Min(pageSize, |ExhaustedRows(start) - gone|)
    ensures |ids| == |gone| + count && gone <= ids
  {
    StillExhausted(start, db.State(), gone);
    var page := PageBy(ExhaustedRows(db.State()), ById(ExhaustedRows(db.State())), pageSize);
    count := |page|;
    ids, q := PromoteEach(db, page, start, gone, before);
  }

  /** The paged loop ends with exactly the unpaged result, whatever the page size. */
  method PromoteExhausted(db: ChannelDb, pageSize: nat)
    returns (total: nat, ghost trace: seq<C.Action>)
    requires db.Valid() && pageSize > 0
    modifies db
    ensures db.Valid() && db.State() == C.Run(old(db.State()), trace)
    ensures Promoted(old(db.State()), db.State(), ExhaustedRows(old(db.State())))
    ensures total == |ExhaustedRows(old(db.State()))|
  {
    ghost var start := db.State();
    ghost var ids, q := {}, [];
    total := 0;
    assert start.msgs - {} == start.msgs;
    while true
      invariant db.State() == BuryRows(start, q) && Promoting(start, db.State(), ids)
      invariant total == |ids|
      decreases |ExhaustedRows(start) - ids|
    {
      ghost var gone := ids;
      var count;
      count, ids, q := PromotePage(db, pageSize, start, ids, q);
      total := total + count;
      SubsetSizes(ExhaustedRows(start), gone, ids);
      if count < pageSize {
        assert |ExhaustedRows(start) - ids| == 0;
        assert ids == ExhaustedRows(start);
        trace := BurialsAreRun(start, q);
        C.RunReaches(start, trace);
        return;
      }
    }
  }

  // ---------------------------------------------------------------- reset, page by page

  lemma ResetMore(c: C.Channel, done: set<Uuid>, page: set<Uuid>)
    requires done <= RetryableRows(c) && page <= RetryableRows(c) - done
    ensures ResetRows(ResetRows(c, done), page) == ResetRows(c, done + page)
    ensures RetryableRows(ResetRows(c, done)) == RetryableRows(c) - done
  {
    assert ResetRows(ResetRows(c, done), page).msgs == ResetRows(c, done + page).msgs;
  }

  lemma ResetNone(c: C.Channel)
    ensures ResetRows(c, {}) == c
  {
    assert ResetRows(c, {}).msgs == c.msgs;
  }

  lemma {:induction false} ResetIsRun(c: C.Channel, ids: set<Uuid>) returns (trace: seq<C.Action>)
    requires ids <= RetryableRows(c)
    ensures C.Run(c, trace) == ResetRows(c, ids)
    ensures forall x :: x in trace ==> x.Row? && x.act.Reset? && x.act.k in ids
    decreases ids
  {
    if ids == {} {
      ResetNone(c);
      return [];
    }
    var id :| id in ids;
    var p := ResetIsRun(c, ids - {id});
    ResetOne(c, ids - {id}, id);
    C.RunSnoc(c, p, C.Row(L.Reset(id)));
    assert ids - {id} + {id} == ids;
    return p + [C.Row(L.Reset(id))];
  }

  lemma ResetOne(c: C.Channel, done: set<Uuid>, id: Uuid)
    requires done <= RetryableRows(c) && id in RetryableRows(c) - done
    ensures C.Apply(ResetRows(c, done), C.Row(L.Reset(id))) == ResetRows(c, done + {id})
  {
    var c' := ResetRows(c, done);
    assert c'.msgs[id] == c.msgs[id];
    assert C.Enabled(c', C.Row(L.Reset(id)));
    assert C.Apply(c', C.Row(L.Reset(id))).msgs == ResetRows(c, done + {id}).msgs;
  }

  /** `ORDER BY visibility_timeout, id LIMIT n`: the longest timed out first. */
  function RetryablePage(c: C.Channel, n: nat): (ids: set<Uuid>)
    ensures ids <= RetryableRows(c) && |ids| == Min(n, |RetryableRows(c)|)
  {
    var page := PageBy(RetryableRows(c), VisibleAt(c), n);
    ElemsSize(page);
    Elems(page)
  }

  /** One page of the reset, rewritten by one UPDATE. */
  method ResetPage(db: ChannelDb, pageSize: nat, ghost start: C.Channel, ghost gone: set<Uuid>)
    returns (count: nat, ghost ids: set<Uuid>)
    requires gone <= RetryableRows(start) && db.State() == ResetRows(start, gone)
    modifies db`msgs
    ensures gone <= ids <= RetryableRows(start) && db.State() == ResetRows(start, ids)
    ensures count == Min(pageSize, |RetryableRows(start) - gone|) && |ids| == |gone| + count
  {
    ResetMore(start, gone, {});
    var page := RetryablePage(db.State(), pageSize);
    ResetMore(start, gone, page);
    db.msgs := ResetRows(db.State(), page).msgs;
    return |page|, gone + page;
  }

  /** Every retryable timed-out row goes back to pending, deliverable at once and counted. */
  method ResetTimedOut(db: ChannelDb, pageSize: nat) returns (total: nat, ghost trace: seq<C.Action>)
    requires db.Valid() && pageSize > 0
    modifies db
    ensures db.Valid() && db.State() == C.Run(old(db.State()), trace)
    ensures db.State() == ResetRows(old(db.State()), RetryableRows(old(db.State())))
    ensures total == |RetryableRows(old(db.State()))|
  {
    ghost var start := db.State();
    ghost var ids := {};
    total := 0;
    ResetNone(start);
    while true
      invariant db.State() == ResetRows(start, ids) && ids <= RetryableRows(start) && total == |ids|
      decreases |RetryableRows(start) - ids|
    {
      ghost var gone := ids;
      var count;
      count, ids := ResetPage(db, pageSize, start, ids);
      total := total + count;
      SubsetSizes(RetryableRows(start), gone, ids);
      if count < pageSize {
        assert |RetryableRows(start) - ids| == 0;
        assert ids == RetryableRows(start);
        trace := ResetIsRun(start, ids);
        C.RunReaches(start, trace);
        return;
      }
    }
  }

  // ---------------------------------------------------------------- retention, page by page

  lemma PurgeLeft(c: C.Channel, p: Purge, gone: set<Uuid>)
    requires gone <= PurgeableRows(c, p)
    ensures PurgeableRows(c.(msgs := c.msgs - gone), p) == PurgeableRows(c, p) - gone
  {
  }

  lemma PurgeMore(msgs: map<Uuid, C.Message>, gone: set<Uuid>, page: set<Uuid>)
    ensures (msgs - gone) - page == msgs - (gone + page)
  {
  }

  lemma PageAdds(all: set<Uuid>, gone: set<Uuid>, page: set<Uuid>)
    requires gone <= all && page <= all - gone
    ensures gone <= gone + page <= all && |gone + page| == |gone| + |page|
  {
  }

  function PurgeablePage(c: C.Channel, p: Purge, n: nat): (ids: set<Uuid>)
    ensures ids <= PurgeableRows(c, p) && |ids| == Min(n, |PurgeableRows(c, p)|)
  {
    var page := PageBy(PurgeableRows(c, p), PurgeOrder(c, p), n);
    ElemsSize(page);
    Elems(page)
  }

  method PurgePage(db: ChannelDb, p: Purge, pageSize: nat, ghost start: C.Channel, ghost gone: set<Uuid>)
    returns (count: nat, ghost ids: set<Uuid>)
    requires gone <= PurgeableRows(start, p) && db.State() == start.(msgs := start.msgs - gone)
    modifies db`msgs
    ensures gone <= ids <= PurgeableRows(start, p) && db.State() == start.(msgs := start.msgs - ids)
    ensures count == Min(pageSize, |PurgeableRows(start, p) - gone|) && |ids| == |gone| + count
  {
    PurgeLeft(start, p, gone);
    var page := PurgeablePage(db.State(), p, pageSize);
    PurgeMore(start.msgs, gone, page);
    PageAdds(PurgeableRows(start, p), gone, page);
    db.msgs := db.msgs - page;
    return |page|, gone + page;
  }

  /** The paged delete removes exactly the rows past their age, whatever the page size. */
  method PurgeRows(db: ChannelDb, p: Purge, pageSize: nat) returns (total: nat, ghost trace: seq<C.Action>)
    requires db.Valid() && pageSize > 0
    modifies db
    ensures db.Valid() && db.State() == C.Run(old(db.State()), trace)
    ensures db.State() == old(db.State()).(msgs := old(db.msgs) - PurgeableRows(old(db.State()), p))
    ensures total == |PurgeableRows(old(db.State()), p)|
  {
    ghost var start := db.State();
    ghost var ids := {};
    total := 0;
    assert start.msgs - {} == start.msgs;
    while true
      invariant db.State() == start.(msgs := start.msgs - ids) && ids <= PurgeableRows(start, p) && total == |ids|
      decreases |PurgeableRows(start, p) - ids|
    {
      ghost var gone := ids;
      var count;
      count, ids := PurgePage(db, p, pageSize, start, ids);
      total := total + count;
      SubsetSizes(PurgeableRows(start, p), gone, ids);
      if count < pageSize {
        assert |PurgeableRows(start, p) - ids| == 0;
        assert ids == PurgeableRows(start, p);
        trace := PurgeIsRun(start, ids);
        C.RunReaches(start, trace);
        return;
      }
    }
  }

  lemma PurgeDeadMore(c: C.Channel, retention: int, gone: set<Uuid>, page: set<Uuid>)
    requires gone <= PurgeableDead(c, retention)
    ensures PurgeableDead(c.(dlq := c.dlq - gone), retention) == PurgeableDead(c, retention) - gone
    ensures (c.dlq - gone) - page == c.dlq - (gone + page)
  {
  }

  method PurgeDeadPage(db: ChannelDb, retention: int, pageSize: nat, ghost start: C.Channel, ghost gone: set<Uuid>)
    returns (count: nat, ghost ids: set<Uuid>)
    requires gone <= PurgeableDead(start, retention) && db.State() == start.(dlq := start.dlq - gone)
    modifies db`dlq
    ensures gone <= ids <= PurgeableDead(start, retention) && db.State() == start.(dlq := start.dlq - ids)
    ensures count == Min(pageSize, |PurgeableDead(start, retention) - gone|) && |ids| == |gone| + count
  {
    PurgeDeadMore(start, retention, gone, {});
    var rows := PurgeableDead(db.State(), retention);
    var page := PageBy(rows, ById(rows), pageSize);
    ElemsSize(page);
    PurgeDeadMore(start, retention, gone, Elems(page));
    db.dlq := db.dlq - Elems(page);
    return |page|, gone + Elems(page);
  }

  method PurgeDeadRows(db: ChannelDb, retention: int, pageSize: nat) returns (total: nat, ghost trace: seq<C.Action>)
    requires db.Valid() && pageSize > 0
    modifies db
    ensures db.Valid() && db.State() == C.Run(old(db.State()), trace)
    ensures db.State() == old(db.State()).(dlq := old(db.dlq) - PurgeableDead(old(db.State()), retention))
    ensures total == |PurgeableDead(old(db.State()), retention)|
  {
    ghost var start := db.State();
    ghost var ids := {};
    total := 0;
    assert start.dlq - {} == start.dlq;
    while true
      invariant db.State() == start.(dlq := start.dlq - ids) && ids <= PurgeableDead(start, retention) && total == |ids|
      decreases |PurgeableDead(start, retention) - ids|
    {
      ghost var gone := ids;
      var count;
      count, ids := PurgeDeadPage(db, retention, pageSize, start, ids);
      total := total + count;
      SubsetSizes(PurgeableDead(start, retention), gone, ids);
      if count < pageSize {
        assert |PurgeableDead(start, retention) - ids| == 0;
        assert ids == PurgeableDead(start, retention);
        trace := PurgeDeadIsRun(start, ids);
        C.RunReaches(start, trace);
        return;
      }
    }
  }

  // ---------------------------------------------------------------- one collection pass

  /** What the retention policy leaves. */
  function Retained(c: C.Channel, p: Policy): C.Channel {
    var c1 := if p.completedTtl > 0 then c.(msgs := c.msgs - PurgeableRows(c, CompletedOlderThan(p.completedTtl))) else c;
    var c2 := if p.maxPendingAge > 0 then c1.(msgs := c1.msgs - PurgeableRows(c1, PendingOlderThan(p.maxPendingAge))) else c1;
    if p.dlqRetention > 0 then c2.(dlq := c2.dlq - PurgeableDead(c2, p.dlqRetention)) else c2
  }

  lemma RetentionSparesTimedOut(c: C.Channel, p: Policy)
    ensures TimedOutRows(Retained(c, p)) == TimedOutRows(c)
  {
  }

  /** Retention keeps a message unless it is completed and its time is up, or pending and too old, under a
      policy that is switched on; and a dead letter unless its retention is over. What is kept is unchanged. */
  lemma RetentionIsExact(c: C.Channel, p: Policy, id: Uuid, d: Uuid)
    ensures var c' := Retained(c, p);
            && (id in c'.msgs <==>
                  && id in c.msgs
                  && !(p.completedTtl > 0 && c.msgs[id].lease.status == L.Done && c.msgs[id].lease.doneAt.Some?
                       && c.msgs[id].lease.doneAt.value + p.completedTtl < c.now)
                  && !(p.maxPendingAge > 0 && c.msgs[id].lease.status == L.Pending && c.msgs[id].createdAt + p.maxPendingAge < c.now))
            && (id in c'.msgs ==> c'.msgs[id] == c.msgs[id])
            && (d in c'.dlq <==> d in c.dlq && !(p.dlqRetention > 0 && c.dlq[d].movedAt + p.dlqRetention < c.now))
            && (d in c'.dlq ==> c'.dlq[d] == c.dlq[d])
            && c'.now == c.now && c'.minted == c.minted
  {
  }

  /** The retention half of a collection pass. */
  method Retain(db: ChannelDb, policy: Policy, pageSize: nat) returns (purged: nat)
    requires db.Valid() && pageSize > 0
    modifies db
    ensures db.Valid() && db.State() == Retained(old(db.State()), policy)
    ensures purged + |db.msgs| + |db.dlq| == |old(db.msgs)| + |old(db.dlq)|
  {
    purged := 0;
    if policy.completedTtl > 0 {
      MinusSize(db.msgs, PurgeableRows(db.State(), CompletedOlderThan(policy.completedTtl)));
      var n, _ := PurgeRows(db, CompletedOlderThan(policy.completedTtl), pageSize);
      purged := n;
    }
    if policy.maxPendingAge > 0 {
      MinusSize(db.msgs, PurgeableRows(db.State(), PendingOlderThan(policy.maxPendingAge)));
      var n, _ := PurgeRows(db, PendingOlderThan(policy.maxPendingAge), pageSize);
      purged := purged + n;
    }
    if policy.dlqRetention > 0 {
      MinusSize(db.dlq, PurgeableDead(db.State(), policy.dlqRetention));
      var n, _ := PurgeDeadRows(db, policy.dlqRetention, pageSize);
      purged := purged + n;
    }
  }

  lemma LeftToReset(c: C.Channel, promoted: C.Channel)
    requires promoted.msgs == c.msgs - ExhaustedRows(c) && promoted.now == c.now
    ensures RetryableRows(promoted) == RetryableRows(c) && TimedOutRows(ResetRows(promoted, RetryableRows(promoted))) == {}
  {
    ResetCommutesWithRemoval(c, promoted);
  }

  /** The recovery half: afterwards nothing is timed out, and the count is the rows that were. */
  method Recover(db: ChannelDb, promotePageSize: nat, resetPageSize: nat)
    returns (reclaimed: nat, ghost promoted: C.Channel)
    requires db.Valid() && promotePageSize > 0 && resetPageSize > 0
    modifies db
    ensures db.Valid()
    ensures Promoted(old(db.State()), promoted, ExhaustedRows(old(db.State())))
    ensures db.State() == ResetRows(promoted, RetryableRows(promoted))
    ensures TimedOutRows(db.State()) == {}
    ensures reclaimed == |TimedOutRows(old(db.State()))|
  {
    ghost var c := db.State();
    RecoverySplits(c);
    var p, _ := PromoteExhausted(db, promotePageSize);
    promoted := db.State();
    LeftToReset(c, promoted);
    var r, _ := ResetTimedOut(db, resetPageSize);
    reclaimed := p + r;
  }

  /** Retention, then recovery: what a pass reports is what it did. */
  method CollectQueue(db: ChannelDb, policy: Policy, promotePageSize: nat, purgePageSize: nat)
    returns (purged: nat, reclaimed: nat, ghost promoted: C.Channel)
    requires db.Valid() && promotePageSize > 0 && purgePageSize > 0
    modifies db
    ensures db.Valid()
    ensures Promoted(Retained(old(db.State()), policy), promoted, ExhaustedRows(Retained(old(db.State()), policy)))
    ensures db.State() == ResetRows(promoted, RetryableRows(promoted))
    ensures TimedOutRows(db.State()) == {}
    ensures reclaimed == |TimedOutRows(old(db.State()))|
    ensures purged + |Retained(old(db.State()), policy).msgs| + |Retained(old(db.State()), policy).dlq| == |old(db.msgs)| + |old(db.dlq)|
  {
    RetentionSparesTimedOut(db.State(), policy);
    purged := Retain(db, policy, purgePageSize);
    reclaimed, promoted := Recover(db, promotePageSize, purgePageSize);
  }

  lemma MinusSize<V>(m: map<Uuid, V>, ids: set<Uuid>)
    requires ids <= m.Keys
    ensures |m - ids| == |m| - |ids|
  {
    assert m.Keys == (m - ids).Keys + ids;
  }
}
