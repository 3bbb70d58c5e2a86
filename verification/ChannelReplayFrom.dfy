/** ReplayFrom on a channel: settled messages published since a time go back to pending, page by page. */
module ChannelReplayFrom {
  import opened Basics
  import opened ChannelStore
  import opened Paging
  import L = Lease
  import C = Channel

  /** Neither pending nor in flight, and published since the cutoff. */
  function Replayable(c: C.Channel, since: int): set<Uuid> {
    set id | id in c.msgs && c.msgs[id].lease.status == L.Done && c.msgs[id].createdAt >= since
  }

  /** The UPDATE: a fresh budget, and available_at left as it was. */
  function ReplayRows(c: C.Channel, ids: set<Uuid>): C.Channel {
    c.(msgs := map id | id in c.msgs :: if id in ids then c.msgs[id].(lease := L.Replayed(c.msgs[id].lease)) else c.msgs[id])
  }

  /** The candidates of a reachable channel are exactly the acked messages that were published, or replayed
      from the DLQ, at or after the cutoff, by the clock of that step. */
  lemma ReplayableIsExact(now: int, xs: seq<C.Action>, since: int, id: Uuid)
    requires id in C.Run(C.Empty(now), xs).msgs
    ensures var c := C.Run(C.Empty(now), xs);
            id in Replayable(c, since) <==>
              && (exists j :: 0 <= j < |xs| && C.AckedAt(C.Empty(now), xs, id, j)) && c.msgs[id].lease.status == L.Done
              && exists i :: 0 <= i < |xs| && C.InsertedAt(C.Empty(now), xs, id, i) && C.Run(C.Empty(now), xs[..i]).now >= since
  {
    var i := C.CreatedWhenInserted(now, xs, id);
    if C.Run(C.Empty(now), xs).msgs[id].lease.status == L.Done {
      var j := C.DoneWhenAcked(now, xs, id);
    }
  }

  lemma ReplayMore(c: C.Channel, since: int, done: set<Uuid>, page: set<Uuid>)
    requires done <= Replayable(c, since) && page <= Replayable(c, since) - done
    ensures ReplayRows(ReplayRows(c, done), page) == ReplayRows(c, done + page)
    ensures Replayable(ReplayRows(c, done), since) == Replayable(c, since) - done
  {
    assert ReplayRows(ReplayRows(c, done), page).msgs == ReplayRows(c, done + page).msgs;
  }

  lemma ReplayNone(c: C.Channel)
    ensures ReplayRows(c, {}) == c
  {
    assert ReplayRows(c, {}).msgs == c.msgs;
  }

  lemma ReplayOne(c: C.Channel, since: int, done: set<Uuid>, id: Uuid)
    requires done <= Replayable(c, since) && id in Replayable(c, since) - done
    ensures C.Apply(ReplayRows(c, done), C.Row(L.Replay(id))) == ReplayRows(c, done + {id})
  {
    var c' := ReplayRows(c, done);
    assert c'.msgs[id] == c.msgs[id];
    assert C.Apply(c', C.Row(L.Replay(id))).msgs == ReplayRows(c, done + {id}).msgs;
  }

  /** The UPDATE is a run of row actions. */
  lemma {:induction false} ReplayIsRun(c: C.Channel, since: int, ids: set<Uuid>) returns (trace: seq<C.Action>)
    requires ids <= Replayable(c, since)
    ensures C.Run(c, trace) == ReplayRows(c, ids)
    ensures forall x :: x in trace ==> x.Row? && x.act.Replay? && x.act.k in ids
    decreases ids
  {
    if ids == {} {
      ReplayNone(c);
      return [];
    }
    var id :| id in ids;
    var p := ReplayIsRun(c, since, ids - {id});
    ReplayOne(c, since, ids - {id}, id);
    C.RunSnoc(c, p, C.Row(L.Replay(id)));
    assert ids - {id} + {id} == ids;
    return p + [C.Row(L.Replay(id))];
  }

  lemma ReplayReaches(c: C.Channel, since: int, ids: set<Uuid>)
    requires C.Reachable(c) && ids <= Replayable(c, since)
    ensures C.Reachable(ReplayRows(c, ids))
  {
    var trace := ReplayIsRun(c, since, ids);
    C.RunReaches(c, trace);
  }

  /** In a reachable channel a settled row is never ahead of the clock, so it is deliverable at once. */
  lemma ReplayedAreEligible(c: C.Channel, since: int, ids: set<Uuid>, id: Uuid)
    requires C.Reachable(c) && ids <= Replayable(c, since) && id in ids
    ensures var m := ReplayRows(c, ids).msgs[id];
            L.Eligible(m.lease, c.now) && m.lease.retries == 0 && m.body == c.msgs[id].body
  {
    C.ReachableIsOk(c);
    assert L.LeaseOk(C.Leases(c).rows[id], c.now);
  }

  lemma PageStep(start: C.Channel, since: int, done: set<Uuid>, after: Uuid, rest: seq<Uuid>, m: nat)
    requires done <= Replayable(start, since) && IsOrder(rest) && m <= |rest|
    requires Ahead(Replayable(ReplayRows(start, done), since), after, rest)
    ensures done + Elems(rest[..m]) <= Replayable(start, since) && done !! Elems(rest[..m])
    ensures ReplayRows(ReplayRows(start, done), Elems(rest[..m])) == ReplayRows(start, done + Elems(rest[..m]))
    ensures Ahead(Replayable(ReplayRows(start, done + Elems(rest[..m])), since), if m == 0 then after else rest[m - 1], rest[m..])
  {
    var c, page := ReplayRows(start, done), Elems(rest[..m]);
    ReplayMore(start, since, done, {});
    AheadIsIn(Replayable(c, since), after, rest);
    assert page <= Replayable(start, since) - done;
    ReplayMore(start, since, done, page);
    ReplayMore(start, since, done + page, {});
    AfterPage(Replayable(c, since), after, rest, page, m);
    assert Replayable(start, since) - (done + page) == Replayable(c, since) - page;
  }

  method FetchReplayable(db: ChannelDb, since: int, after: Uuid, pageLimit: nat, ghost rest: seq<Uuid>) returns (ids: seq<Uuid>)
    requires IsOrder(rest) && Ahead(Replayable(db.State(), since), after, rest)
    ensures ids == rest[..Min(pageLimit, |rest|)]
  {
    FetchOf(Replayable(db.State(), since), after, rest, pageLimit);
    ids := Fetch(Replayable(db.State(), since), after, pageLimit);
  }

  /** One page: fetch the candidates after the cursor, rewrite them. */
  method ReplayFromPage(db: ChannelDb, since: int, after: Uuid, pageLimit: nat,
                        ghost start: C.Channel, ghost done: set<Uuid>, ghost rest: seq<Uuid>)
    returns (replayed: nat, last: Uuid, fetched: nat)
    requires IsOrder(rest) && Ahead(Replayable(ReplayRows(start, done), since), after, rest)
    requires done <= Replayable(start, since) && db.State() == ReplayRows(start, done)
    modifies db`msgs
    ensures fetched == replayed == Min(pageLimit, |rest|)
    ensures done + Elems(rest[..fetched]) <= Replayable(start, since)
    ensures db.State() == ReplayRows(start, done + Elems(rest[..fetched]))
    ensures Ahead(Replayable(db.State(), since), last, rest[fetched..])
  {
    ghost var m := Min(pageLimit, |rest|);
    PageStep(start, since, done, after, rest, m);
    var ids := FetchReplayable(db, since, after, pageLimit, rest);
    last := if ids == [] then after else ids[|ids| - 1];
    replayed, fetched := |ids|, |ids|;
    var rows := ReplayRows(db.State(), Elems(ids)).msgs;
    assert C.Channel(rows, db.dlq, db.now, db.minted) == ReplayRows(start, done + Elems(rest[..m]));
    db.msgs := rows;
  }

  /** The loop over pages: `seen` are the rows it replayed, in order. */
  method ReplayFromPages(db: ChannelDb, since: int, limit: nat, pageSize: nat, ghost order: seq<Uuid>)
    returns (total: nat, ghost seen: seq<Uuid>)
    requires pageSize > 0 && IsOrder(order) && Ahead(Replayable(db.State(), since), NIL, order)
    modifies db`msgs
    ensures seen <= order && total == |seen| == if limit > 0 then Min(limit, |order|) else |order|
    ensures Elems(seen) <= Replayable(old(db.State()), since) && db.State() == ReplayRows(old(db.State()), Elems(seen))
  {
    ghost var start, rest := db.State(), order;
    seen := [];
    ReplayNone(start);
    var after := NIL;
    total := 0;
    while true
      invariant seen + rest == order && total == |seen| && (limit > 0 ==> |seen| <= limit) && IsOrder(rest)
      invariant Elems(seen) <= Replayable(start, since) && db.State() == ReplayRows(start, Elems(seen))
      invariant Ahead(Replayable(db.State(), since), after, rest)
      decreases |rest|
    {
      var pageLimit := NextLimit(limit, total, pageSize);
      if pageLimit == 0 {
        break;
      }
      var n, last, fetched := ReplayFromPage(db, since, after, pageLimit, start, Elems(seen), rest);
      ghost var q := Split(order, seen, rest, fetched);
      assert Elems(seen + q) == Elems(seen) + Elems(q);
      total := total + n;
      seen, rest := seen + q, rest[fetched..];
      if fetched == 0 {
        break;
      }
      after := last;
    }
  }

  /** A real run replays exactly as many rows as its dry run reports: the lowest ids, up to the limit. */
  method ReplayFrom(db: ChannelDb, since: int, limit: int, dryRun: bool, pageSize: nat)
    returns (count: Option<nat>, ghost seen: seq<Uuid>)
    requires db.Valid() && pageSize > 0
    modifies db
    ensures db.Valid() && (count.None? <==> limit < 0)
    ensures dryRun || limit < 0 ==> db.State() == old(db.State())
    ensures limit >= 0 ==> seen == Examined(Replayable(old(db.State()), since), limit) && count == Some(|seen|)
    ensures limit >= 0 && !dryRun ==> db.State() == ReplayRows(old(db.State()), Elems(seen))
    ensures limit >= 0 && !dryRun ==> forall id :: id in seen ==> id in db.msgs && L.Eligible(db.msgs[id].lease, db.now)
  {
    if limit < 0 {
      return None, [];
    }
    ghost var start := db.State();
    C.ReachableIsOk(start);
    ghost var order := OrderOf(Replayable(start, since));
    if dryRun {
      var n := |Replayable(db.State(), since)|;
      if limit > 0 && n > limit {
        n := limit;
      }
      seen := order[..n];
      ExaminedIs(Replayable(start, since), order, limit, seen);
      return Some(n), seen;
    }
    var total;
    total, seen := ReplayFromPages(db, since, limit, pageSize, order);
    ExaminedIs(Replayable(start, since), order, limit, seen);
    ReplayReaches(start, since, Elems(seen));
    forall id | id in seen ensures id in db.msgs && L.Eligible(db.msgs[id].lease, db.now) {
      assert id in Elems(seen);
      ReplayedAreEligible(start, since, Elems(seen), id);
    }
    count := Some(total);
  }
}
