/** Paged replay of a channel: dead letters back to the message table, settled messages back to pending. */
module ChannelReplay {
  import opened Basics
  import opened ChannelStore
  import opened Paging
  import L = Lease
  import C = Channel

  // ---------------------------------------------------------------- the one-pass specification

  predicate AllIn(dlq: map<Uuid, DeadLetter>, q: seq<Uuid>) {
    forall i :: 0 <= i < |q| ==> q[i] in dlq
  }

  /** Reinstate one DLQ row, unless its message is live again. */
  function Try(c: C.Channel, d: Uuid, maxRetries: nat): C.Channel {
    if d !in c.dlq || c.dlq[d].original in c.msgs then c
    else c.(msgs := c.msgs[c.dlq[d].original := C.NewMessage(c.dlq[d].body, maxRetries, c.now)], dlq := c.dlq - {d})
  }

  /** Try each DLQ row once, in order. */
  function OnePass(c: C.Channel, q: seq<Uuid>, maxRetries: nat): C.Channel {
    if q == [] then c else Try(OnePass(c, q[..|q| - 1], maxRetries), q[|q| - 1], maxRetries)
  }

  lemma {:induction false} PassesCompose(c: C.Channel, p: seq<Uuid>, q: seq<Uuid>, maxRetries: nat)
    ensures OnePass(c, p + q, maxRetries) == OnePass(OnePass(c, p, maxRetries), q, maxRetries)
  {
    if q == [] {
      assert p + q == p;
    } else {
      assert (p + q)[..|p + q| - 1] == p + q[..|q| - 1];
      PassesCompose(c, p, q[..|q| - 1], maxRetries);
    }
  }

  /** A one-pass replay is a run of row actions. */
  lemma {:induction false} OnePassIsRun(c: C.Channel, q: seq<Uuid>, maxRetries: nat) returns (trace: seq<C.Action>)
    ensures OnePass(c, q, maxRetries) == C.Run(c, trace)
    ensures forall x :: x in trace ==> x.Reinstate? && x.d in q
  {
    if q == [] {
      trace := [];
    } else {
      var p, d := q[..|q| - 1], q[|q| - 1];
      trace := OnePassIsRun(c, p, maxRetries);
      var mid := OnePass(c, p, maxRetries);
      if d in mid.dlq {
        var x := C.Reinstate(d, mid.dlq[d].original, maxRetries);
        C.RunSnoc(c, trace, x);
        trace := trace + [x];
      }
    }
  }

  function Originals(dlq: map<Uuid, DeadLetter>, q: seq<Uuid>): set<Uuid>
    requires AllIn(dlq, q)
  {
    set i | 0 <= i < |q| :: dlq[q[i]].original
  }

  /** Row `q[i]` is the first of its original id, and that id is not live. */
  predicate Revives(c: C.Channel, q: seq<Uuid>, i: nat)
    requires AllIn(c.dlq, q) && i < |q|
  {
    c.dlq[q[i]].original !in c.msgs && forall j :: 0 <= j < i ==> c.dlq[q[j]].original != c.dlq[q[i]].original
  }

  function Winners(c: C.Channel, q: seq<Uuid>): set<Uuid>
    requires AllIn(c.dlq, q)
  {
    set i | 0 <= i < |q| && Revives(c, q, i) :: q[i]
  }

  /** What replaying the rows `q` makes of `c`, stated without an order of work. */
  ghost predicate IsReplay(c: C.Channel, c': C.Channel, q: seq<Uuid>, maxRetries: nat)
    requires AllIn(c.dlq, q)
  {
    && c'.now == c.now && c'.minted == c.minted
    && c'.dlq == c.dlq - Winners(c, q)
    && c'.msgs.Keys == c.msgs.Keys + Originals(c.dlq, q)
    && (forall id :: id in c.msgs ==> c'.msgs[id] == c.msgs[id])
    && (forall i :: 0 <= i < |q| && Revives(c, q, i) ==>
          c'.msgs[c.dlq[q[i]].original] == C.NewMessage(c.dlq[q[i]].body, maxRetries, c.now))
  }

  lemma {:induction false} FirstOfOriginal(c: C.Channel, q: seq<Uuid>, k: nat) returns (i: nat)
    requires AllIn(c.dlq, q) && k < |q| && c.dlq[q[k]].original !in c.msgs
    ensures i <= k && c.dlq[q[i]].original == c.dlq[q[k]].original && Revives(c, q, i)
  {
    if j :| 0 <= j < k && c.dlq[q[j]].original == c.dlq[q[k]].original {
      i := FirstOfOriginal(c, q, j);
    } else {
      i := k;
    }
  }

  /** The description determines the result. */
  lemma ReplayIsUnique(c: C.Channel, a: C.Channel, b: C.Channel, q: seq<Uuid>, maxRetries: nat)
    requires AllIn(c.dlq, q) && IsReplay(c, a, q, maxRetries) && IsReplay(c, b, q, maxRetries)
    ensures a == b
  {
    forall id | id in a.msgs ensures a.msgs[id] == b.msgs[id] {
      if id !in c.msgs {
        var k :| 0 <= k < |q| && c.dlq[q[k]].original == id;
        var i := FirstOfOriginal(c, q, k);
      }
    }
    assert a.msgs == b.msgs;
  }

  lemma SnocRows(c: C.Channel, q: seq<Uuid>, d: Uuid)
    requires AllIn(c.dlq, q) && d in c.dlq
    ensures AllIn(c.dlq, q + [d])
    ensures Originals(c.dlq, q + [d]) == Originals(c.dlq, q) + {c.dlq[d].original}
    ensures forall i :: 0 <= i < |q| ==> (Revives(c, q + [d], i) <==> Revives(c, q, i))
    ensures Revives(c, q + [d], |q|) <==> c.dlq[d].original !in c.msgs.Keys + Originals(c.dlq, q)
    ensures Winners(c, q + [d]) == Winners(c, q) + if Revives(c, q + [d], |q|) then {d} else {}
  {
    var r := q + [d];
    assert forall i :: 0 <= i < |q| ==> r[i] == q[i];
    assert r[|q|] == d;
    SnocOriginals(c.dlq, q, d);
  }

  lemma ReplayStep(c: C.Channel, c1: C.Channel, q: seq<Uuid>, d: Uuid, maxRetries: nat)
    requires AllIn(c.dlq, q) && d in c.dlq && d !in q && IsReplay(c, c1, q, maxRetries)
    requires AllIn(c.dlq, q + [d])
    ensures IsReplay(c, Try(c1, d, maxRetries), q + [d], maxRetries)
  {
    SnocRows(c, q, d);
    assert d !in Winners(c, q);
    assert c1.dlq[d] == c.dlq[d];
    var original := c.dlq[d].original;
    var c2 := Try(c1, d, maxRetries);
    if Revives(c, q + [d], |q|) {
      assert c2.dlq == c.dlq - Winners(c, q + [d]);
      forall i | 0 <= i < |q| && Revives(c, q + [d], i)
        ensures c2.msgs[c.dlq[q[i]].original] == C.NewMessage(c.dlq[q[i]].body, maxRetries, c.now)
      {
        assert Revives(c, q, i);
        assert c.dlq[q[i]].original in Originals(c.dlq, q);
      }
    } else {
      assert original in c1.msgs;
      assert c2 == c1;
    }
  }

  lemma ReplayOfNone(c: C.Channel, maxRetries: nat)
    ensures OnePass(c, [], maxRetries) == c && IsReplay(c, c, [], maxRetries)
  {
    assert c.dlq - {} == c.dlq;
  }

  /** Trying each row once reinstates exactly the first row of each original id that is not live. */
  lemma {:induction false} OnePassIsReplay(c: C.Channel, q: seq<Uuid>, maxRetries: nat)
    requires AllIn(c.dlq, q) && Distinct(q)
    ensures IsReplay(c, OnePass(c, q, maxRetries), q, maxRetries)
  {
    if q == [] {
      ReplayOfNone(c, maxRetries);
    } else {
      var p, d := q[..|q| - 1], q[|q| - 1];
      OnePassIsReplay(c, p, maxRetries);
      assert q == p + [d] && d !in p;
      ReplayStep(c, OnePass(c, p, maxRetries), p, d, maxRetries);
    }
  }

  // ---------------------------------------------------------------- one page

  /** No earlier row of `q` has the original id of `q[i]`. */
  predicate IsFirstRow(dlq: map<Uuid, DeadLetter>, q: seq<Uuid>, i: nat)
    requires AllIn(dlq, q) && i < |q|
  {
    forall j :: 0 <= j < i ==> dlq[q[j]].original != dlq[q[i]].original
  }

  function FirstRows(dlq: map<Uuid, DeadLetter>, q: seq<Uuid>): set<Uuid>
    requires AllIn(dlq, q)
  {
    set i | 0 <= i < |q| && IsFirstRow(dlq, q, i) :: q[i]
  }

  /** `unique` keeps, of the rows `q`, the first of each original id. */
  ghost predicate Deduped(dlq: map<Uuid, DeadLetter>, q: seq<Uuid>, unique: seq<Uuid>)
    requires AllIn(dlq, q)
  {
    && AllIn(dlq, unique) && Originals(dlq, unique) == Originals(dlq, q)
    && (forall i :: 0 <= i < |unique| ==> IsFirstRow(dlq, unique, i))
    && Elems(unique) == FirstRows(dlq, q)
  }

  lemma DedupeRepeat(dlq: map<Uuid, DeadLetter>, q: seq<Uuid>, unique: seq<Uuid>, d: Uuid)
    requires AllIn(dlq, q) && Deduped(dlq, q, unique) && d in dlq && dlq[d].original in Originals(dlq, unique)
    ensures AllIn(dlq, q + [d]) && Deduped(dlq, q + [d], unique)
  {
    SnocFirst(dlq, q, d);
  }

  lemma DedupeNew(dlq: map<Uuid, DeadLetter>, q: seq<Uuid>, unique: seq<Uuid>, d: Uuid)
    requires AllIn(dlq, q) && Deduped(dlq, q, unique) && d in dlq && dlq[d].original !in Originals(dlq, unique)
    ensures AllIn(dlq, q + [d]) && Deduped(dlq, q + [d], unique + [d])
  {
    SnocFirst(dlq, q, d);
    SnocFirst(dlq, unique, d);
    forall i | 0 <= i < |unique + [d]| ensures IsFirstRow(dlq, unique + [d], i) {
      if i < |unique| {
        assert IsFirstRow(dlq, unique, i);
      }
    }
  }

  method DedupeByMessageId(dlq: map<Uuid, DeadLetter>, q: seq<Uuid>) returns (unique: seq<Uuid>)
    requires AllIn(dlq, q)
    ensures Deduped(dlq, q, unique)
  {
    var seen: set<Uuid> := {};
    unique := [];
    ghost var done := [];
    for i := 0 to |q|
      invariant done == q[..i] && AllIn(dlq, done) && Deduped(dlq, done, unique) && seen == Originals(dlq, unique)
    {
      var d := q[i];
      if dlq[d].original !in seen {
        DedupeNew(dlq, done, unique, d);
        SnocOriginals(dlq, unique, d);
        seen := seen + {dlq[d].original};
        unique := unique + [d];
      } else {
        DedupeRepeat(dlq, done, unique, d);
      }
      done := done + [d];
    }
    assert done == q;
  }

  lemma SnocOriginals(dlq: map<Uuid, DeadLetter>, q: seq<Uuid>, d: Uuid)
    requires AllIn(dlq, q) && d in dlq
    ensures AllIn(dlq, q + [d]) && Originals(dlq, q + [d]) == Originals(dlq, q) + {dlq[d].original}
    ensures IsFirstRow(dlq, q + [d], |q|) <==> dlq[d].original !in Originals(dlq, q)
  {
    var r := q + [d];
    assert forall i :: 0 <= i < |q| ==> r[i] == q[i];
    assert r[|q|] == d;
    assert Originals(dlq, r) == Originals(dlq, q) + {dlq[d].original} by {
      assert dlq[r[|q|]].original in Originals(dlq, r);
      forall i | 0 <= i < |q| ensures dlq[q[i]].original in Originals(dlq, r) {
        assert dlq[r[i]].original == dlq[q[i]].original;
      }
    }
  }

  lemma SnocFirst(dlq: map<Uuid, DeadLetter>, q: seq<Uuid>, d: Uuid)
    requires AllIn(dlq, q) && d in dlq
    ensures AllIn(dlq, q + [d]) && Originals(dlq, q + [d]) == Originals(dlq, q) + {dlq[d].original}
    ensures IsFirstRow(dlq, q + [d], |q|) <==> dlq[d].original !in Originals(dlq, q)
    ensures forall i :: 0 <= i < |q| ==> (IsFirstRow(dlq, q + [d], i) <==> IsFirstRow(dlq, q, i))
    ensures FirstRows(dlq, q + [d]) == FirstRows(dlq, q) + if IsFirstRow(dlq, q + [d], |q|) then {d} else {}
    ensures Elems(q + [d]) == Elems(q) + {d}
  {
    SnocOriginals(dlq, q, d);
    var r := q + [d];
    assert forall i :: 0 <= i < |q| ==> r[i] == q[i];
    assert r[|q|] == d;
  }

  /** `INSERT ... ON CONFLICT (id) DO NOTHING RETURNING id`. */
  method InsertMessages(msgs: map<Uuid, C.Message>, dlq: map<Uuid, DeadLetter>, unique: seq<Uuid>, maxRetries: nat, now: int)
    returns (rows: map<Uuid, C.Message>, inserted: set<Uuid>)
    requires AllIn(dlq, unique) && forall i :: 0 <= i < |unique| ==> IsFirstRow(dlq, unique, i)
    ensures inserted == Originals(dlq, unique) - msgs.Keys
    ensures rows.Keys == msgs.Keys + inserted
    ensures forall id :: id in msgs ==> rows[id] == msgs[id]
    ensures forall i :: 0 <= i < |unique| && dlq[unique[i]].original !in msgs ==>
              rows[dlq[unique[i]].original] == C.NewMessage(dlq[unique[i]].body, maxRetries, now)
  {
    rows, inserted := msgs, {};
    for i := 0 to |unique|
      invariant inserted == Originals(dlq, unique[..i]) - msgs.Keys
      invariant rows.Keys == msgs.Keys + inserted
      invariant forall id :: id in msgs ==> rows[id] == msgs[id]
      invariant forall k :: 0 <= k < i && dlq[unique[k]].original !in msgs ==>
                  dlq[unique[k]].original in rows &&
                  rows[dlq[unique[k]].original] == C.NewMessage(dlq[unique[k]].body, maxRetries, now)
    {
      var original := dlq[unique[i]].original;
      SnocOriginals(dlq, unique[..i], unique[i]);
      assert unique[..i + 1] == unique[..i] + [unique[i]];
      assert IsFirstRow(dlq, unique, i);
      if original !in rows {
        rows := rows[original := C.NewMessage(dlq[unique[i]].body, maxRetries, now)];
        inserted := inserted + {original};
      }
    }
    assert unique[..|unique|] == unique;
  }

  lemma {:induction false} SameSize(f: map<Uuid, Uuid>, from: set<Uuid>, into: set<Uuid>)
    requires from <= f.Keys && into == set d | d in from :: f[d]
    requires forall d, e :: d in from && e in from && d != e ==> f[d] != f[e]
    ensures |from| == |into|
    decreases from
  {
    if d :| d in from {
      var rest := into - {f[d]};
      assert rest == set e | e in from - {d} :: f[e];
      SameSize(f, from - {d}, rest);
    }
  }

  /** What the two statements of a page's transaction do, given the deduplicated rows. */
  ghost predicate Reinserted(c: C.Channel, unique: seq<Uuid>, rows: map<Uuid, C.Message>, inserted: set<Uuid>, maxRetries: nat)
    requires AllIn(c.dlq, unique)
  {
    && inserted == Originals(c.dlq, unique) - c.msgs.Keys
    && rows.Keys == c.msgs.Keys + inserted
    && (forall id :: id in c.msgs ==> rows[id] == c.msgs[id])
    && (forall i :: 0 <= i < |unique| && c.dlq[unique[i]].original !in c.msgs ==>
          rows[c.dlq[unique[i]].original] == C.NewMessage(c.dlq[unique[i]].body, maxRetries, c.now))
  }

  function Deleted(dlq: map<Uuid, DeadLetter>, unique: seq<Uuid>, inserted: set<Uuid>): set<Uuid>
    requires AllIn(dlq, unique)
  {
    set i | 0 <= i < |unique| && dlq[unique[i]].original in inserted :: unique[i]
  }

  lemma DeletedAreWinners(c: C.Channel, q: seq<Uuid>, unique: seq<Uuid>)
    requires AllIn(c.dlq, q) && AllIn(c.dlq, unique) && Elems(unique) == FirstRows(c.dlq, q)
    ensures Deleted(c.dlq, unique, Originals(c.dlq, unique) - c.msgs.Keys) == Winners(c, q)
  {
    var gone := Deleted(c.dlq, unique, Originals(c.dlq, unique) - c.msgs.Keys);
    assert forall i :: 0 <= i < |q| ==> (Revives(c, q, i) <==> IsFirstRow(c.dlq, q, i) && c.dlq[q[i]].original !in c.msgs);
    forall d | d in gone ensures d in Winners(c, q) {
      assert d in Elems(unique);
    }
    forall d | d in Winners(c, q) ensures d in gone {
      assert d in Elems(unique);
      var k :| 0 <= k < |unique| && unique[k] == d;
    }
  }

  lemma DeletedSize(dlq: map<Uuid, DeadLetter>, unique: seq<Uuid>, inserted: set<Uuid>)
    requires AllIn(dlq, unique) && inserted <= Originals(dlq, unique)
    requires forall i :: 0 <= i < |unique| ==> IsFirstRow(dlq, unique, i)
    ensures |Deleted(dlq, unique, inserted)| == |inserted|
  {
    var gone := Deleted(dlq, unique, inserted);
    var f := map d | d in gone :: dlq[d].original;
    forall id | id in inserted ensures exists d :: d in gone && f[d] == id {
      var k :| 0 <= k < |unique| && dlq[unique[k]].original == id;
      assert unique[k] in gone;
    }
    forall d, e | d in gone && e in gone && d != e ensures f[d] != f[e] {
      var i :| 0 <= i < |unique| && unique[i] == d;
      var j :| 0 <= j < |unique| && unique[j] == e;
      assert IsFirstRow(dlq, unique, i) && IsFirstRow(dlq, unique, j);
    }
    SameSize(f, gone, inserted);
  }

  lemma PageIsReplay(c: C.Channel, q: seq<Uuid>, unique: seq<Uuid>, rows: map<Uuid, C.Message>, inserted: set<Uuid>, maxRetries: nat)
    requires AllIn(c.dlq, q) && AllIn(c.dlq, unique) && Reinserted(c, unique, rows, inserted, maxRetries)
    requires Elems(unique) == FirstRows(c.dlq, q) && Originals(c.dlq, unique) == Originals(c.dlq, q)
    ensures IsReplay(c, c.(msgs := rows, dlq := c.dlq - Deleted(c.dlq, unique, inserted)), q, maxRetries)
  {
    DeletedAreWinners(c, q, unique);
    forall i | 0 <= i < |q| && Revives(c, q, i)
      ensures rows[c.dlq[q[i]].original] == C.NewMessage(c.dlq[q[i]].body, maxRetries, c.now)
    {
      assert IsFirstRow(c.dlq, q, i);
      assert q[i] in Elems(unique);
      var k :| 0 <= k < |unique| && unique[k] == q[i];
    }
  }

  /** The page's counts: each inserted message has its deleted row. */
  lemma PageCounts(c: C.Channel, q: seq<Uuid>, unique: seq<Uuid>, inserted: set<Uuid>, maxRetries: nat)
    requires AllIn(c.dlq, q) && Distinct(q) && Deduped(c.dlq, q, unique) && inserted == Originals(c.dlq, unique) - c.msgs.Keys
    ensures |inserted| == |Winners(c, q)| <= |q| && |inserted| + |OnePass(c, q, maxRetries).dlq| == |c.dlq|
  {
    WinnersSize(c, q, maxRetries);
    DeletedAreWinners(c, q, unique);
    DeletedSize(c.dlq, unique, inserted);
  }

  lemma PageIsOnePass(c: C.Channel, q: seq<Uuid>, unique: seq<Uuid>, rows: map<Uuid, C.Message>, inserted: set<Uuid>,
                      left: map<Uuid, DeadLetter>, maxRetries: nat)
    requires AllIn(c.dlq, q) && Distinct(q) && Deduped(c.dlq, q, unique) && Reinserted(c, unique, rows, inserted, maxRetries)
    requires left == c.dlq - Deleted(c.dlq, unique, inserted)
    ensures OnePass(c, q, maxRetries) == C.Channel(rows, left, c.now, c.minted)
  {
    PageIsReplay(c, q, unique, rows, inserted, maxRetries);
    OnePassIsReplay(c, q, maxRetries);
    ReplayIsUnique(c, c.(msgs := rows, dlq := left), OnePass(c, q, maxRetries), q, maxRetries);
  }

  /** The statements of one page, on the tables as they are. */
  method ReinsertRows(c: C.Channel, q: seq<Uuid>, maxRetries: nat) returns (c': C.Channel, replayed: nat)
    requires AllIn(c.dlq, q) && Distinct(q)
    ensures c' == OnePass(c, q, maxRetries) && c' == c.(msgs := c'.msgs, dlq := c'.dlq)
    ensures replayed == |Winners(c, q)| <= |q| && replayed + |c'.dlq| == |c.dlq|
  {
    var unique := DedupeByMessageId(c.dlq, q);
    var rows, inserted := InsertMessages(c.msgs, c.dlq, unique, maxRetries, c.now);
    var left := c.dlq - Deleted(c.dlq, unique, inserted);
    PageIsOnePass(c, q, unique, rows, inserted, left, maxRetries);
    PageCounts(c, q, unique, inserted, maxRetries);
    return C.Channel(rows, left, c.now, c.minted), |inserted|;
  }

  /** One page's transaction is the one-pass replay of its rows. */
  method ReinsertPage(db: ChannelDb, q: seq<Uuid>, maxRetries: nat) returns (replayed: nat)
    requires AllIn(db.dlq, q) && Distinct(q)
    modifies db`msgs, db`dlq
    ensures db.State() == OnePass(old(db.State()), q, maxRetries)
    ensures replayed == |Winners(old(db.State()), q)| <= |q| && replayed + |db.dlq| == |old(db.dlq)|
  {
    var c';
    c', replayed := ReinsertRows(db.State(), q, maxRetries);
    db.msgs, db.dlq := c'.msgs, c'.dlq;
  }

  // ---------------------------------------------------------------- the paged loop

  lemma WinnersSize(c: C.Channel, q: seq<Uuid>, maxRetries: nat)
    requires AllIn(c.dlq, q) && Distinct(q)
    ensures |OnePass(c, q, maxRetries).dlq| + |Winners(c, q)| == |c.dlq| && |Winners(c, q)| <= |q|
  {
    OnePassDlq(c, q, maxRetries);
    ElemsSize(q);
    assert Elems(q) == Winners(c, q) + (Elems(q) - Winners(c, q));
    assert c.dlq.Keys == (c.dlq - Winners(c, q)).Keys + Winners(c, q);
  }

  lemma OnePassDlq(c: C.Channel, q: seq<Uuid>, maxRetries: nat)
    requires AllIn(c.dlq, q) && Distinct(q)
    ensures OnePass(c, q, maxRetries).dlq == c.dlq - Winners(c, q) && Winners(c, q) <= Elems(q)
  {
    OnePassIsReplay(c, q, maxRetries);
  }

  method FetchDead(db: ChannelDb, after: Uuid, pageLimit: nat, ghost rest: seq<Uuid>) returns (q: seq<Uuid>)
    requires IsOrder(rest) && Ahead(db.dlq.Keys, after, rest)
    ensures q == rest[..Min(pageLimit, |rest|)] && Distinct(q) && AllIn(db.dlq, q)
  {
    FetchOf(db.dlq.Keys, after, rest, pageLimit);
    q := Fetch(db.dlq.Keys, after, pageLimit);
  }

  /** One page, `rest` being what lies ahead; a dry run does the work and rolls it back. */
  method ReplayPage(db: ChannelDb, after: Uuid, pageLimit: nat, maxRetries: nat, dryRun: bool, ghost rest: seq<Uuid>)
    returns (replayed: nat, last: Uuid, fetched: nat)
    requires IsOrder(rest) && Ahead(db.dlq.Keys, after, rest)
    modifies db`msgs, db`dlq
    ensures fetched == Min(pageLimit, |rest|) && last == (if fetched == 0 then after else rest[fetched - 1])
    ensures AllIn(old(db.dlq), rest[..fetched]) && replayed == |Winners(old(db.State()), rest[..fetched])| <= fetched
    ensures db.State() == if dryRun then old(db.State()) else OnePass(old(db.State()), rest[..fetched], maxRetries)
    ensures !dryRun ==> replayed + |db.dlq| == |old(db.dlq)|
  {
    var q := FetchDead(db, after, pageLimit, rest);
    last, fetched := after, |q|;
    if q == [] {
      ReplayOfNone(db.State(), maxRetries);
      return 0, last, fetched;
    }
    last := q[|q| - 1];
    var msgs, dlq := db.msgs, db.dlq;
    replayed := ReinsertPage(db, q, maxRetries);
    if dryRun {
      db.msgs, db.dlq := msgs, dlq;
    }
  }

  lemma AheadStep(c: C.Channel, after: Uuid, rest: seq<Uuid>, m: nat, maxRetries: nat)
    requires IsOrder(rest) && Ahead(c.dlq.Keys, after, rest) && m <= |rest| && AllIn(c.dlq, rest)
    ensures Ahead(OnePass(c, rest[..m], maxRetries).dlq.Keys, if m == 0 then after else rest[m - 1], rest[m..])
  {
    OnePassDlq(c, rest[..m], maxRetries);
    AfterPage(c.dlq.Keys, after, rest, Winners(c, rest[..m]), m);
  }

  /** Where the tables stand once the rows `seen` have been tried, whatever the pages were. */
  ghost predicate Stands(start: C.Channel, c: C.Channel, seen: seq<Uuid>, maxRetries: nat, dryRun: bool) {
    c == if dryRun then start else OnePass(start, seen, maxRetries)
  }

  /** One turn of the loop. */
  method NextPage(db: ChannelDb, after: Uuid, pageLimit: nat, maxRetries: nat, dryRun: bool,
                  ghost start: C.Channel, ghost seen: seq<Uuid>, ghost rest: seq<Uuid>)
    returns (replayed: nat, last: Uuid, fetched: nat)
    requires IsOrder(rest) && Ahead(db.dlq.Keys, after, rest) && Stands(start, db.State(), seen, maxRetries, dryRun)
    modifies db`msgs, db`dlq
    ensures fetched == Min(pageLimit, |rest|) && AllIn(old(db.dlq), rest[..fetched])
    ensures Ahead(db.dlq.Keys, last, rest[fetched..])
    ensures Stands(start, db.State(), seen + rest[..fetched], maxRetries, dryRun)
    ensures replayed == (if dryRun then |Winners(start, rest[..fetched])| else |old(db.dlq)| - |db.dlq|) <= fetched
  {
    ghost var m := Min(pageLimit, |rest|);
    AheadIsIn(db.dlq.Keys, after, rest);
    if dryRun {
      AfterPage(db.dlq.Keys, after, rest, {}, m);
      assert db.dlq.Keys - {} == db.dlq.Keys;
    } else {
      AheadStep(db.State(), after, rest, m, maxRetries);
      PassesCompose(start, seen, rest[..m], maxRetries);
    }
    replayed, last, fetched := ReplayPage(db, after, pageLimit, maxRetries, dryRun, rest);
  }

  // ---------------------------------------------------------------- what a dry run counts

  /** Each page is tried against the unchanged tables. */
  function DryCount(c: C.Channel, q: seq<Uuid>, pageSize: nat): nat
    requires pageSize > 0 && AllIn(c.dlq, q)
    decreases |q|
  {
    if q == [] then 0
    else
      var m := Min(pageSize, |q|);
      |Winners(c, q[..m])| + DryCount(c, q[m..], pageSize)
  }

  /** Some id that is not live has a dead letter in both. */
  predicate Shares(c: C.Channel, a: seq<Uuid>, b: seq<Uuid>)
    requires AllIn(c.dlq, a) && AllIn(c.dlq, b)
  {
    exists j :: 0 <= j < |b| && c.dlq[b[j]].original !in c.msgs && c.dlq[b[j]].original in Originals(c.dlq, a)
  }

  /** Some id that is not live has dead letters on two different pages. */
  predicate Straddles(c: C.Channel, q: seq<Uuid>, pageSize: nat)
    requires pageSize > 0 && AllIn(c.dlq, q)
    decreases |q|
  {
    |q| > pageSize && (Shares(c, q[..pageSize], q[pageSize..]) || Straddles(c, q[pageSize..], pageSize))
  }

  /** The rows of `b` that would win alone but lose to a row of `a`. */
  function Shadowed(c: C.Channel, a: seq<Uuid>, b: seq<Uuid>): set<Uuid>
    requires AllIn(c.dlq, a) && AllIn(c.dlq, b)
  {
    set j | 0 <= j < |b| && Revives(c, b, j) && c.dlq[b[j]].original in Originals(c.dlq, a) :: b[j]
  }

  lemma WinnersSplit(c: C.Channel, a: seq<Uuid>, b: seq<Uuid>)
    requires AllIn(c.dlq, a) && AllIn(c.dlq, b) && AllIn(c.dlq, a + b) && Distinct(a + b)
    ensures Winners(c, a + b) == Winners(c, a) + (Winners(c, b) - Shadowed(c, a, b))
    ensures Winners(c, a) !! Winners(c, b) && Shadowed(c, a, b) <= Winners(c, b)
  {
    var r := a + b;
    assert forall i :: 0 <= i < |a| ==> r[i] == a[i];
    assert forall j :: 0 <= j < |b| ==> r[|a| + j] == b[j];
    assert forall i :: 0 <= i < |a| ==> (Revives(c, r, i) <==> Revives(c, a, i));
    forall j | 0 <= j < |b|
      ensures Revives(c, r, |a| + j) <==> Revives(c, b, j) && c.dlq[b[j]].original !in Originals(c.dlq, a)
    {
      RevivesSecond(c, a, b, j);
    }
    forall d | d in Winners(c, r) ensures d in Winners(c, a) + (Winners(c, b) - Shadowed(c, a, b)) {
      var i :| 0 <= i < |r| && Revives(c, r, i) && r[i] == d;
      if i >= |a| {
        assert d == b[i - |a|];
      }
    }
  }

  lemma RevivesSecond(c: C.Channel, a: seq<Uuid>, b: seq<Uuid>, j: nat)
    requires AllIn(c.dlq, a) && AllIn(c.dlq, b) && AllIn(c.dlq, a + b) && j < |b|
    ensures Revives(c, a + b, |a| + j) <==> Revives(c, b, j) && c.dlq[b[j]].original !in Originals(c.dlq, a)
  {
    var r := a + b;
    assert forall i :: 0 <= i < |a| ==> r[i] == a[i];
    assert forall i :: 0 <= i < |b| ==> r[|a| + i] == b[i];
    if Revives(c, r, |a| + j) {
      forall i | 0 <= i < j ensures c.dlq[b[i]].original != c.dlq[b[j]].original {
        assert r[|a| + i] == b[i];
      }
    }
  }

  lemma ShadowedIffShares(c: C.Channel, a: seq<Uuid>, b: seq<Uuid>)
    requires AllIn(c.dlq, a) && AllIn(c.dlq, b)
    ensures Shadowed(c, a, b) != {} <==> Shares(c, a, b)
  {
    if Shares(c, a, b) {
      var j :| 0 <= j < |b| && c.dlq[b[j]].original !in c.msgs && c.dlq[b[j]].original in Originals(c.dlq, a);
      var i := FirstOfOriginal(c, b, j);
      assert b[i] in Shadowed(c, a, b);
    }
    if d :| d in Shadowed(c, a, b) {
      var j :| 0 <= j < |b| && Revives(c, b, j) && c.dlq[b[j]].original in Originals(c.dlq, a);
    }
  }

  /** A dry run never reports fewer than a real run, and reports the same exactly when no id that
      is not live has dead letters on two pages. */
  lemma {:induction false} DryRunNeverFewer(c: C.Channel, q: seq<Uuid>, pageSize: nat)
    requires pageSize > 0 && AllIn(c.dlq, q) && Distinct(q)
    ensures |Winners(c, q)| <= DryCount(c, q, pageSize)
    ensures |Winners(c, q)| == DryCount(c, q, pageSize) <==> !Straddles(c, q, pageSize)
    decreases |q|
  {
    if |q| <= pageSize {
      DryLastPage(c, q, pageSize);
    } else {
      var a, b := q[..pageSize], q[pageSize..];
      assert q == a + b;
      DryRunNeverFewer(c, b, pageSize);
      WinnersSplitSize(c, a, b);
      ShadowedIffShares(c, a, b);
    }
  }

  lemma DryLastPage(c: C.Channel, q: seq<Uuid>, pageSize: nat)
    requires pageSize > 0 && AllIn(c.dlq, q) && |q| <= pageSize
    ensures DryCount(c, q, pageSize) == |Winners(c, q)|
  {
    assert q[..|q|] == q && q[|q|..] == [];
  }

  lemma WinnersSplitSize(c: C.Channel, a: seq<Uuid>, b: seq<Uuid>)
    requires AllIn(c.dlq, a) && AllIn(c.dlq, b) && AllIn(c.dlq, a + b) && Distinct(a + b)
    ensures |Winners(c, a + b)| + |Shadowed(c, a, b)| == |Winners(c, a)| + |Winners(c, b)|
  {
    WinnersSplit(c, a, b);
    var kept := Winners(c, b) - Shadowed(c, a, b);
    assert Winners(c, b) == kept + Shadowed(c, a, b);
    assert |Winners(c, b)| == |kept| + |Shadowed(c, a, b)|;
  }

  /** Message 7 published with no retries and claimed, its lease run out. */
  lemma Abandoned(c0: C.Channel, n: nat) returns (c: C.Channel)
    requires C.Reachable(c0) && 7 !in c0.msgs && n > 0 && n !in c0.minted
    ensures C.Reachable(c) && c.dlq == c0.dlq && c.minted == c0.minted + {n} && c.msgs - {7} == c0.msgs
    ensures 7 in c.msgs && L.TimedOut(c.msgs[7].lease, c.now) && L.Exhausted(c.msgs[7].lease)
  {
    var publish, claim, tick := C.Publish(7, Body([], None), 0), C.Row(L.Claim(7, n, 0)), C.Row(L.Tick(1));
    var c1 := C.Apply(c0, publish);
    var c2 := C.Apply(c1, claim);
    C.StepReaches(c0, publish);
    C.StepReaches(c1, claim);
    C.StepReaches(c2, tick);
    c := C.Apply(c2, tick);
  }

  /** One death of message 7: publish it with no retries, claim it, let the lease expire, bury it. */
  lemma OneDeath(c0: C.Channel, n: nat) returns (c: C.Channel)
    requires C.Reachable(c0) && 7 !in c0.msgs && n > 0 && n !in c0.minted && n !in c0.dlq
    ensures C.Reachable(c) && c.msgs == c0.msgs && c.minted == c0.minted + {n}
    ensures c.dlq.Keys == c0.dlq.Keys + {n} && c.dlq[n].original == 7 && forall d :: d in c0.dlq ==> c.dlq[d] == c0.dlq[d]
  {
    var c1 := Abandoned(c0, n);
    C.StepReaches(c1, C.Kill(L.Bury(7), n, VisibilityTimeout));
    c := C.Apply(c1, C.Kill(L.Bury(7), n, VisibilityTimeout));
  }

  lemma {:induction false} ManyDeaths(n: nat) returns (c: C.Channel)
    ensures C.Reachable(c) && c.msgs == map[] && (forall d :: d in c.dlq <==> 1 <= d <= n)
    ensures forall d :: d in c.dlq ==> c.dlq[d].original == 7
    ensures forall t :: t in c.minted ==> t <= n
  {
    if n == 0 {
      c := C.Empty(0);
      assert c == C.Run(c, []);
    } else {
      var c0 := ManyDeaths(n - 1);
      c := OneDeath(c0, n);
    }
  }

  /** The documented "a dry run reports exactly what a real run would replay" fails at every page size. */
  lemma DryRunCanOverstate(pageSize: nat) returns (c: C.Channel, q: seq<Uuid>)
    requires pageSize > 0
    ensures C.Reachable(c) && q == Examined(c.dlq.Keys, 0)
    ensures |Winners(c, q)| < DryCount(c, q, pageSize)
  {
    c := ManyDeaths(pageSize + 1);
    q := OrderOf(c.dlq.Keys);
    ExaminedIs(c.dlq.Keys, q, 0, q);
    DeathCount(c.dlq.Keys, pageSize + 1);
    OverstatesOnOneDeath(c, q, pageSize);
  }

  lemma OverstatesOnOneDeath(c: C.Channel, q: seq<Uuid>, pageSize: nat)
    requires AllIn(c.dlq, q) && Distinct(q) && |q| == pageSize + 1 > 1 && 7 !in c.msgs
    requires forall d :: d in c.dlq ==> c.dlq[d].original == 7
    ensures |Winners(c, q)| < DryCount(c, q, pageSize)
  {
    SharesOneDeath(c, q[..pageSize], q[pageSize..]);
    DryRunNeverFewer(c, q, pageSize);
  }

  lemma SharesOneDeath(c: C.Channel, a: seq<Uuid>, b: seq<Uuid>)
    requires AllIn(c.dlq, a) && AllIn(c.dlq, b) && a != [] && b != [] && 7 !in c.msgs
    requires forall d :: d in c.dlq ==> c.dlq[d].original == 7
    ensures Shares(c, a, b)
  {
    assert c.dlq[a[0]].original in Originals(c.dlq, a);
    assert c.dlq[b[0]].original == 7;
  }

  lemma {:induction false} DeathCount(s: set<Uuid>, n: nat)
    requires forall d :: d in s <==> 1 <= d <= n
    ensures |s| == n
  {
    if n > 0 {
      DeathCount(s - {n}, n - 1);
    }
  }

  /** `n` rows fill whole pages. */
  predicate Whole(n: nat, pageSize: nat)
    requires pageSize > 0
  {
    n == 0 || (n >= pageSize && Whole(n - pageSize, pageSize))
  }

  lemma {:induction false} WholeNext(n: nat, pageSize: nat)
    requires pageSize > 0 && Whole(n, pageSize)
    ensures Whole(n + pageSize, pageSize)
  {
    if n > 0 {
      WholeNext(n - pageSize, pageSize);
    }
  }

  /** A page that is not full is the last one. */
  lemma WholePage(limit: nat, n: nat, ahead: nat, pageSize: nat)
    requires pageSize > 0 && Whole(n, pageSize) && (limit > 0 ==> n <= limit)
    ensures var m := Min(if limit > 0 then Min(pageSize, limit - n) else pageSize, ahead);
            m == ahead || n + m == limit || Whole(n + m, pageSize)
  {
    WholeNext(n, pageSize);
  }

  lemma {:induction false} DryCountSnoc(c: C.Channel, p: seq<Uuid>, q: seq<Uuid>, pageSize: nat)
    requires pageSize > 0 && Whole(|p|, pageSize) && |q| <= pageSize && AllIn(c.dlq, p) && AllIn(c.dlq, q)
    ensures AllIn(c.dlq, p + q) && DryCount(c, p + q, pageSize) == DryCount(c, p, pageSize) + |Winners(c, q)|
    decreases |p|
  {
    if p == [] {
      assert p + q == q;
      DryLastPage(c, q, pageSize);
    } else {
      assert (p + q)[..pageSize] == p[..pageSize] && (p + q)[pageSize..] == p[pageSize..] + q;
      DryCountSnoc(c, p[pageSize..], q, pageSize);
    }
  }

  /** The running total of the loop. */
  ghost predicate Counted(start: C.Channel, c: C.Channel, seen: seq<Uuid>, pageSize: nat, replayed: nat, dryRun: bool)
    requires pageSize > 0 && AllIn(start.dlq, seen)
  {
    replayed == if dryRun then DryCount(start, seen, pageSize) else |start.dlq| - |c.dlq|
  }

  lemma CountedStep(start: C.Channel, c: C.Channel, c': C.Channel, seen: seq<Uuid>, q: seq<Uuid>,
                    pageSize: nat, replayed: nat, n: nat, dryRun: bool)
    requires pageSize > 0 && AllIn(start.dlq, seen) && AllIn(start.dlq, q) && |q| <= pageSize
    requires q == [] || Whole(|seen|, pageSize)
    requires Counted(start, c, seen, pageSize, replayed, dryRun)
    requires n == if dryRun then |Winners(start, q)| else |c.dlq| - |c'.dlq|
    ensures AllIn(start.dlq, seen + q) && Counted(start, c', seen + q, pageSize, replayed + n, dryRun)
  {
    if q == [] {
      assert seen + q == seen;
    } else {
      DryCountSnoc(start, seen, q, pageSize);
    }
  }

  /** The rows examined so far and those to come; pages are whole until the last. */
  ghost predicate Position(start: C.Channel, order: seq<Uuid>, seen: seq<Uuid>, rest: seq<Uuid>, limit: nat, pageSize: nat)
    requires pageSize > 0
  {
    && seen + rest == order && IsOrder(rest) && AllIn(start.dlq, rest) && AllIn(start.dlq, seen)
    && (rest == [] || |seen| == limit || Whole(|seen|, pageSize))
  }

  lemma PageAdvances(start: C.Channel, c: C.Channel, c': C.Channel, order: seq<Uuid>, seen: seq<Uuid>, rest: seq<Uuid>,
                     limit: nat, pageSize: nat, m: nat, replayed: nat, n: nat, dryRun: bool)
    requires pageSize > 0 && Position(start, order, seen, rest, limit, pageSize) && (limit > 0 ==> |seen| < limit)
    requires m == Min(if limit > 0 then Min(pageSize, limit - |seen|) else pageSize, |rest|)
    requires Counted(start, c, seen, pageSize, replayed, dryRun)
    requires n == if dryRun then |Winners(start, rest[..m])| else |c.dlq| - |c'.dlq|
    ensures Position(start, order, seen + rest[..m], rest[m..], limit, pageSize)
    ensures Counted(start, c', seen + rest[..m], pageSize, replayed + n, dryRun)
  {
    var q := Split(order, seen, rest, m);
    CountedStep(start, c, c', seen, q, pageSize, replayed, n, dryRun);
    if rest != [] {
      WholePage(limit, |seen|, |rest|, pageSize);
    }
  }

  /** The loop over pages: `seen` are the rows it examined, in order. */
  method ReplayPages(db: ChannelDb, limit: nat, maxRetries: nat, dryRun: bool, pageSize: nat, ghost order: seq<Uuid>)
    returns (replayed: nat, skipped: nat, ghost seen: seq<Uuid>)
    requires pageSize > 0 && IsOrder(order) && AllIn(db.dlq, order) && Ahead(db.dlq.Keys, NIL, order)
    modifies db`msgs, db`dlq
    ensures seen <= order && replayed + skipped == |seen| == (if limit > 0 then Min(limit, |order|) else |order|)
    ensures Stands(old(db.State()), db.State(), seen, maxRetries, dryRun)
    ensures AllIn(old(db.dlq), seen) && Counted(old(db.State()), db.State(), seen, pageSize, replayed, dryRun)
  {
    ghost var start, rest := db.State(), order;
    seen := [];
    var after := NIL;
    replayed, skipped := 0, 0;
    while true
      invariant replayed + skipped == |seen| && (limit > 0 ==> |seen| <= limit)
      invariant Position(start, order, seen, rest, limit, pageSize) && Ahead(db.dlq.Keys, after, rest)
      invariant Stands(start, db.State(), seen, maxRetries, dryRun)
      invariant Counted(start, db.State(), seen, pageSize, replayed, dryRun)
      decreases |rest|
    {
      var pageLimit := NextLimit(limit, replayed + skipped, pageSize);
      if pageLimit == 0 {
        break;
      }
      ghost var c := db.State();
      var n, last, fetched := NextPage(db, after, pageLimit, maxRetries, dryRun, start, seen, rest);
      PageAdvances(start, c, db.State(), order, seen, rest, limit, pageSize, fetched, replayed, n, dryRun);
      replayed := replayed + n;
      skipped := skipped + fetched - n;
      seen, rest := seen + rest[..fetched], rest[fetched..];
      if fetched == 0 {
        break;
      }
      after := last;
    }
  }

  lemma PassReaches(start: C.Channel, seen: seq<Uuid>, maxRetries: nat)
    requires C.Reachable(start)
    ensures C.Reachable(OnePass(start, seen, maxRetries))
  {
    var trace := OnePassIsRun(start, seen, maxRetries);
    C.RunReaches(start, trace);
  }

  /** Any page size gives the one-pass replay of the examined rows; a dry run changes nothing and
      examines the same rows. */
  method ReplayDlq(db: ChannelDb, limit: int, maxRetries: nat, dryRun: bool, pageSize: nat)
    returns (r: ReplayResult, ghost seen: seq<Uuid>)
    requires db.Valid() && pageSize > 0
    modifies db
    ensures db.Valid() && (r.Invalid? <==> limit < 0)
    ensures dryRun || limit < 0 ==> db.State() == old(db.State())
    ensures limit >= 0 ==> seen == Examined(old(db.dlq).Keys, limit) && r.replayed + r.skipped == |seen|
    ensures limit >= 0 && dryRun ==> r.replayed == DryCount(old(db.State()), seen, pageSize)
    ensures limit >= 0 && !dryRun ==> r.replayed == |Winners(old(db.State()), seen)|
    ensures limit >= 0 && !dryRun ==> db.State() == OnePass(old(db.State()), seen, maxRetries)
  {
    if limit < 0 {
      return Invalid, [];
    }
    ghost var start := db.State();
    C.ReachableIsOk(start);
    ghost var order := OrderOf(start.dlq.Keys);
    var replayed, skipped;
    replayed, skipped, seen := ReplayPages(db, limit, maxRetries, dryRun, pageSize, order);
    ExaminedIs(start.dlq.Keys, order, limit, seen);
    WinnersSize(start, seen, maxRetries);
    PassReaches(start, seen, maxRetries);
    r := Replayed(replayed, skipped);
  }
}
