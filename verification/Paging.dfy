/** Keyset pagination: `WHERE id > cursor ORDER BY id LIMIT n`, page after page. */
module Paging {
  import opened Basics

  /** The outcome of a paged replay; `Invalid` is a negative limit. */
  datatype ReplayResult = Invalid | Replayed(replayed: nat, skipped: nat)

  predicate Distinct(q: seq<Uuid>) {
    forall i, j :: 0 <= i < j < |q| ==> q[i] != q[j]
  }

  predicate Ascending(q: seq<Uuid>) {
    forall i, j :: 0 <= i < j < |q| ==> q[i] < q[j]
  }

  /** Ids in query order; the nil id is never one of them. */
  predicate IsOrder(q: seq<Uuid>) {
    Ascending(q) && NIL !in q
  }

  /** `WHERE id > after`; the nil cursor starts at the beginning. */
  function After(s: set<Uuid>, after: Uuid): set<Uuid> {
    set d | d in s && (after == NIL || after < d)
  }

  /** `WHERE id > after ORDER BY id LIMIT n`. */
  function Fetch(s: set<Uuid>, after: Uuid, n: nat): (q: seq<Uuid>)
    ensures Distinct(q) && forall i :: 0 <= i < |q| ==> q[i] in s
  {
    var rest := Sorted(After(s, after));
    assert forall i :: 0 <= i < |rest| ==> rest[i] in After(s, after);
    rest[..Min(n, |rest|)]
  }

  /** The rows a call examines: the first `limit` by id, or all of them when `limit` is 0. */
  function Examined(s: set<Uuid>, limit: nat): (q: seq<Uuid>)
    ensures Distinct(q) && forall i :: 0 <= i < |q| ==> q[i] in s
  {
    Fetch(s, NIL, if limit > 0 then limit else |s|)
  }

  /** `rest` is what the cursor still has ahead of it. */
  ghost predicate Ahead(s: set<Uuid>, after: Uuid, rest: seq<Uuid>) {
    After(s, after) == Elems(rest)
  }

  lemma SortedElems(q: seq<Uuid>)
    requires Ascending(q)
    ensures Sorted(Elems(q)) == q
  {
    ElemsSize(q);
    SortedUnique(Sorted(Elems(q)), q);
  }

  lemma FetchOf(s: set<Uuid>, after: Uuid, rest: seq<Uuid>, n: nat)
    requires Ascending(rest) && Ahead(s, after, rest)
    ensures Fetch(s, after, n) == rest[..Min(n, |rest|)]
  {
    SortedElems(rest);
  }

  /** Whatever a page took out of the table, the cursor it leaves finds exactly the rows it did not see. */
  lemma AfterPage(s: set<Uuid>, after: Uuid, rest: seq<Uuid>, gone: set<Uuid>, m: nat)
    requires IsOrder(rest) && Ahead(s, after, rest) && m <= |rest| && gone <= Elems(rest[..m])
    ensures Ahead(s - gone, if m == 0 then after else rest[m - 1], rest[m..])
  {
    if m == 0 {
      assert s - gone == s && rest[m..] == rest;
      return;
    }
    var last := rest[m - 1];
    assert last in Elems(rest);
    forall d | d in After(s - gone, last) ensures d in Elems(rest[m..]) {
      assert d in Elems(rest);
      var i :| 0 <= i < |rest| && rest[i] == d;
      assert i >= m;
      assert rest[m..][i - m] == d;
    }
    forall d | d in Elems(rest[m..]) ensures d in After(s - gone, last) {
      var i :| 0 <= i < |rest| - m && rest[m..][i] == d;
      assert d == rest[m + i] && d in Elems(rest);
    }
  }

  lemma AheadIsIn(s: set<Uuid>, after: Uuid, rest: seq<Uuid>)
    requires Ahead(s, after, rest)
    ensures forall i :: 0 <= i < |rest| ==> rest[i] in s
  {
    forall i | 0 <= i < |rest| ensures rest[i] in s {
      assert rest[i] in Elems(rest);
    }
  }

  /** The ids of a table in order, all ahead of the nil cursor. */
  lemma OrderOf(s: set<Uuid>) returns (order: seq<Uuid>)
    requires NIL !in s
    ensures IsOrder(order) && Ahead(s, NIL, order) && |order| == |s|
    ensures forall i :: 0 <= i < |order| ==> order[i] in s
  {
    order := Sorted(s);
    assert After(s, NIL) == s;
    assert forall i :: 0 <= i < |order| ==> order[i] in order;
  }

  lemma ExaminedIs(s: set<Uuid>, order: seq<Uuid>, limit: nat, seen: seq<Uuid>)
    requires IsOrder(order) && Ahead(s, NIL, order) && |order| == |s|
    requires seen <= order && |seen| == if limit > 0 then Min(limit, |order|) else |order|
    ensures seen == Examined(s, limit) && Distinct(seen)
  {
    FetchOf(s, NIL, order, if limit > 0 then limit else |s|);
  }

  /** How many rows the next page may take; 0 ends the loop. */
  method NextLimit(limit: nat, examined: nat, pageSize: nat) returns (n: nat)
    requires limit > 0 ==> examined <= limit
    ensures n == if limit > 0 then Min(pageSize, limit - examined) else pageSize
  {
    n := pageSize;
    if limit > 0 {
      var remaining := limit - examined;
      if remaining <= 0 {
        return 0;
      }
      if remaining < n {
        n := remaining;
      }
    }
  }

  lemma Split(order: seq<Uuid>, seen: seq<Uuid>, rest: seq<Uuid>, m: nat) returns (q: seq<Uuid>)
    requires order == seen + rest && m <= |rest| && IsOrder(rest)
    ensures q == rest[..m] && order == (seen + q) + rest[m..] && IsOrder(rest[m..])
    ensures forall i :: 0 <= i < m ==> q[i] in order
  {
    q := rest[..m];
    assert rest == q + rest[m..];
    assert forall i :: 0 <= i < m ==> q[i] == order[|seen| + i];
  }
}
