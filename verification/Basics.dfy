/** Identifiers, options and the ORDER BY / LIMIT vocabulary shared by the whole model. */
module Basics {

  /** A UUID as the 128-bit number its sixteen bytes spell; numeric order is byte order. */
  type Uuid = nat

  /** The nil UUID: "no id given", "no cursor yet", "no claim held". */
  const NIL: Uuid := 0

  datatype Option<+T> = None | Some(value: T)

  type Byte = x: int | 0 <= x < 256
  type Bytes = seq<Byte>

  /** Payload and metadata travel together and are never changed by the queue. */
  datatype Body = Body(payload: Bytes, metadata: Option<string>)

  /** The two sources of a DLQ failure reason: the fixed visibility-timeout text, or a nack's own. */
  datatype FailureReason = VisibilityTimeout | Reported(text: Bytes)

  /** A row of a dead-letter table; `subscriber` is set for topics only. */
  datatype DeadLetter = DeadLetter(
    original: Uuid,
    subscriber: Option<string>,
    body: Body,
    reason: FailureReason,
    retries: nat,
    movedAt: int)

  function Min(a: int, b: int): int {
    if a < b then a else b
  }

  /** `ORDER BY key, id`: a strict total order on the ids. */
  predicate Before(key: map<Uuid, int>, a: Uuid, b: Uuid)
    requires a in key && b in key
  {
    key[a] < key[b] || (key[a] == key[b] && a < b)
  }

  predicate IsFirst(s: set<Uuid>, key: map<Uuid, int>, m: Uuid)
    requires s <= key.Keys
  {
    m in s && forall x :: x in s && x != m ==> Before(key, m, x)
  }

  lemma {:induction false} FirstExists(s: set<Uuid>, key: map<Uuid, int>) returns (w: Uuid)
    requires s != {} && s <= key.Keys
    ensures IsFirst(s, key, w)
    decreases s
  {
    var y :| y in s;
    if s == {y} {
      w := y;
    } else {
      var m := FirstExists(s - {y}, key);
      w := if Before(key, y, m) then y else m;
      forall x | x in s && x != w ensures Before(key, w, x) {
        assert x == y || x in s - {y};
      }
    }
  }

  /** `ORDER BY key, id LIMIT 1` over a non-empty set of rows. */
  function FirstBy(s: set<Uuid>, key: map<Uuid, int>): (m: Uuid)
    requires s != {} && s <= key.Keys
    ensures m in s
    ensures forall x :: x in s && x != m ==> Before(key, m, x)
  {
    assert exists w :: IsFirst(s, key, w) by { var w := FirstExists(s, key); }
    var m :| IsFirst(s, key, m);
    m
  }

  /** `ORDER BY key, id`: the rows in query order. */
  function OrderBy(s: set<Uuid>, key: map<Uuid, int>): (q: seq<Uuid>)
    requires s <= key.Keys
    ensures |q| == |s|
    ensures forall x :: x in q <==> x in s
    ensures forall i, j :: 0 <= i < j < |q| ==> Before(key, q[i], q[j])
    decreases |s|
  {
    if s == {} then []
    else
      var m := FirstBy(s, key);
      [m] + OrderBy(s - {m}, key)
  }

  /** The key map that makes `OrderBy` order by id alone. */
  function ById(s: set<Uuid>): map<Uuid, int> {
    map x | x in s :: 0
  }

  /** `ORDER BY id`. */
  function Sorted(s: set<Uuid>): (q: seq<Uuid>)
    ensures |q| == |s|
    ensures forall x :: x in q <==> x in s
    ensures forall i, j :: 0 <= i < j < |q| ==> q[i] < q[j]
  {
    OrderBy(s, ById(s))
  }

  /** `ORDER BY key, id LIMIT n`. */
  function PageBy(s: set<Uuid>, key: map<Uuid, int>, n: nat): (page: seq<Uuid>)
    requires s <= key.Keys
    ensures |page| == Min(n, |s|)
    ensures forall i :: 0 <= i < |page| ==> page[i] in s
    ensures forall i, j :: 0 <= i < j < |page| ==> page[i] != page[j]
  {
    OrderBy(s, key)[..Min(n, |s|)]
  }

  /** A strictly increasing sequence is determined by its elements. */
  lemma {:induction false} SortedUnique(p: seq<Uuid>, q: seq<Uuid>)
    requires forall i, j :: 0 <= i < j < |p| ==> p[i] < p[j]
    requires forall i, j :: 0 <= i < j < |q| ==> q[i] < q[j]
    requires |p| == |q| && forall x :: x in p <==> x in q
    ensures p == q
  {
    if p != [] {
      assert p[0] in q;
      assert q[0] in p;
      assert p[0] == q[0];
      forall x ensures x in p[1..] <==> x in q[1..] {
        if x in p[1..] { assert x in p && x != p[0]; assert x in q; }
        if x in q[1..] { assert x in q && x != q[0]; assert x in p; }
      }
      SortedUnique(p[1..], q[1..]);
      assert p == [p[0]] + p[1..];
    }
  }

  /** The ids of a sequence as a set. */
  function Elems(q: seq<Uuid>): set<Uuid> {
    set x | x in q
  }

  lemma {:induction false} ElemsSize(q: seq<Uuid>)
    requires forall i, j :: 0 <= i < j < |q| ==> q[i] != q[j]
    ensures |Elems(q)| == |q|
  {
    if q != [] {
      ElemsSize(q[1..]);
      assert Elems(q) == {q[0]} + Elems(q[1..]);
    }
  }

  lemma SubsetSizes(all: set<Uuid>, a: set<Uuid>, b: set<Uuid>)
    requires a <= b <= all
    ensures |all - a| == |all| - |a| && |all - b| == |all| - |b| && |b| <= |all|
  {
    assert all == (all - a) + a && all == (all - b) + b;
  }

  /** Some id is always unused: this is all `uuidv7()` is relied on for. */
  lemma {:induction false} FreshExists(used: set<Uuid>)
    ensures exists t: Uuid :: t != NIL && t !in used
  {
    if used == {} {
      assert 1 !in used;
    } else {
      var q := Sorted(used);
      var t := q[|q| - 1] + 1;
      forall x | x in used ensures x < t {
        assert x in q;
      }
      assert t !in used;
    }
  }
}
