/**
 The UUIDv7 generator: sections 5.7 and 6.2 (method 1, fixed bit-length dedicated counter) of
 RFC 9562, driven by a clock that may stand still, jump ahead or run backwards.
 */
module UuidV7 {
  import opened Basics

  const TWO_48: nat := 281_474_976_710_656
  const TWO_64: nat := 18_446_744_073_709_551_616
  const COUNTER_MASK: nat := 4095

  // ---------------------------------------------------------------- bytes and their order

  /** The `n` low bytes of `v`, big endian. */
  function BigEndian(n: nat, v: nat): (s: Bytes)
    ensures |s| == n
  {
    if n == 0 then [] else BigEndian(n - 1, v / 256) + [v % 256]
  }

  /** The number a byte string spells. */
  function Value(s: Bytes): nat {
    if s == [] then 0 else 256 * Value(s[..|s| - 1]) + s[|s| - 1]
  }

  lemma ValueSnoc(s: Bytes, b: Byte)
    ensures Value(s + [b]) == 256 * Value(s) + b
  {
    assert (s + [b])[..|s|] == s;
  }

  /** PostgreSQL and bytes.Compare order: the first differing byte decides. */
  predicate Less(a: Bytes, b: Bytes)
    requires |a| == |b|
  {
    exists i :: 0 <= i < |a| && a[..i] == b[..i] && a[i] < b[i]
  }

  lemma LessIsStrict(a: Bytes, b: Bytes)
    requires |a| == |b| && Less(a, b)
    ensures a != b && !Less(b, a)
  {
    var i :| 0 <= i < |a| && a[..i] == b[..i] && a[i] < b[i];
    forall j | 0 <= j < |a| && b[..j] == a[..j] ensures !(b[j] < a[j]) {
      if j < i {
        assert a[..i][j] == b[..i][j];
      }
    }
  }

  lemma LessIsTransitive(a: Bytes, b: Bytes, c: Bytes)
    requires |a| == |b| == |c| && Less(a, b) && Less(b, c)
    ensures Less(a, c)
  {
    var i :| 0 <= i < |a| && a[..i] == b[..i] && a[i] < b[i];
    var j :| 0 <= j < |b| && b[..j] == c[..j] && b[j] < c[j];
    var k := if i < j then i else j;
    assert a[..k] == c[..k] by {
      forall m | 0 <= m < k ensures a[m] == c[m] {
        assert a[..i][m] == b[..i][m] && b[..j][m] == c[..j][m];
      }
    }
    if i < j {
      assert b[..j][i] == c[..j][i];
    } else if j < i {
      assert a[..i][j] == b[..i][j];
    }
  }

  /** Byte order on equal lengths is numeric order. */
  lemma {:induction false} SmallerIsLess(a: Bytes, b: Bytes)
    requires |a| == |b| && Value(a) < Value(b)
    ensures Less(a, b)
  {
    var n := |a| - 1;
    var p, q := a[..n], b[..n];
    if Value(p) < Value(q) {
      SmallerIsLess(p, q);
      LessExtends(p, q, a, b);
    } else {
      SameValue(p, q);
      assert a[..n] == b[..n] && a[n] < b[n];
    }
  }

  lemma {:induction false} SameValue(a: Bytes, b: Bytes)
    requires |a| == |b| && Value(a) == Value(b)
    ensures a == b
  {
    if a != [] {
      SameValue(a[..|a| - 1], b[..|b| - 1]);
      assert a == a[..|a| - 1] + [a[|a| - 1]];
    }
  }

  lemma LessExtends(p: Bytes, q: Bytes, a: Bytes, b: Bytes)
    requires |p| == |q| <= |a| == |b| && Less(p, q) && p == a[..|p|] && q == b[..|q|]
    ensures Less(a, b)
  {
    var i :| 0 <= i < |p| && p[..i] == q[..i] && p[i] < q[i];
    assert a[..i] == p[..i] && b[..i] == q[..i];
  }

  // ---------------------------------------------------------------- the generator

  /** The shared state: the pinned millisecond and the 12-bit counter. */
  datatype Gen = Gen(lastMs: nat, counter: nat)

  /** One call's inputs: ten random bytes, the clock at entry and, on overflow, the clock again. */
  datatype Call = Call(random: Bytes, now: nat, again: nat)

  predicate GoodCall(c: Call) {
    |c.random| == 10 && c.now < TWO_64 && c.again < TWO_64
  }

  predicate GoodGen(g: Gen) {
    g.lastMs < TWO_64 && g.counter <= COUNTER_MASK
  }

  predicate Overflows(g: Gen, c: Call) {
    c.now <= g.lastMs && g.counter == COUNTER_MASK
  }

  function Next(g: Gen, c: Call): Gen
    requires GoodCall(c)
  {
    if c.now > g.lastMs then Gen(c.now, (256 * (c.random[0] as int) + c.random[1] as int) % 2048)
    else if !Overflows(g, c) then Gen(g.lastMs, g.counter + 1)
    else if c.again > g.lastMs then Gen(c.again, 0)
    else Gen((g.lastMs + 1) % TWO_64, 0)
  }

  /** Timestamp in bytes 0-5, version and counter in 6-7, variant and randomness after. */
  function Layout(g: Gen, random: Bytes): (u: Bytes)
    requires |random| == 10
    ensures |u| == 16
  {
    BigEndian(2, g.lastMs / 0x1_0000_0000) + BigEndian(4, g.lastMs)
    + [0x70 + (g.counter / 256) % 16, g.counter % 256, 0x80 + random[2] % 64] + random[3..]
  }

  class Generator {
    var lastMs: nat
    var counter: nat

    predicate Valid()
      reads this
    {
      lastMs < TWO_64 && counter <= COUNTER_MASK
    }

    function State(): Gen
      reads this
    {
      Gen(lastMs, counter)
    }

    constructor ()
      ensures Valid() && State() == Gen(0, 0)
    {
      lastMs, counter := 0, 0;
    }

    /** A failed random read leaves the state alone. */
    method NewAt(random: Option<Bytes>, now: nat, again: nat) returns (u: Option<Bytes>)
      requires Valid() && now < TWO_64 && again < TWO_64 && (random.Some? ==> |random.value| == 10)
      modifies this
      ensures Valid()
      ensures random.None? ==> u.None? && State() == old(State())
      ensures random.Some? ==> State() == Next(old(State()), Call(random.value, now, again)) && u == Some(Layout(State(), random.value))
    {
      if random.None? {
        return None;
      }
      var bytes := random.value;
      if now > lastMs {
        lastMs := now;
        counter := (256 * (bytes[0] as int) + bytes[1] as int) % 2048;
      } else {
        counter := counter + 1;
        if counter > COUNTER_MASK {
          if again > lastMs {
            lastMs := again;
          } else {
            lastMs := (lastMs + 1) % TWO_64;
          }
          counter := 0;
        }
      }
      var id := BigEndian(2, lastMs / 0x1_0000_0000) + BigEndian(4, lastMs) + [0x70 + (counter / 256) % 16, counter % 256];
      id := id + [0x80 + bytes[2] % 64] + bytes[3..];
      assert id == Layout(State(), bytes);
      return Some(id);
    }
  }

  // ---------------------------------------------------------------- what an id says

  lemma Low48(v: nat, q: nat, low: nat)
    requires v == TWO_48 * q + low && low < TWO_48
    ensures v % TWO_48 == low
  {
  }

  lemma High(v: nat, q: nat, low: nat)
    requires v == 0x1_0000_0000 * q + low && low < 0x1_0000_0000
    ensures v / 0x1_0000_0000 == q
  {
  }

  lemma Digits(v: nat)
    ensures var q1 := v / 256; var q2 := q1 / 256; var q3 := q2 / 256; var q4 := q3 / 256; var q5 := q4 / 256;
            && v / 0x1_0000_0000 == q4
            && v % TWO_48 == 256 * (256 * (256 * (256 * (256 * (q5 % 256) + q4 % 256) + q3 % 256) + q2 % 256) + q1 % 256) + v % 256
  {
    var q1, r0 := v / 256, v % 256;
    var q2, r1 := q1 / 256, q1 % 256;
    var q3, r2 := q2 / 256, q2 % 256;
    var q4, r3 := q3 / 256, q3 % 256;
    var q5, r4 := q4 / 256, q4 % 256;
    var q6, r5 := q5 / 256, q5 % 256;
    var low32 := 256 * (256 * (256 * r3 + r2) + r1) + r0;
    assert v == 0x1_0000_0000 * q4 + low32;
    High(v, q4, low32);
    assert q4 == 65536 * q6 + 256 * r5 + r4;
    Low48(v, q6, 256 * (256 * (256 * (256 * (256 * r5 + r4) + r3) + r2) + r1) + r0);
  }

  /** The six timestamp bytes spell the pinned millisecond, modulo 2^48. */
  lemma TimestampValue(ms: nat)
    ensures Value(BigEndian(2, ms / 0x1_0000_0000) + BigEndian(4, ms)) == ms % TWO_48
  {
    Digits(ms);
    var q1 := ms / 256;
    var q2 := q1 / 256;
    var q3 := q2 / 256;
    var q4 := q3 / 256;
    var q5 := q4 / 256;
    assert BigEndian(0, q5 / 256) == [];
    assert BigEndian(1, q5) == [q5 % 256];
    assert BigEndian(2, q4) == [q5 % 256, q4 % 256];
    assert BigEndian(1, q3) == [q3 % 256];
    assert BigEndian(2, q2) == [q3 % 256, q2 % 256];
    assert BigEndian(3, q1) == [q3 % 256, q2 % 256, q1 % 256];
    assert BigEndian(4, ms) == [q3 % 256, q2 % 256, q1 % 256, ms % 256];
    assert BigEndian(2, q4) + BigEndian(4, ms) == [q5 % 256, q4 % 256, q3 % 256, q2 % 256, q1 % 256, ms % 256];
    SixBytes(q5 % 256, q4 % 256, q3 % 256, q2 % 256, q1 % 256, ms % 256);
  }

  lemma SixBytes(a: Byte, b: Byte, c: Byte, d: Byte, e: Byte, f: Byte)
    ensures Value([a, b, c, d, e, f])
            == 256 * (256 * (256 * (256 * (256 * (a as int) + b as int) + c as int) + d as int) + e as int) + f as int
  {
    assert [a] == [] + [a] && [a, b] == [a] + [b] && [a, b, c] == [a, b] + [c];
    assert [a, b, c, d] == [a, b, c] + [d] && [a, b, c, d, e] == [a, b, c, d] + [e] && [a, b, c, d, e, f] == [a, b, c, d, e] + [f];
    ValueSnoc([], a);
    ValueSnoc([a], b);
    ValueSnoc([a, b], c);
    ValueSnoc([a, b, c], d);
    ValueSnoc([a, b, c, d], e);
    ValueSnoc([a, b, c, d, e], f);
  }

  /** The timestamp read back from an id: bytes 0-1 as the high half, bytes 2-5 as the low half. */
  function ExtractTimestamp(u: Bytes): nat
    requires |u| == 16
  {
    Value(u[0..2]) * 0x1_0000_0000 + Value(u[2..6])
  }

  lemma {:induction false} ValueAppend(a: Bytes, b: Bytes)
    requires |b| == 4
    ensures Value(a + b) == Value(a) * 0x1_0000_0000 + Value(b)
  {
    var b0, b1, b2, b3 := b[0], b[1], b[2], b[3];
    assert b == [b0, b1, b2, b3];
    assert a + b == (((a + [b0]) + [b1]) + [b2]) + [b3] && b == ((([] + [b0]) + [b1]) + [b2]) + [b3];
    ValueSnoc(a, b0);
    ValueSnoc(a + [b0], b1);
    ValueSnoc(a + [b0] + [b1], b2);
    ValueSnoc(a + [b0] + [b1] + [b2], b3);
    ValueSnoc([], b0);
    ValueSnoc([] + [b0], b1);
    ValueSnoc([] + [b0] + [b1], b2);
    ValueSnoc([] + [b0] + [b1] + [b2], b3);
  }

  /** Reading the timestamp back gives the pinned millisecond, as far as 48 bits hold it. */
  lemma TimestampRoundTrip(g: Gen, random: Bytes)
    requires |random| == 10
    ensures ExtractTimestamp(Layout(g, random)) == g.lastMs % TWO_48
  {
    var u := Layout(g, random);
    var high, low := BigEndian(2, g.lastMs / 0x1_0000_0000), BigEndian(4, g.lastMs);
    assert u[0..2] == high && u[2..6] == low;
    ValueAppend(high, low);
    TimestampValue(g.lastMs);
  }

  /** Every id carries version 7 and the RFC variant, the counter, and 62 of the random bits unchanged. */
  lemma IdFields(g: Gen, random: Bytes)
    requires |random| == 10 && g.counter <= COUNTER_MASK
    ensures var u := Layout(g, random);
            && u[6] / 16 == 7 && u[8] / 64 == 2
            && 256 * ((u[6] as int) % 16) + u[7] as int == g.counter
            && u[8] % 64 == random[2] % 64 && u[9..] == random[3..]
  {
    var u := Layout(g, random);
    var ts := BigEndian(2, g.lastMs / 0x1_0000_0000) + BigEndian(4, g.lastMs);
    var high := g.counter / 256;
    assert u[6] == 0x70 + high % 16 && u[7] == g.counter % 256 && u[8] == 0x80 + random[2] % 64;
    assert high < 16;
    assert u[9..] == random[3..];
  }

  /** When the clock has moved on the id carries its millisecond, and a counter seeded from eleven of the
      random bits, so that at least 2048 more ids fit; otherwise the counter goes up by one, and a full one starts again at
      zero in the clock's millisecond or, if that has not moved on, in the next. */
  lemma NextFields(g: Gen, c: Call)
    requires GoodGen(g) && GoodCall(c)
    ensures c.now > g.lastMs ==> Next(g, c).lastMs == c.now && Next(g, c).counter < 2048
                                 && Next(g, c).counter == 256 * ((c.random[0] as int) % 8) + c.random[1] as int
    ensures c.now <= g.lastMs && g.counter < COUNTER_MASK ==> Next(g, c) == Gen(g.lastMs, g.counter + 1)
    ensures c.now <= g.lastMs && g.counter == COUNTER_MASK ==>
              Next(g, c).counter == 0 && Next(g, c).lastMs == if c.again > g.lastMs then c.again else (g.lastMs + 1) % TWO_64
  {
    SeedBits(c.random[0] as int, c.random[1] as int);
  }

  lemma SeedBits(a: int, b: int)
    requires 0 <= a < 256 && 0 <= b < 256
    ensures (256 * a + b) % 2048 == 256 * (a % 8) + b < 2048
  {
    var q, r := a / 8, a % 8;
    Low11(256 * a + b, q, 256 * r + b);
  }

  lemma Low11(v: int, q: int, low: int)
    requires v == 2048 * q + low && 0 <= low < 2048
    ensures v % 2048 == low
  {
  }

  /** The first eight bytes as a number. */
  function Head(g: Gen): nat {
    65536 * (g.lastMs % TWO_48) + 0x7000 + g.counter
  }

  lemma HeadIsValue(g: Gen, random: Bytes)
    requires |random| == 10 && g.counter <= COUNTER_MASK
    ensures Value(Layout(g, random)[..8]) == Head(g)
  {
    var u := Layout(g, random);
    var ts := BigEndian(2, g.lastMs / 0x1_0000_0000) + BigEndian(4, g.lastMs);
    var b6, b7: Byte := 0x70 + (g.counter / 256) % 16, g.counter % 256;
    assert u[..8] == (ts + [b6]) + [b7];
    ValueSnoc(ts, b6);
    ValueSnoc(ts + [b6], b7);
    TimestampValue(g.lastMs);
    assert g.counter == 256 * (g.counter / 256) + g.counter % 256;
  }

  /** Ids are ordered as their heads are. */
  lemma HeadOrders(g: Gen, r: Bytes, h: Gen, q: Bytes)
    requires |r| == 10 && |q| == 10 && GoodGen(g) && GoodGen(h) && Head(g) < Head(h)
    ensures Less(Layout(g, r), Layout(h, q)) && !Less(Layout(h, q), Layout(g, r))
  {
    var u, v := Layout(g, r), Layout(h, q);
    HeadIsValue(g, r);
    HeadIsValue(h, q);
    SmallerIsLess(u[..8], v[..8]);
    LessExtends(u[..8], v[..8], u, v);
    LessIsStrict(u, v);
  }

  // ---------------------------------------------------------------- order

  /** The one call that leaves the 48-bit timestamp range: a borrow at its last millisecond. */
  predicate RunsOut(g: Gen, c: Call) {
    Overflows(g, c) && g.lastMs == TWO_48 - 1 && c.again <= g.lastMs
  }

  lemma NextHead(g: Gen, c: Call)
    requires GoodGen(g) && GoodCall(c) && g.lastMs < TWO_48 && c.now < TWO_48 && c.again < TWO_48
    ensures GoodGen(Next(g, c)) && (Next(g, c).lastMs < TWO_48 <==> !RunsOut(g, c))
    ensures if RunsOut(g, c) then Head(Next(g, c)) < Head(g) else Head(g) < Head(Next(g, c))
  {
  }

  /** Whatever the clock does below 2^48, the next id is greater than the previous one, except
      exactly when the generator runs out of milliseconds. */
  lemma NextIsGreater(g: Gen, prev: Bytes, c: Call)
    requires GoodGen(g) && GoodCall(c) && |prev| == 10 && g.lastMs < TWO_48 && c.now < TWO_48 && c.again < TWO_48
    ensures GoodGen(Next(g, c))
    ensures Less(Layout(g, prev), Layout(Next(g, c), c.random)) <==> !RunsOut(g, c)
    ensures Next(g, c).lastMs < TWO_48 <==> !RunsOut(g, c)
  {
    var h := Next(g, c);
    NextHead(g, c);
    if RunsOut(g, c) {
      HeadOrders(h, c.random, g, prev);
    } else {
      HeadOrders(g, prev, h, c.random);
    }
  }

  function Run(g: Gen, calls: seq<Call>): Gen
    requires forall i :: 0 <= i < |calls| ==> GoodCall(calls[i])
  {
    if calls == [] then g else Next(Run(g, calls[..|calls| - 1]), calls[|calls| - 1])
  }

  /** The id call number `i` returns. */
  function IdAt(g: Gen, calls: seq<Call>, i: nat): (u: Bytes)
    requires (forall k :: 0 <= k < |calls| ==> GoodCall(calls[k])) && i < |calls|
    ensures |u| == 16
  {
    Layout(Run(g, calls[..i + 1]), calls[i].random)
  }

  predicate ClockBelow(calls: seq<Call>) {
    forall i :: 0 <= i < |calls| ==> GoodCall(calls[i]) && calls[i].now < TWO_48 && calls[i].again < TWO_48
  }

  /** The generator never runs out during the calls. */
  predicate NeverRunsOut(g: Gen, calls: seq<Call>)
    requires ClockBelow(calls)
  {
    calls == [] || (NeverRunsOut(g, calls[..|calls| - 1]) && !RunsOut(Run(g, calls[..|calls| - 1]), calls[|calls| - 1]))
  }

  lemma {:induction false} NeverRanOut(g: Gen, calls: seq<Call>, j: nat)
    requires ClockBelow(calls) && NeverRunsOut(g, calls) && j <= |calls|
    ensures NeverRunsOut(g, calls[..j])
  {
    if j < |calls| {
      NeverRanOut(g, calls[..|calls| - 1], j);
      assert calls[..|calls| - 1][..j] == calls[..j];
    } else {
      assert calls[..j] == calls;
    }
  }

  lemma {:induction false} StaysBelow(g: Gen, calls: seq<Call>)
    requires ClockBelow(calls) && GoodGen(g) && g.lastMs < TWO_48 && NeverRunsOut(g, calls)
    ensures GoodGen(Run(g, calls)) && Run(g, calls).lastMs < TWO_48
  {
    if calls != [] {
      StaysBelow(g, calls[..|calls| - 1]);
    }
  }

  lemma NextIdIsGreater(g: Gen, calls: seq<Call>, j: nat)
    requires ClockBelow(calls) && GoodGen(g) && g.lastMs < TWO_48 && NeverRunsOut(g, calls) && 0 < j < |calls|
    ensures Less(IdAt(g, calls, j - 1), IdAt(g, calls, j))
  {
    var p := calls[..j];
    NeverRanOut(g, calls, j);
    NeverRanOut(g, calls, j + 1);
    assert calls[..j + 1][..j] == p;
    StaysBelow(g, p);
    NextIsGreater(Run(g, p), calls[j - 1].random, calls[j]);
  }

  lemma {:induction false} StepwiseIsOrdered(ids: seq<Bytes>, i: nat, j: nat)
    requires i < j < |ids| && forall k :: 0 <= k < |ids| ==> |ids[k]| == 16
    requires forall k :: 0 < k < |ids| ==> Less(ids[k - 1], ids[k])
    ensures Less(ids[i], ids[j])
    decreases j
  {
    if i < j - 1 {
      StepwiseIsOrdered(ids, i, j - 1);
      LessIsTransitive(ids[i], ids[j - 1], ids[j]);
    }
  }

  /** Over any sequence of clock readings, forward, backward or stuck: later ids are greater. */
  lemma IdsIncrease(g: Gen, calls: seq<Call>, i: nat, j: nat)
    requires ClockBelow(calls) && GoodGen(g) && g.lastMs < TWO_48 && NeverRunsOut(g, calls) && i < j < |calls|
    ensures Less(IdAt(g, calls, i), IdAt(g, calls, j))
  {
    var ids := seq(|calls|, k requires 0 <= k < |calls| => IdAt(g, calls, k));
    forall k | 0 < k < |ids| ensures Less(ids[k - 1], ids[k]) {
      NextIdIsGreater(g, calls, k);
    }
    StepwiseIsOrdered(ids, i, j);
  }

  /** The exception is real: a stuck clock at the last millisecond and a full counter. */
  lemma LastMillisecondWraps(random: Bytes)
    requires |random| == 10
    ensures var g, c := Gen(TWO_48 - 1, COUNTER_MASK), Call(random, TWO_48 - 1, TWO_48 - 1);
            Less(Layout(Next(g, c), random), Layout(g, random))
  {
    var g, c := Gen(TWO_48 - 1, COUNTER_MASK), Call(random, TWO_48 - 1, TWO_48 - 1);
    assert Next(g, c) == Gen(TWO_48, 0);
    HeadOrders(Next(g, c), random, g, random);
  }

  // ---------------------------------------------------------------- drift

  /** The largest clock value the calls have read. */
  function MaxClock(g: Gen, calls: seq<Call>): nat
    requires forall i :: 0 <= i < |calls| ==> GoodCall(calls[i])
  {
    if calls == [] then 0
    else
      var p, c := calls[..|calls| - 1], calls[|calls| - 1];
      var m := Max(MaxClock(g, p), c.now);
      if Overflows(Run(g, p), c) then Max(m, c.again) else m
  }

  function Max(a: nat, b: nat): nat {
    if a < b then b else a
  }

  /** How far the pinned millisecond may be ahead after `n` calls that read at most `max`. */
  predicate WithinDrift(g: Gen, max: nat, n: nat) {
    4096 * (g.lastMs - max) + g.counter <= 2047 + n && g.counter <= COUNTER_MASK
  }

  lemma DriftStep(g: Gen, c: Call, max: nat, n: nat)
    requires GoodCall(c) && WithinDrift(g, max, n)
    ensures var m := Max(max, c.now);
            WithinDrift(Next(g, c), if Overflows(g, c) then Max(m, c.again) else m, n + 1)
  {
    assert (g.lastMs + 1) % TWO_64 <= g.lastMs + 1;
  }

  /** The pinned millisecond runs ahead of the clock only by what the calls have used up. */
  lemma {:induction false} DriftIsBounded(calls: seq<Call>)
    requires ClockBelow(calls)
    ensures var g := Run(Gen(0, 0), calls);
            4096 * (g.lastMs - MaxClock(Gen(0, 0), calls)) + g.counter <= 2047 + |calls| && g.counter <= COUNTER_MASK
  {
    if calls != [] {
      var p, c := calls[..|calls| - 1], calls[|calls| - 1];
      DriftIsBounded(p);
      DriftStep(Run(Gen(0, 0), p), c, MaxClock(Gen(0, 0), p), |p|);
    }
  }

  lemma {:induction false} MaxClockWithin(calls: seq<Call>, bound: nat)
    requires ClockBelow(calls) && forall i :: 0 <= i < |calls| ==> calls[i].now <= bound && calls[i].again <= bound
    ensures MaxClock(Gen(0, 0), calls) <= bound
  {
    if calls != [] {
      MaxClockWithin(calls[..|calls| - 1], bound);
    }
  }

  /** So a clock with room above it never lets the generator run out. */
  lemma {:induction false} RoomToSpare(calls: seq<Call>, bound: nat)
    requires ClockBelow(calls) && forall i :: 0 <= i < |calls| ==> calls[i].now <= bound && calls[i].again <= bound
    requires 4096 * bound + 2047 + |calls| < 4096 * TWO_48
    ensures NeverRunsOut(Gen(0, 0), calls)
  {
    if calls != [] {
      var p := calls[..|calls| - 1];
      RoomToSpare(p, bound);
      DriftIsBounded(p);
      MaxClockWithin(p, bound);
    }
  }
}
