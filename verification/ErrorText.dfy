/** Failure reasons are cut to 1024 bytes of valid UTF-8 before they reach a TEXT column. */
module ErrorText {
  import opened Basics

  const MAX_ERROR_LENGTH: nat := 1024

  /** U+FFFD in UTF-8. */
  const REPLACEMENT: Bytes := [0xEF, 0xBF, 0xBD]

  // ---------------------------------------------------------------- UTF-8 (section 4 of RFC 3629)

  predicate Tail(b: Byte) {
    0x80 <= b <= 0xBF
  }

  predicate Opens3(a: Byte, b: Byte) {
    || (a == 0xE0 && 0xA0 <= b <= 0xBF)
    || (0xE1 <= a <= 0xEC && Tail(b))
    || (a == 0xED && 0x80 <= b <= 0x9F)
    || (0xEE <= a <= 0xEF && Tail(b))
  }

  predicate Opens4(a: Byte, b: Byte) {
    || (a == 0xF0 && 0x90 <= b <= 0xBF)
    || (0xF1 <= a <= 0xF3 && Tail(b))
    || (a == 0xF4 && 0x80 <= b <= 0x8F)
  }

  /** Length of the well-formed character at the head of `s`; 0 when there is none. */
  function RuneLen(s: Bytes): (n: nat)
    ensures n <= 4 && n <= |s|
  {
    if |s| == 0 then 0
    else if s[0] <= 0x7F then 1
    else if |s| >= 2 && 0xC2 <= s[0] <= 0xDF && Tail(s[1]) then 2
    else if |s| >= 3 && Opens3(s[0], s[1]) && Tail(s[2]) then 3
    else if |s| >= 4 && Opens4(s[0], s[1]) && Tail(s[2]) && Tail(s[3]) then 4
    else 0
  }

  predicate Valid(s: Bytes)
    decreases |s|
  {
    s == [] || (RuneLen(s) > 0 && Valid(s[RuneLen(s)..]))
  }

  /** Each maximal run of invalid bytes becomes one replacement character. */
  function Repair(s: Bytes, inRun: bool): Bytes
    decreases |s|
  {
    if s == [] then []
    else if RuneLen(s) == 0 then (if inRun then [] else REPLACEMENT) + Repair(s[1..], true)
    else s[..RuneLen(s)] + Repair(s[RuneLen(s)..], false)
  }

  function Sanitized(msg: Bytes): Bytes {
    if Valid(msg) then msg else Repair(msg, false)
  }

  /** The longest length up to `n` at which cutting `s` leaves valid UTF-8. */
  function CutLength(s: Bytes, n: nat): (k: nat)
    requires n <= |s|
    ensures k <= n && Valid(s[..k])
    ensures forall j :: k < j <= n ==> !Valid(s[..j])
  {
    if Valid(s[..n]) then n else assert s[..0] == []; CutLength(s, n - 1)
  }

  function Truncated(msg: Bytes): Bytes {
    var s := Sanitized(msg);
    if |s| <= MAX_ERROR_LENGTH then s else s[..CutLength(s, MAX_ERROR_LENGTH)]
  }

  method TruncateErrorMsg(msg: Bytes) returns (r: Bytes)
    ensures r == Truncated(msg)
  {
    if Valid(msg) && |msg| <= MAX_ERROR_LENGTH {
      return msg;
    }
    var s := msg;
    if !Valid(s) {
      s := Repair(s, false);
    }
    if |s| <= MAX_ERROR_LENGTH {
      return s;
    }
    var cut := s[..MAX_ERROR_LENGTH];
    while |cut| > 0 && !Valid(cut)
      invariant |cut| <= MAX_ERROR_LENGTH && cut == s[..|cut|]
      invariant CutLength(s, |cut|) == CutLength(s, MAX_ERROR_LENGTH)
    {
      assert cut[..|cut| - 1] == s[..|cut| - 1];
      cut := cut[..|cut| - 1];
    }
    return cut;
  }

  // ---------------------------------------------------------------- what it guarantees

  lemma RunePrefix(s: Bytes, t: Bytes)
    requires RuneLen(s) > 0
    ensures RuneLen(s[..RuneLen(s)] + t) == RuneLen(s)
  {
  }

  lemma {:induction false} ValidConcat(a: Bytes, b: Bytes)
    requires Valid(a)
    ensures Valid(a + b) <==> Valid(b)
    decreases |a|
  {
    if a == [] {
      assert a + b == b;
    } else {
      var n := RuneLen(a);
      assert a + b == a[..n] + (a[n..] + b);
      RunePrefix(a, a[n..] + b);
      assert (a + b)[n..] == a[n..] + b;
      ValidConcat(a[n..], b);
    }
  }

  lemma RuneIsValid(s: Bytes)
    requires RuneLen(s) > 0
    ensures Valid(s[..RuneLen(s)])
  {
    var n := RuneLen(s);
    RunePrefix(s, []);
    assert s[..n] + [] == s[..n];
    assert s[..n][n..] == [];
  }

  lemma {:induction false} RepairIsValid(s: Bytes, inRun: bool)
    ensures Valid(Repair(s, inRun))
    decreases |s|
  {
    if s != [] {
      var n := RuneLen(s);
      if n == 0 {
        RepairIsValid(s[1..], true);
        var head := if inRun then [] else REPLACEMENT;
        assert REPLACEMENT[3..] == [];
        assert Valid(REPLACEMENT);
        ValidConcat(head, Repair(s[1..], true));
      } else {
        RepairIsValid(s[n..], false);
        RuneIsValid(s);
        ValidConcat(s[..n], Repair(s[n..], false));
      }
    }
  }

  lemma BoundaryShift(s: Bytes, j: nat)
    requires RuneLen(s) > 0 && j <= |s| - RuneLen(s) && Valid(s[RuneLen(s)..][..j])
    ensures Valid(s[..RuneLen(s) + j])
  {
    var m := RuneLen(s);
    RuneIsValid(s);
    ValidConcat(s[..m], s[m..][..j]);
    assert s[..m + j] == s[..m] + s[m..][..j];
  }

  /** Every cut of a valid string is at most three bytes past a character boundary. */
  lemma {:induction false} BoundaryNearby(s: Bytes, n: nat) returns (k: nat)
    requires Valid(s) && n <= |s|
    ensures n - 3 <= k <= n && Valid(s[..k])
    decreases |s|
  {
    if s == [] || n < RuneLen(s) {
      assert s[..0] == [];
      return 0;
    }
    var m := RuneLen(s);
    var j := BoundaryNearby(s[m..], n - m);
    BoundaryShift(s, j);
    return m + j;
  }

  /** For any byte string: valid UTF-8, at most 1024 bytes, and the longest valid prefix of the
      repaired message that fits, so at most three bytes of room are wasted. */
  lemma TruncatedIsLongestValidPrefix(msg: Bytes)
    ensures var r, s := Truncated(msg), Sanitized(msg);
            && Valid(r) && |r| <= MAX_ERROR_LENGTH
            && r <= s
            && (forall k :: 0 <= k <= |s| && k <= MAX_ERROR_LENGTH && Valid(s[..k]) ==> k <= |r|)
            && (|s| <= MAX_ERROR_LENGTH ==> r == s)
            && (|s| > MAX_ERROR_LENGTH ==> |r| >= MAX_ERROR_LENGTH - 3)
  {
    var s := Sanitized(msg);
    RepairIsValid(msg, false);
    if |s| > MAX_ERROR_LENGTH {
      var k := BoundaryNearby(s, MAX_ERROR_LENGTH);
      assert k <= CutLength(s, MAX_ERROR_LENGTH);
    }
  }

  /** Messages already fit for storage are untouched, so truncating twice is truncating once. */
  lemma TruncatedIsIdempotent(msg: Bytes)
    ensures Valid(msg) && |msg| <= MAX_ERROR_LENGTH ==> Truncated(msg) == msg
    ensures Truncated(Truncated(msg)) == Truncated(msg)
  {
    TruncatedIsLongestValidPrefix(msg);
  }

  lemma FirstRune(a: Bytes, t: Bytes, whole: Bytes)
    requires RuneLen(a) > 0 && whole == a + t
    ensures var n := RuneLen(a); RuneLen(whole) == n && whole[..n] == a[..n] && whole[n..] == a[n..] + t
  {
    var n := RuneLen(a);
    RunePrefix(a, a[n..] + t);
    assert whole == a[..n] + (a[n..] + t);
  }

  lemma Regroup(a: Bytes, n: nat, u: Bytes)
    requires n <= |a|
    ensures a[..n] + (a[n..] + u) == a + u
  {
  }

  lemma {:induction false} RepairAfterValid(a: Bytes, t: Bytes, whole: Bytes, inRun: bool)
    requires Valid(a) && whole == a + t
    ensures Repair(whole, inRun) == a + Repair(t, if a == [] then inRun else false)
    decreases |a|
  {
    if a == [] {
      assert whole == t;
    } else {
      var n := RuneLen(a);
      FirstRune(a, t, whole);
      RepairAfterValid(a[n..], t, whole[n..], false);
      Regroup(a, n, Repair(t, false));
    }
  }

  /** No byte of `bad` starts a character, whatever comes before it, in front of `b`. */
  predicate IsStray(bad: Bytes, b: Bytes) {
    forall i :: 0 <= i < |bad| ==> RuneLen(bad[i..] + b) == 0
  }

  lemma OneStrayFewer(bad: Bytes, b: Bytes)
    requires bad != [] && IsStray(bad, b)
    ensures RuneLen(bad + b) == 0 && IsStray(bad[1..], b) && (bad + b)[1..] == bad[1..] + b
  {
    assert bad[0..] == bad;
    assert forall i :: 0 <= i < |bad| - 1 ==> bad[1..][i..] == bad[i + 1..];
  }

  lemma RepairStray(s: Bytes, inRun: bool)
    requires s != [] && RuneLen(s) == 0
    ensures Repair(s, inRun) == (if inRun then [] else REPLACEMENT) + Repair(s[1..], true)
  {
  }

  lemma {:induction false} RepairRestOfRun(bad: Bytes, b: Bytes, whole: Bytes)
    requires Valid(b) && IsStray(bad, b) && whole == bad + b
    ensures Repair(whole, true) == b
    decreases |bad|
  {
    if bad == [] {
      assert whole == b && b + [] == b;
      RepairAfterValid(b, [], b, true);
    } else {
      OneStrayFewer(bad, b);
      RepairRestOfRun(bad[1..], b, whole[1..]);
      RepairStray(whole, true);
    }
  }

  lemma RepairRun(bad: Bytes, b: Bytes, whole: Bytes)
    requires Valid(b) && bad != [] && IsStray(bad, b) && whole == bad + b
    ensures Repair(whole, false) == REPLACEMENT + b && !Valid(whole)
  {
    OneStrayFewer(bad, b);
    RepairStray(whole, false);
    RepairRestOfRun(bad[1..], b, whole[1..]);
  }

  /** A run of stray bytes, however long and of whatever kind, costs one replacement character and none
      of the text around it. */
  lemma StrayBytesKeepTheRest(a: Bytes, bad: Bytes, b: Bytes)
    requires Valid(a) && Valid(b) && bad != [] && IsStray(bad, b)
    ensures Sanitized(a + bad + b) == a + REPLACEMENT + b
  {
    var tail := bad + b;
    var whole := a + bad + b;
    assert whole == a + tail;
    RepairRun(bad, b, tail);
    ValidConcat(a, tail);
    RepairAfterValid(a, tail, whole, false);
    assert a + (REPLACEMENT + b) == a + REPLACEMENT + b;
  }

  /** In particular continuation bytes and bytes that no character uses, in any mix. */
  lemma LoneBytesAreStray(bad: Bytes, b: Bytes)
    requires forall i :: 0 <= i < |bad| ==> 0x80 <= bad[i] <= 0xC1 || bad[i] >= 0xF5
    ensures IsStray(bad, b)
  {
    forall i | 0 <= i < |bad| ensures RuneLen(bad[i..] + b) == 0 {
      assert (bad[i..] + b)[0] == bad[i];
    }
  }
}
