/**
 The pgx-backed listener: which channels must be listened on, which are marked confirmed, which the
 server session is subscribed to, and who waits for a LISTEN. A `Listen` call waits on a one-slot
 channel of its own; the run loop owns the connection, drains the queued statements and rebuilds the
 queue after a reconnect. Every method here is one critical section or one statement of the run loop,
 so a run interleaves them freely.
 */
module Listener {
  import opened Basics

  /** A queued LISTEN; `done` is the waiting caller's channel, absent for a re-LISTEN after a reconnect. */
  datatype Request = Request(channel: string, done: Option<nat>)

  datatype ListenOutcome = BadName | ListenerClosed | AlreadyConfirmed | Queued(done: nat)

  /** The waiting callers of one channel, in queue order. */
  function WaitersOf(q: seq<Request>, ch: string): seq<nat> {
    if q == [] then []
    else
      var r := q[|q| - 1];
      WaitersOf(q[..|q| - 1], ch) + (if r.done.Some? && r.channel == ch then [r.done.value] else [])
  }

  predicate IsQueued(q: seq<Request>, ch: string) {
    exists i :: 0 <= i < |q| && q[i].channel == ch
  }

  /** How often a request is in a queue. */
  function Count(q: seq<Request>, r: Request): nat {
    if q == [] then 0 else Count(q[..|q| - 1], r) + (if q[|q| - 1] == r then 1 else 0)
  }

  function CountId(ids: seq<nat>, id: nat): nat {
    if ids == [] then 0 else CountId(ids[..|ids| - 1], id) + (if ids[|ids| - 1] == id then 1 else 0)
  }

  lemma {:induction false} CountSnoc(q: seq<Request>, x: Request, r: Request)
    ensures Count(q + [x], r) == Count(q, r) + if x == r then 1 else 0
  {
    assert (q + [x])[..|q|] == q;
  }

  lemma {:induction false} CountAppend(p: seq<Request>, q: seq<Request>, r: Request)
    ensures Count(p + q, r) == Count(p, r) + Count(q, r)
  {
    if q == [] {
      assert p + q == p;
    } else {
      assert (p + q)[..|p + q| - 1] == p + q[..|q| - 1];
      CountAppend(p, q[..|q| - 1], r);
    }
  }

  /** Per channel, the waiters are the requests. */
  lemma {:induction false} CountOf(q: seq<Request>, ch: string, id: nat)
    ensures Count(q, Request(ch, Some(id))) == CountId(WaitersOf(q, ch), id)
  {
    if q != [] {
      var p, r := q[..|q| - 1], q[|q| - 1];
      CountOf(p, ch, id);
      if r.done.Some? && r.channel == ch {
        assert (WaitersOf(p, ch) + [r.done.value])[..|WaitersOf(p, ch)|] == WaitersOf(p, ch);
      } else {
        assert WaitersOf(q, ch) == WaitersOf(p, ch);
      }
    }
  }

  lemma {:induction false} WaitersOfAppend(p: seq<Request>, q: seq<Request>, ch: string)
    ensures WaitersOf(p + q, ch) == WaitersOf(p, ch) + WaitersOf(q, ch)
  {
    if q == [] {
      assert p + q == p;
    } else {
      assert (p + q)[..|p + q| - 1] == p + q[..|q| - 1];
      WaitersOfAppend(p, q[..|q| - 1], ch);
    }
  }

  lemma {:induction false} KeepsQueued(p: seq<Request>, q: seq<Request>)
    ensures forall ch :: IsQueued(p + q, ch) <==> IsQueued(p, ch) || IsQueued(q, ch)
  {
    assert forall i :: 0 <= i < |p| ==> (p + q)[i] == p[i];
    assert forall i :: 0 <= i < |q| ==> (p + q)[|p| + i] == q[i];
    forall ch ensures IsQueued(q, ch) ==> IsQueued(p + q, ch) {
      if i :| 0 <= i < |q| && q[i].channel == ch {
        assert (p + q)[|p| + i].channel == ch;
      }
    }
  }

  // ---------------------------------------------------------------- rebuilding the queue

  /** One request of channel `ch` per waiter. */
  function Requests(ch: string, dones: seq<nat>): seq<Request> {
    if dones == [] then [] else Requests(ch, dones[..|dones| - 1]) + [Request(ch, Some(dones[|dones| - 1]))]
  }

  /** The requests that re-LISTEN `ch`: one per waiter, or one for nobody. */
  function Relisten(ch: string, dones: seq<nat>): seq<Request> {
    if dones == [] then [Request(ch, None)] else Requests(ch, dones)
  }

  lemma {:induction false} RequestsShape(ch: string, dones: seq<nat>)
    ensures |Requests(ch, dones)| == |dones|
    ensures forall i :: 0 <= i < |dones| ==> Requests(ch, dones)[i] == Request(ch, Some(dones[i]))
  {
    if dones != [] {
      RequestsShape(ch, dones[..|dones| - 1]);
    }
  }

  lemma {:induction false} NobodyWaits(q: seq<Request>, c: string)
    requires forall i :: 0 <= i < |q| ==> q[i].channel != c
    ensures WaitersOf(q, c) == []
  {
    if q != [] {
      NobodyWaits(q[..|q| - 1], c);
    }
  }

  lemma {:induction false} AllOneChannel(q: seq<Request>, ch: string, dones: seq<nat>)
    requires |q| == |dones| && forall i :: 0 <= i < |q| ==> q[i] == Request(ch, Some(dones[i]))
    ensures WaitersOf(q, ch) == dones
  {
    if q != [] {
      AllOneChannel(q[..|q| - 1], ch, dones[..|q| - 1]);
    }
  }

  lemma {:induction false} RequestsWait(ch: string, dones: seq<nat>, c: string)
    ensures WaitersOf(Requests(ch, dones), c) == if c == ch then dones else []
  {
    RequestsShape(ch, dones);
    if c == ch {
      AllOneChannel(Requests(ch, dones), ch, dones);
    } else {
      NobodyWaits(Requests(ch, dones), c);
    }
  }

  lemma {:induction false} RelistenWaits(ch: string, dones: seq<nat>, c: string)
    ensures WaitersOf(Relisten(ch, dones), c) == if c == ch then dones else []
  {
    RequestsWait(ch, dones, c);
    if dones == [] {
      assert Relisten(ch, dones)[..0] == [];
    }
  }

  /** `q` holds the waiters of the channels `chs` as `pending` does, and nobody else. */
  ghost predicate Carries(q: seq<Request>, pending: seq<Request>, chs: set<string>) {
    forall ch :: WaitersOf(q, ch) == if ch in chs then WaitersOf(pending, ch) else []
  }

  lemma {:induction false} CarriesMoreAt(q: seq<Request>, pending: seq<Request>, chs: set<string>, ch: string, more: seq<Request>, c: string)
    requires WaitersOf(q, c) == (if c in chs then WaitersOf(pending, c) else []) && ch !in chs
    requires WaitersOf(more, c) == if c == ch then WaitersOf(pending, ch) else []
    ensures WaitersOf(q + more, c) == if c in chs + {ch} then WaitersOf(pending, c) else []
  {
    WaitersOfAppend(q, more, c);
  }

  /** Adding the waiters of one more channel, as a re-LISTEN or to release them. */
  lemma {:induction false} CarriesMore(q: seq<Request>, pending: seq<Request>, chs: set<string>, ch: string)
    requires Carries(q, pending, chs) && ch !in chs
    ensures Carries(q + Relisten(ch, WaitersOf(pending, ch)), pending, chs + {ch})
    ensures Carries(q + Requests(ch, WaitersOf(pending, ch)), pending, chs + {ch})
  {
    var dones := WaitersOf(pending, ch);
    var one, two := q + Relisten(ch, dones), q + Requests(ch, dones);
    forall c
      ensures WaitersOf(one, c) == if c in chs + {ch} then WaitersOf(pending, c) else []
      ensures WaitersOf(two, c) == if c in chs + {ch} then WaitersOf(pending, c) else []
    {
      RelistenWaits(ch, dones, c);
      RequestsWait(ch, dones, c);
      CarriesMoreAt(q, pending, chs, ch, Relisten(ch, dones), c);
      CarriesMoreAt(q, pending, chs, ch, Requests(ch, dones), c);
    }
  }

  lemma {:induction false} RelistenQueues(q: seq<Request>, ch: string, dones: seq<nat>)
    ensures forall c :: IsQueued(q + Relisten(ch, dones), c) <==> IsQueued(q, c) || c == ch
  {
    var again := Relisten(ch, dones);
    KeepsQueued(q, again);
    RequestsShape(ch, dones);
    assert again != [] && forall i :: 0 <= i < |again| ==> again[i].channel == ch;
    assert again[0].channel == ch;
  }

  function Lookup(m: map<string, seq<nat>>, ch: string): seq<nat> {
    if ch in m then m[ch] else []
  }

  /** The waiters of each channel. */
  method CollectWaiters(pending: seq<Request>) returns (waiters: map<string, seq<nat>>)
    ensures forall ch :: Lookup(waiters, ch) == WaitersOf(pending, ch)
    ensures forall ch :: ch in waiters ==> waiters[ch] != []
  {
    waiters := map[];
    for i := 0 to |pending|
      invariant forall ch :: Lookup(waiters, ch) == WaitersOf(pending[..i], ch)
      invariant forall ch :: ch in waiters ==> waiters[ch] != []
    {
      var r := pending[i];
      assert pending[..i + 1][..i] == pending[..i];
      if r.done.Some? {
        waiters := waiters[r.channel := Lookup(waiters, r.channel) + [r.done.value]];
      }
    }
    assert pending[..|pending|] == pending;
  }

  /** Every active channel is queued again with its own waiters, in their order; the waiters of every
      other channel are released. */
  ghost predicate IsRebuild(pending: seq<Request>, channels: set<string>, queue: seq<Request>, released: seq<Request>) {
    && (forall ch :: IsQueued(queue, ch) <==> ch in channels)
    && Carries(queue, pending, channels)
    && (forall ch :: WaitersOf(released, ch) == if ch in channels then [] else WaitersOf(pending, ch))
    && AllWait(released)
  }

  /** A re-LISTEN of every active channel, for its waiters or for nobody. */
  method QueueActive(ghost pending: seq<Request>, waiters: map<string, seq<nat>>, channels: set<string>) returns (queue: seq<Request>)
    requires forall ch :: Lookup(waiters, ch) == WaitersOf(pending, ch)
    ensures (forall ch :: IsQueued(queue, ch) <==> ch in channels) && Carries(queue, pending, channels)
  {
    queue := [];
    var left := channels;
    ghost var kept := {};
    while left != {}
      invariant left !! kept && channels == left + kept
      invariant forall ch :: IsQueued(queue, ch) <==> ch in kept
      invariant Carries(queue, pending, kept)
      decreases left
    {
      var ch :| ch in left;
      CarriesMore(queue, pending, kept, ch);
      RelistenQueues(queue, ch, Lookup(waiters, ch));
      queue := queue + Relisten(ch, Lookup(waiters, ch));
      left, kept := left - {ch}, kept + {ch};
    }
    assert kept == channels;
  }

  method RebuildPending(pending: seq<Request>, channels: set<string>) returns (queue: seq<Request>, released: seq<Request>)
    ensures IsRebuild(pending, channels, queue, released)
  {
    var waiters := CollectWaiters(pending);
    queue := QueueActive(pending, waiters, channels);
    released := ReleaseOthers(pending, waiters, channels);
    OthersAreAll(pending, waiters, channels, released);
  }

  /** A channel that is neither active nor in the map has no waiters. */
  lemma {:induction false} OthersAreAll(pending: seq<Request>, waiters: map<string, seq<nat>>, channels: set<string>, released: seq<Request>)
    requires forall ch :: Lookup(waiters, ch) == WaitersOf(pending, ch)
    requires Carries(released, pending, waiters.Keys - channels)
    ensures forall ch :: WaitersOf(released, ch) == if ch in channels then [] else WaitersOf(pending, ch)
  {
    forall ch ensures WaitersOf(released, ch) == if ch in channels then [] else WaitersOf(pending, ch) {
      assert Lookup(waiters, ch) == WaitersOf(pending, ch);
    }
  }

  ghost predicate AllWait(q: seq<Request>) {
    forall i :: 0 <= i < |q| ==> q[i].done.Some?
  }

  lemma {:induction false} AllWaitMore(q: seq<Request>, ch: string, dones: seq<nat>)
    requires AllWait(q)
    ensures AllWait(q + Requests(ch, dones))
  {
    RequestsShape(ch, dones);
  }

  /** The waiters whose channel was unlistened meanwhile. */
  method ReleaseOthers(pending: seq<Request>, waiters: map<string, seq<nat>>, channels: set<string>) returns (released: seq<Request>)
    requires forall ch :: Lookup(waiters, ch) == WaitersOf(pending, ch)
    ensures Carries(released, pending, waiters.Keys - channels) && AllWait(released)
  {
    released := [];
    var rest := waiters.Keys - channels;
    ghost var gone := {};
    while rest != {}
      invariant rest !! gone && rest + gone == waiters.Keys - channels
      invariant Carries(released, pending, gone) && AllWait(released)
      decreases rest
    {
      var ch :| ch in rest;
      assert waiters[ch] == Lookup(waiters, ch) == WaitersOf(pending, ch);
      CarriesMore(released, pending, gone, ch);
      AllWaitMore(released, ch, waiters[ch]);
      released := released + Requests(ch, waiters[ch]);
      rest, gone := rest - {ch}, gone + {ch};
    }
    assert gone == waiters.Keys - channels;
  }

  // ---------------------------------------------------------------- the protocol

  /** `held` and `dropping` are the LISTENs and UNLISTENs that the running drain took and has not issued;
      `broken` means that the session is lost and a reconnect is next; `asked[id]` is the channel that
      caller `id` asked for; `nils` and `errors` are the requests answered with nil and with an error;
      `server` is what the server session is subscribed to. */
  datatype State = State(
    channels: set<string>,
    confirmed: set<string>,
    pending: seq<Request>,
    unpending: seq<string>,
    held: seq<Request>,
    dropping: seq<string>,
    broken: bool,
    closed: bool,
    asked: seq<string>,
    nils: seq<Request>,
    errors: seq<Request>,
    server: set<string>)

  datatype Action =
    | Listen(channel: string)
    | Unlisten(channel: string)
    | BeginDrain
    | Issue(ok: bool)                                              // one LISTEN of the drain
    | Drop(ok: bool)                                               // one UNLISTEN of the drain
    | Disconnect
    | Reconnect(queue: seq<Request>, released: seq<Request>)       // in some order of the channels
    | Close

  predicate GoodName(channel: string) {
    '\0' !in channel
  }

  ghost predicate Enabled(s: State, a: Action) {
    match a
    case Listen(ch) => GoodName(ch) && !s.closed && ch !in s.confirmed
    case Unlisten(ch) => GoodName(ch) && !s.closed && ch in s.channels
    case BeginDrain => s.held == [] && s.dropping == [] && !s.broken
    case Issue(_) => s.held != [] && !s.broken
    case Drop(_) => s.held == [] && s.dropping != [] && !s.broken
    case Disconnect => s.held == [] && s.dropping == [] && !s.broken
    case Reconnect(queue, released) => s.broken && IsRebuild(s.pending, s.channels, queue, released)
    case Close => true
  }

  /** The send on a done channel, if there is one. */
  function Signal(r: Request): seq<Request> {
    if r.done.Some? then [r] else []
  }

  function AfterIssue(s: State, ok: bool): State
    requires s.held != []
  {
    var r := s.held[0];
    if ok then
      s.(confirmed := s.confirmed + {r.channel}, held := s.held[1..], nils := s.nils + Signal(r), server := s.server + {r.channel})
    else
      s.(pending := s.held[1..] + s.pending, held := [], dropping := [], broken := true, errors := s.errors + Signal(r), server := {})
  }

  function AfterReconnect(s: State, queue: seq<Request>, released: seq<Request>): State {
    s.(confirmed := {}, unpending := [], pending := queue, broken := false, nils := s.nils + released)
  }

  ghost function Apply(s: State, a: Action): State {
    if !Enabled(s, a) then s
    else
      match a
      case Listen(ch) =>
        s.(channels := s.channels + {ch}, pending := s.pending + [Request(ch, Some(|s.asked|))], asked := s.asked + [ch])
      case Unlisten(ch) =>
        s.(channels := s.channels - {ch}, confirmed := s.confirmed - {ch}, unpending := s.unpending + [ch])
      case BeginDrain => s.(held := s.pending, pending := [], dropping := s.unpending, unpending := [])
      case Issue(ok) => AfterIssue(s, ok)
      case Drop(ok) => s.(dropping := s.dropping[1..], server := if ok then s.server - {s.dropping[0]} else s.server)
      case Disconnect => s.(broken := true, server := {})
      case Reconnect(queue, released) => AfterReconnect(s, queue, released)
      case Close => s.(closed := true)
  }

  ghost function Run(s: State, run: seq<Action>): State {
    if run == [] then s else Apply(Run(s, run[..|run| - 1]), run[|run| - 1])
  }

  function Initial(): State {
    State({}, {}, [], [], [], [], false, false, [], [], [], {})
  }

  /** The state in which step `k` of a run is taken. */
  ghost function At(run: seq<Action>, k: nat): State
    requires k <= |run|
  {
    Run(Initial(), run[..k])
  }

  // ---------------------------------------------------------------- no waiter lost, none answered twice

  /** How many times a request is queued, held by the drain, or answered. */
  function Places(s: State, r: Request): nat {
    Count(s.pending, r) + Count(s.held, r) + Count(s.nils, r) + Count(s.errors, r)
  }

  /** A caller's request, for the channel it asked for. */
  predicate Asked(s: State, r: Request) {
    r.done.Some? && r.done.value < |s.asked| && s.asked[r.done.value] == r.channel
  }

  /** Every caller's request is in exactly one place, and never under another channel. */
  ghost predicate Accounted(s: State) {
    forall r: Request :: r.done.Some? ==> Places(s, r) == if Asked(s, r) then 1 else 0
  }

  /** While the session lives, every active channel is marked confirmed or about to be listened on. */
  ghost predicate Covered(s: State) {
    forall ch :: ch in s.channels ==> ch in s.confirmed || IsQueued(s.pending, ch) || IsQueued(s.held, ch)
  }

  /** UNLISTEN `ch` is still to be issued. */
  predicate Outstanding(s: State, ch: string) {
    ch in s.unpending || ch in s.dropping
  }

  /** Only an UNLISTEN still to be issued makes a queued channel inactive. */
  ghost predicate QueuedAreActive(s: State) {
    && (forall ch :: IsQueued(s.pending, ch) ==> ch in s.channels || ch in s.unpending)
    && (forall ch :: IsQueued(s.held, ch) ==> ch in s.channels || Outstanding(s, ch))
  }

  ghost predicate Inv(s: State) {
    && Accounted(s)
    && if s.broken then s.held == [] && s.dropping == [] && s.server == {} else Covered(s) && QueuedAreActive(s)
  }

  lemma {:induction false} RebuildCounts(pending: seq<Request>, channels: set<string>, queue: seq<Request>, released: seq<Request>, r: Request)
    requires IsRebuild(pending, channels, queue, released) && r.done.Some?
    ensures Count(queue, r) == if r.channel in channels then Count(pending, r) else 0
    ensures Count(released, r) == if r.channel in channels then 0 else Count(pending, r)
  {
    CountOf(pending, r.channel, r.done.value);
    CountOf(queue, r.channel, r.done.value);
    CountOf(released, r.channel, r.done.value);
  }

  lemma {:induction false} SignalCounts(q: seq<Request>, x: Request, r: Request)
    requires r.done.Some?
    ensures Count(q + Signal(x), r) == Count(q, r) + if x == r then 1 else 0
  {
    CountAppend(q, Signal(x), r);
    assert [x][..0] == [];
  }

  lemma {:induction false} HeadCounts(q: seq<Request>, r: Request)
    requires q != []
    ensures Count(q, r) == Count(q[1..], r) + if q[0] == r then 1 else 0
  {
    assert q == [q[0]] + q[1..];
    CountAppend([q[0]], q[1..], r);
    assert [q[0]][..0] == [];
  }

  lemma IssueMoves(s: State, ok: bool, r: Request)
    requires s.held != [] && r.done.Some?
    ensures Places(AfterIssue(s, ok), r) == Places(s, r)
  {
    HeadCounts(s.held, r);
    if ok {
      SignalCounts(s.nils, s.held[0], r);
    } else {
      SignalCounts(s.errors, s.held[0], r);
      CountAppend(s.held[1..], s.pending, r);
    }
  }

  /** A step moves requests between places; only a Listen makes one. */
  lemma StepMoves(s: State, a: Action, r: Request)
    requires (s.broken ==> s.held == []) && r.done.Some?
    ensures Places(Apply(s, a), r) == Places(s, r) + if a.Listen? && Enabled(s, a) && r == Request(a.channel, Some(|s.asked|)) then 1 else 0
  {
    if Enabled(s, a) {
      match a
      case Listen(ch) => CountSnoc(s.pending, Request(ch, Some(|s.asked|)), r);
      case Issue(ok) => IssueMoves(s, ok, r);
      case Reconnect(queue, released) =>
        RebuildCounts(s.pending, s.channels, queue, released, r);
        CountAppend(s.nils, released, r);
      case _ =>
    }
  }

  lemma StepAsks(s: State, a: Action, r: Request)
    ensures Asked(Apply(s, a), r) <==> Asked(s, r) || (a.Listen? && Enabled(s, a) && r == Request(a.channel, Some(|s.asked|)))
  {
  }

  lemma StepAccountsFor(s: State, a: Action, r: Request)
    requires Accounted(s) && (s.broken ==> s.held == []) && r.done.Some?
    ensures Places(Apply(s, a), r) == if Asked(Apply(s, a), r) then 1 else 0
  {
    StepMoves(s, a, r);
    StepAsks(s, a, r);
    assert Places(s, r) == if Asked(s, r) then 1 else 0;
  }

  lemma StepCovers(s: State, a: Action)
    requires Inv(s) && !Apply(s, a).broken
    ensures Covered(Apply(s, a))
  {
    if Enabled(s, a) {
      if a.Listen? {
        var r := Request(a.channel, Some(|s.asked|));
        KeepsQueued(s.pending, [r]);
        assert [r][0].channel == a.channel;
      } else if a.Issue? {
        KeepsQueued([s.held[0]], s.held[1..]);
        assert s.held == [s.held[0]] + s.held[1..];
      }
    }
  }

  lemma StepQueues(s: State, a: Action)
    requires Inv(s) && !Apply(s, a).broken
    ensures QueuedAreActive(Apply(s, a))
  {
    if Enabled(s, a) {
      if a.Listen? {
        KeepsQueued(s.pending, [Request(a.channel, Some(|s.asked|))]);
      } else if a.Issue? {
        KeepsQueued([s.held[0]], s.held[1..]);
        assert s.held == [s.held[0]] + s.held[1..];
      }
    }
  }

  lemma StepKeepsInv(s: State, a: Action)
    requires Inv(s)
    ensures Inv(Apply(s, a))
  {
    var t := Apply(s, a);
    forall r: Request | r.done.Some? ensures Places(t, r) == if Asked(t, r) then 1 else 0 {
      StepAccountsFor(s, a, r);
    }
    if !t.broken {
      StepCovers(s, a);
      StepQueues(s, a);
    }
  }

  /** Over any run of Listen, Unlisten, drains, failures and reconnects: no waiter is lost or sent to
      twice, and no active channel is forgotten while the session lives. */
  lemma {:induction false} RunKeepsInv(run: seq<Action>)
    ensures Inv(Run(Initial(), run))
  {
    if run != [] {
      RunKeepsInv(run[..|run| - 1]);
      StepKeepsInv(Run(Initial(), run[..|run| - 1]), run[|run| - 1]);
    } else {
      assert forall r: Request :: Places(Initial(), r) == 0;
    }
  }

  /** So a one-slot done channel never blocks its sender, and a caller without an answer is still in a
      queue under the channel it asked for. */
  lemma {:induction false} AnsweredAtMostOnce(run: seq<Action>, id: nat)
    requires id < |Run(Initial(), run).asked|
    ensures var s := Run(Initial(), run);
            var r := Request(s.asked[id], Some(id));
            && Count(s.nils, r) + Count(s.errors, r) <= 1
            && (Count(s.nils, r) + Count(s.errors, r) == 0 <==> Count(s.pending, r) + Count(s.held, r) == 1)
  {
    RunKeepsInv(run);
    var s := Run(Initial(), run);
    assert Places(s, Request(s.asked[id], Some(id))) == 1;
  }

  /** While the session lives, every active channel is marked confirmed, queued or about to be issued. */
  lemma {:induction false} ActiveIsCovered(run: seq<Action>, channel: string)
    requires var s := Run(Initial(), run); !s.broken && channel in s.channels
    ensures var s := Run(Initial(), run);
            channel in s.confirmed || IsQueued(s.pending, channel) || IsQueued(s.held, channel)
  {
    RunKeepsInv(run);
  }

  // ---------------------------------------------------------------- what an answer means

  /** Step `k` answers request `r` with nil because its LISTEN has succeeded. */
  ghost predicate Listened(run: seq<Action>, k: nat, r: Request)
    requires k < |run|
  {
    Enabled(At(run, k), run[k]) && run[k] == Issue(true) && At(run, k).held[0] == r
  }

  /** Step `k` answers request `r` with an error. */
  ghost predicate Failed(run: seq<Action>, k: nat, r: Request)
    requires k < |run|
  {
    Enabled(At(run, k), run[k]) && run[k] == Issue(false) && At(run, k).held[0] == r
  }

  /** Step `k` is a reconnect at which request `r` is queued for a channel that is not active. */
  ghost predicate Abandoned(run: seq<Action>, k: nat, r: Request)
    requires k < |run|
  {
    Enabled(At(run, k), run[k]) && run[k].Reconnect? && Count(At(run, k).pending, r) > 0 && r.channel !in At(run, k).channels
  }

  lemma {:induction false} StepAnswers(run: seq<Action>, k: nat, r: Request)
    requires k < |run| && r.done.Some? && (At(run, k).broken ==> At(run, k).held == [])
    ensures Count(At(run, k + 1).nils, r) > Count(At(run, k).nils, r) <==> Listened(run, k, r) || Abandoned(run, k, r)
    ensures Count(At(run, k + 1).errors, r) > Count(At(run, k).errors, r) <==> Failed(run, k, r)
    ensures Count(At(run, k + 1).nils, r) >= Count(At(run, k).nils, r) && Count(At(run, k + 1).errors, r) >= Count(At(run, k).errors, r)
  {
    var s, a := At(run, k), run[k];
    assert run[..k + 1][..k] == run[..k];
    if Enabled(s, a) {
      match a
      case Issue(ok) =>
        SignalCounts(s.nils, s.held[0], r);
        SignalCounts(s.errors, s.held[0], r);
      case Reconnect(queue, released) =>
        RebuildCounts(s.pending, s.channels, queue, released, r);
        CountAppend(s.nils, released, r);
      case _ =>
    }
  }

  lemma {:induction false} HeldWhileAlive(run: seq<Action>)
    ensures Run(Initial(), run).broken ==> Run(Initial(), run).held == []
  {
    RunKeepsInv(run);
  }

  lemma {:induction false} NilsUpTo(run: seq<Action>, n: nat, r: Request)
    requires n <= |run| && r.done.Some?
    ensures Count(At(run, n).nils, r) > 0 <==> exists k :: 0 <= k < n && (Listened(run, k, r) || Abandoned(run, k, r))
  {
    if n > 0 {
      NilsUpTo(run, n - 1, r);
      HeldWhileAlive(run[..n - 1]);
      StepAnswers(run, n - 1, r);
    }
  }

  lemma {:induction false} ErrorsUpTo(run: seq<Action>, n: nat, r: Request)
    requires n <= |run| && r.done.Some?
    ensures Count(At(run, n).errors, r) > 0 <==> exists k :: 0 <= k < n && Failed(run, k, r)
  {
    if n > 0 {
      ErrorsUpTo(run, n - 1, r);
      HeldWhileAlive(run[..n - 1]);
      StepAnswers(run, n - 1, r);
    }
  }

  /** A queued caller is answered nil exactly when its own LISTEN succeeded or a reconnect found its
      channel inactive, and with an error exactly when its own LISTEN failed. */
  lemma {:induction false} AnswerIsExact(run: seq<Action>, r: Request)
    requires r.done.Some?
    ensures Count(Run(Initial(), run).nils, r) > 0 <==> exists k :: 0 <= k < |run| && (Listened(run, k, r) || Abandoned(run, k, r))
    ensures Count(Run(Initial(), run).errors, r) > 0 <==> exists k :: 0 <= k < |run| && Failed(run, k, r)
  {
    assert run[..|run|] == run;
    NilsUpTo(run, |run|, r);
    ErrorsUpTo(run, |run|, r);
  }

  /** Whether step `k` tells the caller of `r` nil. */
  ghost predicate TellsNil(run: seq<Action>, k: nat, r: Request)
    requires k < |run|
  {
    Count(At(run, k + 1).nils, r) > Count(At(run, k).nils, r)
  }

  /** A caller told nil is subscribed at that moment if and only if the step is not a reconnect that
      finds its channel inactive; in that case the channel is neither subscribed, confirmed nor queued. */
  lemma {:induction false} NilIsSubscribedIff(run: seq<Action>, k: nat, r: Request)
    requires k < |run| && r.done.Some? && TellsNil(run, k, r)
    ensures r.channel in At(run, k + 1).server <==> !Abandoned(run, k, r)
    ensures Abandoned(run, k, r) ==>
              var s := At(run, k + 1); r.channel !in s.channels && r.channel !in s.confirmed && !IsQueued(s.pending, r.channel)
  {
    RunKeepsInv(run[..k]);
    StepAnswers(run, k, r);
    assert run[..k + 1][..k] == run[..k];
  }

  /** While it lasts: a confirmed channel is active, subscribed as long as the session lives, and no
      UNLISTEN is on its way. This is what a nil answer without waiting needs. */
  ghost predicate Lasts(s: State, ch: string) {
    ch in s.confirmed ==> ch in s.channels && !Outstanding(s, ch) && (ch in s.server <==> !s.broken)
  }

  /** Step `k` issues LISTEN `ch` although UNLISTEN `ch` is still to be issued. */
  ghost predicate Overlaps(run: seq<Action>, k: nat, ch: string)
    requires k < |run|
  {
    Enabled(At(run, k), run[k]) && run[k] == Issue(true) && At(run, k).held[0].channel == ch && Outstanding(At(run, k), ch)
  }

  lemma {:induction false} StepLasts(run: seq<Action>, k: nat, ch: string)
    requires k < |run| && Lasts(At(run, k), ch) && Inv(At(run, k))
    ensures Lasts(At(run, k + 1), ch) <==> !Overlaps(run, k, ch)
  {
    var s, a := At(run, k), run[k];
    assert run[..k + 1][..k] == run[..k];
    if Enabled(s, a) && a.Issue? {
      assert IsQueued(s.held, s.held[0].channel);
    }
  }

  lemma {:induction false} LastsUpTo(run: seq<Action>, n: nat, ch: string)
    requires n <= |run| && forall k :: 0 <= k < n ==> !Overlaps(run, k, ch)
    ensures Lasts(At(run, n), ch)
  {
    if n > 0 {
      LastsUpTo(run, n - 1, ch);
      RunKeepsInv(run[..n - 1]);
      StepLasts(run, n - 1, ch);
    }
  }

  /** The confirmed mark of a channel is right throughout a run if and only if no LISTEN of it is issued
      while an UNLISTEN of it is still to be issued. */
  lemma {:induction false} ConfirmedIsSubscribedIff(run: seq<Action>, ch: string)
    ensures (forall k :: 0 <= k <= |run| ==> Lasts(At(run, k), ch)) <==> (forall k :: 0 <= k < |run| ==> !Overlaps(run, k, ch))
  {
    if forall k :: 0 <= k < |run| ==> !Overlaps(run, k, ch) {
      forall k | 0 <= k <= |run| ensures Lasts(At(run, k), ch) {
        LastsUpTo(run, k, ch);
      }
    } else {
      var k :| 0 <= k < |run| && Overlaps(run, k, ch);
      if Lasts(At(run, k), ch) {
        RunKeepsInv(run[..k]);
        StepLasts(run, k, ch);
        assert !Lasts(At(run, k + 1), ch);
      }
    }
  }

  /** A Listen answered nil without waiting: if no LISTEN and UNLISTEN of the channel overlapped so far, it
      is subscribed if and only if the session is alive, and it is active in any case. */
  lemma {:induction false} NilAtOnceIsSubscribedIff(run: seq<Action>, ch: string)
    requires ch in Run(Initial(), run).confirmed && forall k :: 0 <= k < |run| ==> !Overlaps(run, k, ch)
    ensures var s := Run(Initial(), run); ch in s.channels && (ch in s.server <==> !s.broken)
  {
    assert run[..|run|] == run;
    LastsUpTo(run, |run|, ch);
  }

  /** Step `k` calls Listen while an UNLISTEN of the channel is still to be issued, or Unlisten while a
      LISTEN of it is. */
  ghost predicate Crosses(run: seq<Action>, k: nat, ch: string)
    requires k < |run|
  {
    var s := At(run, k);
    Enabled(s, run[k]) &&
    ((run[k] == Listen(ch) && Outstanding(s, ch)) || (run[k] == Unlisten(ch) && (IsQueued(s.pending, ch) || IsQueued(s.held, ch))))
  }

  ghost predicate Apart(s: State, ch: string) {
    IsQueued(s.pending, ch) || IsQueued(s.held, ch) ==> ch in s.channels && !Outstanding(s, ch)
  }

  lemma {:induction false} StepStaysApart(run: seq<Action>, k: nat, ch: string)
    requires k < |run| && Apart(At(run, k), ch) && Inv(At(run, k)) && !Crosses(run, k, ch)
    ensures Apart(At(run, k + 1), ch)
  {
    var s, a := At(run, k), run[k];
    assert run[..k + 1][..k] == run[..k];
    if Enabled(s, a) {
      if a.Listen? {
        KeepsQueued(s.pending, [Request(a.channel, Some(|s.asked|))]);
      } else if a.Issue? {
        KeepsQueued([s.held[0]], s.held[1..]);
        KeepsQueued(s.held[1..], s.pending);
        assert s.held == [s.held[0]] + s.held[1..];
      }
    }
  }

  lemma {:induction false} StaysApart(run: seq<Action>, n: nat, ch: string)
    requires n <= |run| && forall k :: 0 <= k < n ==> !Crosses(run, k, ch)
    ensures Apart(At(run, n), ch)
  {
    if n > 0 {
      StaysApart(run, n - 1, ch);
      RunKeepsInv(run[..n - 1]);
      StepStaysApart(run, n - 1, ch);
    }
  }

  lemma {:induction false} CountedIsQueued(q: seq<Request>, r: Request)
    requires Count(q, r) > 0
    ensures IsQueued(q, r.channel)
  {
    if q[|q| - 1] == r {
      assert q[|q| - 1].channel == r.channel;
    } else {
      CountedIsQueued(q[..|q| - 1], r);
      var i :| 0 <= i < |q| - 1 && q[..|q| - 1][i].channel == r.channel;
      assert q[i].channel == r.channel;
    }
  }

  /** A caller that never lets Listen and Unlisten of one channel overlap never meets either failure. */
  lemma {:induction false} SeparateCallsAreSafe(run: seq<Action>, k: nat, r: Request)
    requires k < |run| && forall j :: 0 <= j < |run| ==> !Crosses(run, j, r.channel)
    ensures !Overlaps(run, k, r.channel) && !Abandoned(run, k, r)
  {
    StaysApart(run, k, r.channel);
    var s := At(run, k);
    assert s.held != [] ==> IsQueued(s.held, s.held[0].channel);
    if Count(s.pending, r) > 0 {
      CountedIsQueued(s.pending, r);
    }
  }

  // ---------------------------------------------------------------- the failures

  lemma {:induction false} RunStep(run: seq<Action>, a: Action)
    ensures Run(Initial(), run + [a]) == Apply(Run(Initial(), run), a)
  {
    assert (run + [a])[..|run + [a]| - 1] == run;
  }

  /** A caller whose channel is unlistened before a reconnect is told nil for a channel that nobody
      subscribes to. */
  lemma NilWithoutSubscription(ch: string) returns (run: seq<Action>)
    requires GoodName(ch)
    ensures |run| == 4 && TellsNil(run, 3, Request(ch, Some(0)))
    ensures var s := Run(Initial(), run); ch !in s.server && ch !in s.channels && s.pending == []
  {
    var r := Request(ch, Some(0));
    run := [Listen(ch), Unlisten(ch), Disconnect];
    RunStep([], Listen(ch));
    RunStep([Listen(ch)], Unlisten(ch));
    assert [Listen(ch)] + [Unlisten(ch)] == [Listen(ch), Unlisten(ch)];
    RunStep([Listen(ch), Unlisten(ch)], Disconnect);
    assert [Listen(ch), Unlisten(ch)] + [Disconnect] == run;
    var s := Run(Initial(), run);
    assert s.pending == [r] && s.channels == {} && s.broken && s.nils == [];
    var last := Reconnect([], [r]);
    assert IsRebuild([r], {}, [], [r]);
    RunStep(run, last);
    assert (run + [last])[..3] == run && (run + [last])[..4] == run + [last];
    run := run + [last];
    assert Run(Initial(), run).nils == [r];
    CountSnoc([], r, r);
  }

  lemma {:induction false} AtPrefix(run: seq<Action>, more: seq<Action>)
    ensures At(run + more, |run|) == Run(Initial(), run)
  {
    assert (run + more)[..|run|] == run;
  }

  lemma FirstConfirmed(ch: string) returns (run: seq<Action>)
    requires GoodName(ch)
    ensures |run| == 3 && Run(Initial(), run) == State({ch}, {ch}, [], [], [], [], false, false, [ch], [Request(ch, Some(0))], [], {ch})
  {
    RunStep([], Listen(ch));
    RunStep([Listen(ch)], BeginDrain);
    run := [Listen(ch)] + [BeginDrain];
    RunStep(run, Issue(true));
    run := run + [Issue(true)];
  }

  lemma ThenCrossed(ch: string) returns (run: seq<Action>)
    requires GoodName(ch)
    ensures |run| == 6
    ensures Run(Initial(), run) ==
              State({ch}, {}, [], [], [Request(ch, Some(1))], [ch], false, false, [ch, ch], [Request(ch, Some(0))], [], {ch})
  {
    run := FirstConfirmed(ch);
    RunStep(run, Unlisten(ch));
    run := run + [Unlisten(ch)];
    RunStep(run, Listen(ch));
    run := run + [Listen(ch)];
    RunStep(run, BeginDrain);
    run := run + [BeginDrain];
  }

  /** A Listen that follows an Unlisten before the next drain is told nil, and the same drain then
      unsubscribes its channel: active and marked confirmed, with nothing left to issue. */
  lemma ConfirmedWithoutSubscription(ch: string) returns (run: seq<Action>)
    requires GoodName(ch)
    ensures |run| == 8 && TellsNil(run, 6, Request(ch, Some(1)))
    ensures var s := Run(Initial(), run);
            ch in s.channels && ch in s.confirmed && ch !in s.server && !s.broken && s.pending == s.held == [] && s.unpending == s.dropping == []
  {
    var r1 := Request(ch, Some(1));
    var first := ThenCrossed(ch);
    var s := Run(Initial(), first);
    RunStep(first, Issue(true));
    var second := first + [Issue(true)];
    RunStep(second, Drop(true));
    run := second + [Drop(true)];
    AtPrefix(second, [Drop(true)]);
    AtPrefix(first, [Issue(true), Drop(true)]);
    assert first + [Issue(true), Drop(true)] == run;
    SignalCounts(s.nils, r1, r1);
  }

  // ---------------------------------------------------------------- recovery

  /** Subscribed, or about to be, with nothing on its way that would undo it. */
  ghost predicate Wanted(s: State, ch: string) {
    && ch in s.channels && !Outstanding(s, ch)
    && (!s.broken ==> ch in s.server || IsQueued(s.pending, ch) || IsQueued(s.held, ch))
  }

  lemma StepWants(s: State, a: Action, ch: string)
    requires Wanted(s, ch) && Inv(s) && a != Unlisten(ch)
    ensures Wanted(Apply(s, a), ch)
  {
    if Enabled(s, a) {
      if a.Listen? {
        KeepsQueued(s.pending, [Request(a.channel, Some(|s.asked|))]);
      } else if a.Issue? {
        KeepsQueued([s.held[0]], s.held[1..]);
        assert s.held == [s.held[0]] + s.held[1..];
      }
    }
  }

  lemma {:induction false} StaysWanted(run: seq<Action>, more: seq<Action>, ch: string)
    requires Wanted(Run(Initial(), run), ch) && forall k :: 0 <= k < |more| ==> more[k] != Unlisten(ch)
    ensures Wanted(Run(Initial(), run + more), ch)
  {
    if more == [] {
      assert run + more == run;
    } else {
      var fewer, a := more[..|more| - 1], more[|more| - 1];
      StaysWanted(run, fewer, ch);
      RunKeepsInv(run + fewer);
      StepWants(Run(Initial(), run + fewer), a, ch);
      RunStep(run + fewer, a);
      assert run + fewer + [a] == run + more;
    }
  }

  lemma {:induction false} RebuildWants(run: seq<Action>, a: Action, ch: string)
    requires a.Reconnect? && Enabled(Run(Initial(), run), a) && ch in Run(Initial(), run).channels
    ensures Wanted(Run(Initial(), run + [a]), ch)
  {
    RunStep(run, a);
    RunKeepsInv(run);
  }

  /** Whatever runs after a reconnect, until it is unlistened: a channel active at the reconnect is
      subscribed once the live session has nothing left to issue. */
  lemma {:induction false} ReconnectRecovers(run: seq<Action>, a: Action, more: seq<Action>, ch: string)
    requires a.Reconnect? && Enabled(Run(Initial(), run), a) && ch in Run(Initial(), run).channels
    requires forall k :: 0 <= k < |more| ==> more[k] != Unlisten(ch)
    ensures Wanted(Run(Initial(), run + [a] + more), ch)
    ensures var s := Run(Initial(), run + [a] + more); !s.broken && s.pending == s.held == [] ==> ch in s.server
  {
    RebuildWants(run, a, ch);
    StaysWanted(run + [a], more, ch);
  }

  /** Not wanted any more: unsubscribed, or its UNLISTEN is still to be issued. */
  ghost predicate Unwanted(s: State, ch: string) {
    ch !in s.channels && (ch in s.server ==> Outstanding(s, ch))
  }

  lemma StepStaysUnwanted(s: State, a: Action, ch: string)
    requires Unwanted(s, ch) && Inv(s) && a != Listen(ch) && a != Drop(false)
    ensures Unwanted(Apply(s, a), ch)
  {
    if Enabled(s, a) && a.Issue? {
      assert IsQueued(s.held, s.held[0].channel);
    }
  }

  lemma {:induction false} StaysUnwanted(run: seq<Action>, more: seq<Action>, ch: string)
    requires Unwanted(Run(Initial(), run), ch)
    requires forall k :: 0 <= k < |more| ==> more[k] != Listen(ch) && more[k] != Drop(false)
    ensures Unwanted(Run(Initial(), run + more), ch)
  {
    if more == [] {
      assert run + more == run;
    } else {
      var fewer, a := more[..|more| - 1], more[|more| - 1];
      StaysUnwanted(run, fewer, ch);
      RunKeepsInv(run + fewer);
      StepStaysUnwanted(Run(Initial(), run + fewer), a, ch);
      RunStep(run + fewer, a);
      assert run + fewer + [a] == run + more;
    }
  }

  /** Unlisten releases the registration: whatever runs after it, reconnects and LISTENs queued earlier
      included, until somebody listens again, the channel is unsubscribed once every UNLISTEN has been issued. */
  lemma {:induction false} UnlistenReleases(run: seq<Action>, more: seq<Action>, ch: string)
    requires Enabled(Run(Initial(), run), Unlisten(ch))
    requires forall k :: 0 <= k < |more| ==> more[k] != Listen(ch) && more[k] != Drop(false)
    ensures var s := Run(Initial(), run + [Unlisten(ch)] + more);
            ch !in s.channels && (s.unpending == s.dropping == [] ==> ch !in s.server)
  {
    RunStep(run, Unlisten(ch));
    StaysUnwanted(run + [Unlisten(ch)], more, ch);
  }

  // ---------------------------------------------------------------- the listener

  ghost predicate Reachable(s: State) {
    exists run :: s == Run(Initial(), run)
  }

  lemma StepReaches(s: State, a: Action)
    requires Reachable(s)
    ensures Reachable(Apply(s, a))
  {
    var run :| s == Run(Initial(), run);
    RunStep(run, a);
  }

  lemma IssueReaches(s: State, ok: bool)
    requires Reachable(s) && s.held != [] && !s.broken
    ensures Reachable(AfterIssue(s, ok))
  {
    StepReaches(s, Issue(ok));
  }

  lemma {:induction false} ReconnectReaches(s: State, queue: seq<Request>, released: seq<Request>)
    requires Reachable(s) && s.broken && IsRebuild(s.pending, s.channels, queue, released)
    ensures Reachable(AfterReconnect(s, queue, released))
  {
    StepReaches(s, Reconnect(queue, released));
  }

  class Listener {
    var channels: set<string>
    var confirmed: set<string>
    var pending: seq<Request>
    var unpending: seq<string>
    var held: seq<Request>
    var dropping: seq<string>
    var broken: bool
    var closed: bool
    var made: nat
    ghost var asked: seq<string>
    ghost var nils: seq<Request>
    ghost var errors: seq<Request>
    ghost var server: set<string>

    ghost function Abstract(): State
      reads this
    {
      State(channels, confirmed, pending, unpending, held, dropping, broken, closed, asked, nils, errors, server)
    }

    ghost predicate Valid()
      reads this
    {
      Reachable(Abstract()) && made == |asked|
    }

    constructor ()
      ensures Valid() && Abstract() == Initial()
    {
      channels, confirmed, pending, unpending, held, dropping := {}, {}, [], [], [], [];
      broken, closed, made, asked, nils, errors, server := false, false, 0, [], [], [], {};
      new;
      assert Abstract() == Run(Initial(), []);
    }

    /** A confirmed channel returns nil at once; otherwise the call queues its request and its done channel. */
    method Listen(channel: string) returns (outcome: ListenOutcome)
      requires Valid()
      modifies this
      ensures Valid() && Abstract() == Apply(old(Abstract()), Action.Listen(channel))
      ensures outcome.BadName? <==> !GoodName(channel)
      ensures outcome.ListenerClosed? <==> GoodName(channel) && old(closed)
      ensures outcome.AlreadyConfirmed? <==> GoodName(channel) && !old(closed) && channel in old(confirmed)
      ensures outcome.Queued? ==> outcome.done == old(made) < made
    {
      StepReaches(Abstract(), Action.Listen(channel));
      if !GoodName(channel) {
        return BadName;
      }
      if closed {
        return ListenerClosed;
      }
      if channel in confirmed {
        return AlreadyConfirmed;
      }
      channels := channels + {channel};
      pending := pending + [Request(channel, Some(made))];
      made, asked := made + 1, asked + [channel];
      return Queued(made - 1);
    }

    /** Unknown channels are a no-op; the UNLISTEN itself is left to the run loop. */
    method Unlisten(channel: string)
      requires Valid()
      modifies this
      ensures Valid() && Abstract() == Apply(old(Abstract()), Action.Unlisten(channel))
    {
      StepReaches(Abstract(), Action.Unlisten(channel));
      if !GoodName(channel) || closed || channel !in channels {
        return;
      }
      channels := channels - {channel};
      confirmed := confirmed - {channel};
      unpending := unpending + [channel];
    }

    method BeginDrain()
      requires Valid() && held == [] && dropping == [] && !broken
      modifies this
      ensures Valid() && Abstract() == Apply(old(Abstract()), Action.BeginDrain)
    {
      StepReaches(Abstract(), Action.BeginDrain);
      held, dropping := pending, unpending;
      pending, unpending := [], [];
    }

    /** The next LISTEN of the drain has succeeded: its channel is confirmed and its caller gets nil. */
    method ListenSucceeded()
      requires Valid() && held != [] && !broken
      modifies this
      ensures Valid() && Abstract() == AfterIssue(old(Abstract()), true)
    {
      IssueReaches(Abstract(), true);
      var r := held[0];
      confirmed, server := confirmed + {r.channel}, server + {r.channel};
      held := held[1..];
      nils := nils + Signal(r);
    }

    /** The next LISTEN of the drain has failed: its caller gets the error, the rest goes back to the
        front of the queue and the session is given up. */
    method ListenFailed()
      requires Valid() && held != [] && !broken
      modifies this
      ensures Valid() && Abstract() == AfterIssue(old(Abstract()), false)
    {
      IssueReaches(Abstract(), false);
      errors := errors + Signal(held[0]);
      pending := held[1..] + pending;
      held, dropping := [], [];
      broken, server := true, {};
    }

    /** One UNLISTEN of the drain, after its last LISTEN; a failure is only logged. */
    method IssueUnlisten(ok: bool)
      requires Valid() && held == [] && dropping != [] && !broken
      modifies this
      ensures Valid() && Abstract() == Apply(old(Abstract()), Drop(ok))
    {
      StepReaches(Abstract(), Drop(ok));
      if ok {
        server := server - {dropping[0]};
      }
      dropping := dropping[1..];
    }

    /** A fresh session: nothing is confirmed, every active channel is queued again, and every caller
        still waiting is either carried over with its channel or released with nil. */
    method ReconnectSession() returns (ghost released: seq<Request>)
      requires Valid() && broken
      modifies this
      ensures Valid() && IsRebuild(old(pending), old(channels), pending, released)
      ensures Abstract() == AfterReconnect(old(Abstract()), pending, released)
    {
      var queue, others := RebuildPending(pending, channels);
      ReconnectReaches(Abstract(), queue, others);
      released := others;
      confirmed, unpending := {}, [];
      pending := queue;
      broken := false;
      nils := nils + others;
    }
  }
}
