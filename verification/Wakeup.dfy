/**
 Push delivery from commit to consumer: a commit's NOTIFY enters the listener's stream, the pump
 looks the channel's waker up and then signals it, and a consumer arms a generation of the waker
 before it looks for a message. A waker's generation is open until the next signal.
 */
module Wakeup {
  import opened Basics

  /** The notification of the `n`-th commit on a channel. */
  datatype Note = Note(channel: string, n: nat)

  /** The pump between its two critical sections holds the waker it found. */
  datatype Pump = Ready | Holding(note: Note, waker: Option<nat>)

  /** `seen` is how many commits the empty receive could see. */
  datatype Consumer =
    | Idle
    | Armed(channel: string, waker: nat, gen: nat)
    | Waiting(channel: string, waker: nat, gen: nat, seen: nat)

  datatype World = World(
    committed: map<string, nat>,
    subscribed: set<string>,        // LISTEN in force at the server
    missed: set<Note>,              // notifications sent while it was not
    stream: seq<Note>,
    pump: Pump,
    wakers: map<string, nat>,
    gens: map<nat, nat>,            // every waker ever made, with its generation
    consumers: map<nat, Consumer>)

  datatype Action =
    | Commit(channel: string)
    | Subscribed(channel: string)
    | Unsubscribed(channel: string)
    | Arm(c: nat, channel: string, made: nat)
    | ReceiveEmpty(c: nat)
    | ReceiveOne(c: nat)
    | Resume(c: nat)                // woken, or the safety-net poll fired
    | Take                          // pump: next notification, waker looked up
    | Signal                        // pump: waker signalled
    | Spurious(waker: nat)          // wakeAll
    | Forget(channel: string)

  function Count(w: World, channel: string): nat {
    if channel in w.committed then w.committed[channel] else 0
  }

  function WakerOf(w: World, channel: string): Option<nat> {
    if channel in w.wakers then Some(w.wakers[channel]) else None
  }

  predicate Enabled(w: World, a: Action) {
    match a
    case Arm(c, _, made) => c in w.consumers && w.consumers[c].Idle? && made !in w.gens
    case ReceiveEmpty(c) => c in w.consumers && w.consumers[c].Armed?
    case ReceiveOne(c) => c in w.consumers && w.consumers[c].Armed?
    case Resume(c) => c in w.consumers && w.consumers[c].Waiting?
    case Take => w.pump.Ready? && w.stream != []
    case Signal => w.pump.Holding?
    case Spurious(k) => k in w.gens
    case _ => true
  }

  function Bump(gens: map<nat, nat>, k: nat): map<nat, nat> {
    gens[k := (if k in gens then gens[k] else 0) + 1]
  }

  function Committed(w: World, channel: string): World {
    var note := Note(channel, Count(w, channel));
    var w1 := w.(committed := w.committed[channel := Count(w, channel) + 1]);
    if channel in w.subscribed then w1.(stream := w.stream + [note]) else w1.(missed := w.missed + {note})
  }

  function ArmedBy(w: World, c: nat, channel: string, made: nat): World {
    var w1 := if channel in w.wakers then w else w.(wakers := w.wakers[channel := made], gens := w.gens[made := 0]);
    var k := w1.wakers[channel];
    w1.(consumers := w1.consumers[c := Armed(channel, k, if k in w1.gens then w1.gens[k] else 0)])
  }

  function Apply(w: World, a: Action): World {
    if !Enabled(w, a) then w
    else
      match a
      case Commit(channel) => Committed(w, channel)
      case Subscribed(channel) => w.(subscribed := w.subscribed + {channel})
      case Unsubscribed(channel) => w.(subscribed := w.subscribed - {channel})
      case Arm(c, channel, made) => ArmedBy(w, c, channel, made)
      case ReceiveEmpty(c) =>
        var x := w.consumers[c];
        w.(consumers := w.consumers[c := Waiting(x.channel, x.waker, x.gen, Count(w, x.channel))])
      case ReceiveOne(c) => w.(consumers := w.consumers[c := Idle])
      case Resume(c) => w.(consumers := w.consumers[c := Idle])
      case Take => w.(stream := w.stream[1..], pump := Holding(w.stream[0], WakerOf(w, w.stream[0].channel)))
      case Signal => w.(pump := Ready, gens := if w.pump.waker.Some? then Bump(w.gens, w.pump.waker.value) else w.gens)
      case Spurious(k) => w.(gens := Bump(w.gens, k))
      case Forget(channel) => w.(wakers := w.wakers - {channel})
  }

  function Run(w: World, run: seq<Action>): World {
    if run == [] then w else Apply(Run(w, run[..|run| - 1]), run[|run| - 1])
  }

  function Initial(consumers: set<nat>): World {
    World(map[], {}, {}, [], Ready, map[], map[], map c | c in consumers :: Idle)
  }

  // ---------------------------------------------------------------- safety

  /** Consumer `c` waits on a generation that nobody has closed. */
  predicate Blocked(w: World, c: nat) {
    c in w.consumers && w.consumers[c].Waiting? && w.consumers[c].waker in w.gens
    && w.gens[w.consumers[c].waker] == w.consumers[c].gen
  }

  /** Consumer `c` is blocked on the waker its channel still has. */
  predicate BlockedOnLive(w: World, c: nat) {
    Blocked(w, c) && WakerOf(w, w.consumers[c].channel) == Some(w.consumers[c].waker)
  }

  /** The notification is still on its way to waker `k`. */
  predicate OnItsWay(w: World, note: Note, k: nat) {
    note in w.stream || w.pump == Holding(note, Some(k))
  }

  /** Everything committed since the consumer's empty receive is still on its way. */
  ghost predicate NothingPassed(w: World, c: nat)
    requires c in w.consumers && w.consumers[c].Waiting?
  {
    var x := w.consumers[c];
    forall n :: x.seen <= n < Count(w, x.channel) && Note(x.channel, n) !in w.missed ==> OnItsWay(w, Note(x.channel, n), x.waker)
  }

  /** A consumer's generation is one its waker has reached. */
  predicate GenOk(w: World, x: Consumer)
    requires !x.Idle?
  {
    x.waker in w.gens && x.gen <= w.gens[x.waker]
  }

  ghost predicate Bookkeeping(w: World) {
    && (forall c :: c in w.consumers && !w.consumers[c].Idle? ==> GenOk(w, w.consumers[c]))
    && (forall ch :: ch in w.wakers ==> w.wakers[ch] in w.gens)
    && (forall note :: note in w.missed ==> note.n < Count(w, note.channel))
    && (w.pump.Holding? && w.pump.waker.Some? ==> w.pump.waker.value in w.gens)
  }

  ghost predicate Inv(w: World) {
    Bookkeeping(w) && forall c :: BlockedOnLive(w, c) ==> NothingPassed(w, c)
  }

  /** A consumer that is blocked after a step either just received nothing, or was blocked before. */
  lemma WasBlocked(w: World, a: Action, c: nat)
    requires Inv(w) && BlockedOnLive(Apply(w, a), c)
    ensures (a == ReceiveEmpty(c) && c in w.consumers && w.consumers[c].Armed?)
            || (BlockedOnLive(w, c) && Apply(w, a).consumers[c] == w.consumers[c])
  {
  }

  lemma StillOnItsWay(w: World, a: Action, c: nat, n: nat)
    requires Inv(w) && BlockedOnLive(w, c) && BlockedOnLive(Apply(w, a), c) && Apply(w, a).consumers[c] == w.consumers[c]
    requires var x := w.consumers[c]; x.seen <= n < Count(Apply(w, a), x.channel) && Note(x.channel, n) !in Apply(w, a).missed
    ensures OnItsWay(Apply(w, a), Note(w.consumers[c].channel, n), w.consumers[c].waker)
  {
    var x, w' := w.consumers[c], Apply(w, a);
    var note := Note(x.channel, n);
    if n < Count(w, x.channel) {
      assert NothingPassed(w, c);
      assert OnItsWay(w, note, x.waker);
      if a.Take? && Enabled(w, a) && note in w.stream && note != w.stream[0] {
        assert w.stream == [w.stream[0]] + w.stream[1..];
      }
    } else {
      assert a == Commit(x.channel);
      assert w'.stream == w.stream + [note];
    }
  }

  lemma ConsumerStep(w: World, a: Action, c: nat)
    requires Inv(w) && BlockedOnLive(Apply(w, a), c)
    ensures NothingPassed(Apply(w, a), c)
  {
    var w' := Apply(w, a);
    WasBlocked(w, a, c);
    if BlockedOnLive(w, c) && w'.consumers[c] == w.consumers[c] {
      var x := w.consumers[c];
      forall n | x.seen <= n < Count(w', x.channel) && Note(x.channel, n) !in w'.missed
        ensures OnItsWay(w', Note(x.channel, n), x.waker)
      {
        StillOnItsWay(w, a, c, n);
      }
    }
  }

  lemma BookkeepingStep(w: World, a: Action)
    requires Bookkeeping(w)
    ensures Bookkeeping(Apply(w, a))
  {
  }

  lemma StepKeepsInv(w: World, a: Action)
    requires Inv(w)
    ensures Inv(Apply(w, a))
  {
    forall c | BlockedOnLive(Apply(w, a), c) ensures NothingPassed(Apply(w, a), c) {
      ConsumerStep(w, a, c);
    }
    BookkeepingStep(w, a);
  }

  lemma {:induction false} RunKeepsInv(w: World, run: seq<Action>)
    requires Inv(w)
    ensures Inv(Run(w, run))
  {
    if run != [] {
      RunKeepsInv(w, run[..|run| - 1]);
      StepKeepsInv(Run(w, run[..|run| - 1]), run[|run| - 1]);
    }
  }

  lemma InitialIsOk(consumers: set<nat>)
    ensures Inv(Initial(consumers))
  {
  }

  lemma NothingMissedNow(w: World, a: Action, channel: string, n: nat)
    requires channel in w.subscribed && Note(channel, n) !in w.missed && a != Unsubscribed(channel)
    ensures channel in Apply(w, a).subscribed && Note(channel, n) !in Apply(w, a).missed
    ensures Count(Apply(w, a), channel) >= Count(w, channel)
  {
  }

  /** No lost wakeup, in every interleaving: while a consumer is blocked on its channel's waker,
      every notification sent for a commit it did not see is still on its way to that waker. */
  lemma {:induction false} NoLostWakeup(consumers: set<nat>, run: seq<Action>, c: nat, n: nat)
    requires var w := Run(Initial(consumers), run);
             BlockedOnLive(w, c) && w.consumers[c].seen <= n < Count(w, w.consumers[c].channel)
             && Note(w.consumers[c].channel, n) !in w.missed
    ensures var w := Run(Initial(consumers), run);
            OnItsWay(w, Note(w.consumers[c].channel, n), w.consumers[c].waker)
  {
    InitialIsOk(consumers);
    RunKeepsInv(Initial(consumers), run);
    assert NothingPassed(Run(Initial(consumers), run), c);
  }

  // ---------------------------------------------------------------- every commit is notified

  /** The notification has been sent and the pump has not finished with it. */
  predicate Travelling(w: World, note: Note) {
    note in w.stream || (w.pump.Holding? && w.pump.note == note)
  }

  /** A commit under LISTEN counts and puts exactly its own notification at the end of the stream; the pump
      takes notifications from the front, with the waker the channel has then, and signals that waker. */
  lemma {:induction false} CommitIsNotified(consumers: set<nat>, run: seq<Action>, channel: string)
    ensures var w, w' := Run(Initial(consumers), run), Run(Initial(consumers), run + [Commit(channel)]);
            var note := Note(channel, Count(w, channel));
            && Count(w', channel) == Count(w, channel) + 1
            && (channel in w.subscribed ==> w'.stream == w.stream + [note] && Travelling(w', note) && w'.missed == w.missed)
            && (channel !in w.subscribed ==> w'.stream == w.stream && note in w'.missed)
  {
    assert (run + [Commit(channel)])[..|run|] == run;
  }

  /** A consumer that arms and then finds nothing really waits, on the waker its channel has. */
  lemma {:induction false} EmptyReceiveBlocks(consumers: set<nat>, run: seq<Action>, c: nat, channel: string, made: nat)
    requires Enabled(Run(Initial(consumers), run), Arm(c, channel, made))
    ensures var w := Run(Initial(consumers), run + [Arm(c, channel, made), ReceiveEmpty(c)]);
            BlockedOnLive(w, c) && w.consumers[c].channel == channel && w.consumers[c].seen == Count(w, channel)
  {
    var w := Run(Initial(consumers), run);
    InitialIsOk(consumers);
    RunKeepsInv(Initial(consumers), run);
    var all := run + [Arm(c, channel, made), ReceiveEmpty(c)];
    assert all[..|run| + 1] == run + [Arm(c, channel, made)] && (run + [Arm(c, channel, made)])[..|run|] == run;
    assert Run(Initial(consumers), run + [Arm(c, channel, made)]) == Apply(w, Arm(c, channel, made));
  }

  /** The pump's next step. */
  function NextOfPump(w: World): Action {
    if w.pump.Holding? then Signal else Take
  }

  lemma PumpStep(w: World, c: nat, note: Note)
    requires BlockedOnLive(w, c) && note.channel == w.consumers[c].channel && OnItsWay(w, note, w.consumers[c].waker)
    ensures var w' := Apply(w, NextOfPump(w));
            && Enabled(w, NextOfPump(w)) && c in w'.consumers && w'.consumers[c] == w.consumers[c]
            && (Blocked(w', c) ==> BlockedOnLive(w', c) && OnItsWay(w', note, w.consumers[c].waker))
            && (2 * |w'.stream| + if w'.pump.Holding? then 1 else 0) < (2 * |w.stream| + if w.pump.Holding? then 1 else 0)
  {
    if w.pump.Ready? && note != w.stream[0] {
      assert w.stream == [w.stream[0]] + w.stream[1..];
    }
  }

  predicate OfPump(a: Action) {
    a.Take? || a.Signal?
  }

  lemma {:induction false} PumpDrains(w: World, c: nat, note: Note) returns (more: seq<Action>)
    requires BlockedOnLive(w, c) && note.channel == w.consumers[c].channel && OnItsWay(w, note, w.consumers[c].waker)
    ensures (forall i :: 0 <= i < |more| ==> OfPump(more[i])) && !Blocked(Run(w, more), c)
    decreases 2 * |w.stream| + if w.pump.Holding? then 1 else 0
  {
    var a := NextOfPump(w);
    PumpStep(w, c, note);
    var w' := Apply(w, a);
    assert [a][..0] == [];
    assert Run(w, [a]) == Apply(Run(w, []), a);
    if Blocked(w', c) {
      var rest := PumpDrains(w', c, note);
      more := [a] + rest;
      RunAppend(w, [a], rest);
    } else {
      more := [a];
    }
  }

  lemma {:induction false} RunAppend(w: World, p: seq<Action>, q: seq<Action>)
    ensures Run(w, p + q) == Run(Run(w, p), q)
  {
    if q == [] {
      assert p + q == p;
    } else {
      RunAppend(w, p, q[..|q| - 1]);
      assert (p + q)[..|p + q| - 1] == p + q[..|q| - 1];
    }
  }

  /** And it gets through: in every interleaving, a consumer blocked on its channel's waker while a notified
      commit is unseen is released by steps of the pump alone. */
  lemma {:induction false} PumpAloneWakes(consumers: set<nat>, run: seq<Action>, c: nat, n: nat) returns (more: seq<Action>)
    requires var w := Run(Initial(consumers), run);
             BlockedOnLive(w, c) && w.consumers[c].seen <= n < Count(w, w.consumers[c].channel)
             && Note(w.consumers[c].channel, n) !in w.missed
    ensures (forall i :: 0 <= i < |more| ==> OfPump(more[i])) && !Blocked(Run(Initial(consumers), run + more), c)
  {
    var w := Run(Initial(consumers), run);
    NoLostWakeup(consumers, run, c, n);
    more := PumpDrains(w, c, Note(w.consumers[c].channel, n));
    RunAppend(Initial(consumers), run, more);
  }

  // ---------------------------------------------------------------- once confirmed, nothing is missed

  lemma {:induction false} NothingMissed(w: World, run: seq<Action>, channel: string, n: nat)
    requires Inv(w) && channel in w.subscribed && n >= Count(w, channel)
    requires forall i :: 0 <= i < |run| ==> run[i] != Unsubscribed(channel)
    ensures channel in Run(w, run).subscribed && Note(channel, n) !in Run(w, run).missed
    ensures Count(Run(w, run), channel) >= Count(w, channel)
  {
    if run != [] {
      NothingMissed(w, run[..|run| - 1], channel, n);
      NothingMissedNow(Run(w, run[..|run| - 1]), run[|run| - 1], channel, n);
    }
  }

  lemma {:induction false} WakerStays(w: World, run: seq<Action>, channel: string)
    requires channel in w.wakers && forall i :: 0 <= i < |run| ==> run[i] != Forget(channel)
    ensures WakerOf(Run(w, run), channel) == WakerOf(w, channel)
  {
    if run != [] {
      WakerStays(w, run[..|run| - 1], channel);
    }
  }

  /** From an empty receive on, while LISTEN stays in force and the queue is not forgotten: a later
      commit whose notification the pump has drained has closed the consumer's generation. */
  lemma {:induction false} DrainedMeansWoken(w: World, run: seq<Action>, c: nat, n: nat)
    requires Inv(w) && c in w.consumers && w.consumers[c].Waiting?
    requires var x := w.consumers[c];
             && x.channel in w.subscribed && WakerOf(w, x.channel) == Some(x.waker) && x.seen == Count(w, x.channel)
             && (forall i :: 0 <= i < |run| ==> run[i] != Unsubscribed(x.channel) && run[i] != Forget(x.channel))
    requires var x, w' := w.consumers[c], Run(w, run);
             && c in w'.consumers && w'.consumers[c] == x
             && x.seen <= n < Count(w', x.channel) && !OnItsWay(w', Note(x.channel, n), x.waker)
    ensures !Blocked(Run(w, run), c)
  {
    var x, w' := w.consumers[c], Run(w, run);
    RunKeepsInv(w, run);
    NothingMissed(w, run, x.channel, n);
    WakerStays(w, run, x.channel);
    assert BlockedOnLive(w', c) ==> NothingPassed(w', c);
  }
}
