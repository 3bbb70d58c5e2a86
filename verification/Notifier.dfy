/**
 The push-delivery notifier's bookkeeping: which channel has a waker, which LISTEN is confirmed,
 which confirmation is running. Every method body runs under one mutex, so an interleaving of the
 goroutines is a run of these steps; `Listen` itself happens between a confirmation's start
 (inside `WakeChan`) and its `Confirm` step, for as long as it likes.
 */
module Notifier {
  import opened Basics

  /** A confirmation goroutine: the channel it listens on and the waker it was started with. */
  datatype Confirmation = Confirmation(channel: string, waker: nat)

  /** Wakers are identities, numbered by allocation; `succeeded` records every Listen that returned nil. */
  datatype State = State(
    wakers: map<string, nat>,
    listening: set<string>,
    inFlight: set<string>,
    failures: map<string, nat>,
    closed: bool,
    running: map<nat, Confirmation>,
    succeeded: set<Confirmation>,
    nextWaker: nat,
    nextTask: nat)

  datatype Action =
    | WakeChan(channel: string)
    | Confirm(task: nat, ok: bool)      // Listen has returned
    | Forget(channel: string)
    | Close

  function WakerOf(s: State, channel: string): Option<nat> {
    if channel in s.wakers then Some(s.wakers[channel]) else None
  }

  /** The waker a wakeChan call hands out: the channel's own, or a new one. */
  function Installed(s: State, channel: string): State {
    if channel in s.wakers then s
    else s.(wakers := s.wakers[channel := s.nextWaker], nextWaker := s.nextWaker + 1)
  }

  function Spawned(s: State, channel: string): State
    requires channel in s.wakers
  {
    s.(inFlight := s.inFlight + {channel},
       running := s.running[s.nextTask := Confirmation(channel, s.wakers[channel])],
       nextTask := s.nextTask + 1)
  }

  function AfterWakeChan(s: State, channel: string): State {
    if s.closed then s
    else
      var s1 := Installed(s, channel);
      if channel in s1.listening || channel in s1.inFlight then s1 else Spawned(s1, channel)
  }

  function CountFailure(failures: map<string, nat>, channel: string): map<string, nat> {
    failures[channel := (if channel in failures then failures[channel] else 0) + 1]
  }

  function AfterConfirm(s: State, task: nat, ok: bool): State
    requires task in s.running
  {
    var c := s.running[task];
    var s1 := s.(running := s.running - {task}, succeeded := s.succeeded + if ok then {c} else {});
    if WakerOf(s, c.channel) != Some(c.waker) then s1
    else if ok then
      s1.(inFlight := s.inFlight - {c.channel}, listening := s.listening + {c.channel}, failures := s.failures - {c.channel})
    else
      s1.(inFlight := s.inFlight - {c.channel}, failures := CountFailure(s.failures, c.channel))
  }

  function AfterForget(s: State, channel: string): State {
    s.(wakers := s.wakers - {channel}, listening := s.listening - {channel},
       inFlight := s.inFlight - {channel}, failures := s.failures - {channel})
  }

  function Apply(s: State, a: Action): State {
    match a
    case WakeChan(channel) => AfterWakeChan(s, channel)
    case Confirm(task, ok) => if task in s.running then AfterConfirm(s, task, ok) else s
    case Forget(channel) => AfterForget(s, channel)
    case Close => s.(closed := true)
  }

  function Run(s: State, run: seq<Action>): State {
    if run == [] then s else Apply(Run(s, run[..|run| - 1]), run[|run| - 1])
  }

  function Initial(): State {
    State(map[], {}, {}, map[], false, map[], {}, 0, 0)
  }

  /** Task `t` is running for the waker its channel has now. */
  predicate Owns(s: State, t: nat) {
    t in s.running && WakerOf(s, s.running[t].channel) == Some(s.running[t].waker)
  }

  ghost predicate HasOwner(s: State, channel: string) {
    exists t :: Owns(s, t) && s.running[t].channel == channel
  }

  ghost predicate Inv(s: State) {
    && (forall ch :: ch in s.inFlight <==> HasOwner(s, ch))
    && (forall t, u :: t in s.running && u in s.running && t != u ==> s.running[t] != s.running[u])
    && (forall ch :: ch in s.listening ==> ch in s.wakers && Confirmation(ch, s.wakers[ch]) in s.succeeded)
    && s.listening !! s.inFlight
    && (forall ch :: ch in s.wakers ==> s.wakers[ch] < s.nextWaker)
    && (forall t :: t in s.running ==> s.running[t].waker < s.nextWaker && t < s.nextTask)
  }

  lemma InstallKeepsInv(s: State, channel: string)
    requires Inv(s)
    ensures Inv(Installed(s, channel))
  {
    var s' := Installed(s, channel);
    forall ch ensures HasOwner(s', ch) <==> HasOwner(s, ch) {
      assert forall t :: Owns(s', t) <==> Owns(s, t);
    }
  }

  lemma SpawnKeepsInv(s: State, channel: string)
    requires Inv(s) && channel in s.wakers && channel !in s.listening && channel !in s.inFlight
    ensures Inv(Spawned(s, channel))
  {
    var s' := Spawned(s, channel);
    assert forall t :: Owns(s', t) <==> Owns(s, t) || t == s.nextTask;
    forall ch ensures HasOwner(s', ch) <==> HasOwner(s, ch) || ch == channel {
      if HasOwner(s, ch) {
        var t :| Owns(s, t) && s.running[t].channel == ch;
        assert Owns(s', t);
      }
      assert Owns(s', s.nextTask) && s'.running[s.nextTask].channel == channel;
    }
    forall t | t in s.running ensures s.running[t] != Confirmation(channel, s.wakers[channel]) {
      assert s.running[t] == Confirmation(channel, s.wakers[channel]) ==> Owns(s, t) && HasOwner(s, channel);
    }
  }

  lemma WakeKeepsInv(s: State, channel: string)
    requires Inv(s)
    ensures Inv(AfterWakeChan(s, channel))
  {
    InstallKeepsInv(s, channel);
    var s1 := Installed(s, channel);
    if channel !in s1.listening && channel !in s1.inFlight {
      SpawnKeepsInv(s1, channel);
    }
  }

  lemma ConfirmKeepsInv(s: State, task: nat, ok: bool)
    requires Inv(s) && task in s.running
    ensures Inv(AfterConfirm(s, task, ok))
  {
    var s' := AfterConfirm(s, task, ok);
    forall ch ensures ch in s'.inFlight <==> HasOwner(s', ch) {
      if HasOwner(s, ch) {
        var t :| Owns(s, t) && s.running[t].channel == ch;
        assert t != task ==> Owns(s', t);
      }
      if HasOwner(s', ch) {
        var t :| Owns(s', t) && s'.running[t].channel == ch;
        assert Owns(s, t);
      }
    }
  }

  lemma ForgetKeepsInv(s: State, channel: string)
    requires Inv(s)
    ensures Inv(AfterForget(s, channel))
  {
    var s' := AfterForget(s, channel);
    forall ch ensures ch in s'.inFlight <==> HasOwner(s', ch) {
      if HasOwner(s, ch) && ch != channel {
        var t :| Owns(s, t) && s.running[t].channel == ch;
        assert Owns(s', t);
      }
      if HasOwner(s', ch) {
        var t :| Owns(s', t) && s'.running[t].channel == ch;
        assert Owns(s, t);
      }
    }
  }

  lemma StepKeepsInv(s: State, a: Action)
    requires Inv(s)
    ensures Inv(Apply(s, a))
  {
    match a
    case WakeChan(channel) => WakeKeepsInv(s, channel);
    case Confirm(task, ok) => if task in s.running { ConfirmKeepsInv(s, task, ok); }
    case Forget(channel) => ForgetKeepsInv(s, channel);
    case Close =>
      assert forall t :: Owns(Apply(s, a), t) <==> Owns(s, t);
      assert forall ch :: HasOwner(Apply(s, a), ch) <==> HasOwner(s, ch);
  }

  lemma {:induction false} RunKeepsInv(s: State, run: seq<Action>)
    requires Inv(s)
    ensures Inv(Run(s, run))
  {
    if run != [] {
      RunKeepsInv(s, run[..|run| - 1]);
      StepKeepsInv(Run(s, run[..|run| - 1]), run[|run| - 1]);
    }
  }

  lemma InitialIsOk()
    ensures Inv(Initial())
  {
    assert forall ch :: !HasOwner(Initial(), ch);
  }

  /** In every interleaving: a channel is in flight exactly while one confirmation with its current
      waker is running, and is listening only if a Listen succeeded for that very waker. */
  lemma {:induction false} OwnershipIsExact(run: seq<Action>, ch: string)
    ensures var s := Run(Initial(), run);
            && (ch in s.inFlight <==> HasOwner(s, ch))
            && (forall t, u :: Owns(s, t) && Owns(s, u) && s.running[t].channel == s.running[u].channel ==> t == u)
            && (ch in s.listening ==> ch in s.wakers && Confirmation(ch, s.wakers[ch]) in s.succeeded && ch !in s.inFlight)
  {
    InitialIsOk();
    RunKeepsInv(Initial(), run);
  }

  lemma {:induction false} RunStep(run: seq<Action>, a: Action)
    ensures Run(Initial(), run + [a]) == Apply(Run(Initial(), run), a)
  {
    assert (run + [a])[..|run|] == run;
  }

  lemma WakeStarts(s: State, channel: string)
    requires Inv(s) && !s.closed
    ensures var s' := AfterWakeChan(s, channel);
            && channel in s'.wakers && (channel in s'.listening || HasOwner(s', channel))
            && (channel !in s.listening && !HasOwner(s, channel) ==>
                  Owns(s', s.nextTask) && s'.running[s.nextTask] == Confirmation(channel, s'.wakers[channel]) && s.nextTask !in s.running)
            && (channel in s.listening || HasOwner(s, channel) ==> s'.running == s.running)
  {
    WakeKeepsInv(s, channel);
    InstallKeepsInv(s, channel);
  }

  /** A LISTEN is under way or confirmed after every wakeChan on an open notifier, in every interleaving:
      the channel has a waker, and is listening or has a running confirmation that owns it. The call starts
      one exactly when there is neither. */
  lemma {:induction false} WakeChanStartsListen(run: seq<Action>, channel: string)
    requires !Run(Initial(), run).closed
    ensures var s, s' := Run(Initial(), run), Run(Initial(), run + [WakeChan(channel)]);
            && channel in s'.wakers && (channel in s'.listening || HasOwner(s', channel))
            && (channel !in s.listening && !HasOwner(s, channel) ==> Owns(s', s.nextTask) && s'.running[s.nextTask].channel == channel)
            && (channel in s.listening || HasOwner(s, channel) ==> s'.running == s.running)
  {
    InitialIsOk();
    RunKeepsInv(Initial(), run);
    RunStep(run, WakeChan(channel));
    WakeStarts(Run(Initial(), run), channel);
  }

  /** The bookkeeping of one channel. */
  ghost predicate SameChannel(s: State, s': State, channel: string) {
    && WakerOf(s', channel) == WakerOf(s, channel) && (channel in s'.listening <==> channel in s.listening)
    && (channel in s'.inFlight <==> channel in s.inFlight) && Failures(s', channel) == Failures(s, channel)
  }

  function Failures(s: State, channel: string): nat {
    if channel in s.failures then s.failures[channel] else 0
  }

  /** What the outcome of a channel's own confirmation achieves: success makes the channel listen and clears
      its failures, failure counts one more and frees the channel, and no other channel is touched. */
  lemma {:induction false} OwnerConfirms(run: seq<Action>, task: nat, ok: bool, other: string)
    requires Owns(Run(Initial(), run), task)
    ensures var s, s' := Run(Initial(), run), Run(Initial(), run + [Confirm(task, ok)]);
            var channel := s.running[task].channel;
            && (channel in s'.listening <==> ok) && channel !in s'.inFlight && !HasOwner(s', channel)
            && WakerOf(s', channel) == WakerOf(s, channel)
            && Failures(s', channel) == (if ok then 0 else Failures(s, channel) + 1)
            && (other != channel ==> SameChannel(s, s', other))
  {
    var s := Run(Initial(), run);
    InitialIsOk();
    RunKeepsInv(Initial(), run);
    RunStep(run, Confirm(task, ok));
    RunKeepsInv(Initial(), run + [Confirm(task, ok)]);
    assert HasOwner(s, s.running[task].channel);
  }

  /** A failed confirmation is retried: the next wakeChan on the open notifier starts a new one. */
  lemma {:induction false} FailureIsRetried(run: seq<Action>, task: nat)
    requires Owns(Run(Initial(), run), task) && !Run(Initial(), run).closed
    ensures var s := Run(Initial(), run);
            var channel := s.running[task].channel;
            var s' := Run(Initial(), run + [Confirm(task, false)] + [WakeChan(channel)]);
            Owns(s', s.nextTask) && s'.running[s.nextTask].channel == channel && s.nextTask != task
  {
    var s := Run(Initial(), run);
    var channel := s.running[task].channel;
    InitialIsOk();
    RunKeepsInv(Initial(), run);
    OwnerConfirms(run, task, false, channel);
    RunStep(run, Confirm(task, false));
    WakeChanStartsListen(run + [Confirm(task, false)], channel);
  }

  /** Failed confirmations of the channel's own in a row: since the last success or forget. */
  function FailedInARow(run: seq<Action>, channel: string): nat {
    if run == [] then 0
    else
      var p, a := run[..|run| - 1], run[|run| - 1];
      var s := Run(Initial(), p);
      if a == Forget(channel) then 0
      else if a.Confirm? && Owns(s, a.task) && s.running[a.task].channel == channel then (if a.ok then 0 else FailedInARow(p, channel) + 1)
      else FailedInARow(p, channel)
  }

  lemma {:induction false} FailuresAreCounted(run: seq<Action>, channel: string)
    ensures Failures(Run(Initial(), run), channel) == FailedInARow(run, channel)
  {
    if run != [] {
      FailuresAreCounted(run[..|run| - 1], channel);
    }
  }

  /** Confirmation `c` ran as `task` and no longer has the channel's waker. */
  predicate Outlived(s: State, task: nat, c: Confirmation) {
    && task < s.nextTask && c.waker < s.nextWaker && WakerOf(s, c.channel) != Some(c.waker)
    && (task in s.running ==> s.running[task] == c)
  }

  lemma OutlivedStep(s: State, a: Action, task: nat, c: Confirmation)
    requires Inv(s) && Outlived(s, task, c)
    ensures Outlived(Apply(s, a), task, c)
  {
  }

  /** And it stays outlived: a recreated queue gets a new waker, never the old one back. */
  lemma {:induction false} OutlivedForever(s: State, run: seq<Action>, task: nat, c: Confirmation)
    requires Inv(s) && Outlived(s, task, c)
    ensures Outlived(Run(s, run), task, c) && !Owns(Run(s, run), task)
  {
    if run != [] {
      OutlivedForever(s, run[..|run| - 1], task, c);
      RunKeepsInv(s, run[..|run| - 1]);
      OutlivedStep(Run(s, run[..|run| - 1]), run[|run| - 1], task, c);
    }
  }

  lemma {:induction false} RunAppend(s: State, p: seq<Action>, q: seq<Action>)
    ensures Run(s, p + q) == Run(Run(s, p), q)
  {
    if q == [] {
      assert p + q == p;
    } else {
      assert (p + q)[..|p + q| - 1] == p + q[..|q| - 1];
      RunAppend(s, p, q[..|q| - 1]);
    }
  }

  /** A confirmation that a forget overtook, whatever runs in between, other wakeChan calls and
      confirmations of the same channel included: its outcome leaves all four maps as they are. */
  lemma {:induction false} ForgottenConfirmIsMute(before: seq<Action>, channel: string, between: seq<Action>, task: nat, ok: bool)
    requires var s := Run(Initial(), before); task in s.running && s.running[task].channel == channel
    ensures var t := Run(Initial(), before + [Forget(channel)] + between);
            var t' := Run(Initial(), before + [Forget(channel)] + between + [Confirm(task, ok)]);
            t'.wakers == t.wakers && t'.listening == t.listening && t'.inFlight == t.inFlight && t'.failures == t.failures
  {
    var s := Run(Initial(), before);
    var c := s.running[task];
    InitialIsOk();
    RunKeepsInv(Initial(), before);
    var forgotten := before + [Forget(channel)];
    assert forgotten[..|before|] == before;
    assert Run(Initial(), forgotten) == AfterForget(s, channel);
    ForgetKeepsInv(s, channel);
    OutlivedForever(AfterForget(s, channel), between, task, c);
    RunAppend(Initial(), forgotten, between);
    var all := forgotten + between;
    assert (all + [Confirm(task, ok)])[..|all|] == all;
  }

  // ---------------------------------------------------------------- the notifier itself

  class Notifier {
    var wakers: map<string, nat>
    var listening: set<string>
    var listenInFlight: set<string>
    var listenFailures: map<string, nat>
    var closed: bool
    var running: map<nat, Confirmation>
    ghost var succeeded: set<Confirmation>
    var nextWaker: nat
    var nextTask: nat

    ghost function Abstract(): State
      reads this
    {
      State(wakers, listening, listenInFlight, listenFailures, closed, running, succeeded, nextWaker, nextTask)
    }

    /** The notifier is where some interleaving of its methods leads. */
    ghost predicate Valid()
      reads this
    {
      exists run :: Abstract() == Run(Initial(), run)
    }

    constructor ()
      ensures Valid() && Abstract() == Initial()
    {
      wakers, listening, listenInFlight, listenFailures := map[], {}, {}, map[];
      closed, running, succeeded, nextWaker, nextTask := false, map[], {}, 0, 0;
      new;
      assert Abstract() == Run(Initial(), []);
    }

    /** Nil once closed; otherwise the channel's waker, with a confirmation started if none is due. */
    method WakeChan(channel: string) returns (waker: Option<nat>)
      requires Valid()
      modifies this
      ensures Valid() && Abstract() == Apply(old(Abstract()), Action.WakeChan(channel))
      ensures waker == if old(closed) then None else WakerOf(Abstract(), channel)
    {
      StepReaches(Abstract(), Action.WakeChan(channel));
      if closed {
        return None;
      }
      if channel !in wakers {
        wakers := wakers[channel := nextWaker];
        nextWaker := nextWaker + 1;
      }
      if channel !in listening && channel !in listenInFlight {
        listenInFlight := listenInFlight + {channel};
        running := running[nextTask := Confirmation(channel, wakers[channel])];
        nextTask := nextTask + 1;
      }
      return Some(wakers[channel]);
    }

    /** The locked half of a confirmation, after its Listen returned. */
    method ConfirmListen(task: nat, ok: bool)
      requires Valid() && task in running
      modifies this
      ensures Valid() && Abstract() == Apply(old(Abstract()), Confirm(task, ok))
    {
      StepReaches(Abstract(), Confirm(task, ok));
      var c := running[task];
      running := running - {task};
      succeeded := succeeded + if ok then {c} else {};
      if c.channel in wakers && wakers[c.channel] == c.waker {
        Record(c.channel, ok);
      }
    }

    /** The outcome of the channel's own confirmation. */
    method Record(channel: string, ok: bool)
      modifies this`listenInFlight, this`listening, this`listenFailures
      ensures listenInFlight == old(listenInFlight) - {channel}
      ensures listening == if ok then old(listening) + {channel} else old(listening)
      ensures listenFailures == if ok then old(listenFailures) - {channel} else CountFailure(old(listenFailures), channel)
    {
      listenInFlight := listenInFlight - {channel};
      if ok {
        listening := listening + {channel};
        listenFailures := listenFailures - {channel};
      } else {
        var failed := if channel in listenFailures then listenFailures[channel] else 0;
        listenFailures := listenFailures[channel := failed + 1];
      }
    }

    method Forget(channel: string)
      requires Valid()
      modifies this
      ensures Valid() && Abstract() == Apply(old(Abstract()), Action.Forget(channel))
    {
      StepReaches(Abstract(), Action.Forget(channel));
      wakers := wakers - {channel};
      listening := listening - {channel};
      listenInFlight := listenInFlight - {channel};
      listenFailures := listenFailures - {channel};
    }

    /** The flag that makes every later WakeChan return nothing and start nothing. */
    method Close()
      requires Valid()
      modifies this
      ensures Valid() && Abstract() == Apply(old(Abstract()), Action.Close)
    {
      StepReaches(Abstract(), Action.Close);
      closed := true;
    }
  }

  lemma StepReaches(s: State, a: Action)
    requires exists run :: s == Run(Initial(), run)
    ensures exists run :: Apply(s, a) == Run(Initial(), run)
  {
    var run :| s == Run(Initial(), run);
    assert (run + [a])[..|run + [a]| - 1] == run;
    assert Apply(s, a) == Run(Initial(), run + [a]);
  }
}
