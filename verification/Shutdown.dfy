/**
 Closing a queue while consume loops and garbage collectors come and go. Each action is one critical
 section (of the queue's gcMu or of a collector's mu) or one successful WaitGroup wait, so a run is
 any interleaving of the goroutines involved.
 */
module Shutdown {
  import opened Basics

  /** One collector: `mu` is held by a Start that has seen the queue open and not yet finished. */
  datatype Collector = Collector(starting: bool, started: bool, stopped: bool, running: bool)

  /** Where a Close call is: joining `gcs[at..]`, `signalled` telling whether gcs[at] has been signalled. */
  datatype Closer = NotCalled | Joining(gcs: seq<nat>, at: nat, signalled: bool) | Returned(marked: bool)

  datatype State = State(
    closed: bool,
    gcs: seq<nat>,
    workers: nat,
    collectors: map<nat, Collector>,
    closers: map<nat, Closer>)

  datatype Action =
    | TrackWorker
    | WorkerDone
    | NewCollector(g: nat)
    | StartCheck(g: nat)        // Start takes gc.mu and reads the closed flag
    | StartFinish(g: nat)       // ... starts the loop if it is the first, and releases gc.mu
    | LoopExit(g: nat)
    | StopSignal(g: nat)        // the collector's own Stop, first half; its wait changes nothing
    | CloseMark(c: nat)
    | CloseSignal(c: nat)
    | CloseJoin(c: nat)         // wg.Wait of the collector being stopped has returned
    | CloseReturn(c: nat)       // workerWG.Wait has returned

  predicate Enabled(s: State, a: Action) {
    match a
    case TrackWorker => true
    case WorkerDone => s.workers > 0
    case NewCollector(g) => g !in s.collectors
    case StartCheck(g) => g in s.collectors && !s.collectors[g].starting
    case StartFinish(g) => g in s.collectors && s.collectors[g].starting
    case LoopExit(g) => g in s.collectors && s.collectors[g].running
    case StopSignal(g) => g in s.collectors && !s.collectors[g].starting
    case CloseMark(c) => c in s.closers && s.closers[c].NotCalled?
    case CloseSignal(c) =>
      && c in s.closers && s.closers[c].Joining? && !s.closers[c].signalled && s.closers[c].at < |s.closers[c].gcs|
      && s.closers[c].gcs[s.closers[c].at] in s.collectors && !s.collectors[s.closers[c].gcs[s.closers[c].at]].starting
    case CloseJoin(c) =>
      && c in s.closers && s.closers[c].Joining? && s.closers[c].signalled && s.closers[c].at < |s.closers[c].gcs|
      && s.closers[c].gcs[s.closers[c].at] in s.collectors && !s.collectors[s.closers[c].gcs[s.closers[c].at]].running
    case CloseReturn(c) => c in s.closers && s.closers[c].Joining? && s.closers[c].at >= |s.closers[c].gcs| && s.workers == 0
  }

  function Started(x: Collector): Collector {
    if x.started then x.(starting := false) else x.(starting := false, started := true, running := true)
  }

  function Apply(s: State, a: Action): State {
    if !Enabled(s, a) then s
    else
      match a
      case TrackWorker => if s.closed then s else s.(workers := s.workers + 1)
      case WorkerDone => s.(workers := s.workers - 1)
      case NewCollector(g) =>
        var s1 := s.(collectors := s.collectors[g := Collector(false, false, false, false)]);
        if s.closed then s1 else s1.(gcs := s.gcs + [g])
      case StartCheck(g) =>
        if s.closed then s else s.(collectors := s.collectors[g := s.collectors[g].(starting := true)])
      case StartFinish(g) => s.(collectors := s.collectors[g := Started(s.collectors[g])])
      case LoopExit(g) => s.(collectors := s.collectors[g := s.collectors[g].(running := false)])
      case StopSignal(g) => s.(collectors := s.collectors[g := s.collectors[g].(stopped := true)])
      case CloseMark(c) =>
        if s.closed then s.(closers := s.closers[c := Returned(false)])
        else s.(closed := true, closers := s.closers[c := Joining(s.gcs, 0, false)])
      case CloseSignal(c) =>
        var x := s.closers[c];
        var g := x.gcs[x.at];
        s.(collectors := s.collectors[g := s.collectors[g].(stopped := true)], closers := s.closers[c := x.(signalled := true)])
      case CloseJoin(c) => s.(closers := s.closers[c := s.closers[c].(at := s.closers[c].at + 1, signalled := false)])
      case CloseReturn(c) => s.(closers := s.closers[c := Returned(true)])
  }

  function Run(s: State, run: seq<Action>): State {
    if run == [] then s else Apply(Run(s, run[..|run| - 1]), run[|run| - 1])
  }

  function Initial(closers: set<nat>): State {
    State(false, [], 0, map[], map c | c in closers :: NotCalled)
  }

  // ---------------------------------------------------------------- the join

  /** A collector with no loop and none about to start. */
  predicate Still(x: Collector) {
    !x.starting && !x.running
  }

  /** Nothing owned by the queue is running or can still start. */
  ghost predicate Quiet(s: State) {
    s.closed && s.workers == 0 && forall g :: g in s.collectors ==> Still(s.collectors[g])
  }

  /** What a Close call knows while it joins: it works through every registered collector, and those
      behind it are still; a signalled one cannot be in the middle of a Start. */
  ghost predicate JoinOk(s: State, x: Closer)
    requires x.Joining?
  {
    && x.gcs == s.gcs && x.at <= |x.gcs|
    && (forall i :: 0 <= i < x.at ==> x.gcs[i] in s.collectors && Still(s.collectors[x.gcs[i]]))
    && (x.signalled ==> x.at < |x.gcs| && x.gcs[x.at] in s.collectors && !s.collectors[x.gcs[x.at]].starting)
  }

  ghost predicate Inv(s: State) {
    && (forall g :: g in s.collectors && !Still(s.collectors[g]) ==> g in s.gcs)
    && (forall g :: g in s.collectors && !s.closed ==> g in s.gcs)
    && (forall c :: c in s.closers && s.closers[c].Joining? ==> s.closed && JoinOk(s, s.closers[c]))
    && (forall c :: c in s.closers && s.closers[c] == Returned(true) ==> Quiet(s))
  }

  predicate IsCloseStep(a: Action) {
    a.CloseMark? || a.CloseSignal? || a.CloseJoin? || a.CloseReturn?
  }

  lemma ReturnIsQuiet(s: State, c: nat)
    requires Inv(s) && Enabled(s, CloseReturn(c))
    ensures Quiet(s)
  {
    var x := s.closers[c];
    forall g | g in s.collectors ensures Still(s.collectors[g]) {
      if g in s.gcs {
        var i :| 0 <= i < |x.gcs| && x.gcs[i] == g;
        assert Still(s.collectors[x.gcs[i]]);
      }
    }
  }

  lemma SignalKeepsInv(s: State, c: nat)
    requires Inv(s) && Enabled(s, CloseSignal(c))
    ensures Inv(Apply(s, CloseSignal(c)))
  {
  }

  lemma JoinKeepsInv(s: State, c: nat)
    requires Inv(s) && Enabled(s, CloseJoin(c))
    ensures Inv(Apply(s, CloseJoin(c)))
  {
  }

  lemma CloseKeepsInv(s: State, a: Action)
    requires Inv(s) && IsCloseStep(a)
    ensures Inv(Apply(s, a))
  {
    if Enabled(s, a) {
      match a
      case CloseMark(_) =>
      case CloseSignal(c) => SignalKeepsInv(s, c);
      case CloseJoin(c) => JoinKeepsInv(s, c);
      case CloseReturn(c) => ReturnIsQuiet(s, c);
    }
  }

  lemma StartKeepsInv(s: State, a: Action)
    requires Inv(s) && (a.StartCheck? || a.StartFinish?)
    ensures Inv(Apply(s, a))
  {
  }

  lemma StopKeepsInv(s: State, a: Action)
    requires Inv(s) && (a.LoopExit? || a.StopSignal?)
    ensures Inv(Apply(s, a))
  {
  }

  lemma StepKeepsInv(s: State, a: Action)
    requires Inv(s)
    ensures Inv(Apply(s, a))
  {
    if IsCloseStep(a) {
      CloseKeepsInv(s, a);
    } else if a.StartCheck? || a.StartFinish? {
      StartKeepsInv(s, a);
    } else if a.LoopExit? || a.StopSignal? {
      StopKeepsInv(s, a);
    }
  }

  lemma {:induction false} RunKeepsInv(s: State, run: seq<Action>)
    requires Inv(s)
    ensures Inv(Run(s, run))
  {
    if run != [] {
      RunKeepsInv(s, run[..|run| - 1]);
      StepKeepsInv(Run(s, run[..|run| - 1]), run[|run| - 1]);
    }
  }

  lemma {:induction false} QuietForever(s: State, run: seq<Action>)
    requires Quiet(s)
    ensures Quiet(Run(s, run))
  {
    if run != [] {
      QuietForever(s, run[..|run| - 1]);
    }
  }

  /** In every interleaving: once the Close that marked the queue has returned, no worker and no
      collector loop is running, and none ever starts again. */
  lemma {:induction false} CloseJoins(closers: set<nat>, run: seq<Action>, later: seq<Action>, c: nat)
    requires var s := Run(Initial(closers), run); c in s.closers && s.closers[c] == Returned(true)
    ensures Quiet(Run(Run(Initial(closers), run), later))
  {
    RunKeepsInv(Initial(closers), run);
    QuietForever(Run(Initial(closers), run), later);
  }

  /** A Close that finds the queue already closed returns at once: the documented "no Queue-owned
      goroutine after Close returns" fails for it while the first Close is still joining. */
  lemma SecondCloseCanReturnEarly()
    ensures var s := Run(Initial({1, 2}), [TrackWorker, CloseMark(1), CloseMark(2)]);
            2 in s.closers && s.closers[2] == Returned(false) && s.workers == 1 && !Quiet(s)
  {
    var s0 := Initial({1, 2});
    var run := [TrackWorker, CloseMark(1), CloseMark(2)];
    assert run[..2] == [TrackWorker, CloseMark(1)] && run[..2][..1] == [TrackWorker] && run[..2][..1][..0] == [];
    var s1 := Apply(s0, TrackWorker);
    assert Run(s0, run[..2][..1]) == s1 by {
      assert Run(s0, run[..2][..1][..0]) == s0;
    }
    assert Run(s0, run[..2]) == Apply(s1, CloseMark(1));
  }

  /** A closed queue has a Close call that joins or that has joined. */
  ghost predicate SomeoneJoins(s: State) {
    s.closed ==> exists c :: c in s.closers && (s.closers[c].Joining? || s.closers[c] == Returned(true))
  }

  lemma StepKeepsJoiner(s: State, a: Action)
    requires SomeoneJoins(s)
    ensures SomeoneJoins(Apply(s, a))
  {
    if a.CloseMark? && Enabled(s, a) && !s.closed {
      var s' := Apply(s, a);
      assert a.c in s'.closers && s'.closers[a.c].Joining?;
    } else if s.closed {
      var c :| c in s.closers && (s.closers[c].Joining? || s.closers[c] == Returned(true));
      var s' := Apply(s, a);
      assert c in s'.closers && (s'.closers[c].Joining? || s'.closers[c] == Returned(true));
    }
  }

  lemma {:induction false} AlwaysJoiner(closers: set<nat>, run: seq<Action>)
    ensures SomeoneJoins(Run(Initial(closers), run))
  {
    if run != [] {
      AlwaysJoiner(closers, run[..|run| - 1]);
      StepKeepsJoiner(Run(Initial(closers), run[..|run| - 1]), run[|run| - 1]);
    }
  }

  /** A Close that finds the queue closed while no other Close is still joining finds it quiet, and it
      stays so. */
  lemma {:induction false} QuietUnlessJoining(closers: set<nat>, run: seq<Action>, later: seq<Action>)
    requires var s := Run(Initial(closers), run); s.closed && forall c :: c in s.closers ==> !s.closers[c].Joining?
    ensures Quiet(Run(Run(Initial(closers), run), later))
  {
    AlwaysJoiner(closers, run);
    var s := Run(Initial(closers), run);
    var c :| c in s.closers && (s.closers[c].Joining? || s.closers[c] == Returned(true));
    CloseJoins(closers, run, later, c);
  }

  /** What the early return would have to wait for: exactly the tracked workers and the registered
      collectors. A collector that was never registered cannot be running. */
  lemma {:induction false} ClosedIsQuietIff(closers: set<nat>, run: seq<Action>)
    requires Run(Initial(closers), run).closed
    ensures var s := Run(Initial(closers), run);
            Quiet(s) <==> s.workers == 0 && forall g :: g in s.gcs && g in s.collectors ==> Still(s.collectors[g])
  {
    RunKeepsInv(Initial(closers), run);
  }

  lemma {:induction false} RunTwo(closers: set<nat>, run: seq<Action>, a: Action, b: Action)
    ensures Run(Initial(closers), run + [a]) == Apply(Run(Initial(closers), run), a)
    ensures Run(Initial(closers), run + [a, b]) == Apply(Run(Initial(closers), run + [a]), b)
  {
    assert (run + [a])[..|run|] == run && (run + [a, b])[..|run| + 1] == run + [a];
  }

  /** While the queue is open, collectors are registered when made and their loops really run; once it is
      closed a Start changes nothing. */
  lemma {:induction false} StartRuns(closers: set<nat>, run: seq<Action>, g: nat)
    requires var s := Run(Initial(closers), run); g in s.collectors && !s.collectors[g].starting
    ensures var s, s' := Run(Initial(closers), run), Run(Initial(closers), run + [StartCheck(g), StartFinish(g)]);
            && (!s.closed ==> g in s.gcs && g in s'.collectors && s'.collectors[g].started)
            && (!s.closed && !s.collectors[g].started ==> s'.collectors[g].running)
            && (s.closed ==> s' == s)
  {
    RunKeepsInv(Initial(closers), run);
    RunTwo(closers, run, StartCheck(g), StartFinish(g));
  }

  /** A worker counts from its Add to its Done, and only on an open queue. */
  lemma {:induction false} WorkersAreCounted(closers: set<nat>, run: seq<Action>)
    ensures var s := Run(Initial(closers), run);
            && Run(Initial(closers), run + [TrackWorker]).workers == s.workers + (if s.closed then 0 else 1)
            && (s.workers > 0 ==> Run(Initial(closers), run + [WorkerDone]).workers == s.workers - 1)
  {
    assert (run + [TrackWorker])[..|run|] == run && (run + [WorkerDone])[..|run|] == run;
  }

  // ---------------------------------------------------------------- the queue's own critical sections

  ghost predicate Reachable(s: State) {
    exists closers, run :: s == Run(Initial(closers), run)
  }

  lemma StepReaches(s: State, a: Action)
    requires Reachable(s)
    ensures Reachable(Apply(s, a))
  {
    var closers, run :| s == Run(Initial(closers), run);
    assert (run + [a])[..|run|] == run;
    assert Apply(s, a) == Run(Initial(closers), run + [a]);
  }

  class Queue {
    var closed: bool
    var gcs: seq<nat>
    var workers: nat
    ghost var collectors: map<nat, Collector>
    ghost var closers: map<nat, Closer>

    ghost function Abstract(): State
      reads this
    {
      State(closed, gcs, workers, collectors, closers)
    }

    /** The queue is in a state of some run, so everything proved of runs holds of it. */
    ghost predicate Valid()
      reads this
    {
      Reachable(Abstract())
    }

    /** `calls` are the Close calls that will ever be made. */
    constructor (ghost calls: set<nat>)
      ensures Valid() && Abstract() == Initial(calls)
    {
      closed, gcs, workers, collectors, closers := false, [], 0, map[], map c | c in calls :: NotCalled;
      new;
      assert Abstract() == Run(Initial(calls), []);
    }

    /** False, and no Add, once the queue is closed. */
    method TrackWorker() returns (ok: bool)
      requires Valid()
      modifies this
      ensures Valid() && Abstract() == Apply(old(Abstract()), Action.TrackWorker) && ok == !old(closed)
    {
      StepReaches(Abstract(), Action.TrackWorker);
      if closed {
        return false;
      }
      workers := workers + 1;
      return true;
    }

    /** A collector made after Close is not recorded; its Start refuses on its own. */
    method RegisterGc(g: nat)
      requires Valid() && g !in collectors
      modifies this
      ensures Valid() && Abstract() == Apply(old(Abstract()), NewCollector(g))
    {
      StepReaches(Abstract(), NewCollector(g));
      collectors := collectors[g := Collector(false, false, false, false)];
      if closed {
        return;
      }
      gcs := gcs + [g];
    }

    /** The section of Close that decides who joins: the first call gets the collectors to stop. The
        others return, to a quiet queue unless the first is still joining. */
    method MarkClosed(ghost c: nat) returns (snapshot: Option<seq<nat>>)
      requires Valid() && c in closers && closers[c].NotCalled?
      modifies this
      ensures Valid() && Abstract() == Apply(old(Abstract()), CloseMark(c))
      ensures snapshot == if old(closed) then None else Some(gcs)
      ensures snapshot.None? && (forall k :: k in closers ==> !closers[k].Joining?) ==> Quiet(Abstract())
    {
      StepReaches(Abstract(), CloseMark(c));
      if closed {
        closers := closers[c := Returned(false)];
        ReachedIsQuiet(Abstract());
        return None;
      }
      closed := true;
      closers := closers[c := Joining(gcs, 0, false)];
      return Some(gcs);
    }
  }

  lemma ReachedIsQuiet(s: State)
    requires Reachable(s) && s.closed
    ensures (forall c :: c in s.closers ==> !s.closers[c].Joining?) ==> Quiet(s)
  {
    if forall c :: c in s.closers ==> !s.closers[c].Joining? {
      var closers, run :| s == Run(Initial(closers), run);
      QuietUnlessJoining(closers, run, []);
    }
  }
}
