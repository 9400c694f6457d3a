/** Runs in which the lifecycle does what its callers may not expect, each built step by step. */
module LifecycleWitnesses {
  import opened Wrappers
  import opened Lifecycle
  import opened LifecycleSafety
  import LifecycleReadiness
  import RT = RequestTracker

  /** Some run passes through one state and ends in the other. */
  ghost predicate Leads(past: State, s: State) {
    exists run, i :: IsRun(run) && 0 <= i < |run| && run[i] == past && run[|run| - 1] == s
  }

  lemma Take(past: State, s: State, step: Step)
    requires Leads(past, s) && Enabled(s, step)
    ensures Leads(past, Apply(s, step))
  {
    var run, k :| IsRun(run) && 0 <= k < |run| && run[k] == past && run[|run| - 1] == s;
    var longer := run + [Apply(s, step)];
    forall i | 0 <= i < |longer| - 1
      ensures Next(longer[i], longer[i + 1])
    {
      if i < |run| - 1 {
        assert Next(run[i], run[i + 1]);
      } else {
        assert Enabled(s, step) && longer[i + 1] == Apply(s, step);
      }
    }
    assert IsRun(longer) && longer[k] == past && longer[|longer| - 1] == Apply(s, step);
  }

  const NEW_SERVER := State(InitialShared(Some(1)), map[], map[], map[])

  lemma NewServerIsRun()
    ensures Leads(NEW_SERVER, NEW_SERVER)
  {
    var run := [NEW_SERVER];
    assert IsRun(run) && run[0] == NEW_SERVER;
  }

  lemma Restart(past: State, s: State)
    requires Leads(past, s)
    ensures Leads(s, s)
  {
    var run, k :| IsRun(run) && 0 <= k < |run| && run[k] == past && run[|run| - 1] == s;
    assert run[|run| - 1] == s;
  }

  // ---------------------------------------------------------------- one step of one thread

  /** Two states are the same but for one Start and the shared state. */
  predicate Only(s: State, s': State, t: nat, sh: Shared, th: Starter) {
    s' == State(sh, s'.trackers, s.starters[t := th], s.stoppers)
  }

  lemma RunsStart(past: State, s: State, t: nat, c: Choice, sh: Shared, th: Starter) returns (s': State)
    requires Leads(past, s) && Enabled(s, RunStart(t, c)) && StartStep(s.sh, t, s.starters[t], c) == (sh, th)
    requires !th.pc.Serving?
    ensures Leads(past, s') && Only(s, s', t, sh, th)
    ensures s'.trackers == TrackersAfterStart(s.trackers, t, s.starters[t].pc, th.pc)
  {
    Take(past, s, RunStart(t, c));
    s' := Apply(s, RunStart(t, c));
  }

  lemma Again(s: State, s1: State, s2: State, t: nat, sh1: Shared, sh2: Shared, th1: Starter, th2: Starter)
    requires Only(s, s1, t, sh1, th1) && Only(s1, s2, t, sh2, th2)
    ensures Only(s, s2, t, sh2, th2)
  {
    assert s.starters[t := th1][t := th2] == s.starters[t := th2];
  }

  // ---------------------------------------------------------------- a Start that comes to serve

  /** No server runs, none is pending, and the slot is free. */
  ghost predicate Idle(past: State, s: State, t: nat) {
    && Leads(past, s) && !s.sh.started && !s.sh.startupPending && s.sh.slot == Some(1) && !s.sh.panicked
    && t !in s.starters && StartupCh(t) !in s.sh.closed
  }

  function PendingShared(sh: Shared, t: nat): Shared {
    sh.(startupPending := true, startupCancelled := false, startupDone := Some(StartupCh(t)))
  }

  lemma Calls(past: State, s: State, t: nat) returns (s': State)
    requires Leads(past, s) && t !in s.starters
    ensures Leads(past, s') && s' == s.(starters := s.starters[t := NEW_START])
  {
    Take(past, s, CallStart(t));
    s' := Apply(s, CallStart(t));
  }

  lemma BecomesPending(past: State, s: State, t: nat) returns (s': State)
    requires Idle(past, s, t)
    ensures Leads(past, s') && Only(s, s', t, PendingShared(s.sh, t), NEW_START.(pc := PrepareSlot, made := true))
    ensures s'.trackers == s.trackers
  {
    var s1 := Calls(past, s, t);
    var s2 := RunsStart(past, s1, t, Proceed, s1.sh, NEW_START.(pc := Request));
    Again(s, s1, s2, t, s1.sh, s1.sh, NEW_START, NEW_START.(pc := Request));
    s' := RunsStart(past, s2, t, Proceed, PendingShared(s.sh, t), NEW_START.(pc := PrepareSlot, made := true));
    Again(s, s2, s', t, s1.sh, PendingShared(s.sh, t), NEW_START.(pc := Request), NEW_START.(pc := PrepareSlot, made := true));
  }

  lemma TakesSlot(past: State, s: State, t: nat) returns (s': State)
    requires Leads(past, s) && t in s.starters && s.starters[t].pc.PrepareSlot? && s.sh.slot == Some(1)
    ensures Leads(past, s') && Only(s, s', t, s.sh.(slot := Some(0)), s.starters[t].(pc := Claim)) && s'.trackers == s.trackers
  {
    var th := s.starters[t];
    var s1 := RunsStart(past, s, t, Proceed, s.sh, th.(pc := AwaitSlot));
    s' := RunsStart(past, s1, t, Proceed, s.sh.(slot := Some(0)), th.(pc := Claim));
    Again(s, s1, s', t, s.sh, s.sh.(slot := Some(0)), th.(pc := AwaitSlot), th.(pc := Claim));
  }

  lemma ClaimsNext(past: State, s: State, t: nat) returns (s': State)
    requires Leads(past, s) && t in s.starters && s.starters[t].pc.Claim? && !s.sh.started && !s.sh.startupCancelled
    ensures Leads(past, s') && s'.trackers == s.trackers
    ensures Only(s, s', t, ClaimGeneration(s.sh).(ready := false), s.starters[t].(pc := Prepare, generation := s.sh.generation + 1))
  {
    var th, g := s.starters[t], s.sh.generation + 1;
    var s1 := RunsStart(past, s, t, Proceed, ClaimGeneration(s.sh), th.(pc := ClearReady, generation := g));
    var sh2 := ClaimGeneration(s.sh).(ready := false);
    s' := RunsStart(past, s1, t, Proceed, sh2, th.(pc := Prepare, generation := g));
    Again(s, s1, s', t, s1.sh, sh2, th.(pc := ClearReady, generation := g), th.(pc := Prepare, generation := g));
  }

  /** The Start runs in the current generation, and nobody wants it to stop. */
  predicate Undisturbed(s: State, t: nat) {
    && t in s.starters && s.starters[t].generation == s.sh.generation && !s.sh.shutdownStarted && !s.starters[t].cancelled
  }

  lemma Publishes(past: State, s: State, t: nat) returns (s': State)
    requires Leads(past, s) && Undisturbed(s, t) && s.starters[t].pc.Prepare?
    ensures Leads(past, s') && Only(s, s', t, Publish(s.sh, t), s.starters[t].(pc := Published))
    ensures s'.trackers == s.trackers[t := RT.NEW_TRACKER]
  {
    var th := s.starters[t];
    var s1 := RunsStart(past, s, t, Proceed, s.sh, th.(pc := PublishPc));
    s' := RunsStart(past, s1, t, Proceed, Publish(s.sh, t), th.(pc := Published));
    Again(s, s1, s', t, s.sh, Publish(s.sh, t), th.(pc := PublishPc), th.(pc := Published));
  }

  lemma MarksServing(past: State, s: State, t: nat) returns (s': State)
    requires Leads(past, s) && Undisturbed(s, t) && s.starters[t].pc.Published?
    ensures Leads(past, s') && Only(s, s', t, s.sh.(serveStarted := true), s.starters[t].(pc := Handoff)) && s'.trackers == s.trackers
  {
    var th := s.starters[t];
    var s1 := RunsStart(past, s, t, Proceed, s.sh, th.(pc := MarkServing));
    s' := RunsStart(past, s1, t, Proceed, s.sh.(serveStarted := true), th.(pc := Handoff));
    Again(s, s1, s', t, s.sh, s.sh.(serveStarted := true), th.(pc := MarkServing), th.(pc := Handoff));
  }

  lemma HandsOverTo(past: State, s: State, t: nat) returns (s': State)
    requires Leads(past, s) && Undisturbed(s, t) && s.starters[t].pc.Handoff? && s.sh.httpServer == Some(t) == s.sh.listener
    ensures Leads(past, s') && s'.trackers == s.trackers
    ensures s' == State(s.sh.(ready := true), s.trackers, s.starters[t := s.starters[t].(pc := Serving, handed := true)],
                        s.stoppers[Watcher(t) := NewStopper(Watching, s.starters[t].generation)])
  {
    Take(past, s, RunStart(t, Proceed));
    s' := Apply(s, RunStart(t, Proceed));
  }

  function ServedShared(sh: Shared, t: nat): Shared {
    Publish(ClaimGeneration(PendingShared(sh, t).(slot := Some(0))), t).(serveStarted := true, ready := true)
  }

  function ServingStart(g: nat): Starter {
    Starter(Serving, g, true, false, false, true)
  }

  lemma ComesToClaim(past: State, s: State, t: nat) returns (s': State)
    requires Idle(past, s, t)
    ensures Leads(past, s') && s'.trackers == s.trackers
    ensures Only(s, s', t, PendingShared(s.sh, t).(slot := Some(0)), NEW_START.(pc := Claim, made := true))
  {
    var s1 := BecomesPending(past, s, t);
    s' := TakesSlot(past, s1, t);
    Again(s, s1, s', t, PendingShared(s.sh, t), PendingShared(s.sh, t).(slot := Some(0)),
          NEW_START.(pc := PrepareSlot, made := true), NEW_START.(pc := Claim, made := true));
  }

  lemma ComesToHandoff(past: State, s: State, t: nat) returns (s': State)
    requires Leads(past, s) && t in s.starters && s.starters[t] == NEW_START.(pc := Claim, made := true)
    requires !s.sh.started && !s.sh.startupCancelled
    ensures Leads(past, s') && s'.trackers == s.trackers[t := RT.NEW_TRACKER]
    ensures Only(s, s', t, Publish(ClaimGeneration(s.sh).(ready := false), t).(serveStarted := true),
                 Starter(Handoff, s.sh.generation + 1, true, false, false, false))
  {
    var g := s.sh.generation + 1;
    var sh1 := ClaimGeneration(s.sh).(ready := false);
    var th1 := Starter(Prepare, g, true, false, false, false);
    var s1 := ClaimsNext(past, s, t);
    var s2 := Publishes(past, s1, t);
    Again(s, s1, s2, t, sh1, Publish(sh1, t), th1, th1.(pc := Published));
    s' := MarksServing(past, s2, t);
    Again(s, s2, s', t, Publish(sh1, t), Publish(sh1, t).(serveStarted := true), th1.(pc := Published), th1.(pc := Handoff));
  }

  /** From any idle state a Start can come to serve in the next generation. */
  lemma ComesToServe(past: State, s: State, t: nat) returns (s': State)
    requires Idle(past, s, t)
    ensures Leads(past, s')
    ensures s' == State(ServedShared(s.sh, t), s.trackers[t := RT.NEW_TRACKER], s.starters[t := ServingStart(s.sh.generation + 1)],
                        s.stoppers[Watcher(t) := NewStopper(Watching, s.sh.generation + 1)])
  {
    var s1 := ComesToClaim(past, s, t);
    var s2 := ComesToHandoff(past, s1, t);
    Again(s, s1, s2, t, s1.sh, s2.sh, s1.starters[t], s2.starters[t]);
    s' := HandsOverTo(past, s2, t);
    assert s.starters[t := s2.starters[t]][t := ServingStart(s.sh.generation + 1)] == s.starters[t := ServingStart(s.sh.generation + 1)];
  }

  // ---------------------------------------------------------------- a Start that comes to its end

  /** The Start serves and no request is being handled. */
  predicate Quiescent(s: State, t: nat) {
    t in s.starters && s.starters[t].pc.Serving? && s.starters[t].generation == s.sh.generation
    && t in s.trackers && s.trackers[t].active == 0 && (s.trackers[t].stopping ==> s.trackers[t].done)
  }

  lemma StopsServing(past: State, s: State, t: nat) returns (s': State)
    requires Leads(past, s) && Quiescent(s, t)
    ensures Leads(past, s') && s'.trackers == s.trackers
    ensures Only(s, s', t, s.sh, s.starters[t].(pc := StopHandler(ServerClosed, s.sh.shutdownStarted), serveDone := true))
  {
    var th := s.starters[t].(serveDone := true);
    var s1 := RunsStart(past, s, t, Fail(ServerClosed), s.sh, th.(pc := Served(ServerClosed)));
    s' := RunsStart(past, s1, t, Proceed, s.sh, th.(pc := StopHandler(ServerClosed, s.sh.shutdownStarted)));
    Again(s, s1, s', t, s.sh, s.sh, th.(pc := Served(ServerClosed)), th.(pc := StopHandler(ServerClosed, s.sh.shutdownStarted)));
  }

  lemma StopDrainsIt(x: RT.Tracker)
    requires x.active == 0 && (x.stopping ==> x.done)
    ensures RT.Stop(x).done && RT.Stop(x).stopping && RT.Stop(x).active == 0
  {
  }

  lemma StopsHandler(past: State, s: State, t: nat) returns (s': State)
    requires Leads(past, s) && t in s.starters && s.starters[t].pc == StopHandler(ServerClosed, s.sh.shutdownStarted)
    requires t in s.trackers && s.trackers[t].active == 0 && (s.trackers[t].stopping ==> s.trackers[t].done)
    ensures Leads(past, s') && t in s'.trackers && s'.trackers[t].done
    ensures Only(s, s', t, s.sh, s.starters[t].(pc := Draining(ServerClosed, s.sh.shutdownStarted)))
  {
    StopDrainsIt(s.trackers[t]);
    s' := RunsStart(past, s, t, Proceed, s.sh, s.starters[t].(pc := Draining(ServerClosed, s.sh.shutdownStarted)));
  }

  lemma FinishesDraining(past: State, s: State, t: nat) returns (s': State)
    requires Leads(past, s) && t in s.starters && s.starters[t].pc.Draining? && s.starters[t].pc.err == ServerClosed
    requires t in s.trackers && s.trackers[t].done
    ensures Leads(past, s') && Only(s, s', t, s.sh, s.starters[t].(pc := CompletePc(None)))
  {
    s' := RunsStart(past, s, t, Proceed, s.sh, s.starters[t].(pc := CompletePc(None)));
  }

  lemma Drains(past: State, s: State, t: nat) returns (s': State)
    requires Leads(past, s) && Quiescent(s, t)
    ensures Leads(past, s') && Only(s, s', t, s.sh, s.starters[t].(pc := CompletePc(None), serveDone := true))
  {
    var s1 := StopsServing(past, s, t);
    var s2 := StopsHandler(past, s1, t);
    Again(s, s1, s2, t, s.sh, s.sh, s1.starters[t], s2.starters[t]);
    s' := FinishesDraining(past, s2, t);
    Again(s, s2, s', t, s.sh, s.sh, s2.starters[t], s'.starters[t]);
  }

  function Ended(th: Starter): Starter {
    th.(pc := Returned, serveDone := true)
  }

  /** The Start ends after somebody else completed its generation. */
  lemma EndsAfterCompletion(past: State, s: State, t: nat) returns (s': State)
    requires Leads(past, s) && Quiescent(s, t) && s.sh.shutdownComplete && s.sh.slot == Some(0)
    ensures Leads(past, s') && Only(s, s', t, s.sh.(slot := Some(1)), Ended(s.starters[t]))
  {
    var th := s.starters[t].(serveDone := true);
    var s1 := Drains(past, s, t);
    var s2 := RunsStart(past, s1, t, Proceed, s.sh, th.(pc := Release));
    Again(s, s1, s2, t, s.sh, s.sh, th.(pc := CompletePc(None)), th.(pc := Release));
    s' := RunsStart(past, s2, t, Proceed, s.sh.(slot := Some(1)), th.(pc := Returned));
    Again(s, s2, s', t, s.sh, s.sh.(slot := Some(1)), th.(pc := Release), th.(pc := Returned));
  }

  lemma Completes(past: State, s: State, t: nat) returns (s': State)
    requires Leads(past, s) && t in s.starters && s.starters[t].pc == CompletePc(None) && CompletesNow(s.sh, s.starters[t].generation)
    ensures Leads(past, s')
    ensures Only(s, s', t, CompleteLifecycle(s.sh, s.starters[t].generation, None).(ready := false), s.starters[t].(pc := Release))
  {
    var th := s.starters[t];
    var sh1 := CompleteLifecycle(s.sh, th.generation, None);
    var s1 := RunsStart(past, s, t, Proceed, sh1, th.(pc := Completed));
    s' := RunsStart(past, s1, t, Proceed, sh1.(ready := false), th.(pc := Release));
    Again(s, s1, s', t, sh1, sh1.(ready := false), th.(pc := Completed), th.(pc := Release));
  }

  lemma Releases(past: State, s: State, t: nat) returns (s': State)
    requires Leads(past, s) && t in s.starters && s.starters[t].pc.Release? && s.sh.slot == Some(0)
    ensures Leads(past, s') && Only(s, s', t, s.sh.(slot := Some(1)), s.starters[t].(pc := Returned))
  {
    s' := RunsStart(past, s, t, Proceed, s.sh.(slot := Some(1)), s.starters[t].(pc := Returned));
  }

  /** The Start completes its generation itself and ends. */
  lemma EndsItself(past: State, s: State, t: nat) returns (s': State)
    requires Leads(past, s) && Quiescent(s, t) && !s.sh.shutdownComplete && s.sh.slot == Some(0)
    ensures Leads(past, s')
    ensures Only(s, s', t, CompleteLifecycle(s.sh, s.sh.generation, None).(ready := false).(slot := Some(1)), Ended(s.starters[t]))
  {
    var s1 := Drains(past, s, t);
    var s2 := Completes(past, s1, t);
    Again(s, s1, s2, t, s1.sh, s2.sh, s1.starters[t], s2.starters[t]);
    CompletionKeepsSlot(s.sh);
    s' := Releases(past, s2, t);
    Again(s, s2, s', t, s2.sh, s'.sh, s2.starters[t], s'.starters[t]);
  }

  lemma CompletionKeepsSlot(sh: Shared)
    ensures CompleteLifecycle(sh, sh.generation, None).slot == sh.slot
  {
  }

  // ---------------------------------------------------------------- a Shutdown

  lemma RunsStop(past: State, s: State, id: StopId, c: Choice, sh: Shared, st: Stopper) returns (s': State)
    requires Leads(past, s) && Enabled(s, RunStop(id, c)) && StopStep(s.sh, id, s.stoppers[id], c) == (sh, st)
    ensures Leads(past, s')
    ensures s' == State(sh, TrackersAfterStop(s.trackers, s.stoppers[id]), s.starters, s.stoppers[id := st])
  {
    Take(past, s, RunStop(id, c));
    s' := Apply(s, RunStop(id, c));
  }

  /** Only this stopper and the shared state moved. */
  predicate OnlyStop(s: State, s': State, id: StopId, sh: Shared, st: Stopper) {
    s' == State(sh, s'.trackers, s.starters, s.stoppers[id := st])
  }

  lemma AgainStop(s: State, s1: State, s2: State, id: StopId, sh1: Shared, sh2: Shared, st1: Stopper, st2: Stopper)
    requires OnlyStop(s, s1, id, sh1, st1) && OnlyStop(s1, s2, id, sh2, st2)
    ensures OnlyStop(s, s2, id, sh2, st2)
  {
    assert s.stoppers[id := st1][id := st2] == s.stoppers[id := st2];
  }

  lemma CallsShutdown(past: State, s: State, n: nat) returns (s': State)
    requires Leads(past, s) && Caller(n) !in s.stoppers
    ensures Leads(past, s') && s' == s.(stoppers := s.stoppers[Caller(n) := NewStopper(Enter, 0)])
  {
    Take(past, s, CallShutdown(n));
    s' := Apply(s, CallShutdown(n));
  }

  /** A server of Start `t` is up and nobody has asked it to stop. */
  predicate Up(s: State, t: nat) {
    && s.sh.started && !s.sh.startupPending && !s.sh.shutdownStarted && s.sh.serveStarted
    && s.sh.httpServer == Some(t) == s.sh.tracker && s.sh.shutdownDone == Some(ShutdownCh(s.sh.generation))
  }

  function BegunShared(sh: Shared): Shared {
    sh.(mcpClosed := true, shutdownStarted := true)
  }

  function Begun(g: nat, t: nat): Stopper {
    NewStopper(StopTracker, 0).(captured := g, awaited := Some(ShutdownCh(g)), tracker := Some(t))
  }

  /** The first Shutdown begins. */
  lemma Begins(past: State, s: State, n: nat, t: nat) returns (s': State)
    requires Leads(past, s) && Caller(n) !in s.stoppers && Up(s, t)
    ensures Leads(past, s') && s'.trackers == s.trackers
    ensures OnlyStop(s, s', Caller(n), BegunShared(s.sh), Begun(s.sh.generation, t))
  {
    var s1 := CallsShutdown(past, s, n);
    s' := RunsStop(past, s1, Caller(n), Proceed, BegunShared(s.sh), Begun(s.sh.generation, t));
    AgainStop(s, s1, s', Caller(n), s.sh, BegunShared(s.sh), NewStopper(Enter, 0), Begun(s.sh.generation, t));
  }

  /** It stops the tracker and the readiness and comes to the HTTP shutdown. */
  lemma ComesToHttp(past: State, s: State, n: nat, t: nat) returns (s': State)
    requires Leads(past, s) && Caller(n) in s.stoppers && s.stoppers[Caller(n)].pc.StopTracker? && s.stoppers[Caller(n)].tracker == Some(t)
    requires t in s.trackers && s.trackers[t].active == 0 && (s.trackers[t].stopping ==> s.trackers[t].done)
    ensures Leads(past, s') && OnlyStop(s, s', Caller(n), s.sh.(ready := false), s.stoppers[Caller(n)].(pc := HttpShutdown))
    ensures t in s'.trackers && s'.trackers[t].done && s'.trackers[t].active == 0
  {
    var id, st := Caller(n), s.stoppers[Caller(n)];
    StopDrainsIt(s.trackers[t]);
    var s1 := RunsStop(past, s, id, Proceed, s.sh, st.(pc := UnreadyThenShutdown));
    s' := RunsStop(past, s1, id, Proceed, s.sh.(ready := false), st.(pc := HttpShutdown));
    AgainStop(s, s1, s', id, s.sh, s.sh.(ready := false), st.(pc := UnreadyThenShutdown), st.(pc := HttpShutdown));
  }

  /** The HTTP shutdown succeeds and the Shutdown completes the generation, with its store still owed. */
  lemma CompletesByShutdown(past: State, s: State, n: nat, t: nat) returns (s': State)
    requires Leads(past, s) && Caller(n) in s.stoppers && s.stoppers[Caller(n)].pc.HttpShutdown? && s.stoppers[Caller(n)].tracker == Some(t)
    requires t in s.trackers && s.trackers[t].done && CompletesNow(s.sh, s.stoppers[Caller(n)].captured)
    ensures Leads(past, s') && s'.trackers == s.trackers
    ensures OnlyStop(s, s', Caller(n), CompleteLifecycle(s.sh, s.sh.generation, None), s.stoppers[Caller(n)].(pc := StopCompleted))
  {
    var id, st := Caller(n), s.stoppers[Caller(n)];
    var s1 := RunsStop(past, s, id, Proceed, s.sh, st.(pc := AwaitTracker));
    var s2 := RunsStop(past, s1, id, Proceed, s.sh, st.(pc := StopComplete));
    AgainStop(s, s1, s2, id, s.sh, s.sh, st.(pc := AwaitTracker), st.(pc := StopComplete));
    s' := RunsStop(past, s2, id, Proceed, CompleteLifecycle(s.sh, s.sh.generation, None), st.(pc := StopCompleted));
    AgainStop(s, s2, s', id, s.sh, s'.sh, st.(pc := StopComplete), st.(pc := StopCompleted));
  }

  // ---------------------------------------------------------------- the first generation, served

  /** What is known of a state in which Start 0 serves the first generation. */
  predicate FirstServed(s: State) {
    && s.starters == map[0 := ServingStart(1)] && s.trackers == map[0 := RT.NEW_TRACKER]
    && s.stoppers == map[Watcher(0) := NewStopper(Watching, 1)]
    && Up(s, 0) && s.sh.generation == 1 && s.sh.slot == Some(0) && s.sh.closed == {StartupCh(0)}
    && !s.sh.panicked && !s.sh.shutdownComplete && s.sh.shutdownErr == None
  }

  lemma ServedSharedIs(sh: Shared, t: nat)
    requires StartupCh(t) !in sh.closed
    ensures var x := ServedShared(sh, t);
            && x.started && !x.startupPending && !x.shutdownStarted && x.serveStarted && x.ready && !x.shutdownComplete
            && x.httpServer == Some(t) == x.tracker && x.shutdownDone == Some(ShutdownCh(sh.generation + 1))
            && x.generation == sh.generation + 1 && x.slot == Some(0) && x.closed == sh.closed + {StartupCh(t)}
            && x.panicked == sh.panicked && x.shutdownErr == None
  {
  }

  lemma FirstServes() returns (s: State)
    ensures Leads(NEW_SERVER, s) && FirstServed(s)
  {
    NewServerIsRun();
    s := ComesToServe(NEW_SERVER, NEW_SERVER, 0);
    ServedSharedIs(NEW_SERVER.sh, 0);
  }

  lemma CompletionIs(sh: Shared)
    requires !sh.shutdownComplete && sh.shutdownDone == Some(ShutdownCh(sh.generation)) && ShutdownCh(sh.generation) !in sh.closed
    ensures var x := CompleteLifecycle(sh, sh.generation, None);
            && x.shutdownComplete && !x.started && x.generation == sh.generation && x.slot == sh.slot
            && x.closed == sh.closed + {ShutdownCh(sh.generation)} && x.panicked == sh.panicked
            && x.startupPending == sh.startupPending && x.shutdownErr == sh.shutdownErr
  {
  }

  // ---------------------------------------------------------------- a serving server that is not ready

  lemma FirstIsShutDown() returns (s: State)
    ensures Leads(NEW_SERVER, s)
    ensures s.starters == map[0 := ServingStart(1)] && 0 in s.trackers && s.trackers[0].done && s.trackers[0].active == 0
    ensures s.stoppers == map[Watcher(0) := NewStopper(Watching, 1), Caller(0) := Begun(1, 0).(pc := StopCompleted)]
    ensures s.sh.shutdownComplete && !s.sh.started && !s.sh.startupPending && s.sh.generation == 1 && s.sh.slot == Some(0)
    ensures s.sh.closed == {StartupCh(0), ShutdownCh(1)} && !s.sh.panicked
  {
    var s1 := FirstServes();
    var s2 := Begins(NEW_SERVER, s1, 0, 0);
    var s3 := ComesToHttp(NEW_SERVER, s2, 0, 0);
    AgainStop(s1, s2, s3, Caller(0), s2.sh, s3.sh, s2.stoppers[Caller(0)], s3.stoppers[Caller(0)]);
    s := CompletesByShutdown(NEW_SERVER, s3, 0, 0);
    AgainStop(s1, s3, s, Caller(0), s3.sh, s.sh, s3.stoppers[Caller(0)], s.stoppers[Caller(0)]);
    CompletionIs(s3.sh);
  }

  /** Start 1 serves the second generation while the first generation's Shutdown still owes its store. */
  lemma SecondServesWithStoreOwed() returns (s: State)
    ensures Leads(NEW_SERVER, s) && LifecycleReadiness.IsServing(s, 1) && s.starters[1] == ServingStart(2)
    ensures s.sh.started && !s.sh.shutdownStarted && s.sh.ready && s.sh.generation == 2
    ensures Caller(0) in s.stoppers && s.stoppers[Caller(0)] == Begun(1, 0).(pc := StopCompleted)
  {
    var s1 := FirstIsShutDown();
    var s2 := EndsAfterCompletion(NEW_SERVER, s1, 0);
    s := ComesToServe(NEW_SERVER, s2, 1);
    ServedSharedIs(s2.sh, 1);
  }

  /**
   A serving server need not be ready: Start 1 serves generation 2, its context is live, nobody has asked
   it to stop, and yet it is unready, since the Shutdown of generation 1 stored last.
   */
  lemma ServingMayBeUnready()
    ensures exists s: State ::
              && Leads(NEW_SERVER, s) && LifecycleReadiness.IsServing(s, 1)
              && s.starters[1].generation == s.sh.generation == 2 && !s.starters[1].cancelled
              && s.sh.started && !s.sh.shutdownStarted && !s.sh.ready
              && Caller(0) in s.stoppers && s.stoppers[Caller(0)].pc.StopReturned? && s.stoppers[Caller(0)].captured == 1
  {
    var s1 := SecondServesWithStoreOwed();
    var s := RunsStop(NEW_SERVER, s1, Caller(0), Proceed, s1.sh.(ready := false), Begun(1, 0).(pc := StopReturned));
    assert LifecycleReadiness.IsServing(s, 1);
  }

  // ---------------------------------------------------------------- a watcher and a pending successor

  lemma WatcherWakes(past: State, s: State, t: nat) returns (s': State)
    requires Leads(past, s) && t in s.starters && Watcher(t) in s.stoppers && s.stoppers[Watcher(t)].pc.Watching?
    ensures Leads(past, s')
    ensures s' == State(s.sh, s.trackers, s.starters[t := s.starters[t].(cancelled := true)],
                        s.stoppers[Watcher(t) := s.stoppers[Watcher(t)].(pc := Enter)])
  {
    Take(past, s, CancelStart(t));
    var s1 := Apply(s, CancelStart(t));
    s' := RunsStop(past, s1, Watcher(t), Proceed, s.sh, s.stoppers[Watcher(t)].(pc := Enter));
  }

  /**
   A watcher of generation 1 can come upon Start 1, which is pending while the generation is still 1, and
   cancels it; a startup that was seen so never claims.
   */
  lemma WatcherMayCancelSuccessor()
    ensures exists s: State ::
              && Leads(NEW_SERVER, s) && 1 in s.starters && Pends(s.starters[1]) && s.sh.startupPending && s.sh.startupCancelled
              && Watcher(0) in s.stoppers && s.stoppers[Watcher(0)].target == s.sh.generation == 1
              && s.stoppers[Watcher(0)].saw == Some(StartupCh(1))
  {
    var s1 := FirstServes();
    var s2 := WatcherWakes(NEW_SERVER, s1, 0);
    CompletionIs(s2.sh);
    var s3 := EndsItself(NEW_SERVER, s2, 0);
    var s4 := BecomesPending(NEW_SERVER, s3, 1);
    var found := NewStopper(UnreadyThenAwait(Some(StartupCh(1))), 1).(saw := Some(StartupCh(1)));
    var s := RunsStop(NEW_SERVER, s4, Watcher(0), Proceed, s4.sh.(mcpClosed := true, startupCancelled := true), found);
    assert Pends(s.starters[1]) && s.stoppers[Watcher(0)] == found;
  }

  // ---------------------------------------------------------------- a waiter that reads a successor's error

  /** A second Shutdown finds the first one begun and waits for the same channel. */
  lemma JoinsShutdown(past: State, s: State, n: nat) returns (s': State)
    requires Leads(past, s) && Caller(n) !in s.stoppers && s.sh.started && !s.sh.startupPending && s.sh.shutdownStarted
    ensures Leads(past, s') && s'.trackers == s.trackers
    ensures OnlyStop(s, s', Caller(n), s.sh.(mcpClosed := true),
                     NewStopper(AwaitLifecycle(s.sh.shutdownDone), 0).(awaited := s.sh.shutdownDone))
  {
    var st := NewStopper(AwaitLifecycle(s.sh.shutdownDone), 0).(awaited := s.sh.shutdownDone);
    var s1 := CallsShutdown(past, s, n);
    s' := RunsStop(past, s1, Caller(n), Proceed, s.sh.(mcpClosed := true), st);
    AgainStop(s, s1, s', Caller(n), s.sh, s.sh.(mcpClosed := true), NewStopper(Enter, 0), st);
  }

  /** The HTTP shutdown fails and its error is recorded for the generation. */
  lemma FailsHttp(past: State, s: State, n: nat, err: Error) returns (s': State)
    requires Leads(past, s) && Caller(n) in s.stoppers && s.stoppers[Caller(n)].pc.HttpShutdown?
    requires CompletesNow(s.sh, s.stoppers[Caller(n)].captured)
    ensures Leads(past, s') && s'.trackers == s.trackers
    ensures OnlyStop(s, s', Caller(n), s.sh.(shutdownErr := Some(err)),
                     s.stoppers[Caller(n)].(pc := StopReturned, gaveUp := true, result := Some(err)))
  {
    var id, st := Caller(n), s.stoppers[Caller(n)];
    var s1 := RunsStop(past, s, id, Fail(err), s.sh, st.(pc := RecordErr(err)));
    s' := RunsStop(past, s1, id, Proceed, s.sh.(shutdownErr := Some(err)), st.(pc := StopReturned, gaveUp := true, result := Some(err)));
    AgainStop(s, s1, s', id, s.sh, s'.sh, st.(pc := RecordErr(err)), s'.stoppers[id]);
  }

  predicate WaitsForFirst(st: Stopper) {
    st == NewStopper(AwaitLifecycle(Some(ShutdownCh(1))), 0).(awaited := Some(ShutdownCh(1)))
  }

  /** Generation 1 serves, its shutdown has failed with an error, and Shutdown 1 waits for it to complete. */
  lemma FirstFails(err: Error) returns (s: State)
    ensures Leads(NEW_SERVER, s) && s.starters == map[0 := ServingStart(1)]
    ensures 0 in s.trackers && s.trackers[0].done && s.trackers[0].active == 0
    ensures Caller(1) in s.stoppers && WaitsForFirst(s.stoppers[Caller(1)])
    ensures s.sh.shutdownErr == Some(err) && !s.sh.shutdownComplete && s.sh.generation == 1 && s.sh.slot == Some(0) && !s.sh.startupPending
    ensures s.sh.closed == {StartupCh(0)} && !s.sh.panicked && s.sh.shutdownDone == Some(ShutdownCh(1))
  {
    var s1 := FirstServes();
    var s2 := Begins(NEW_SERVER, s1, 0, 0);
    var s3 := JoinsShutdown(NEW_SERVER, s2, 1);
    var s4 := ComesToHttp(NEW_SERVER, s3, 0, 0);
    s := FailsHttp(NEW_SERVER, s4, 0, err);
  }

  /** Generation 1 completes with that error, and the waiter has seen it complete. */
  lemma FirstFailsAndCompletes(err: Error) returns (s: State)
    ensures Leads(NEW_SERVER, s) && s.starters == map[0 := Ended(ServingStart(1))]
    ensures Caller(1) in s.stoppers && s.stoppers[Caller(1)] == NewStopper(ReadError, 0).(awaited := Some(ShutdownCh(1)))
    ensures s.sh.shutdownErr == Some(err) && s.sh.shutdownComplete && s.sh.generation == 1 && s.sh.slot == Some(1)
    ensures !s.sh.started && !s.sh.startupPending && s.sh.closed == {StartupCh(0), ShutdownCh(1)} && !s.sh.panicked
  {
    var s1 := FirstFails(err);
    CompletionIs(s1.sh);
    var s2 := EndsItself(NEW_SERVER, s1, 0);
    s := RunsStop(NEW_SERVER, s2, Caller(1), Proceed, s2.sh, NewStopper(ReadError, 0).(awaited := Some(ShutdownCh(1))));
  }

  /**
   A waiter may return a successor's error in place of its own: generation 1 completes with an error, a
   Shutdown waits for that, and, with generation 2 claimed before it reads, returns none.
   */
  lemma WaiterMayMissItsError(err: Error)
    ensures exists own: State, s: State ::
              && Leads(own, s) && own.sh.generation == 1 && own.sh.shutdownComplete && own.sh.shutdownErr == Some(err)
              && Caller(1) in s.stoppers && s.stoppers[Caller(1)].pc.StopReturned? && !s.stoppers[Caller(1)].gaveUp
              && s.stoppers[Caller(1)].awaited == Some(ShutdownCh(1)) && s.stoppers[Caller(1)].result == None
  {
    var own := FirstFailsAndCompletes(err);
    Restart(NEW_SERVER, own);
    var s1 := ComesToServe(own, own, 1);
    ServedSharedIs(own.sh, 1);
    var st := NewStopper(StopReturned, 0).(awaited := Some(ShutdownCh(1)));
    var s := RunsStop(own, s1, Caller(1), Proceed, s1.sh, st);
    assert s.stoppers[Caller(1)] == st;
  }
}
