/**
 Where the lifecycle falls short, and exactly when: a serving server can be marked unready by a store
 that was owed before it began, a watcher can cancel a successor that is only pending, and a waiter can
 read a successor's error in place of its own.
 */
module LifecycleReadiness {
  import opened Wrappers
  import opened Lifecycle
  import opened LifecycleSafety
  import LifecycleTheorems
  import LifecycleDrain

  // ---------------------------------------------------------------- how long readiness lasts

  /** The program counters from which a stopper goes on to store `ready = false` whatever the generation. */
  predicate OwesStore(pc: StopPc) {
    pc.UnreadyThenAwait? || pc.UnreadyThenReturn? || pc.StopTracker? || pc.UnreadyThenShutdown? || pc.StopCompleted?
  }

  predicate NoStoreOwed(s: State) {
    forall id :: id in s.stoppers ==> !OwesStore(s.stoppers[id].pc)
  }

  predicate IsServing(s: State, t: nat) {
    t in s.starters && s.starters[t].pc.Serving?
  }

  /** A stopper takes the locked entry of a shutdown. */
  predicate EntersShutdown(s: State, step: Step) {
    step.RunStop? && step.id in s.stoppers && s.stoppers[step.id].pc.Enter?
  }

  ghost predicate Goes(s: State, s': State) {
    exists step :: Enabled(s, step) && !EntersShutdown(s, step) && s' == Apply(s, step)
  }

  /** The run goes on with no new shutdown begun, and this Start keeps serving. */
  ghost predicate Continuation(run: seq<State>, t: nat) {
    && |run| > 0
    && (forall i :: 0 <= i < |run| ==> IsServing(run[i], t))
    && (forall i :: 0 <= i < |run| - 1 ==> Goes(run[i], run[i + 1]))
  }

  /** A server that serves, is ready and is not about to be marked unready. */
  ghost predicate ServesReady(s: State, t: nat) {
    Inv(s) && IsServing(s, t) && s.sh.ready && !s.sh.shutdownStarted && NoStoreOwed(s)
  }

  /** Another Start cannot get past the slot, and so stores nothing. */
  lemma OthersLeaveReady(s: State, s': State, t: nat, u: nat, c: Choice)
    requires ServesReady(s, t) && u != t && Enabled(s, RunStart(u, c)) && s' == Apply(s, RunStart(u, c))
    ensures s'.sh.ready && !s'.sh.shutdownStarted && NoStoreOwed(s')
  {
    var th := s.starters[u];
    assert StarterInv(s.sh, u, th) && StarterInv(s.sh, t, s.starters[t]);
    if Holds(th) {
      LifecycleTheorems.OneHolder(s, t, u);
    }
    WaitingLeavesReady(s.sh, u, th, c);
  }

  predicate SameReadiness(sh: Shared, sh': Shared) {
    sh'.ready == sh.ready && sh'.shutdownStarted == sh.shutdownStarted
  }

  lemma PendingLeavesReady(sh: Shared, u: nat)
    ensures SameReadiness(sh, RequestStart(sh, u)) && SameReadiness(sh, FinishPendingStartup(sh)) && SameReadiness(sh, MakeSlot(sh))
  {
  }

  lemma AwaitingLeavesReady(sh: Shared, u: nat, th: Starter, c: Choice)
    requires th.pc.AwaitSlot? && StartEnabled(sh, th, c)
    ensures SameReadiness(sh, StartStep(sh, u, th, c).0)
  {
  }

  lemma WaitingLeavesReady(sh: Shared, u: nat, th: Starter, c: Choice)
    requires StartEnabled(sh, th, c) && !Holds(th)
    ensures SameReadiness(sh, StartStep(sh, u, th, c).0) && !th.pc.Handoff?
  {
    PendingLeavesReady(sh, u);
    match th.pc {
      case Entry =>
      case Request =>
      case PrepareSlot =>
      case AwaitSlot => AwaitingLeavesReady(sh, u, th, c);
      case Abandon(_) =>
    }
  }

  lemma StoppersLeaveReady(s: State, s': State, t: nat, id: StopId, c: Choice)
    requires ServesReady(s, t) && Enabled(s, RunStop(id, c)) && !s.stoppers[id].pc.Enter? && s' == Apply(s, RunStop(id, c))
    ensures s'.sh.ready && !s'.sh.shutdownStarted && NoStoreOwed(s')
  {
    var st := s.stoppers[id];
    assert StopperInv(s.sh, s.starters, st) && !OwesStore(st.pc);
    OneStopperLeavesReady(s.sh, id, st, c);
  }

  lemma OneStopperLeavesReady(sh: Shared, id: StopId, st: Stopper, c: Choice)
    requires !st.pc.Enter? && !OwesStore(st.pc) && !sh.shutdownStarted
    requires ShutsDown(st) ==> (st.captured == sh.generation ==> sh.shutdownStarted)
    ensures var r := StopStep(sh, id, st, c);
            r.0.ready == sh.ready && !r.0.shutdownStarted && !OwesStore(r.1.pc)
  {
  }

  /** A step of a serving Start is the end of its serving. */
  lemma ServingEnds(s: State, t: nat, c: Choice)
    requires IsServing(s, t) && Enabled(s, RunStart(t, c))
    ensures !IsServing(Apply(s, RunStart(t, c)), t)
  {
  }

  lemma StepKeepsReady(s: State, s': State, t: nat, step: Step)
    requires ServesReady(s, t) && IsServing(s', t) && Enabled(s, step) && !EntersShutdown(s, step) && s' == Apply(s, step)
    ensures s'.sh.ready && !s'.sh.shutdownStarted && NoStoreOwed(s')
  {
    match step {
      case RunStart(u, c) =>
        if u == t {
          ServingEnds(s, t, c);
        } else {
          OthersLeaveReady(s, s', t, u, c);
        }
      case RunStop(id, c) => StoppersLeaveReady(s, s', t, id, c);
      case _ =>
    }
  }

  lemma GoesKeepsReady(s: State, s': State, t: nat)
    requires ServesReady(s, t) && Goes(s, s') && IsServing(s', t)
    ensures ServesReady(s', t)
  {
    var step :| Enabled(s, step) && !EntersShutdown(s, step) && s' == Apply(s, step);
    LifecycleTheorems.StepKeepsInv(s, s', step);
    StepKeepsReady(s, s', t, step);
  }

  lemma {:induction false} ContinuationKeepsReady(run: seq<State>, t: nat, i: nat)
    requires Continuation(run, t) && ServesReady(run[0], t) && i < |run|
    ensures ServesReady(run[i], t)
  {
    if i > 0 {
      ContinuationKeepsReady(run, t, i - 1);
      assert Goes(run[i - 1], run[i - 1 + 1]);
      GoesKeepsReady(run[i - 1], run[i], t);
    }
  }

  /** An owed store can always be made while the Start serves on. */
  lemma OwedStoreComes(s: State, t: nat, id: StopId) returns (run: seq<State>)
    requires IsServing(s, t) && id in s.stoppers && OwesStore(s.stoppers[id].pc)
    ensures Continuation(run, t) && run[0] == s && !run[|run| - 1].sh.ready
  {
    var step := RunStop(id, Proceed);
    var s1 := Apply(s, step);
    assert Goes(s, s1);
    if s.stoppers[id].pc.StopTracker? {
      var s2 := Apply(s1, step);
      assert Goes(s1, s2);
      run := [s, s1, s2];
    } else {
      run := [s, s1];
    }
  }

  /**
   Just after a handoff, the server stays ready as long as it serves and no new shutdown begins, whatever
   else happens, if and only if no stopper still owes its store.
   */
  lemma ReadyLastsExactly(run: seq<State>, i: nat, t: nat, c: Choice)
    requires IsRun(run) && i + 1 < |run| && Enabled(run[i], RunStart(t, c)) && run[i].starters[t].pc.Handoff?
    requires run[i + 1] == Apply(run[i], RunStart(t, c)) && IsServing(run[i + 1], t)
    ensures (forall k: seq<State> :: Continuation(k, t) && k[0] == run[i + 1] ==> k[|k| - 1].sh.ready) <==> NoStoreOwed(run[i + 1])
  {
    LifecycleTheorems.RunKeepsInv(run, i);
    LifecycleTheorems.RunKeepsInv(run, i + 1);
    HandoffIsReady(run[i], run[i + 1], t, c);
    LastsExactly(run[i + 1], t);
  }

  lemma HandoffIsReady(s: State, s': State, t: nat, c: Choice)
    requires Inv(s) && Enabled(s, RunStart(t, c)) && s.starters[t].pc.Handoff? && s' == Apply(s, RunStart(t, c)) && IsServing(s', t)
    ensures s'.sh.ready && !s'.sh.shutdownStarted
  {
    assert StarterInv(s.sh, t, s.starters[t]);
    LifecycleTheorems.HandsOver(s.sh, t, s.starters[t]);
  }

  lemma LastsExactly(s: State, t: nat)
    requires Inv(s) && IsServing(s, t) && s.sh.ready && !s.sh.shutdownStarted
    ensures (forall k: seq<State> :: Continuation(k, t) && k[0] == s ==> k[|k| - 1].sh.ready) <==> NoStoreOwed(s)
  {
    if NoStoreOwed(s) {
      forall k: seq<State> | Continuation(k, t) && k[0] == s
        ensures k[|k| - 1].sh.ready
      {
        ContinuationKeepsReady(k, t, |k| - 1);
      }
    } else {
      var id :| id in s.stoppers && OwesStore(s.stoppers[id].pc);
      var k := OwedStoreComes(s, t, id);
      assert Continuation(k, t) && k[0] == s && !k[|k| - 1].sh.ready;
    }
  }

  // ---------------------------------------------------------------- watchers and pending successors

  /** The step of a watcher that enters a shutdown finds, and cancels, a startup that is pending. */
  lemma WatcherCancelsExactly(run: seq<State>, i: nat, t: nat, c: Choice)
    requires IsRun(run) && i < |run| && Enabled(run[i], RunStop(Watcher(t), c)) && run[i].stoppers[Watcher(t)].pc.Enter?
    ensures var s, s', st := run[i], Apply(run[i], RunStop(Watcher(t), c)), run[i].stoppers[Watcher(t)];
            var cancels := s.sh.generation == st.target && s.sh.startupPending && !s.sh.started;
            && (s'.stoppers[Watcher(t)].saw.Some? <==> cancels)
            && (cancels ==> s'.sh.startupCancelled && s'.stoppers[Watcher(t)].saw == s.sh.startupDone)
            && (s.sh.generation != st.target ==> s'.sh == s.sh && s'.stoppers[Watcher(t)].pc.StopReturned?)
  {
    WatcherHasTarget(run, i, t);
    EnterSees(run[i].sh, Watcher(t), run[i].stoppers[Watcher(t)]);
  }

  lemma WatcherHasTarget(run: seq<State>, i: nat, t: nat)
    requires IsRun(run) && i < |run| && Watcher(t) in run[i].stoppers && run[i].stoppers[Watcher(t)].pc.Enter?
    ensures SharedInv(run[i].sh) && run[i].stoppers[Watcher(t)].saw.None? && run[i].stoppers[Watcher(t)].target > 0
  {
    LifecycleTheorems.RunKeepsInv(run, i);
    LifecycleDrain.RunKeepsDrain(run, i);
    assert StopperInv(run[i].sh, run[i].starters, run[i].stoppers[Watcher(t)]);
  }

  lemma EnterSees(sh: Shared, id: StopId, st: Stopper)
    requires SharedInv(sh) && st.pc.Enter? && st.saw.None? && st.target > 0
    ensures var r := EnterShutdown(sh, id, st);
            var cancels := sh.generation == st.target && sh.startupPending && !sh.started;
            && (r.1.saw.Some? <==> cancels)
            && (cancels ==> r.0.startupCancelled && r.1.saw == sh.startupDone)
            && (sh.generation != st.target ==> r.0 == sh && r.1.pc.StopReturned?)
  {
  }

  // ---------------------------------------------------------------- the error a waiter returns

  /** An error is recorded only once a shutdown has begun or the generation is complete. */
  predicate ErrorHasCause(sh: Shared) {
    sh.shutdownErr.Some? ==> sh.shutdownStarted || sh.shutdownComplete
  }

  lemma CompletionHasCause(sh: Shared, g: nat, err: Option<Error>)
    requires ErrorHasCause(sh)
    ensures ErrorHasCause(CompleteLifecycle(sh, g, err))
  {
  }

  lemma ClaimHasCause(sh: Shared, th: Starter)
    requires ErrorHasCause(sh)
    ensures ErrorHasCause(ClaimStep(sh, th).0)
  {
  }

  lemma AbandonHasCause(sh: Shared)
    requires ErrorHasCause(sh)
    ensures ErrorHasCause(FinishPendingStartup(sh))
  {
  }

  lemma EnterHasCause(sh: Shared, id: StopId, st: Stopper)
    requires ErrorHasCause(sh)
    ensures ErrorHasCause(EnterShutdown(sh, id, st).0)
  {
  }

  lemma UnlockedHasCause(sh: Shared, th: Starter, c: Choice)
    requires ErrorHasCause(sh) && Unlocked(th.pc) && (th.pc.Serving? ==> c.Fail?)
    ensures ErrorHasCause(UnlockedStep(sh, th, c).0)
  {
  }

  lemma EarlyHasCause(sh: Shared, t: nat, th: Starter, c: Choice)
    requires ErrorHasCause(sh) && StartEnabled(sh, th, c)
    requires th.pc.Request? || th.pc.PrepareSlot? || th.pc.AwaitSlot? || th.pc.Release?
    ensures ErrorHasCause(StartStep(sh, t, th, c).0)
  {
  }

  lemma LateHasCause(sh: Shared, t: nat, th: Starter, c: Choice)
    requires ErrorHasCause(sh) && StartEnabled(sh, th, c)
    requires th.pc.PublishPc? || th.pc.MarkServing? || th.pc.Handoff? || th.pc.Served?
    ensures ErrorHasCause(StartStep(sh, t, th, c).0)
  {
  }

  lemma StartKeepsCause(sh: Shared, t: nat, th: Starter, c: Choice)
    requires ErrorHasCause(sh) && StartEnabled(sh, th, c)
    ensures ErrorHasCause(StartStep(sh, t, th, c).0)
  {
    if Unlocked(th.pc) {
      UnlockedHasCause(sh, th, c);
    } else {
      match th.pc
      case Claim => ClaimHasCause(sh, th);
      case Abandon(_) => AbandonHasCause(sh);
      case CompletePc(result) => CompletionHasCause(sh, th.generation, result);
      case Request => EarlyHasCause(sh, t, th, c);
      case PrepareSlot => EarlyHasCause(sh, t, th, c);
      case AwaitSlot => EarlyHasCause(sh, t, th, c);
      case Release => EarlyHasCause(sh, t, th, c);
      case _ => LateHasCause(sh, t, th, c);
    }
  }

  lemma RecordHasCause(sh: Shared, g: nat, err: Error)
    requires ErrorHasCause(sh) && (g == sh.generation ==> sh.shutdownStarted)
    ensures ErrorHasCause(RecordShutdownErr(sh, g, err))
  {
  }

  lemma UnlockedStopHasCause(sh: Shared, st: Stopper, c: Choice)
    requires ErrorHasCause(sh)
    ensures ErrorHasCause(UnlockedStop(sh, st, c).0)
  {
  }

  lemma StopKeepsCause(sh: Shared, id: StopId, st: Stopper, c: Choice)
    requires ErrorHasCause(sh) && (st.pc.RecordErr? && st.captured == sh.generation ==> sh.shutdownStarted)
    ensures ErrorHasCause(StopStep(sh, id, st, c).0)
  {
    if st.pc.Enter? {
      EnterHasCause(sh, id, st);
    } else if st.pc.StopComplete? {
      CompletionHasCause(sh, st.captured, None);
    } else if st.pc.RecordErr? {
      RecordHasCause(sh, st.captured, st.pc.err);
    } else {
      UnlockedStopHasCause(sh, st, c);
    }
  }

  lemma {:induction false} RunKeepsCause(run: seq<State>, i: nat)
    requires IsRun(run) && i < |run|
    ensures ErrorHasCause(run[i].sh)
  {
    if i > 0 {
      RunKeepsCause(run, i - 1);
      LifecycleTheorems.RunKeepsInv(run, i - 1);
      assert Next(run[i - 1], run[i - 1 + 1]);
      NextKeepsCause(run[i - 1], run[i]);
    }
  }

  lemma NextKeepsCause(s: State, s': State)
    requires Threads(s) && ErrorHasCause(s.sh) && Next(s, s')
    ensures ErrorHasCause(s'.sh)
  {
    var step :| Enabled(s, step) && s' == Apply(s, step);
    match step
    case RunStart(t, c) => StartKeepsCause(s.sh, t, s.starters[t], c);
    case RunStop(id, c) =>
      assert StopperInv(s.sh, s.starters, s.stoppers[id]) && (s.stoppers[id].pc.RecordErr? ==> ShutsDown(s.stoppers[id]));
      StopKeepsCause(s.sh, id, s.stoppers[id], c);
    case _ =>
  }

  /**
   A waiter returns the final error of the generation it waited for exactly when that is still current or the
   current one has recorded the same.  Once a successor is claimed and nobody has begun to stop it, the waiter
   returns none, and so its own generation's error exactly when there was none.
   */
  lemma WaiterReturnsOwnErrorExactly(run: seq<State>, i: nat, j: nat, id: StopId, c: Choice)
    requires IsRun(run) && i <= j < |run| && id in run[j].stoppers && run[j].stoppers[id].pc.ReadError?
    requires run[j].stoppers[id].awaited == Some(ShutdownCh(run[i].sh.generation)) && run[i].sh.shutdownComplete
    ensures var own, now := run[i].sh, run[j].sh;
            var result := StopStep(now, id, run[j].stoppers[id], c).1.result;
            && StopStep(now, id, run[j].stoppers[id], c).1.pc.StopReturned?
            && (result == own.shutdownErr <==> now.generation == own.generation || now.shutdownErr == own.shutdownErr)
            && (now.generation != own.generation && !now.shutdownStarted && !now.shutdownComplete ==>
                  result == None && (result == own.shutdownErr <==> own.shutdownErr.None?))
  {
    LifecycleTheorems.RunIsLater(run, i, j);
    RunKeepsCause(run, j);
  }
}
