/**
 What every run of the lifecycle keeps: the invariant is inductive, and from it the promises
 the server makes to the callers of `Start` and `Shutdown`.
 */
module LifecycleTheorems {
  import opened Wrappers
  import opened Lifecycle
  import opened LifecycleSafety
  import Cardinality

  // ---------------------------------------------------------------- one step keeps the invariant

  /** Two Starts never hold the slot at once. */
  lemma OneHolder(s: State, t: nat, u: nat)
    requires TokenConserved(s) && t in s.starters && u in s.starters
    requires Holds(s.starters[t]) && Holds(s.starters[u])
    ensures t == u
  {
    if t != u {
      assert {t, u} <= Holders(s);
      Cardinality.SubsetSize({t, u}, Holders(s));
    }
  }

  function Others(s: State, t: nat): set<nat> {
    set u | u in s.starters && u != t && Holds(s.starters[u])
  }

  lemma HoldersSplit(s: State, t: nat)
    ensures |Holders(s)| == |Others(s, t)| + (if t in s.starters then HeldBy(s.starters[t]) else 0)
  {
    if t in s.starters && Holds(s.starters[t]) {
      assert Holders(s) == Others(s, t) + {t};
    } else {
      assert Holders(s) == Others(s, t);
    }
  }

  /** Replacing one Start moves the token by exactly what that Start gained or gave back. */
  lemma HoldersAfter(s: State, s': State, t: nat, th': Starter)
    requires s'.starters == s.starters[t := th']
    ensures |Holders(s')| + (if t in s.starters then HeldBy(s.starters[t]) else 0) == |Holders(s)| + HeldBy(th')
  {
    HoldersSplit(s, t);
    HoldersSplit(s', t);
    assert Others(s, t) == Others(s', t);
  }

  lemma StartKeepsThreads(s: State, s': State, t: nat, r: (Shared, Starter))
    requires Inv(s) && t in s.starters && GoodStep(s.sh, t, s.starters[t], r)
    requires s' == State(r.0, s'.trackers, s.starters[t := r.1], WithWatcher(s.stoppers, t, s.starters[t], r.1))
    ensures SharedInv(s'.sh) && Threads(s')
  {
    var th := s.starters[t];
    forall u | u in s'.starters
      ensures StarterInv(s'.sh, u, s'.starters[u])
      ensures u in s.starters && (Doomed(s.sh, s.starters[u]) ==> Doomed(s'.sh, s'.starters[u]))
    {
      if u != t {
        if Holds(th) && Holds(s.starters[u]) {
          OneHolder(s, t, u);
        }
      }
    }
    StoppersKept(s, s', t, th.generation);
  }

  lemma StoppersKept(s: State, s': State, t: nat, g: nat)
    requires Threads(s) && Forward(s.sh, s'.sh)
    requires forall u :: u in s.starters ==>
               u in s'.starters && (Doomed(s.sh, s.starters[u]) ==> Doomed(s'.sh, s'.starters[u]))
    requires s'.stoppers == s.stoppers || s'.stoppers == s.stoppers[Watcher(t) := NewStopper(Watching, g)]
    ensures forall id :: id in s'.stoppers ==> StopperInv(s'.sh, s'.starters, s'.stoppers[id])
  {
    forall id | id in s'.stoppers
      ensures StopperInv(s'.sh, s'.starters, s'.stoppers[id])
    {
      if s'.stoppers[id] != NewStopper(Watching, g) {
        StopperStable(s.sh, s.starters, s'.sh, s'.starters, s.stoppers[id]);
      }
    }
  }

  lemma StartKeepsRest(s: State, s': State, t: nat, r: (Shared, Starter))
    requires Inv(s) && t in s.starters && GoodStep(s.sh, t, s.starters[t], r)
    requires s' == State(r.0, s'.trackers, s.starters[t := r.1], WithWatcher(s.stoppers, t, s.starters[t], r.1))
    requires r.1.pc.Serving? ==> r.0.started || !r.0.ready || !s.starters[t].pc.Handoff?
    ensures TokenConserved(s') && PendingOwned(s') && GenerationsClaimed(s') && ReadyInv(s')
  {
    HoldersAfter(s, s', t, r.1);
    ClaimsGrow(s, s', t);
    if s'.sh.ready && !s'.sh.started {
      if r.1.pc.Completed? {
        assert t in s'.starters && s'.starters[t].pc.Completed?;
      } else {
        DebtStays(s, s', t);
      }
    }
  }

  lemma StartKeepsInv(s: State, s': State, t: nat, c: Choice)
    requires Inv(s) && Enabled(s, RunStart(t, c)) && s' == Apply(s, RunStart(t, c))
    ensures Inv(s')
  {
    var th := s.starters[t];
    var r := StartStep(s.sh, t, th, c);
    StartIsGood(s.sh, t, th, c, r);
    if th.pc.Handoff? {
      HandoffIsGood(s.sh, t, th);
    }
    StartKeepsThreads(s, s', t, r);
    StartKeepsRest(s, s', t, r);
  }

  lemma ClaimsGrow(s: State, s': State, t: nat)
    requires GenerationsClaimed(s) && t in s.starters && t in s'.starters
    requires s'.starters == s.starters[t := s'.starters[t]]
    requires s.starters[t].generation > 0 ==> s'.starters[t].generation == s.starters[t].generation
    requires s'.sh.generation == s.sh.generation || s'.sh.generation == s.sh.generation + 1 == s'.starters[t].generation
    ensures GenerationsClaimed(s')
  {
    forall g: nat | 0 < g <= s'.sh.generation
      ensures Claimed(s', g)
    {
      if g <= s.sh.generation {
        assert Claimed(s, g);
        var u :| u in s.starters && s.starters[u].generation == g;
        assert u in s'.starters && s'.starters[u].generation == g;
      } else {
        assert t in s'.starters && s'.starters[t].generation == g;
      }
    }
  }

  /** A readiness store that was owed before a Start's step is owed after it. */
  lemma DebtStays(s: State, s': State, t: nat)
    requires OwesUnready(s) && t in s.starters && !s.starters[t].pc.Completed?
    requires s.starters.Keys <= s'.starters.Keys && forall u :: u in s.starters && u != t ==> s'.starters[u] == s.starters[u]
    requires forall id :: id in s.stoppers && s.stoppers[id].pc.StopCompleted? ==>
               id in s'.stoppers && s'.stoppers[id] == s.stoppers[id]
    ensures OwesUnready(s')
  {
    if u :| u in s.starters && s.starters[u].pc.Completed? {
      assert u in s'.starters && s'.starters[u].pc.Completed?;
    } else {
      var id :| id in s.stoppers && s.stoppers[id].pc.StopCompleted?;
      assert id in s'.stoppers && s'.stoppers[id].pc.StopCompleted?;
    }
  }

  lemma UnlockedStopOwn(sh: Shared, starters: map<nat, Starter>, id: StopId, st: Stopper, c: Choice, r: (Shared, Stopper))
    requires !st.pc.Enter? && !st.pc.StopComplete? && !st.pc.StopReturned? && StopperInv(sh, starters, st)
    requires st.pc.AwaitStartup? && c.Proceed? ==> st.pc.startup.None? || st.pc.startup.value in sh.closed
    requires st.pc.AwaitLifecycle? && c.Proceed? ==> st.pc.done.None? || st.pc.done.value in sh.closed
    requires r == StopStep(sh, id, st, c) && Forward(sh, r.0)
    requires forall t :: t in starters ==> (Doomed(sh, starters[t]) ==> Doomed(r.0, starters[t]))
    ensures StopperInv(r.0, starters, r.1)
  {
    StopOwn(sh, starters, id, st, c);
    StopperStable(sh, starters, r.0, starters, r.1);
  }

  lemma StopKeepsOwn(s: State, id: StopId, st: Stopper, c: Choice, r: (Shared, Stopper))
    requires SharedInv(s.sh) && Threads(s) && PendingOwned(s) && StopEnabled(s, id, st, c)
    requires StopperInv(s.sh, s.starters, st) && r == StopStep(s.sh, id, st, c) && GoodStop(s.sh, st, r)
    ensures StopperInv(r.0, s.starters, r.1)
  {
    if st.pc.Enter? {
      EnterOwn(s, id, st);
    } else if st.pc.StopComplete? {
      StopCompleteOwn(s.sh, s.starters, st, r.1);
    } else {
      UnlockedStopOwn(s.sh, s.starters, id, st, c, r);
    }
  }

  lemma StopKeepsThreads(s: State, s': State, id: StopId, r: (Shared, Stopper))
    requires Inv(s) && id in s.stoppers && GoodStop(s.sh, s.stoppers[id], r) && StopperInv(r.0, s.starters, r.1)
    requires s' == s.(sh := r.0, trackers := s'.trackers, stoppers := s.stoppers[id := r.1])
    ensures Threads(s')
  {
    forall i | i in s'.stoppers && i != id
      ensures StopperInv(s'.sh, s'.starters, s'.stoppers[i])
    {
      StopperStable(s.sh, s.starters, s'.sh, s'.starters, s.stoppers[i]);
    }
  }

  lemma StopKeepsInv(s: State, s': State, id: StopId, c: Choice)
    requires Inv(s) && Enabled(s, RunStop(id, c)) && s' == Apply(s, RunStop(id, c))
    ensures Inv(s')
  {
    var r := StopStep(s.sh, id, s.stoppers[id], c);
    StopIsGood(s.sh, id, s.stoppers[id], c, r);
    StopKeepsOwn(s, id, s.stoppers[id], c, r);
    StopKeepsThreads(s, s', id, r);
    StopKeepsRest(s, s', id, r);
  }

  lemma StopKeepsRest(s: State, s': State, id: StopId, r: (Shared, Stopper))
    requires Inv(s) && id in s.stoppers && GoodStop(s.sh, s.stoppers[id], r)
    requires s' == s.(sh := r.0, trackers := s'.trackers, stoppers := s.stoppers[id := r.1])
    ensures TokenConserved(s') && PendingOwned(s') && GenerationsClaimed(s') && ReadyInv(s')
  {
    assert Holders(s') == Holders(s);
    forall g: nat | 0 < g <= s'.sh.generation
      ensures Claimed(s', g)
    {
      assert Claimed(s, g);
    }
    if s'.sh.ready && !s'.sh.started {
      if r.1.pc.StopCompleted? {
        assert id in s'.stoppers && s'.stoppers[id].pc.StopCompleted?;
      } else if u :| u in s.starters && s.starters[u].pc.Completed? {
        assert u in s'.starters && s'.starters[u].pc.Completed?;
      } else {
        var i :| i in s.stoppers && s.stoppers[i].pc.StopCompleted?;
        assert i in s'.stoppers && s'.stoppers[i].pc.StopCompleted?;
      }
    }
  }

  /** A call arrives or a context is cancelled: nothing shared moves. */
  lemma StarterCallKeepsThreads(s: State, s': State, t: nat, th': Starter)
    requires Inv(s) && s' == s.(starters := s.starters[t := th'])
    requires
      || (t !in s.starters && th' == NEW_START)
      || (t in s.starters && th' == s.starters[t].(cancelled := true))
    ensures Threads(s')
  {
    forall id | id in s'.stoppers
      ensures StopperInv(s'.sh, s'.starters, s'.stoppers[id])
    {
      StopperStable(s.sh, s.starters, s'.sh, s'.starters, s.stoppers[id]);
    }
  }

  lemma StarterCallKeepsRest(s: State, s': State, t: nat, th': Starter)
    requires TokenConserved(s) && PendingOwned(s) && GenerationsClaimed(s) && ReadyInv(s)
    requires s' == s.(starters := s.starters[t := th'])
    requires t !in s.starters ==> !Holds(th')
    requires t in s.starters ==> th' == s.starters[t].(cancelled := true)
    ensures TokenConserved(s') && PendingOwned(s') && GenerationsClaimed(s') && ReadyInv(s')
  {
    HoldersAfter(s, s', t, th');
    forall g: nat | 0 < g <= s'.sh.generation
      ensures Claimed(s', g)
    {
      assert Claimed(s, g);
      var u :| u in s.starters && s.starters[u].generation == g;
      assert u in s'.starters && s'.starters[u].generation == g;
    }
    if s.sh.ready && !s.sh.started {
      if u :| u in s.starters && s.starters[u].pc.Completed? {
        assert u in s'.starters && s'.starters[u].pc.Completed?;
      }
    }
  }

  lemma StarterCallKeepsInv(s: State, s': State, t: nat, th': Starter)
    requires Inv(s) && s' == s.(starters := s.starters[t := th'])
    requires
      || (t !in s.starters && th' == NEW_START)
      || (t in s.starters && th' == s.starters[t].(cancelled := true))
    ensures Inv(s')
  {
    StarterCallKeepsThreads(s, s', t, th');
    StarterCallKeepsRest(s, s', t, th');
  }

  /** Neither the shared state nor a Start moves, and no stopper's debt is forgotten. */
  lemma FrameKeepsRest(s: State, s': State)
    requires TokenConserved(s) && PendingOwned(s) && GenerationsClaimed(s) && ReadyInv(s)
    requires s'.sh == s.sh && s'.starters == s.starters
    requires forall id :: id in s.stoppers ==> id in s'.stoppers && s'.stoppers[id].pc == s.stoppers[id].pc
    ensures TokenConserved(s') && PendingOwned(s') && GenerationsClaimed(s') && ReadyInv(s')
  {
    assert Holders(s') == Holders(s);
    forall g: nat | 0 < g <= s'.sh.generation
      ensures Claimed(s', g)
    {
      assert Claimed(s, g);
    }
    if s.sh.ready && !s.sh.started {
      if u :| u in s.starters && s.starters[u].pc.Completed? {
        assert u in s'.starters && s'.starters[u].pc.Completed?;
      } else {
        var i :| i in s.stoppers && s.stoppers[i].pc.StopCompleted?;
        assert i in s'.stoppers && s'.stoppers[i].pc.StopCompleted?;
      }
    }
  }

  lemma StopperCallKeepsInv(s: State, s': State, id: StopId, st: Stopper)
    requires Inv(s) && s' == s.(stoppers := s.stoppers[id := st])
    requires
      || (id !in s.stoppers && st == NewStopper(Enter, 0))
      || (id in s.stoppers && st == s.stoppers[id].(cancelled := true))
    ensures Inv(s')
  {
    FrameKeepsRest(s, s');
  }

  /** Requests touch nothing but their tracker. */
  lemma RequestKeepsInv(s: State, s': State)
    requires Inv(s) && s' == s.(trackers := s'.trackers)
    ensures Inv(s')
  {
    FrameKeepsRest(s, s');
  }

  /** The invariant is inductive. */
  lemma StepKeepsInv(s: State, s': State, step: Step)
    requires Inv(s) && Enabled(s, step) && s' == Apply(s, step)
    ensures Inv(s')
  {
    match step {
      case CallStart(t) => StarterCallKeepsInv(s, s', t, s'.starters[t]);
      case CancelStart(t) => StarterCallKeepsInv(s, s', t, s'.starters[t]);
      case RunStart(t, c) => StartKeepsInv(s, s', t, c);
      case CallShutdown(n) => StopperCallKeepsInv(s, s', Caller(n), s'.stoppers[Caller(n)]);
      case CancelStop(id) => StopperCallKeepsInv(s, s', id, s'.stoppers[id]);
      case RunStop(id, c) => StopKeepsInv(s, s', id, c);
      case RequestEnters(_) => RequestKeepsInv(s, s');
      case RequestLeaves(_) => RequestKeepsInv(s, s');
    }
  }

  lemma InitHasInv(s: State)
    requires Init(s)
    ensures Inv(s)
  {
    assert Holders(s) == {};
  }

  /** Every state of every run satisfies the invariant. */
  lemma {:induction false} RunKeepsInv(run: seq<State>, i: nat)
    requires IsRun(run) && i < |run|
    ensures Inv(run[i])
  {
    if i == 0 {
      InitHasInv(run[0]);
    } else {
      RunKeepsInv(run, i - 1);
      assert Next(run[i - 1], run[i - 1 + 1]);
      var step :| Enabled(run[i - 1], step) && run[i] == Apply(run[i - 1], step);
      StepKeepsInv(run[i - 1], run[i], step);
    }
  }

  // ---------------------------------------------------------------- what holds between two states of a run

  /** No state loses a thread, a claim, a closed channel or a startup that a Shutdown saw. */
  ghost predicate Later(s: State, s': State) {
    && s.sh.generation <= s'.sh.generation
    && s.sh.closed <= s'.sh.closed
    && (s.sh.generation == s'.sh.generation && s.sh.shutdownErr.Some? ==> s'.sh.shutdownErr.Some?)
    && (s.sh.generation == s'.sh.generation && s.sh.shutdownComplete ==>
          s'.sh.shutdownComplete && s'.sh.shutdownErr == s.sh.shutdownErr)
    && (forall t :: t in s.starters ==>
          && t in s'.starters
          && (s.starters[t].generation > 0 ==> s'.starters[t].generation == s.starters[t].generation)
          && (Doomed(s.sh, s.starters[t]) ==> Doomed(s'.sh, s'.starters[t])))
  }

  lemma StartIsLater(s: State, s': State, t: nat, r: (Shared, Starter))
    requires Inv(s) && t in s.starters && GoodStep(s.sh, t, s.starters[t], r)
    requires s'.sh == r.0 && s'.starters == s.starters[t := r.1]
    ensures Later(s, s')
  {
    forall u | u in s.starters && u != t
      ensures Doomed(s.sh, s.starters[u]) ==> Doomed(s'.sh, s'.starters[u])
    {
      if Holds(s.starters[t]) && Holds(s.starters[u]) {
        OneHolder(s, t, u);
      }
    }
  }

  lemma StopIsLater(s: State, s': State, id: StopId, c: Choice)
    requires Inv(s) && Enabled(s, RunStop(id, c)) && s' == Apply(s, RunStop(id, c))
    ensures Later(s, s')
  {
    StopIsGood(s.sh, id, s.stoppers[id], c, StopStep(s.sh, id, s.stoppers[id], c));
  }

  lemma StepIsLater(s: State, s': State, step: Step)
    requires Inv(s) && Enabled(s, step) && s' == Apply(s, step)
    ensures Later(s, s')
  {
    match step {
      case RunStart(t, c) =>
        var r := StartStep(s.sh, t, s.starters[t], c);
        StartIsGood(s.sh, t, s.starters[t], c, r);
        StartIsLater(s, s', t, r);
      case RunStop(id, c) => StopIsLater(s, s', id, c);
      case _ =>
    }
  }

  lemma NextIsLater(s: State, s': State)
    requires Inv(s) && Next(s, s')
    ensures Later(s, s')
  {
    var step :| Enabled(s, step) && s' == Apply(s, step);
    StepIsLater(s, s', step);
  }

  lemma LaterIsTransitive(s0: State, s1: State, s2: State)
    requires Later(s0, s1) && Later(s1, s2)
    ensures Later(s0, s2)
  {
    forall t | t in s0.starters
      ensures t in s2.starters
      ensures s0.starters[t].generation > 0 ==> s2.starters[t].generation == s0.starters[t].generation
      ensures Doomed(s0.sh, s0.starters[t]) ==> Doomed(s2.sh, s2.starters[t])
    {
      assert t in s1.starters;
    }
  }

  ghost predicate Steady(run: seq<State>) {
    forall i :: 0 <= i < |run| - 1 ==> Later(run[i], run[i + 1])
  }

  lemma RunIsSteady(run: seq<State>)
    requires IsRun(run)
    ensures Steady(run)
  {
    forall i | 0 <= i < |run| - 1
      ensures Later(run[i], run[i + 1])
    {
      RunKeepsInv(run, i);
      NextIsLater(run[i], run[i + 1]);
    }
  }

  lemma {:induction false} SteadyIsLater(run: seq<State>, i: nat, j: nat)
    requires Steady(run) && i <= j < |run|
    ensures Later(run[i], run[j])
  {
    if i < j {
      SteadyIsLater(run, i, j - 1);
      assert Later(run[j - 1], run[j - 1 + 1]);
      LaterIsTransitive(run[i], run[j - 1], run[j]);
    }
  }

  lemma RunIsLater(run: seq<State>, i: nat, j: nat)
    requires IsRun(run) && i <= j < |run|
    ensures Later(run[i], run[j])
  {
    RunIsSteady(run);
    SteadyIsLater(run, i, j);
  }

  // ---------------------------------------------------------------- the promises

  /** From the moment a Start claims a generation until it returns, that generation is the server's. */
  lemma GenerationPinned(run: seq<State>, i: nat, j: nat, t: nat)
    requires IsRun(run) && i <= j < |run|
    requires t in run[i].starters && run[i].starters[t].generation > 0
    requires t in run[j].starters ==> !run[j].starters[t].pc.Returned?
    ensures run[j].sh.generation == run[i].starters[t].generation
    ensures Tokens(run[j].sh) == 0 && Holders(run[j]) == {t}
  {
    RunIsLater(run, i, j);
    RunKeepsInv(run, j);
    var s := run[j];
    assert StarterInv(s.sh, t, s.starters[t]);
    assert Holds(s.starters[t]);
    forall u | u in Holders(s)
      ensures u == t
    {
      OneHolder(s, t, u);
    }
    assert Holders(s) == {t};
  }

  /** Which steps lead a Start to give the slot back. */
  lemma ReleasingSteps(sh: Shared, t: nat, th: Starter, c: Choice)
    requires StartEnabled(sh, th, c) && StarterInv(sh, t, th)
    ensures StartStep(sh, t, th, c).1.pc.Release? ==>
              th.pc.Abandon? || th.pc.Completed? || (th.pc.CompletePc? && sh.shutdownComplete)
  {
    if Unlocked(th.pc) {
      UnlockedAdvances(th, c);
    }
  }

  lemma HandsOver(sh: Shared, t: nat, th: Starter)
    requires th.pc.Handoff? && SharedInv(sh) && StarterInv(sh, t, th)
    ensures HandoffStep(sh, t, th).1.pc.Serving? <==> !sh.shutdownStarted && !th.cancelled
  {
  }

  /**
   A Start never finds its generation replaced: every path to its return goes through a completion
   of its own generation, and at the handoff it still owns the server it published.
   */
  lemma NoForeignGeneration(run: seq<State>, i: nat, t: nat, c: Choice)
    requires IsRun(run) && i < |run| && Enabled(run[i], RunStart(t, c))
    ensures var sh, th := run[i].sh, run[i].starters[t];
            var after := StartStep(sh, t, th, c).1;
            && (Runs(th) ==> th.generation == sh.generation)
            && (after.pc.Release? ==> th.pc.Abandon? || th.pc.Completed? || (th.pc.CompletePc? && sh.shutdownComplete))
            && (th.pc.Handoff? ==> (after.pc.Serving? <==> !sh.shutdownStarted && !th.cancelled))
  {
    RunKeepsInv(run, i);
    var th := run[i].starters[t];
    assert StarterInv(run[i].sh, t, th);
    ReleasingSteps(run[i].sh, t, th, c);
    if th.pc.Handoff? {
      HandsOver(run[i].sh, t, th);
    }
  }

  /** No channel is ever closed twice. */
  lemma ClosesOnce(run: seq<State>, i: nat)
    requires IsRun(run) && i < |run|
    ensures !run[i].sh.panicked
  {
    RunKeepsInv(run, i);
  }

  /** A Start returns only after closing, or seeing closed, every channel others may wait on for it. */
  lemma ReturnsAfterClosing(run: seq<State>, i: nat, t: nat)
    requires IsRun(run) && i < |run| && t in run[i].starters && run[i].starters[t].pc.Returned?
    ensures run[i].starters[t].generation > 0 ==> ShutdownCh(run[i].starters[t].generation) in run[i].sh.closed
    ensures run[i].starters[t].made ==> StartupCh(t) in run[i].sh.closed
  {
    RunKeepsInv(run, i);
    assert StarterInv(run[i].sh, t, run[i].starters[t]);
  }

  /** Putting the token back never blocks. */
  lemma ReleaseNeverBlocks(run: seq<State>, i: nat, t: nat, c: Choice)
    requires IsRun(run) && i < |run| && t in run[i].starters && run[i].starters[t].pc.Release?
    ensures Enabled(run[i], RunStart(t, c))
  {
    RunKeepsInv(run, i);
    assert StarterInv(run[i].sh, t, run[i].starters[t]);
  }

  /** Some Start answers for the channel a Shutdown waits on, and has closed it by the time it returns. */
  ghost predicate Answered(s: State, c: Option<Chan>) {
    exists t :: t in s.starters
             && (c == Some(ShutdownCh(s.starters[t].generation)) || c == Some(StartupCh(t)))
             && (s.starters[t].pc.Returned? ==> c.value in s.sh.closed)
  }

  lemma GenerationAnswered(s: State, g: nat)
    requires Inv(s) && 0 < g <= s.sh.generation
    ensures Answered(s, Some(ShutdownCh(g)))
  {
    assert Claimed(s, g);
    var t :| t in s.starters && s.starters[t].generation == g;
    assert StarterInv(s.sh, t, s.starters[t]);
  }

  lemma StartupAnswered(s: State, t: nat)
    requires Inv(s) && t in s.starters && s.starters[t].made
    ensures Answered(s, Some(StartupCh(t)))
  {
    assert StarterInv(s.sh, t, s.starters[t]);
  }

  lemma WaitersAnswered(s: State, id: StopId)
    requires Inv(s) && id in s.stoppers
    ensures s.stoppers[id].pc.AwaitLifecycle? ==> Answered(s, s.stoppers[id].pc.done)
    ensures s.stoppers[id].pc.AwaitStartup? ==> Answered(s, s.stoppers[id].pc.startup)
  {
    var st := s.stoppers[id];
    assert StopperInv(s.sh, s.starters, st);
    if st.pc.AwaitLifecycle? {
      GenerationAnswered(s, st.pc.done.value.generation);
    }
    if st.pc.AwaitStartup? {
      StartupAnswered(s, st.saw.value.starter);
    }
  }

  /** No Shutdown that waits for a channel is left blocked by a Start that has returned. */
  lemma NoWaiterLeftBehind(run: seq<State>, i: nat, id: StopId)
    requires IsRun(run) && i < |run| && id in run[i].stoppers
    ensures run[i].stoppers[id].pc.AwaitLifecycle? ==> Answered(run[i], run[i].stoppers[id].pc.done)
    ensures run[i].stoppers[id].pc.AwaitStartup? ==> Answered(run[i], run[i].stoppers[id].pc.startup)
    ensures (forall t :: t in run[i].starters ==> run[i].starters[t].pc.Returned?) ==>
              run[i].stoppers[id].pc.AwaitLifecycle? || run[i].stoppers[id].pc.AwaitStartup? ==>
                Enabled(run[i], RunStop(id, Proceed))
  {
    RunKeepsInv(run, i);
    WaitersAnswered(run[i], id);
  }

  /** A startup that a Shutdown saw pending never claims a generation. */
  lemma SeenStartupNeverClaims(run: seq<State>, i: nat, j: nat, id: StopId, t: nat)
    requires IsRun(run) && i <= j < |run|
    requires id in run[i].stoppers && run[i].stoppers[id].saw == Some(StartupCh(t))
    ensures t in run[j].starters && run[j].starters[t].generation == 0
  {
    RunKeepsInv(run, i);
    assert StopperInv(run[i].sh, run[i].starters, run[i].stoppers[id]);
    RunIsLater(run, i, j);
  }

  /**
   A Shutdown that returns without giving up, the first or a repeated one, has seen the generation it
   waited for complete; one that found a pending startup has seen that end.
   */
  lemma ShutdownReturnsComplete(run: seq<State>, i: nat, id: StopId)
    requires IsRun(run) && i < |run| && id in run[i].stoppers
    requires run[i].stoppers[id].pc.StopReturned? && !run[i].stoppers[id].gaveUp
    ensures run[i].stoppers[id].awaited.Some? ==>
              && run[i].stoppers[id].awaited.value in run[i].sh.closed
              && (run[i].stoppers[id].awaited == Some(ShutdownCh(run[i].sh.generation)) ==> !run[i].sh.started)
    ensures run[i].stoppers[id].captured > 0 ==> run[i].stoppers[id].awaited == Some(ShutdownCh(run[i].stoppers[id].captured))
    ensures run[i].stoppers[id].saw.Some? ==> run[i].stoppers[id].saw.value in run[i].sh.closed
  {
    RunKeepsInv(run, i);
    assert StopperInv(run[i].sh, run[i].starters, run[i].stoppers[id]);
  }

  /** An error recorded for a generation is never forgotten while that generation lasts, and is final once it is complete. */
  lemma ShutdownErrorKept(run: seq<State>, i: nat, j: nat)
    requires IsRun(run) && i <= j < |run|
    requires run[i].sh.generation == run[j].sh.generation
    ensures run[i].sh.shutdownErr.Some? ==> run[j].sh.shutdownErr.Some?
    ensures run[i].sh.shutdownComplete ==> run[j].sh.shutdownErr == run[i].sh.shutdownErr
  {
    RunIsLater(run, i, j);
  }

  /** A pending startup excludes a running server, and a ready server runs or is about to be marked unready. */
  lemma FlagsAgree(run: seq<State>, i: nat)
    requires IsRun(run) && i < |run|
    ensures !(run[i].sh.startupPending && run[i].sh.started)
    ensures run[i].sh.startupPending ==>
              exists t :: t in run[i].starters && Pends(run[i].starters[t]) && run[i].sh.startupDone == Some(StartupCh(t))
    ensures run[i].sh.ready ==> run[i].sh.started || OwesUnready(run[i])
  {
    RunKeepsInv(run, i);
  }
}
