/**
 Which error a generation ends with, where it comes from, and what a Shutdown returns of it.
 */
module LifecycleErrors {
  import opened Wrappers
  import opened Lifecycle
  import opened LifecycleSafety
  import LifecycleTheorems
  import LifecycleDrain

  // ---------------------------------------------------------------- what Serve returned

  /** Between these two states the Start looks at what Serve returned to it. */
  predicate LooksAt(s: State, s': State, t: nat, e: Error) {
    t in s.starters && t in s'.starters && s.starters[t].pc == Served(e) && s'.starters[t].pc != Served(e)
  }

  /** An error that is no failure: the server was closed, or its listener was after a shutdown had been requested. */
  predicate Quiet(e: Error, requested: bool) {
    e == ServerClosed || (e == NetClosed && requested)
  }

  /** From then on the Start carries what Serve returned and whether a shutdown had been requested. */
  predicate Carries(pc: StartPc, e: Error, requested: bool) {
    match pc
    case StopHandler(err, asked) => err == e && asked == requested
    case Draining(err, asked) => err == e && asked == requested
    case UnreadyThenComplete => Quiet(e, requested)
    case CompletePc(result) => result == if Quiet(e, requested) then None else Some(e)
    case Completed => true
    case Release => true
    case Returned => true
    case _ => false
  }

  /** A step leaves every Start alone but the one that takes it, which it may also cancel. */
  lemma OthersStay(s: State, s': State, step: Step, t: nat)
    requires Enabled(s, step) && s' == Apply(s, step) && t in s.starters && !(step.RunStart? && step.t == t)
    ensures t in s'.starters && s'.starters[t].pc == s.starters[t].pc && s'.starters[t].handed == s.starters[t].handed
  {
  }

  lemma OwnStepCarries(sh: Shared, t: nat, th: Starter, c: Choice, e: Error, requested: bool)
    requires StartEnabled(sh, th, c) && Carries(th.pc, e, requested)
    ensures Carries(StartStep(sh, t, th, c).1.pc, e, requested)
  {
    if Unlocked(th.pc) {
      UnlockedCarries(th, c, e, requested);
    } else {
      EndingCarries(sh, t, th, c, e, requested);
    }
  }

  lemma EndingCarries(sh: Shared, t: nat, th: Starter, c: Choice, e: Error, requested: bool)
    requires StartEnabled(sh, th, c) && (th.pc.CompletePc? || th.pc.Release?)
    ensures Carries(StartStep(sh, t, th, c).1.pc, e, requested)
  {
  }

  lemma UnlockedCarries(th: Starter, c: Choice, e: Error, requested: bool)
    requires Unlocked(th.pc) && (th.pc.Serving? ==> c.Fail?) && Carries(th.pc, e, requested)
    ensures Carries(UnlockedNext(th, c).pc, e, requested)
  {
    if th.pc.Draining? {
      DrainedCarries(e, requested);
    } else {
      UndrainedCarries(th, c, e, requested);
    }
  }

  lemma DrainedCarries(e: Error, requested: bool)
    ensures Carries(AfterDraining(e, requested), e, requested)
  {
  }

  lemma UndrainedCarries(th: Starter, c: Choice, e: Error, requested: bool)
    requires (th.pc.StopHandler? || th.pc.UnreadyThenComplete? || th.pc.Completed?) && Carries(th.pc, e, requested)
    ensures Carries(UnlockedNext(th, c).pc, e, requested)
  {
  }

  lemma StepCarries(s: State, s': State, t: nat, e: Error, requested: bool)
    requires Next(s, s') && t in s.starters && Carries(s.starters[t].pc, e, requested)
    ensures t in s'.starters && Carries(s'.starters[t].pc, e, requested)
  {
    var step :| Enabled(s, step) && s' == Apply(s, step);
    if step.RunStart? && step.t == t {
      OwnStepCarries(s.sh, t, s.starters[t], step.choice, e, requested);
    } else {
      OthersStay(s, s', step, t);
    }
  }

  lemma LookCarries(s: State, s': State, t: nat, e: Error)
    requires Next(s, s') && LooksAt(s, s', t, e)
    ensures Carries(s'.starters[t].pc, e, s.sh.shutdownStarted)
  {
    var step :| Enabled(s, step) && s' == Apply(s, step);
    if step.RunStart? && step.t == t {
      ServedCarries(s.sh, t, s.starters[t], step.choice);
    } else {
      OthersStay(s, s', step, t);
    }
  }

  lemma ServedCarries(sh: Shared, t: nat, th: Starter, c: Choice)
    requires th.pc.Served?
    ensures Carries(StartStep(sh, t, th, c).1.pc, th.pc.err, sh.shutdownStarted)
  {
  }

  lemma {:induction false} RunCarries(run: seq<State>, i: nat, j: nat, t: nat, e: Error)
    requires IsRun(run) && i < j < |run| && LooksAt(run[i], run[i + 1], t, e)
    ensures t in run[j].starters && Carries(run[j].starters[t].pc, e, run[i].sh.shutdownStarted)
  {
    if j == i + 1 {
      assert Next(run[i], run[i + 1]);
      LookCarries(run[i], run[i + 1], t, e);
    } else {
      RunCarries(run, i, j - 1, t, e);
      assert Next(run[j - 1], run[j - 1 + 1]);
      StepCarries(run[j - 1], run[j], t, e, run[i].sh.shutdownStarted);
    }
  }

  // ---------------------------------------------------------------- what a completion records

  /** Between these two states the Start completes its generation. */
  predicate Completes(s: State, s': State, t: nat) {
    t in s.starters && t in s'.starters && !s.starters[t].pc.Completed? && s'.starters[t].pc.Completed?
  }

  lemma OwnCompletion(sh: Shared, t: nat, th: Starter, c: Choice)
    requires StartEnabled(sh, th, c) && !th.pc.Completed? && StartStep(sh, t, th, c).1.pc.Completed?
    ensures th.pc.CompletePc? && !sh.shutdownComplete && th.generation == sh.generation
    ensures StartStep(sh, t, th, c).0.shutdownComplete && StartStep(sh, t, th, c).0.generation == sh.generation
    ensures StartStep(sh, t, th, c).0.shutdownErr == if th.pc.result.Some? then th.pc.result else sh.shutdownErr
  {
    if th.pc.CompletePc? {
      CompletionEffect(sh, th);
    } else if Unlocked(th.pc) {
      UnlockedNotCompleted(th, c);
    } else {
      LockedNotCompleted(sh, t, th, c);
    }
  }

  lemma CompletionEffect(sh: Shared, th: Starter)
    requires th.pc.CompletePc?
    ensures var r := CompleteStep(sh, th);
            r.1.pc.Completed? ==>
              && !sh.shutdownComplete && th.generation == sh.generation && r.0.shutdownComplete && r.0.generation == sh.generation
              && r.0.shutdownErr == if th.pc.result.Some? then th.pc.result else sh.shutdownErr
  {
  }

  lemma UnlockedNotCompleted(th: Starter, c: Choice)
    requires Unlocked(th.pc) && (th.pc.Serving? ==> c.Fail?)
    ensures !UnlockedNext(th, c).pc.Completed?
  {
  }

  lemma LockedNotCompleted(sh: Shared, t: nat, th: Starter, c: Choice)
    requires StartEnabled(sh, th, c) && !Unlocked(th.pc) && !th.pc.CompletePc?
    ensures !StartStep(sh, t, th, c).1.pc.Completed?
  {
  }

  lemma CompletionStep(s: State, s': State, t: nat)
    requires Next(s, s') && Completes(s, s', t)
    ensures s.starters[t].pc.CompletePc? && s.starters[t].generation == s.sh.generation == s'.sh.generation
    ensures !s.sh.shutdownComplete && s'.sh.shutdownComplete
    ensures s'.sh.shutdownErr == if s.starters[t].pc.result.Some? then s.starters[t].pc.result else s.sh.shutdownErr
  {
    var step :| Enabled(s, step) && s' == Apply(s, step);
    if step.RunStart? && step.t == t {
      OwnCompletion(s.sh, t, s.starters[t], step.choice);
    } else {
      OthersStay(s, s', step, t);
    }
  }

  /**
   When a Start whose Serve returned `e` completes its generation, the generation ends with `e`, unless that is no
   failure: then it ends with the error recorded before, if any.
   */
  lemma CompletionRecords(run: seq<State>, i: nat, j: nat, t: nat, e: Error)
    requires IsRun(run) && i < j < |run| - 1 && LooksAt(run[i], run[i + 1], t, e) && Completes(run[j], run[j + 1], t)
    ensures run[j + 1].sh.shutdownComplete && run[j].starters[t].generation == run[j + 1].sh.generation
    ensures run[j + 1].sh.shutdownErr == if Quiet(e, run[i].sh.shutdownStarted) then run[j].sh.shutdownErr else Some(e)
  {
    RunCarries(run, i, j, t, e);
    assert Next(run[j], run[j + 1]);
    CompletionStep(run[j], run[j + 1], t);
  }

  // ---------------------------------------------------------------- where a recorded error comes from

  /** Serve returned `e` to this Start before state `j`, and that was a failure. */
  ghost predicate ServeFailed(run: seq<State>, j: nat, t: nat, e: Error) {
    exists i :: 0 <= i < j && i + 1 < |run| && LooksAt(run[i], run[i + 1], t, e) && !Quiet(e, run[i].sh.shutdownStarted)
  }

  /** Serve returned `e` to this Start before state `j`, which then saw that a shutdown had been requested, or not. */
  ghost predicate Looked(run: seq<State>, j: nat, t: nat, e: Error, requested: bool) {
    exists i :: 0 <= i < j && i + 1 < |run| && LooksAt(run[i], run[i + 1], t, e) && run[i].sh.shutdownStarted == requested
  }

  /** What a Start carries it has from Serve. */
  ghost predicate HasOrigin(run: seq<State>, j: nat, t: nat, pc: StartPc) {
    match pc
    case StopHandler(e, requested) => Looked(run, j, t, e, requested)
    case Draining(e, requested) => Looked(run, j, t, e, requested)
    case CompletePc(Some(e)) => ServeFailed(run, j, t, e)
    case _ => true
  }

  /** The three steps at which a Start comes to carry something. */
  predicate MovesError(sh: Shared, pc: StartPc, pc': StartPc) {
    && (pc'.StopHandler? ==> pc == Served(pc'.err) && pc'.requested == sh.shutdownStarted)
    && (pc'.Draining? ==> pc == StopHandler(pc'.err, pc'.requested))
    && (pc'.CompletePc? && pc'.result.Some? ==> pc.Draining? && pc.err == pc'.result.value && !Quiet(pc.err, pc.requested))
  }

  lemma OwnMovesError(sh: Shared, t: nat, th: Starter, c: Choice)
    requires StartEnabled(sh, th, c)
    ensures MovesError(sh, th.pc, StartStep(sh, t, th, c).1.pc)
  {
    if Unlocked(th.pc) {
      UnlockedMovesError(sh, th, c);
    } else if th.pc.Served? {
      assert StartStep(sh, t, th, c).1 == ServedStep(sh, th).1;
    } else {
      LockedMovesError(sh, t, th, c);
    }
  }

  lemma UnlockedMovesError(sh: Shared, th: Starter, c: Choice)
    requires Unlocked(th.pc) && (th.pc.Serving? ==> c.Fail?)
    ensures MovesError(sh, th.pc, UnlockedNext(th, c).pc)
  {
  }

  lemma LockedMovesError(sh: Shared, t: nat, th: Starter, c: Choice)
    requires StartEnabled(sh, th, c) && !Unlocked(th.pc) && !th.pc.Served?
    ensures CarriesNothing(StartStep(sh, t, th, c).1.pc)
  {
    if BeforeClaim(th.pc) {
      EarlyCarriesNothing(sh, t, th, c);
    } else {
      LateCarriesNothing(sh, t, th, c);
    }
  }

  predicate CarriesNothing(pc: StartPc) {
    !pc.StopHandler? && !pc.Draining? && (pc.CompletePc? ==> pc.result.None?)
  }

  lemma EarlyCarriesNothing(sh: Shared, t: nat, th: Starter, c: Choice)
    requires StartEnabled(sh, th, c) && !Unlocked(th.pc) && BeforeClaim(th.pc)
    ensures CarriesNothing(StartStep(sh, t, th, c).1.pc)
  {
  }

  lemma LateCarriesNothing(sh: Shared, t: nat, th: Starter, c: Choice)
    requires StartEnabled(sh, th, c) && !Unlocked(th.pc) && !BeforeClaim(th.pc) && !th.pc.Served?
    ensures CarriesNothing(StartStep(sh, t, th, c).1.pc)
  {
  }

  lemma OriginStays(run: seq<State>, j: nat, t: nat, pc: StartPc)
    requires HasOrigin(run, j, t, pc)
    ensures HasOrigin(run, j + 1, t, pc)
  {
  }

  lemma OriginMoves(run: seq<State>, j: nat, t: nat, pc: StartPc)
    requires j + 1 < |run| && t in run[j].starters && t in run[j + 1].starters && run[j + 1].starters[t].pc == pc
    requires HasOrigin(run, j, t, run[j].starters[t].pc) && MovesError(run[j].sh, run[j].starters[t].pc, pc)
    ensures HasOrigin(run, j + 1, t, pc)
  {
    match pc
    case StopHandler(e, requested) =>
      assert LooksAt(run[j], run[j + 1], t, e);
    case Draining(e, requested) =>
    case CompletePc(result) =>
    case _ =>
  }

  lemma {:induction false} RunHasOrigins(run: seq<State>, j: nat, t: nat)
    requires IsRun(run) && j < |run| && t in run[j].starters
    ensures HasOrigin(run, j, t, run[j].starters[t].pc)
  {
    if j > 0 {
      assert Next(run[j - 1], run[j - 1 + 1]);
      var step :| Enabled(run[j - 1], step) && run[j] == Apply(run[j - 1], step);
      if t !in run[j - 1].starters {
        NewStartIsFresh(run[j - 1], run[j], step, t);
      } else {
        RunHasOrigins(run, j - 1, t);
        if step.RunStart? && step.t == t {
          OwnMovesError(run[j - 1].sh, t, run[j - 1].starters[t], step.choice);
          OriginMoves(run, j - 1, t, run[j].starters[t].pc);
        } else {
          OthersStay(run[j - 1], run[j], step, t);
          OriginStays(run, j - 1, t, run[j].starters[t].pc);
        }
      }
    }
  }

  lemma NewStartIsFresh(s: State, s': State, step: Step, t: nat)
    requires Enabled(s, step) && s' == Apply(s, step) && t !in s.starters && t in s'.starters
    ensures s'.starters[t] == NEW_START
  {
  }

  /** A Start that was never handed to Serve completes its generation without an error of its own. */
  lemma UnservedCompletesQuietly(run: seq<State>, j: nat, t: nat)
    requires IsRun(run) && j + 1 < |run| && Completes(run[j], run[j + 1], t) && !run[j].starters[t].handed
    ensures run[j + 1].sh.shutdownErr == run[j].sh.shutdownErr
  {
    assert Next(run[j], run[j + 1]);
    CompletionStep(run[j], run[j + 1], t);
    RunHasOrigins(run, j, t);
    if run[j].starters[t].pc.result.Some? {
      var e := run[j].starters[t].pc.result.value;
      var i :| 0 <= i < j && LooksAt(run[i], run[i + 1], t, e) && !Quiet(e, run[i].sh.shutdownStarted);
      ServedWasHanded(run, i, j, t);
    }
  }

  lemma {:induction false} HandedStays(run: seq<State>, i: nat, j: nat, t: nat)
    requires IsRun(run) && i <= j < |run| && t in run[i].starters && run[i].starters[t].handed
    ensures t in run[j].starters && run[j].starters[t].handed
  {
    if i < j {
      HandedStays(run, i, j - 1, t);
      assert Next(run[j - 1], run[j - 1 + 1]);
      var step :| Enabled(run[j - 1], step) && run[j] == Apply(run[j - 1], step);
      if step.RunStart? && step.t == t {
        OwnKeepsHanded(run[j - 1].sh, t, run[j - 1].starters[t], step.choice);
      } else {
        OthersStay(run[j - 1], run[j], step, t);
      }
    }
  }

  lemma OwnKeepsHanded(sh: Shared, t: nat, th: Starter, c: Choice)
    requires StartEnabled(sh, th, c) && th.handed
    ensures StartStep(sh, t, th, c).1.handed
  {
  }

  lemma ServedWasHanded(run: seq<State>, i: nat, j: nat, t: nat)
    requires IsRun(run) && i <= j < |run| && t in run[i].starters && run[i].starters[t].pc.Served?
    ensures t in run[j].starters && run[j].starters[t].handed
  {
    LifecycleDrain.RunKeepsDrain(run, i);
    assert LifecycleDrain.StarterDrain(run[i].sh, run[i].trackers, t, run[i].starters[t]);
    HandedStays(run, i, j, t);
  }

  // ---------------------------------------------------------------- what a Shutdown returns

  /** The Shutdown has found this generation complete, and waits for or holds its error. */
  predicate Brings(st: Stopper, err: Option<Error>) {
    || (st.pc.UnreadyThenReturn? && !st.gaveUp && st.result == err)
    || (st.pc.AwaitLifecycle? && st.pc.done.Some? && !st.gaveUp)
    || (st.pc.ReadError? && !st.gaveUp)
    || (st.pc.StopReturned? && (st.gaveUp || st.result == err))
  }

  /** The Shutdown comes upon a complete generation that nobody is about to replace. */
  predicate Finds(s: State, id: StopId) {
    && id in s.stoppers && s.stoppers[id].pc.Enter? && !s.stoppers[id].gaveUp
    && (s.stoppers[id].target == 0 || s.stoppers[id].target == s.sh.generation)
    && s.sh.shutdownComplete && !s.sh.startupPending
  }

  lemma EnterBrings(sh: Shared, id: StopId, st: Stopper)
    requires SharedInv(sh) && st.pc.Enter? && !st.gaveUp && (st.target == 0 || st.target == sh.generation)
    requires sh.shutdownComplete && !sh.startupPending
    ensures Brings(EnterShutdown(sh, id, st).1, sh.shutdownErr)
  {
  }

  lemma StopBrings(sh: Shared, id: StopId, st: Stopper, c: Choice)
    requires Brings(st, sh.shutdownErr)
    ensures Brings(StopStep(sh, id, st, c).1, sh.shutdownErr)
  {
    if !st.pc.ReadError? {
      assert StopStep(sh, id, st, c) == UnlockedStop(sh, st, c);
    }
  }

  lemma OtherStoppersStay(s: State, s': State, step: Step, id: StopId)
    requires Enabled(s, step) && s' == Apply(s, step) && id in s.stoppers && !(step.RunStop? && step.id == id)
    requires id.Caller?
    ensures id in s'.stoppers && s'.stoppers[id] == s.stoppers[id].(cancelled := s'.stoppers[id].cancelled)
  {
  }

  lemma StepBrings(s: State, s': State, id: StopId)
    requires Next(s, s') && id.Caller? && id in s.stoppers && Brings(s.stoppers[id], s.sh.shutdownErr)
    ensures id in s'.stoppers && Brings(s'.stoppers[id], s.sh.shutdownErr)
  {
    var step :| Enabled(s, step) && s' == Apply(s, step);
    if step.RunStop? && step.id == id {
      StopBrings(s.sh, id, s.stoppers[id], step.choice);
    } else {
      OtherStoppersStay(s, s', step, id);
    }
  }

  lemma FindingBrings(s: State, s': State, id: StopId)
    requires SharedInv(s.sh) && Next(s, s') && id.Caller? && Finds(s, id) && id in s'.stoppers && !s'.stoppers[id].pc.Enter?
    ensures Brings(s'.stoppers[id], s.sh.shutdownErr)
  {
    var step :| Enabled(s, step) && s' == Apply(s, step);
    if step.RunStop? && step.id == id {
      EnterBrings(s.sh, id, s.stoppers[id]);
    } else {
      OtherStoppersStay(s, s', step, id);
    }
  }

  /** The Shutdown enters a complete generation between these two states. */
  predicate Meets(s: State, s': State, id: StopId) {
    id.Caller? && Finds(s, id) && id in s'.stoppers && !s'.stoppers[id].pc.Enter?
  }

  lemma MeetingBrings(run: seq<State>, k: nat, id: StopId)
    requires IsRun(run) && k + 1 < |run| && Meets(run[k], run[k + 1], id)
    ensures Brings(run[k + 1].stoppers[id], run[k].sh.shutdownErr)
  {
    LifecycleTheorems.RunKeepsInv(run, k);
    assert Next(run[k], run[k + 1]);
    FindingBrings(run[k], run[k + 1], id);
  }

  lemma ErrorLasts(run: seq<State>, k: nat, m: nat)
    requires IsRun(run) && k <= m < |run| && run[k].sh.shutdownComplete && run[m].sh.generation == run[k].sh.generation
    ensures run[m].sh.shutdownErr == run[k].sh.shutdownErr
  {
    LifecycleTheorems.ShutdownErrorKept(run, k, m);
  }

  /** In state `m` the Shutdown waits for or holds the error with which the generation of state `k` ended, while that lasts. */
  predicate BringsIt(run: seq<State>, k: nat, m: nat, id: StopId)
    requires k < |run| && m < |run|
  {
    run[m].sh.generation == run[k].sh.generation ==> id in run[m].stoppers && Brings(run[m].stoppers[id], run[k].sh.shutdownErr)
  }

  lemma BringsOn(run: seq<State>, k: nat, m: nat, id: StopId)
    requires IsRun(run) && k <= m && m + 1 < |run| && id.Caller? && run[k].sh.shutdownComplete && BringsIt(run, k, m, id)
    ensures BringsIt(run, k, m + 1, id)
  {
    if run[m + 1].sh.generation == run[k].sh.generation {
      SameGeneration(run, k, m, m + 1);
      ErrorLasts(run, k, m);
      NextInRun(run, m);
      StepBrings(run[m], run[m + 1], id);
    }
  }

  lemma NextInRun(run: seq<State>, m: nat)
    requires IsRun(run) && m + 1 < |run|
    ensures Next(run[m], run[m + 1])
  {
  }

  lemma {:induction false} RunBrings(run: seq<State>, k: nat, m: nat, id: StopId)
    requires k < m < |run| && id.Caller? && BringsIt(run, k, k + 1, id)
    requires forall j :: k < j < m && BringsIt(run, k, j, id) ==> BringsIt(run, k, j + 1, id)
    ensures BringsIt(run, k, m, id)
  {
    if m > k + 1 {
      RunBrings(run, k, m - 1, id);
    }
  }

  lemma SameGeneration(run: seq<State>, i: nat, j: nat, k: nat)
    requires IsRun(run) && i <= j <= k < |run| && run[i].sh.generation == run[k].sh.generation
    ensures run[j].sh.generation == run[i].sh.generation
  {
    LifecycleTheorems.RunIsLater(run, i, j);
    LifecycleTheorems.RunIsLater(run, j, k);
  }

  predicate ReturnsWell(s: State, id: StopId) {
    id in s.stoppers && s.stoppers[id].pc.StopReturned? && !s.stoppers[id].gaveUp
  }

  /** A Shutdown that meets a complete generation and returns before it is replaced returns that generation's error, unless it gives up. */
  lemma ShutdownReturnsItsError(run: seq<State>, k: nat, m: nat, id: StopId)
    requires IsRun(run) && k < m < |run| && Meets(run[k], run[k + 1], id) && run[m].sh.generation == run[k].sh.generation
    requires ReturnsWell(run[m], id)
    ensures run[m].stoppers[id].result == run[k].sh.shutdownErr
  {
    MeetingBrings(run, k, id);
    forall j | k < j < m && BringsIt(run, k, j, id)
      ensures BringsIt(run, k, j + 1, id)
    {
      BringsOn(run, k, j, id);
    }
    RunBrings(run, k, m, id);
  }

  /** Whatever a generation ended with, a Shutdown that meets it later and returns before it is replaced returns that. */
  lemma EndIsReturned(run: seq<State>, j: nat, k: nat, m: nat, id: StopId)
    requires IsRun(run) && j <= k < m < |run| && run[j].sh.shutdownComplete && run[m].sh.generation == run[j].sh.generation
    requires Meets(run[k], run[k + 1], id) && ReturnsWell(run[m], id)
    ensures run[m].stoppers[id].result == run[j].sh.shutdownErr
  {
    SameGeneration(run, j, k, m);
    ErrorLasts(run, j, k);
    ShutdownReturnsItsError(run, k, m, id);
  }

  /** So a failure of Serve that ended a generation is what a later Shutdown of it returns. */
  lemma ServeErrorIsReturned(run: seq<State>, i: nat, j: nat, k: nat, m: nat, t: nat, e: Error, id: StopId)
    requires IsRun(run) && i < j < k < m < |run| && LooksAt(run[i], run[i + 1], t, e) && Completes(run[j], run[j + 1], t)
    requires !Quiet(e, run[i].sh.shutdownStarted)
    requires Meets(run[k], run[k + 1], id) && ReturnsWell(run[m], id) && run[m].sh.generation == run[j + 1].sh.generation
    ensures run[m].stoppers[id].result == Some(e)
  {
    CompletionRecords(run, i, j, t, e);
    EndIsReturned(run, j + 1, k, m, id);
  }

  // ---------------------------------------------------------------- a Shutdown that fails

  /** The Shutdown has been refused by the HTTP server, and has yet to say so or has returned the error. */
  predicate Refused(st: Stopper, e: Error) {
    st.pc == RecordErr(e) || (st.pc.StopReturned? && st.gaveUp && st.result == Some(e))
  }

  lemma RefusalReturns(sh: Shared, id: StopId, st: Stopper, c: Choice, e: Error)
    requires st.pc == RecordErr(e)
    ensures var r := StopStep(sh, id, st, c);
            && Refused(r.1, e) && r.1.pc.StopReturned?
            && r.0 == sh.(shutdownErr := r.0.shutdownErr)
            && r.0.shutdownErr == if st.captured == sh.generation && !sh.shutdownComplete then Some(e) else sh.shutdownErr
  {
  }

  /** The refused Shutdown returns on this step, and its generation is current and incomplete. */
  predicate RecordsNow(s: State, s': State, id: StopId, e: Error)
    requires id in s.stoppers && id in s'.stoppers
  {
    && s.stoppers[id].pc == RecordErr(e) && s'.stoppers[id].pc.StopReturned?
    && s.stoppers[id].captured == s.sh.generation && !s.sh.shutdownComplete
  }

  lemma StepStaysRefused(s: State, s': State, id: StopId, e: Error)
    requires Next(s, s') && id.Caller? && id in s.stoppers && Refused(s.stoppers[id], e)
    ensures id in s'.stoppers && Refused(s'.stoppers[id], e)
    ensures RecordsNow(s, s', id, e) ==> s'.sh.shutdownErr == Some(e)
  {
    var step :| Enabled(s, step) && s' == Apply(s, step);
    if step.RunStop? && step.id == id {
      RefusalReturns(s.sh, id, s.stoppers[id], step.choice, e);
    } else {
      OtherStoppersStay(s, s', step, id);
    }
  }

  predicate RefusedAt(s: State, id: StopId, e: Error) {
    id in s.stoppers && Refused(s.stoppers[id], e)
  }

  lemma {:induction false} RunStaysRefused(run: seq<State>, i: nat, j: nat, id: StopId, e: Error)
    requires i <= j < |run| && RefusedAt(run[i], id, e)
    requires forall m :: i <= m < j && RefusedAt(run[m], id, e) ==> RefusedAt(run[m + 1], id, e)
    ensures RefusedAt(run[j], id, e)
  {
    if i < j {
      RunStaysRefused(run, i, j - 1, id, e);
      assert RefusedAt(run[j - 1 + 1], id, e);
    }
  }

  /** A Shutdown that the HTTP server refuses returns that error, whatever else happens. */
  lemma RefusedShutdownReturns(run: seq<State>, i: nat, j: nat, id: StopId, e: Error)
    requires IsRun(run) && i <= j < |run| && id.Caller? && id in run[i].stoppers && run[i].stoppers[id].pc == RecordErr(e)
    ensures id in run[j].stoppers && Refused(run[j].stoppers[id], e)
  {
    forall m | i <= m < j && RefusedAt(run[m], id, e)
      ensures RefusedAt(run[m + 1], id, e)
    {
      NextInRun(run, m);
      StepStaysRefused(run[m], run[m + 1], id, e);
    }
    RunStaysRefused(run, i, j, id, e);
  }

  /** It records the error if its generation is current and incomplete when it returns. */
  lemma RefusalIsRecorded(run: seq<State>, i: nat, id: StopId, e: Error)
    requires IsRun(run) && i + 1 < |run| && id.Caller? && id in run[i].stoppers && id in run[i + 1].stoppers
    requires RecordsNow(run[i], run[i + 1], id, e)
    ensures run[i + 1].sh.shutdownErr == Some(e)
  {
    NextInRun(run, i);
    StepStaysRefused(run[i], run[i + 1], id, e);
  }

  /** The HTTP server's answer decides whether a Shutdown waits for its requests or is refused. */
  lemma HttpAnswerDecides(sh: Shared, id: StopId, st: Stopper, c: Choice)
    requires st.pc.HttpShutdown?
    ensures StopStep(sh, id, st, c) == (sh, st.(pc := if c.Fail? then RecordErr(c.err) else AwaitTracker))
  {
  }

  /** A Shutdown that completes its generation itself records no error of its own and returns none. */
  lemma CompletingShutdownIsQuiet(sh: Shared, id: StopId, st: Stopper, c: Choice)
    requires st.pc.StopComplete?
    ensures StopStep(sh, id, st, c).0.shutdownErr == sh.shutdownErr && StopStep(sh, id, st, c).1.result == st.result
  {
    if CompletesNow(sh, st.captured) {
      CompletionKeepsError(sh, st.captured);
    }
  }

  lemma CompletionKeepsError(sh: Shared, g: nat)
    ensures CompleteLifecycle(sh, g, None).shutdownErr == sh.shutdownErr
  {
  }
}
