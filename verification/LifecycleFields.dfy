/**
 What the server's fields tell of the Start of the current generation: what it has published and whether it has
 marked itself as serving; and that a complete generation leaves none of it behind.
 */
module LifecycleFields {
  import opened Wrappers
  import opened Lifecycle
  import opened LifecycleSafety
  import LifecycleTheorems

  /** The fields a Start publishes. */
  datatype Fields = Fields(http: Option<nat>, listener: Option<nat>, tracker: Option<nat>, serving: bool)

  const NO_FIELDS := Fields(None, None, None, false)

  function FieldsOf(sh: Shared): Fields {
    Fields(sh.httpServer, sh.listener, sh.tracker, sh.serveStarted)
  }

  predicate BeforePublishing(pc: StartPc) {
    pc.ClearReady? || pc.Prepare? || pc.PublishPc?
  }

  predicate BeforeMarking(pc: StartPc) {
    pc.Published? || pc.MarkServing?
  }

  predicate Marked(pc: StartPc) {
    pc.Handoff? || pc.Serving? || pc.Served? || pc.StopHandler? || pc.Draining?
  }

  /** What the fields must be while the generation of this Start lasts. */
  predicate TellPhase(sh: Shared, t: nat, pc: StartPc) {
    && (BeforePublishing(pc) ==> FieldsOf(sh) == NO_FIELDS)
    && (BeforeMarking(pc) ==> FieldsOf(sh) == Fields(Some(t), Some(t), Some(t), false))
    && (Marked(pc) ==> FieldsOf(sh) == Fields(Some(t), Some(t), Some(t), true))
  }

  predicate Over(sh: Shared) {
    sh.generation == 0 || sh.shutdownComplete
  }

  ghost predicate FieldsInv(s: State) {
    && (Over(s.sh) ==> FieldsOf(s.sh) == NO_FIELDS)
    && (forall t :: t in s.starters && !Over(s.sh) ==> TellPhase(s.sh, t, s.starters[t].pc))
  }

  /** Nothing that concerns the generation changes. */
  predicate SameGeneration(sh: Shared, sh': Shared) {
    && sh'.httpServer == sh.httpServer && sh'.listener == sh.listener && sh'.tracker == sh.tracker
    && sh'.serveStarted == sh.serveStarted && sh'.generation == sh.generation && sh'.shutdownComplete == sh.shutdownComplete
  }

  /** Nor does whether MCP is closed. */
  predicate Unmoved(sh: Shared, sh': Shared) {
    SameGeneration(sh, sh') && sh'.mcpClosed == sh.mcpClosed
  }

  // ---------------------------------------------------------------- a Start's own step

  lemma UnlockedOwn(sh: Shared, th: Starter, c: Choice)
    requires Unlocked(th.pc) && (th.pc.Serving? ==> c.Fail?)
    ensures Unmoved(sh, UnlockedStep(sh, th, c).0)
  {
  }

  lemma UnlockedTells(sh: Shared, t: nat, th: Starter, c: Choice)
    requires Unlocked(th.pc) && (th.pc.Serving? ==> c.Fail?) && !Over(sh) && TellPhase(sh, t, th.pc)
    ensures TellPhase(UnlockedStep(sh, th, c).0, t, UnlockedNext(th, c).pc)
  {
    UnlockedOwn(sh, th, c);
  }

  predicate NoPhase(pc: StartPc) {
    !BeforePublishing(pc) && !BeforeMarking(pc) && !Marked(pc)
  }

  lemma CloseKeeps(sh: Shared, c: Chan)
    ensures Unmoved(sh, Close(sh, c))
  {
    if c in sh.closed {
      assert Close(sh, c) == sh.(panicked := true);
    } else {
      assert Close(sh, c) == sh.(closed := sh.closed + {c});
    }
  }

  lemma ClosingKeeps(sh: Shared, c: Option<Chan>)
    ensures Unmoved(sh, CloseIfMade(sh, c))
  {
    match c
    case None =>
    case Some(ch) => CloseKeeps(sh, ch);
  }

  lemma AbandonOwn(sh: Shared)
    ensures Unmoved(sh, FinishPendingStartup(sh))
  {
    ClosingKeeps(sh.(startupPending := false, startupCancelled := false, startupDone := None), sh.startupDone);
  }

  lemma RequestOwn(sh: Shared, t: nat, th: Starter)
    ensures Unmoved(sh, RequestStep(sh, t, th).0) && NoPhase(RequestStep(sh, t, th).1.pc)
  {
  }

  /** Before its claim a Start leaves the generation alone. */
  lemma EarlyOwn(sh: Shared, t: nat, th: Starter, c: Choice)
    requires BeforeClaim(th.pc) && !th.pc.Claim? && StartEnabled(sh, th, c)
    ensures Unmoved(sh, StartStep(sh, t, th, c).0) && NoPhase(StartStep(sh, t, th, c).1.pc)
  {
    match th.pc
    case Request => RequestOwn(sh, t, th);
    case Abandon(_) => AbandonOwn(sh);
    case PrepareSlot => MakingOwn(sh, t, th, c);
    case AwaitSlot => AwaitOwn(sh, t, th, c);
    case Release => ReleaseOwn(sh, t, th, c);
  }

  lemma MakingOwn(sh: Shared, t: nat, th: Starter, c: Choice)
    requires th.pc.PrepareSlot? && StartEnabled(sh, th, c)
    ensures Unmoved(sh, StartStep(sh, t, th, c).0) && NoPhase(StartStep(sh, t, th, c).1.pc)
  {
    SlotOwn(sh);
  }

  lemma SlotOwn(sh: Shared)
    ensures Unmoved(sh, MakeSlot(sh))
  {
    if sh.slot.None? {
      assert MakeSlot(sh) == sh.(slot := Some(1));
    }
  }

  lemma ReleaseOwn(sh: Shared, t: nat, th: Starter, c: Choice)
    requires th.pc.Release? && StartEnabled(sh, th, c)
    ensures Unmoved(sh, StartStep(sh, t, th, c).0) && NoPhase(StartStep(sh, t, th, c).1.pc)
  {
    assert StartStep(sh, t, th, c) == (sh.(slot := Some(1)), th.(pc := Returned));
  }

  lemma AwaitOwn(sh: Shared, t: nat, th: Starter, c: Choice)
    requires th.pc.AwaitSlot? && StartEnabled(sh, th, c)
    ensures Unmoved(sh, StartStep(sh, t, th, c).0) && NoPhase(StartStep(sh, t, th, c).1.pc)
  {
    if c.Proceed? {
      assert StartStep(sh, t, th, c) == (sh.(slot := Some(sh.slot.value - 1)), th.(pc := Claim));
    } else {
      assert StartStep(sh, t, th, c) == (sh, th.(pc := Abandon(false)));
    }
  }

  lemma ClaimOwn(sh: Shared, t: nat, th: Starter)
    requires SharedInv(sh) && (Over(sh) ==> FieldsOf(sh) == NO_FIELDS)
    ensures var r := ClaimStep(sh, th);
            && (r.1.pc.ClearReady? ==> Over(sh) && !Over(r.0) && FieldsOf(r.0) == NO_FIELDS)
            && (!r.1.pc.ClearReady? ==> r.0 == sh && r.1.pc.Abandon?)
  {
  }

  lemma LateOwn(sh: Shared, t: nat, th: Starter, c: Choice)
    requires (th.pc.PublishPc? || th.pc.MarkServing? || th.pc.Handoff? || th.pc.Served?) && !Over(sh) && TellPhase(sh, t, th.pc)
    requires th.generation == sh.generation
    ensures var r := StartStep(sh, t, th, c);
            r.0.generation == sh.generation && r.0.shutdownComplete == sh.shutdownComplete && TellPhase(r.0, t, r.1.pc)
  {
    match th.pc
    case PublishPc => assert StartStep(sh, t, th, c) == PublishStep(sh, t, th);
    case MarkServing => assert StartStep(sh, t, th, c) == MarkServingStep(sh, th);
    case Handoff => assert StartStep(sh, t, th, c) == HandoffStep(sh, t, th);
    case Served(_) => assert StartStep(sh, t, th, c) == ServedStep(sh, th);
  }

  lemma CompletionEmpties(sh: Shared, g: nat, err: Option<Error>)
    ensures var sh' := CompleteLifecycle(sh, g, err);
            sh' == sh || (Over(sh') && FieldsOf(sh') == NO_FIELDS && g == sh.generation)
  {
  }

  /** After a completion by somebody else the Start changes nothing any more. */
  lemma LateOver(sh: Shared, t: nat, th: Starter, c: Choice)
    requires (th.pc.PublishPc? || th.pc.MarkServing? || th.pc.Handoff? || th.pc.Served?) && sh.shutdownStarted
    ensures StartStep(sh, t, th, c).0 == sh
  {
    match th.pc
    case PublishPc => assert StartStep(sh, t, th, c) == PublishStep(sh, t, th);
    case MarkServing => assert StartStep(sh, t, th, c) == MarkServingStep(sh, th);
    case Handoff => assert StartStep(sh, t, th, c) == HandoffStep(sh, t, th);
    case Served(_) => assert StartStep(sh, t, th, c) == ServedStep(sh, th);
  }

  /** A Start's step keeps what the fields tell of it, or opens or ends a generation properly. */
  ghost predicate OwnKeeps(sh: Shared, t: nat, r: (Shared, Starter)) {
    && (Over(r.0) ==> FieldsOf(r.0) == NO_FIELDS)
    && (!Over(r.0) ==> TellPhase(r.0, t, r.1.pc))
  }

  lemma OwnStep(sh: Shared, t: nat, th: Starter, c: Choice)
    requires StartEnabled(sh, th, c) && SharedInv(sh) && StarterInv(sh, t, th)
    requires (Over(sh) ==> FieldsOf(sh) == NO_FIELDS) && (!Over(sh) ==> TellPhase(sh, t, th.pc))
    ensures OwnKeeps(sh, t, StartStep(sh, t, th, c))
  {
    if Unlocked(th.pc) {
      UnlockedOwn(sh, th, c);
      if !Over(sh) {
        UnlockedTells(sh, t, th, c);
      }
    } else if th.pc.Claim? {
      ClaimOwn(sh, t, th);
    } else if BeforeClaim(th.pc) {
      EarlyOwn(sh, t, th, c);
    } else if th.pc.CompletePc? {
      CompleteOwn(sh, t, th);
    } else if Over(sh) {
      LateOver(sh, t, th, c);
    } else {
      LateOwn(sh, t, th, c);
    }
  }

  lemma CompleteOwn(sh: Shared, t: nat, th: Starter)
    requires th.pc.CompletePc? && (Over(sh) ==> FieldsOf(sh) == NO_FIELDS)
    ensures OwnKeeps(sh, t, CompleteStep(sh, th))
  {
    CompletionEmpties(sh, th.generation, th.pc.result);
  }

  // ---------------------------------------------------------------- what it leaves of the others

  /** A Start without the slot, or one that only gives it back or takes it, leaves the generation alone. */
  lemma OthersKeep(sh: Shared, t: nat, th: Starter, c: Choice)
    requires StartEnabled(sh, th, c) && (!Holds(th) || th.pc.Release?)
    ensures SameGeneration(sh, StartStep(sh, t, th, c).0)
  {
    if Unlocked(th.pc) {
      UnlockedOwn(sh, th, c);
    } else {
      EarlyOwn(sh, t, th, c);
    }
  }

  lemma StartKeepsFields(s: State, s': State, t: nat, c: Choice)
    requires Inv(s) && FieldsInv(s) && Enabled(s, RunStart(t, c)) && s' == Apply(s, RunStart(t, c))
    ensures FieldsInv(s')
  {
    var r := StartStep(s.sh, t, s.starters[t], c);
    assert StarterInv(s.sh, t, s.starters[t]);
    OwnStep(s.sh, t, s.starters[t], c);
    forall u | u in s'.starters && !Over(s'.sh)
      ensures TellPhase(s'.sh, u, s'.starters[u].pc)
    {
      if u != t {
        OtherTellsPhase(s, t, u, c);
      }
    }
  }

  lemma OtherTellsPhase(s: State, t: nat, u: nat, c: Choice)
    requires Inv(s) && FieldsInv(s) && Enabled(s, RunStart(t, c)) && u in s.starters && u != t
    requires !Over(StartStep(s.sh, t, s.starters[t], c).0)
    ensures TellPhase(StartStep(s.sh, t, s.starters[t], c).0, u, s.starters[u].pc)
  {
    var pc := s.starters[u].pc;
    if !NoPhase(pc) {
      if Holds(s.starters[t]) {
        LifecycleTheorems.OneHolder(s, t, u);
      }
      OthersKeep(s.sh, t, s.starters[t], c);
    }
  }

  lemma StopKeeps(sh: Shared, id: StopId, st: Stopper, c: Choice)
    ensures var sh' := StopStep(sh, id, st, c).0; SameGeneration(sh, sh') || (Over(sh') && FieldsOf(sh') == NO_FIELDS)
  {
    if st.pc.StopComplete? {
      CompletionEmpties(sh, st.captured, None);
    } else if st.pc.Enter? {
      EnterKeeps(sh, id, st);
    } else if st.pc.RecordErr? {
      RecordKeeps(sh, st.captured, st.pc.err);
    } else if !st.pc.ReadError? {
      UnlockedStopKeeps(sh, st, c);
    }
  }

  lemma RecordKeeps(sh: Shared, g: nat, err: Error)
    ensures SameGeneration(sh, RecordShutdownErr(sh, g, err))
  {
  }

  lemma UnlockedStopKeeps(sh: Shared, st: Stopper, c: Choice)
    ensures SameGeneration(sh, UnlockedStop(sh, st, c).0)
  {
  }

  lemma EnterKeeps(sh: Shared, id: StopId, st: Stopper)
    ensures SameGeneration(sh, EnterShutdown(sh, id, st).0)
  {
  }

  lemma StepKeepsFields(s: State, s': State, step: Step)
    requires Inv(s) && FieldsInv(s) && Enabled(s, step) && s' == Apply(s, step)
    ensures FieldsInv(s')
  {
    match step
    case RunStart(t, c) => StartKeepsFields(s, s', t, c);
    case RunStop(id, c) => StopKeeps(s.sh, id, s.stoppers[id], c);
    case _ =>
  }

  lemma {:induction false} RunKeepsFields(run: seq<State>, i: nat)
    requires IsRun(run) && i < |run|
    ensures FieldsInv(run[i])
  {
    if i > 0 {
      RunKeepsFields(run, i - 1);
      LifecycleTheorems.RunKeepsInv(run, i - 1);
      assert Next(run[i - 1], run[i - 1 + 1]);
      var step :| Enabled(run[i - 1], step) && run[i] == Apply(run[i - 1], step);
      StepKeepsFields(run[i - 1], run[i], step);
    }
  }

  /**
   While a generation lasts, its server, listener and tracker are there exactly from their publication on, and the
   server is marked as serving exactly from then on; a generation that is over leaves nothing behind.
   */
  lemma FieldsTellPhase(run: seq<State>, i: nat, t: nat)
    requires IsRun(run) && i < |run|
    ensures run[i].sh.generation == 0 || run[i].sh.shutdownComplete ==>
              && run[i].sh.httpServer == run[i].sh.listener == run[i].sh.tracker == None && !run[i].sh.serveStarted && !run[i].sh.started
    ensures t in run[i].starters && run[i].sh.generation > 0 && !run[i].sh.shutdownComplete ==>
              var sh, pc := run[i].sh, run[i].starters[t].pc;
              && (pc.ClearReady? || pc.Prepare? || pc.PublishPc? ==>
                    sh.httpServer == sh.listener == sh.tracker == None && !sh.serveStarted)
              && (pc.Published? || pc.MarkServing? ==>
                    sh.httpServer == sh.listener == sh.tracker == Some(t) && !sh.serveStarted)
              && (pc.Handoff? || pc.Serving? || pc.Served? || pc.StopHandler? || pc.Draining? ==>
                    sh.httpServer == sh.listener == sh.tracker == Some(t) && sh.serveStarted)
  {
    RunKeepsFields(run, i);
    LifecycleTheorems.RunKeepsInv(run, i);
  }

  // ---------------------------------------------------------------- what a Start's next step decides

  /** Nothing stands against going on: no shutdown has begun and the context is live. */
  predicate Clear(sh: Shared, th: Starter) {
    !sh.shutdownStarted && !th.cancelled
  }

  /** Where a Start goes at each of its decisions. */
  predicate Decides(sh: Shared, th: Starter, after: Starter) {
    match th.pc
    case Request => if sh.started || sh.startupPending then after.pc.Returned? else after.pc.PrepareSlot? && after.made
    case Claim =>
      if sh.started || sh.startupCancelled then after.pc == Abandon(true)
      else after.pc.ClearReady? && after.generation == sh.generation + 1
    case Entry => th.cancelled ==> after.pc.Returned?
    case Prepare => th.cancelled ==> after.pc == CompletePc(None)
    case PublishPc => after.pc == if Clear(sh, th) then Published else CompletePc(None)
    case Published => after.pc == if th.cancelled then CompletePc(None) else MarkServing
    case MarkServing => after.pc == if Clear(sh, th) then Handoff else CompletePc(None)
    case Handoff => after.pc == if Clear(sh, th) then Serving else CompletePc(None)
    case _ => true
  }

  lemma UnlockedDecides(sh: Shared, th: Starter, c: Choice)
    requires Unlocked(th.pc) && (th.pc.Serving? ==> c.Fail?)
    ensures Decides(sh, th, UnlockedNext(th, c))
  {
  }

  lemma EarlyDecides(sh: Shared, t: nat, th: Starter, c: Choice)
    requires BeforeClaim(th.pc) && StartEnabled(sh, th, c)
    ensures Decides(sh, th, StartStep(sh, t, th, c).1)
  {
  }

  lemma LateDecides(sh: Shared, t: nat, th: Starter, c: Choice)
    requires !Unlocked(th.pc) && !BeforeClaim(th.pc) && StartEnabled(sh, th, c) && th.generation == sh.generation
    requires th.pc.Handoff? && Clear(sh, th) ==> sh.httpServer == Some(t) && sh.listener == Some(t)
    ensures Decides(sh, th, StartStep(sh, t, th, c).1)
  {
    match th.pc
    case PublishPc => assert StartStep(sh, t, th, c) == PublishStep(sh, t, th);
    case MarkServing => assert StartStep(sh, t, th, c) == MarkServingStep(sh, th);
    case Handoff => assert StartStep(sh, t, th, c) == HandoffStep(sh, t, th);
    case _ =>
  }

  lemma ClearIsLive(sh: Shared, t: nat, th: Starter)
    requires SharedInv(sh) && StarterInv(sh, t, th) && th.pc.Handoff? && Clear(sh, th)
    ensures sh.httpServer == Some(t) && sh.listener == Some(t)
  {
  }

  /** In every reachable state a Start decides by what it finds, and by nothing else. */
  lemma StartDecidesExactly(run: seq<State>, i: nat, t: nat, c: Choice)
    requires IsRun(run) && i < |run| && Enabled(run[i], RunStart(t, c))
    ensures Decides(run[i].sh, run[i].starters[t], StartStep(run[i].sh, t, run[i].starters[t], c).1)
  {
    LifecycleTheorems.RunKeepsInv(run, i);
    OwnDecides(run[i].sh, t, run[i].starters[t], c);
  }

  lemma OwnDecides(sh: Shared, t: nat, th: Starter, c: Choice)
    requires SharedInv(sh) && StarterInv(sh, t, th) && StartEnabled(sh, th, c)
    ensures Decides(sh, th, StartStep(sh, t, th, c).1)
  {
    if Unlocked(th.pc) {
      UnlockedDecides(sh, th, c);
    } else if BeforeClaim(th.pc) {
      EarlyDecides(sh, t, th, c);
    } else {
      if th.pc.Handoff? && Clear(sh, th) {
        ClearIsLive(sh, t, th);
      }
      LateDecides(sh, t, th, c);
    }
  }

  lemma CancelledStays(sh: Shared, t: nat, th: Starter, c: Choice)
    requires StartEnabled(sh, th, c) && th.cancelled && !th.handed
    ensures StartStep(sh, t, th, c).1.cancelled && !StartStep(sh, t, th, c).1.handed
  {
  }

  lemma CancelledStep(s: State, s': State, t: nat)
    requires Next(s, s') && t in s.starters && s.starters[t].cancelled && !s.starters[t].handed
    ensures t in s'.starters && s'.starters[t].cancelled && !s'.starters[t].handed
  {
    var step :| Enabled(s, step) && s' == Apply(s, step);
    if step.RunStart? && step.t == t {
      CancelledStays(s.sh, t, s.starters[t], step.choice);
    }
  }

  /** A Start that is cancelled before it is handed over never serves. */
  lemma {:induction false} CancelledNeverServes(run: seq<State>, i: nat, j: nat, t: nat)
    requires IsRun(run) && i <= j < |run| && t in run[i].starters && run[i].starters[t].cancelled && !run[i].starters[t].handed
    ensures t in run[j].starters && run[j].starters[t].cancelled && !run[j].starters[t].handed
  {
    if i < j {
      CancelledNeverServes(run, i, j - 1, t);
      assert Next(run[j - 1], run[j - 1 + 1]);
      CancelledStep(run[j - 1], run[j], t);
    }
  }

  // ---------------------------------------------------------------- MCP

  /** A new generation finds MCP open; within one it is closed once and for all. */
  predicate McpMoves(sh: Shared, sh': Shared) {
    && sh.generation <= sh'.generation
    && (if sh'.generation == sh.generation then sh.mcpClosed ==> sh'.mcpClosed else !sh'.mcpClosed)
  }

  lemma StartMovesMcp(sh: Shared, t: nat, th: Starter, c: Choice)
    requires StartEnabled(sh, th, c)
    ensures McpMoves(sh, StartStep(sh, t, th, c).0)
  {
    if Unlocked(th.pc) {
      UnlockedOwn(sh, th, c);
    } else if th.pc.Claim? {
      ClaimOpensMcp(sh, th);
    } else if BeforeClaim(th.pc) {
      EarlyOwn(sh, t, th, c);
    } else if th.pc.CompletePc? {
      CompletionLeavesMcp(sh, th.generation, th.pc.result);
    } else {
      LateLeavesMcp(sh, t, th, c);
    }
  }

  lemma ClaimOpensMcp(sh: Shared, th: Starter)
    ensures McpMoves(sh, ClaimStep(sh, th).0)
  {
  }

  lemma CompletionLeavesMcp(sh: Shared, g: nat, err: Option<Error>)
    ensures McpMoves(sh, CompleteLifecycle(sh, g, err))
  {
  }

  lemma LateLeavesMcp(sh: Shared, t: nat, th: Starter, c: Choice)
    requires th.pc.PublishPc? || th.pc.MarkServing? || th.pc.Handoff? || th.pc.Served?
    ensures McpMoves(sh, StartStep(sh, t, th, c).0)
  {
    match th.pc
    case PublishPc => assert StartStep(sh, t, th, c) == PublishStep(sh, t, th);
    case MarkServing => assert StartStep(sh, t, th, c) == MarkServingStep(sh, th);
    case Handoff => assert StartStep(sh, t, th, c) == HandoffStep(sh, t, th);
    case Served(_) => assert StartStep(sh, t, th, c) == ServedStep(sh, th);
  }

  lemma StopMovesMcp(sh: Shared, id: StopId, st: Stopper, c: Choice)
    ensures McpMoves(sh, StopStep(sh, id, st, c).0)
    ensures st.pc.Enter? && (st.target == 0 || st.target == sh.generation) ==> StopStep(sh, id, st, c).0.mcpClosed
  {
    match st.pc
    case StopComplete => CompletionLeavesMcp(sh, st.captured, None);
    case Enter => EnterClosesMcp(sh, id, st);
    case ReadError =>
    case RecordErr(err) => RecordingLeavesMcp(sh, st.captured, err);
    case _ => UnlockedStopLeavesMcp(sh, st, c);
  }

  lemma RecordingLeavesMcp(sh: Shared, g: nat, err: Error)
    ensures McpMoves(sh, RecordShutdownErr(sh, g, err))
  {
  }

  lemma UnlockedStopLeavesMcp(sh: Shared, st: Stopper, c: Choice)
    ensures McpMoves(sh, UnlockedStop(sh, st, c).0)
  {
  }

  lemma EnterClosesMcp(sh: Shared, id: StopId, st: Stopper)
    ensures McpMoves(sh, EnterShutdown(sh, id, st).0)
    ensures st.target == 0 || st.target == sh.generation ==> EnterShutdown(sh, id, st).0.mcpClosed
  {
  }

  /** A caller's Shutdown passes its first step. */
  predicate Enters(s: State, s': State, id: StopId) {
    && id.Caller? && id in s.stoppers && s.stoppers[id].pc.Enter? && s.stoppers[id].target == 0
    && id in s'.stoppers && !s'.stoppers[id].pc.Enter?
  }

  lemma StepMovesMcp(s: State, s': State)
    requires Next(s, s')
    ensures McpMoves(s.sh, s'.sh)
    ensures forall id: StopId :: Enters(s, s', id) ==> s'.sh.mcpClosed
  {
    var step :| Enabled(s, step) && s' == Apply(s, step);
    match step
    case RunStart(t, c) => StartMovesMcp(s.sh, t, s.starters[t], c);
    case RunStop(id, c) => StopMovesMcp(s.sh, id, s.stoppers[id], c);
    case _ =>
  }

  /** MCP is closed for generation `g`, or `g` is over. */
  predicate ClosedFor(s: State, g: nat) {
    s.sh.generation >= g && (s.sh.generation == g ==> s.sh.mcpClosed)
  }

  lemma StepStaysClosed(s: State, s': State, g: nat)
    requires Next(s, s') && ClosedFor(s, g)
    ensures ClosedFor(s', g)
  {
    StepMovesMcp(s, s');
  }

  lemma {:induction false} RunStaysClosed(run: seq<State>, i: nat, j: nat, g: nat)
    requires i <= j < |run| && ClosedFor(run[i], g)
    requires forall m :: i <= m < j && ClosedFor(run[m], g) ==> ClosedFor(run[m + 1], g)
    ensures ClosedFor(run[j], g)
  {
    if i < j {
      RunStaysClosed(run, i, j - 1, g);
      assert ClosedFor(run[j - 1 + 1], g);
    }
  }

  /** A Shutdown that has entered has closed MCP, which stays closed while the generation lasts. */
  lemma McpStaysClosed(run: seq<State>, i: nat, j: nat, id: StopId)
    requires IsRun(run) && i < j < |run| && Enters(run[i], run[i + 1], id)
    requires run[j].sh.generation == run[i].sh.generation
    ensures run[j].sh.mcpClosed
  {
    var g := run[i].sh.generation;
    forall m | i <= m < j && ClosedFor(run[m], g)
      ensures ClosedFor(run[m + 1], g)
    {
      assert Next(run[m], run[m + 1]);
      StepStaysClosed(run[m], run[m + 1], g);
    }
    assert Next(run[i], run[i + 1]);
    StepMovesMcp(run[i], run[i + 1]);
    RunStaysClosed(run, i + 1, j, g);
  }

  /** The next generation finds it open. */
  lemma NextGenerationOpensMcp(run: seq<State>, i: nat)
    requires IsRun(run) && i + 1 < |run| && run[i].sh.generation != run[i + 1].sh.generation
    ensures !run[i + 1].sh.mcpClosed
  {
    assert Next(run[i], run[i + 1]);
    StepMovesMcp(run[i], run[i + 1]);
  }
}
