/**
 Safety of the server lifecycle over every interleaving.

 The inductive invariant is stated per thread and about the shared state, so that each step has
 to be checked against itself and against one other thread at a time.
 */
module LifecycleSafety {
  import opened Wrappers
  import opened Lifecycle

  // ---------------------------------------------------------------- the invariant

  /** Where a Start stands with respect to the startup it requested and the slot it holds. */
  datatype Phase =
    | Fresh      // has not asked yet
    | Waiting    // pending, without the start slot
    | Slotted    // pending, with the start slot
    | Running    // claimed a generation; its server is not, or no longer, up to it to publish
    | Live       // has published its server and not yet handed it over
    | Finished   // has the slot only to give it back
    | Gone

  function PhaseOf(pc: StartPc): Phase {
    match pc
    case Entry => Fresh
    case Request => Fresh
    case PrepareSlot => Waiting
    case AwaitSlot => Waiting
    case Claim => Slotted
    case Abandon(slotted) => if slotted then Slotted else Waiting
    case Published => Live
    case MarkServing => Live
    case Handoff => Live
    case Completed => Finished
    case Release => Finished
    case Returned => Gone
    case _ => Running
  }

  /** The Start has taken the start-slot token and not yet put it back. */
  predicate Holds(th: Starter) {
    var p := PhaseOf(th.pc);
    p == Slotted || p == Running || p == Live || p == Finished
  }

  /** The Start is the pending startup. */
  predicate Pends(th: Starter) {
    var p := PhaseOf(th.pc);
    p == Waiting || p == Slotted
  }

  /** The Start has claimed a generation and has yet to run its own completion. */
  predicate Runs(th: Starter) {
    var p := PhaseOf(th.pc);
    p == Running || p == Live
  }

  predicate SharedInv(sh: Shared) {
    && !sh.panicked
    && (sh.slot.Some? ==> sh.slot.value <= 1)
    && (sh.startupPending ==> !sh.started && sh.startupDone.Some? && sh.startupDone.value.StartupCh?)
    && (!sh.startupPending ==> sh.startupDone.None?)
    && (sh.generation == 0 ==>
         sh.shutdownDone.None? && !sh.started && !sh.shutdownComplete && !sh.shutdownStarted)
    && (sh.generation > 0 ==>
         && sh.shutdownDone == Some(ShutdownCh(sh.generation))
         && (sh.shutdownComplete <==> ShutdownCh(sh.generation) in sh.closed)
         && (sh.started <==> !sh.shutdownComplete))
    && (forall g :: 0 < g < sh.generation ==> ShutdownCh(g) in sh.closed)
    && (forall c :: c in sh.closed ==> !c.LateCh? && (c.ShutdownCh? ==> 0 < c.generation <= sh.generation))
  }

  predicate StarterInv(sh: Shared, t: nat, th: Starter) {
    var p := PhaseOf(th.pc);
    && th.generation <= sh.generation
    && (p == Fresh ==> !th.made && th.generation == 0)
    && (p == Waiting || p == Slotted ==>
         th.made && th.generation == 0 && sh.startupPending && sh.startupDone == Some(StartupCh(t)))
    && (StartupCh(t) in sh.closed <==> th.made && !Pends(th))
    && (Runs(th) ==> 0 < th.generation == sh.generation && (sh.shutdownComplete ==> sh.shutdownStarted))
    && (p == Live && !sh.shutdownComplete ==>
         sh.httpServer == Some(t) && sh.listener == Some(t) && sh.tracker == Some(t))
    && (p == Finished && th.generation > 0 ==> th.generation == sh.generation && sh.shutdownComplete)
    && (p == Gone && th.generation > 0 ==> ShutdownCh(th.generation) in sh.closed)
    && (Holds(th) ==> sh.slot == Some(0))
  }

  /** The Start was pending when a Shutdown came: it can only abandon. */
  predicate Doomed(sh: Shared, th: Starter) {
    th.made && th.generation == 0 && (Pends(th) ==> sh.startupCancelled)
  }

  /** The stopper is shutting down the generation it captured. */
  predicate ShutsDown(st: Stopper) {
    || st.pc.StopTracker? || st.pc.UnreadyThenShutdown? || st.pc.HttpShutdown? || st.pc.AwaitTracker?
    || st.pc.RecordErr? || st.pc.StopComplete?
  }

  /** The stopper has seen the channel closed that it waited for. */
  predicate HasSeen(sh: Shared, st: Stopper) {
    && (st.pc.ReadError? || st.pc.StopCompleted? || st.pc.StopReturned?)
    && st.awaited.Some? && st.awaited.value in sh.closed
  }

  predicate StopperInv(sh: Shared, starters: map<nat, Starter>, st: Stopper) {
    && (st.awaited.Some? ==> st.awaited.value.ShutdownCh? && 0 < st.awaited.value.generation <= sh.generation)
    && (st.captured > 0 ==> st.awaited == Some(ShutdownCh(st.captured)))
    && (st.pc.AwaitLifecycle? ==> st.awaited.Some? && st.pc.done == st.awaited)
    && (st.gaveUp ==> st.pc.StopReturned?)
    && (st.pc.ReadError? || st.pc.StopCompleted? ==> st.awaited.Some?)
    && (st.awaited.Some? ==> ShutsDown(st) || st.pc.AwaitLifecycle? || st.gaveUp || HasSeen(sh, st))
    && (st.pc.StopReturned? && st.saw.Some? && !st.gaveUp ==> st.saw.value in sh.closed)
    && (st.saw.Some? ==> st.awaited.None? && (st.pc.AwaitStartup? || st.pc.UnreadyThenAwait? || st.pc.StopReturned?))
    && (ShutsDown(st) ==> 0 < st.captured <= sh.generation && (st.captured == sh.generation ==> sh.shutdownStarted))
    && (st.pc.AwaitStartup? || st.pc.UnreadyThenAwait? ==> st.saw == st.pc.startup && st.saw.Some?)
    && (st.saw.Some? ==>
         && st.saw.value.StartupCh?
         && st.saw.value.starter in starters
         && Doomed(sh, starters[st.saw.value.starter]))
  }

  ghost predicate Threads(s: State) {
    && (forall t :: t in s.starters ==> StarterInv(s.sh, t, s.starters[t]))
    && (forall id :: id in s.stoppers ==> StopperInv(s.sh, s.starters, s.stoppers[id]))
    && (forall t :: t !in s.starters ==> StartupCh(t) !in s.sh.closed)
  }

  function Holders(s: State): set<nat> {
    set t | t in s.starters && Holds(s.starters[t])
  }

  function Tokens(sh: Shared): nat {
    if sh.slot.Some? then sh.slot.value else 1
  }

  /** The start-slot token is either buffered or held by exactly one Start. */
  predicate TokenConserved(s: State) {
    Tokens(s.sh) + |Holders(s)| == 1
  }

  /** The pending startup is some Start's. */
  predicate PendingOwned(s: State) {
    s.sh.startupPending && s.sh.startupDone.Some? && s.sh.startupDone.value.StartupCh? ==>
      var t := s.sh.startupDone.value.starter;
      t in s.starters && Pends(s.starters[t])
  }

  ghost predicate Claimed(s: State, g: nat) {
    exists t :: t in s.starters && s.starters[t].generation == g
  }

  /** Every generation was claimed by some Start. */
  ghost predicate GenerationsClaimed(s: State) {
    forall g: nat :: 0 < g <= s.sh.generation ==> Claimed(s, g)
  }

  /** Some thread has completed the lifecycle and still has to store `ready = false`. */
  ghost predicate OwesUnready(s: State) {
    || (exists t :: t in s.starters && s.starters[t].pc.Completed?)
    || (exists id :: id in s.stoppers && s.stoppers[id].pc.StopCompleted?)
  }

  ghost predicate ReadyInv(s: State) {
    s.sh.ready ==> s.sh.started || OwesUnready(s)
  }

  ghost predicate Inv(s: State) {
    && SharedInv(s.sh)
    && Threads(s)
    && TokenConserved(s)
    && PendingOwned(s)
    && GenerationsClaimed(s)
    && ReadyInv(s)
  }

  // ---------------------------------------------------------------- steps of a Start

  function HeldBy(th: Starter): nat {
    if Holds(th) then 1 else 0
  }

  /** Generation, closed channels and a generation's shutdown flag only move forward, and its error is final once it is complete. */
  predicate Forward(sh: Shared, sh': Shared) {
    && sh.generation <= sh'.generation
    && sh.closed <= sh'.closed
    && (sh.generation == sh'.generation && sh.shutdownStarted ==> sh'.shutdownStarted)
    && (sh.generation == sh'.generation && sh.shutdownErr.Some? ==> sh'.shutdownErr.Some?)
    && (sh.generation == sh'.generation && sh.shutdownComplete ==> sh'.shutdownComplete && sh'.shutdownErr == sh.shutdownErr)
  }

  /** What a Start's step does to the token, the pending startup, the generation and `ready`. */
  ghost predicate Effect(sh: Shared, t: nat, th: Starter, r: (Shared, Starter)) {
    && Forward(sh, r.0)
    && Tokens(r.0) + HeldBy(r.1) == Tokens(sh) + HeldBy(th)
    && (r.0.startupDone.Some? ==>
          || (r.0.startupDone == Some(StartupCh(t)) && Pends(r.1))
          || (r.0.startupDone == sh.startupDone && !Pends(th)))
    && (th.generation > 0 ==> r.1.generation == th.generation)
    && (r.0.generation != sh.generation ==> r.0.generation == sh.generation + 1 == r.1.generation)
    && (r.0.ready ==> r.0.started || r.1.pc.Completed? || (sh.ready && !sh.started && !th.pc.Completed?))
    && (forall u :: u != t && StartupCh(u) in r.0.closed ==> StartupCh(u) in sh.closed)
  }

  /** `r` is a good outcome of a step by `t`, for `t` itself and for any other Start. */
  ghost predicate GoodStep(sh: Shared, t: nat, th: Starter, r: (Shared, Starter)) {
    && SharedInv(r.0)
    && StarterInv(r.0, t, r.1)
    && Effect(sh, t, th, r)
    && (Doomed(sh, th) ==> Doomed(r.0, r.1))
    && KeepsOthers(sh, t, th, r.0)
  }

  ghost predicate KeepsOthers(sh: Shared, t: nat, th: Starter, sh': Shared) {
    forall u, other :: u != t && StarterInv(sh, u, other) && !(Holds(th) && Holds(other)) ==>
      StarterInv(sh', u, other) && (Doomed(sh, other) ==> Doomed(sh', other))
  }

  /** The states differ only in fields that play no part in the thread invariants. */
  predicate Alike(sh: Shared, sh': Shared) {
    && (sh.shutdownErr.Some? ==> sh'.shutdownErr.Some?)
    && (sh.shutdownComplete ==> sh'.shutdownErr == sh.shutdownErr)
    && sh' == sh.(ready := sh'.ready, shutdownErr := sh'.shutdownErr, mcpClosed := sh'.mcpClosed,
               serveStarted := sh'.serveStarted)
  }

  lemma AlikeKeepsThreads(sh: Shared, sh': Shared)
    requires SharedInv(sh) && Alike(sh, sh')
    ensures SharedInv(sh') && Forward(sh, sh')
    ensures forall u, other :: StarterInv(sh, u, other) ==> StarterInv(sh', u, other)
  {
  }

  /** A move of the program counter alone that does not turn back. */
  predicate Advances(th: Starter, th': Starter) {
    var p, p' := PhaseOf(th.pc), PhaseOf(th'.pc);
    && th'.generation == th.generation && th'.made == th.made
    && (p' == p || (p == Fresh && p' == Gone) || (p == Live && p' == Running))
    && p != Waiting && p != Slotted
  }

  lemma AdvanceIsGood(sh: Shared, t: nat, th: Starter, th': Starter)
    requires StarterInv(sh, t, th) && Advances(th, th')
    ensures StarterInv(sh, t, th') && (Doomed(sh, th) ==> Doomed(sh, th'))
  {
  }

  lemma UnlockedAdvances(th: Starter, c: Choice)
    requires Unlocked(th.pc) && (th.pc.Serving? ==> c.Fail?)
    ensures Advances(th, UnlockedNext(th, c))
  {
  }

  lemma AdvanceEffect(sh: Shared, t: nat, th: Starter, th': Starter, ready: bool)
    requires SharedInv(sh) && StarterInv(sh, t, th) && Advances(th, th')
    requires ready ==> sh.ready && !th.pc.Completed?
    ensures Effect(sh, t, th, (sh.(ready := ready), th'))
  {
  }

  lemma AdvanceStep(sh: Shared, t: nat, th: Starter, th': Starter, ready: bool)
    requires SharedInv(sh) && StarterInv(sh, t, th) && Advances(th, th')
    requires ready ==> sh.ready && !th.pc.Completed?
    ensures GoodStep(sh, t, th, (sh.(ready := ready), th'))
  {
    AdvanceIsGood(sh, t, th, th');
    AdvanceEffect(sh, t, th, th', ready);
    AlikeKeepsThreads(sh, sh.(ready := ready));
  }

  lemma UnlockedIsGood(sh: Shared, t: nat, th: Starter, c: Choice, r: (Shared, Starter))
    requires Unlocked(th.pc) && (th.pc.Serving? ==> c.Fail?) && SharedInv(sh) && StarterInv(sh, t, th)
    requires r == UnlockedStep(sh, th, c)
    ensures GoodStep(sh, t, th, r)
  {
    UnlockedAdvances(th, c);
    AdvanceStep(sh, t, th, r.1, r.0.ready);
  }

  lemma ServedIsGood(sh: Shared, t: nat, th: Starter)
    requires th.pc.Served? && SharedInv(sh) && StarterInv(sh, t, th)
    ensures GoodStep(sh, t, th, ServedStep(sh, th))
  {
    var r := ServedStep(sh, th);
    AdvanceIsGood(sh, t, th, r.1);
    AdvanceEffect(sh, t, th, r.1, sh.ready);
  }

  lemma MakeSlotKeepsOthers(sh: Shared, t: nat, th: Starter)
    requires SharedInv(sh)
    ensures KeepsOthers(sh, t, th, MakeSlot(sh))
  {
  }

  lemma PrepareSlotIsGood(sh: Shared, t: nat, th: Starter)
    requires th.pc.PrepareSlot? && SharedInv(sh) && StarterInv(sh, t, th)
    ensures GoodStep(sh, t, th, (MakeSlot(sh), th.(pc := AwaitSlot)))
  {
    MakeSlotKeepsOthers(sh, t, th);
  }

  lemma AwaitSlotIsGood(sh: Shared, t: nat, th: Starter, c: Choice)
    requires th.pc.AwaitSlot? && StartEnabled(sh, th, c) && SharedInv(sh) && StarterInv(sh, t, th)
    ensures GoodStep(sh, t, th, StartStep(sh, t, th, c))
  {
  }

  lemma ReleaseIsGood(sh: Shared, t: nat, th: Starter, c: Choice)
    requires th.pc.Release? && StartEnabled(sh, th, c) && SharedInv(sh) && StarterInv(sh, t, th)
    ensures GoodStep(sh, t, th, StartStep(sh, t, th, c))
  {
  }

  lemma PublishIsGood(sh: Shared, t: nat, th: Starter)
    requires th.pc.PublishPc? && SharedInv(sh) && StarterInv(sh, t, th)
    ensures GoodStep(sh, t, th, PublishStep(sh, t, th))
  {
  }

  lemma MarkServingIsGood(sh: Shared, t: nat, th: Starter)
    requires th.pc.MarkServing? && SharedInv(sh) && StarterInv(sh, t, th)
    ensures GoodStep(sh, t, th, MarkServingStep(sh, th))
  {
  }

  lemma HandoffIsGood(sh: Shared, t: nat, th: Starter)
    requires th.pc.Handoff? && SharedInv(sh) && StarterInv(sh, t, th)
    ensures GoodStep(sh, t, th, HandoffStep(sh, t, th))
    ensures HandoffStep(sh, t, th).1.pc.Serving? ==> sh.started
  {
    AlikeKeepsThreads(sh, sh.(ready := true));
  }

  lemma RequestKeepsOthers(sh: Shared, t: nat, th: Starter)
    requires th.pc.Request? && SharedInv(sh)
    ensures KeepsOthers(sh, t, th, RequestStart(sh, t))
  {
  }

  lemma RequestOwn(sh: Shared, t: nat, th: Starter)
    requires th.pc.Request? && SharedInv(sh) && StarterInv(sh, t, th)
    requires !sh.started && !sh.startupPending
    ensures var r := RequestStep(sh, t, th);
            SharedInv(r.0) && StarterInv(r.0, t, r.1) && Effect(sh, t, th, r)
  {
  }

  lemma RequestIsGood(sh: Shared, t: nat, th: Starter)
    requires th.pc.Request? && SharedInv(sh) && StarterInv(sh, t, th)
    ensures GoodStep(sh, t, th, RequestStep(sh, t, th))
  {
    if sh.started || sh.startupPending {
      AdvanceIsGood(sh, t, th, th.(pc := Returned));
      AdvanceEffect(sh, t, th, th.(pc := Returned), sh.ready);
    } else {
      RequestKeepsOthers(sh, t, th);
      RequestOwn(sh, t, th);
    }
  }

  lemma ClaimKeepsOthers(sh: Shared, t: nat, th: Starter)
    requires th.pc.Claim? && SharedInv(sh) && StarterInv(sh, t, th)
    requires !sh.started
    ensures KeepsOthers(sh, t, th, ClaimGeneration(sh))
  {
  }

  lemma ClaimIsGood(sh: Shared, t: nat, th: Starter)
    requires th.pc.Claim? && SharedInv(sh) && StarterInv(sh, t, th)
    ensures GoodStep(sh, t, th, ClaimStep(sh, th))
  {
    if !sh.started && !sh.startupCancelled {
      ClaimKeepsOthers(sh, t, th);
    }
  }

  lemma AbandonIsGood(sh: Shared, t: nat, th: Starter, c: Choice)
    requires th.pc.Abandon? && SharedInv(sh) && StarterInv(sh, t, th)
    ensures GoodStep(sh, t, th, StartStep(sh, t, th, c))
  {
  }

  lemma CompleteIsGood(sh: Shared, t: nat, th: Starter)
    requires th.pc.CompletePc? && SharedInv(sh) && StarterInv(sh, t, th)
    ensures GoodStep(sh, t, th, CompleteStep(sh, th))
  {
  }

  lemma StartIsGood(sh: Shared, t: nat, th: Starter, c: Choice, r: (Shared, Starter))
    requires StartEnabled(sh, th, c) && SharedInv(sh) && StarterInv(sh, t, th)
    requires r == StartStep(sh, t, th, c)
    ensures GoodStep(sh, t, th, r)
  {
    if Unlocked(th.pc) {
      UnlockedIsGood(sh, t, th, c, r);
    } else {
      LockedIsGood(sh, t, th, c, r);
    }
  }

  lemma LockedIsGood(sh: Shared, t: nat, th: Starter, c: Choice, r: (Shared, Starter))
    requires !Unlocked(th.pc) && StartEnabled(sh, th, c) && SharedInv(sh) && StarterInv(sh, t, th)
    requires r == StartStep(sh, t, th, c)
    ensures GoodStep(sh, t, th, r)
  {
    if BeforeClaim(th.pc) {
      BeforeClaimIsGood(sh, t, th, c, r);
    } else {
      AfterClaimIsGood(sh, t, th, c, r);
    }
  }

  predicate BeforeClaim(pc: StartPc) {
    pc.Request? || pc.PrepareSlot? || pc.AwaitSlot? || pc.Claim? || pc.Abandon? || pc.Release?
  }

  lemma BeforeClaimIsGood(sh: Shared, t: nat, th: Starter, c: Choice, r: (Shared, Starter))
    requires BeforeClaim(th.pc) && StartEnabled(sh, th, c) && SharedInv(sh) && StarterInv(sh, t, th)
    requires r == StartStep(sh, t, th, c)
    ensures GoodStep(sh, t, th, r)
  {
    match th.pc {
      case PrepareSlot => PrepareSlotIsGood(sh, t, th);
      case AwaitSlot => AwaitSlotIsGood(sh, t, th, c);
      case Release => ReleaseIsGood(sh, t, th, c);
      case Request => RequestIsGood(sh, t, th);
      case Claim => ClaimIsGood(sh, t, th);
      case Abandon(_) => AbandonIsGood(sh, t, th, c);
    }
  }

  lemma AfterClaimIsGood(sh: Shared, t: nat, th: Starter, c: Choice, r: (Shared, Starter))
    requires !Unlocked(th.pc) && !BeforeClaim(th.pc) && StartEnabled(sh, th, c) && SharedInv(sh) && StarterInv(sh, t, th)
    requires r == StartStep(sh, t, th, c)
    ensures GoodStep(sh, t, th, r)
  {
    match th.pc {
      case PublishPc => PublishIsGood(sh, t, th);
      case MarkServing => MarkServingIsGood(sh, t, th);
      case Handoff => HandoffIsGood(sh, t, th);
      case Served(_) => ServedIsGood(sh, t, th);
      case CompletePc(_) => CompleteIsGood(sh, t, th);
    }
  }

  // ---------------------------------------------------------------- steps of a Shutdown or watcher

  /** `r` is a good outcome of a stopper's step for every Start and for the shared state. */
  ghost predicate GoodStop(sh: Shared, st: Stopper, r: (Shared, Stopper)) {
    && SharedInv(r.0)
    && (forall u, other :: StarterInv(sh, u, other) ==>
          StarterInv(r.0, u, other) && (Doomed(sh, other) ==> Doomed(r.0, other)))
    && Forward(sh, r.0)
    && r.0.slot == sh.slot && r.0.startupDone == sh.startupDone && r.0.startupPending == sh.startupPending
    && r.0.generation == sh.generation
    && (forall u :: StartupCh(u) in r.0.closed ==> StartupCh(u) in sh.closed)
    && (r.0.ready ==> r.0.started || r.1.pc.StopCompleted? || (sh.ready && !sh.started && !st.pc.StopCompleted?))
  }

  lemma AlikeStopIsGood(sh: Shared, st: Stopper, r: (Shared, Stopper))
    requires SharedInv(sh) && Alike(sh, r.0)
    requires r.0.ready ==> sh.ready && !st.pc.StopCompleted?
    ensures GoodStop(sh, st, r)
  {
    AlikeKeepsThreads(sh, r.0);
  }

  lemma EnterIsGood(sh: Shared, id: StopId, st: Stopper)
    requires st.pc.Enter? && SharedInv(sh)
    ensures GoodStop(sh, st, EnterShutdown(sh, id, st))
  {
  }

  lemma StopCompleteIsGood(sh: Shared, st: Stopper, st': Stopper)
    requires st.pc.StopComplete? && SharedInv(sh)
    requires 0 < st.captured && (st.captured == sh.generation ==> sh.shutdownStarted)
    requires CompletesNow(sh, st.captured) ==> st'.pc.StopCompleted?
    ensures GoodStop(sh, st, (CompleteLifecycle(sh, st.captured, None), st'))
  {
  }

  lemma RecordErrIsAlike(sh: Shared, generation: nat, err: Error)
    ensures var sh' := RecordShutdownErr(sh, generation, err); Alike(sh, sh') && sh'.ready == sh.ready
  {
  }

  lemma UnlockedStopIsAlike(sh: Shared, st: Stopper, c: Choice)
    ensures var sh' := UnlockedStop(sh, st, c).0;
            Alike(sh, sh') && (sh'.ready ==> sh.ready && !st.pc.StopCompleted?)
  {
  }

  lemma StopIsGood(sh: Shared, id: StopId, st: Stopper, c: Choice, r: (Shared, Stopper))
    requires SharedInv(sh) && (ShutsDown(st) ==> 0 < st.captured && (st.captured == sh.generation ==> sh.shutdownStarted))
    requires r == StopStep(sh, id, st, c)
    ensures GoodStop(sh, st, r)
  {
    if st.pc.Enter? {
      EnterIsGood(sh, id, st);
    } else if st.pc.StopComplete? {
      StopCompleteIsGood(sh, st, r.1);
    } else {
      if st.pc.RecordErr? {
        RecordErrIsAlike(sh, st.captured, st.pc.err);
      } else {
        UnlockedStopIsAlike(sh, st, c);
      }
      AlikeStopIsGood(sh, st, r);
    }
  }

  /** A startup that a stopper finds pending is doomed from then on. */
  lemma EnterOwn(s: State, id: StopId, st: Stopper)
    requires st.pc.Enter? && SharedInv(s.sh) && Threads(s) && PendingOwned(s) && StopperInv(s.sh, s.starters, st)
    ensures var r := EnterShutdown(s.sh, id, st); StopperInv(r.0, s.starters, r.1)
  {
    if s.sh.startupPending {
      var t := s.sh.startupDone.value.starter;
      assert StarterInv(s.sh, t, s.starters[t]);
    }
  }

  /** A wait ends when its channel is closed or the context is done. */
  lemma WaitOwn(sh: Shared, starters: map<nat, Starter>, id: StopId, st: Stopper, c: Choice)
    requires (st.pc.AwaitStartup? || st.pc.AwaitLifecycle? || st.pc.ReadError?) && StopperInv(sh, starters, st)
    requires st.pc.AwaitStartup? && c.Proceed? ==> st.pc.startup.None? || st.pc.startup.value in sh.closed
    requires st.pc.AwaitLifecycle? && c.Proceed? ==> st.pc.done.None? || st.pc.done.value in sh.closed
    ensures StopperInv(sh, starters, StopStep(sh, id, st, c).1)
  {
  }

  /** Outside the entry only the program counter moves, along the same shutdown. */
  lemma StopOwn(sh: Shared, starters: map<nat, Starter>, id: StopId, st: Stopper, c: Choice)
    requires !st.pc.Enter? && !st.pc.StopComplete? && StopperInv(sh, starters, st)
    requires st.pc.AwaitStartup? && c.Proceed? ==> st.pc.startup.None? || st.pc.startup.value in sh.closed
    requires st.pc.AwaitLifecycle? && c.Proceed? ==> st.pc.done.None? || st.pc.done.value in sh.closed
    requires !st.pc.StopReturned?
    ensures StopperInv(sh, starters, StopStep(sh, id, st, c).1)
  {
    if st.pc.AwaitStartup? || st.pc.AwaitLifecycle? || st.pc.ReadError? {
      WaitOwn(sh, starters, id, st, c);
    } else if ShutsDown(st) {
      ShutdownMoveOwn(sh, starters, id, st, c);
    } else {
      OtherMoveOwn(sh, starters, id, st, c);
    }
  }

  lemma ShutdownMoveOwn(sh: Shared, starters: map<nat, Starter>, id: StopId, st: Stopper, c: Choice)
    requires ShutsDown(st) && !st.pc.StopComplete? && StopperInv(sh, starters, st)
    ensures StopperInv(sh, starters, StopStep(sh, id, st, c).1)
  {
  }

  lemma OtherMoveOwn(sh: Shared, starters: map<nat, Starter>, id: StopId, st: Stopper, c: Choice)
    requires st.pc.Watching? || st.pc.UnreadyThenAwait? || st.pc.UnreadyThenReturn? || st.pc.StopCompleted?
    requires StopperInv(sh, starters, st)
    ensures StopperInv(sh, starters, StopStep(sh, id, st, c).1)
  {
  }

  lemma StopCompleteOwn(sh: Shared, starters: map<nat, Starter>, st: Stopper, st': Stopper)
    requires st.pc.StopComplete? && SharedInv(sh) && StopperInv(sh, starters, st)
    requires st' == st.(pc := st'.pc) && (st'.pc.StopCompleted? || st'.pc.StopReturned?)
    ensures StopperInv(CompleteLifecycle(sh, st.captured, None), starters, st')
  {
  }

  lemma StopperStable(sh: Shared, starters: map<nat, Starter>, sh': Shared, starters': map<nat, Starter>, st: Stopper)
    requires StopperInv(sh, starters, st) && Forward(sh, sh')
    requires forall t :: t in starters ==>
               t in starters' && (Doomed(sh, starters[t]) ==> Doomed(sh', starters'[t]))
    ensures StopperInv(sh', starters', st)
  {
  }
}
