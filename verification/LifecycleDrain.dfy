/**
 The lifecycle together with its request trackers: a generation is complete only when the server it
 handed to Serve, if any, runs no handler any more.
 */
module LifecycleDrain {
  import opened Wrappers
  import opened Lifecycle
  import opened LifecycleSafety
  import RT = RequestTracker
  import LifecycleTheorems

  // ---------------------------------------------------------------- the invariant

  predicate TrackerOk(x: RT.Tracker) {
    !x.panicked && x.active >= 0 && (x.done <==> x.stopping && x.active == 0)
  }

  /** Serve has been called and has not been waited for. */
  predicate Serves(pc: StartPc) {
    pc.Serving? || pc.Served? || pc.StopHandler? || pc.Draining?
  }

  /** Serve, if it was called, is over, and its handlers have been waited for. */
  predicate Over(pc: StartPc) {
    pc.UnreadyThenComplete? || pc.CompletePc? || pc.Completed? || pc.Release? || pc.Returned?
  }

  predicate BeforePublish(pc: StartPc) {
    var p := PhaseOf(pc);
    p == Fresh || p == Waiting || p == Slotted || pc.ClearReady? || pc.Prepare? || pc.PublishPc?
  }

  /** How a Start stands to its own tracker. */
  predicate StarterDrain(sh: Shared, trackers: Trackers, t: nat, th: Starter) {
    && (BeforePublish(th.pc) ==> t !in trackers)
    && (th.handed ==> t in trackers && th.generation > 0 && (Serves(th.pc) || Over(th.pc)))
    && (Serves(th.pc) ==> th.handed)
    && (PhaseOf(th.pc) == Live ==> t in trackers)
    && (th.pc.Draining? ==> t in trackers && trackers[t].stopping)
    && (th.handed && t in trackers && (Over(th.pc) || ShutdownCh(th.generation) in sh.closed) ==> trackers[t].done)
    && (t in trackers && !th.handed ==> trackers[t].active == 0)
  }

  /** The stopper knows the tracker of the generation it captured, and how far that has been stopped. */
  predicate StopperDrain(trackers: Trackers, starters: map<nat, Starter>, st: Stopper) {
    ShutsDown(st) ==>
      && st.tracker.Some? && st.tracker.value in starters && st.tracker.value in trackers
      && starters[st.tracker.value].generation == st.captured
      && (!st.pc.StopTracker? ==> trackers[st.tracker.value].stopping)
      && (st.pc.StopComplete? ==> trackers[st.tracker.value].done)
  }

  /** What is published belongs to the Start of the current generation. */
  predicate OwnerKnown(s: State) {
    && s.sh.tracker == s.sh.httpServer
    && (s.sh.tracker.Some? ==>
          && s.sh.tracker.value in s.starters && s.sh.tracker.value in s.trackers
          && s.starters[s.sh.tracker.value].generation == s.sh.generation)
  }

  /** Two Starts claimed the same generation. */
  predicate Twins(starters: map<nat, Starter>, t: nat, u: nat) {
    t != u && t in starters && u in starters && starters[t].generation == starters[u].generation > 0
  }

  ghost predicate ClaimedOnce(s: State) {
    forall t, u :: !Twins(s.starters, t, u)
  }

  /** A watcher watches the generation its Start claimed. */
  ghost predicate WatchersKnown(s: State) {
    forall t :: Watcher(t) in s.stoppers ==>
      t in s.starters && s.starters[t].generation == s.stoppers[Watcher(t)].target > 0
  }

  predicate TrackersOk(trackers: Trackers) {
    forall t :: t in trackers ==> TrackerOk(trackers[t])
  }

  ghost predicate StartersDrain(sh: Shared, trackers: Trackers, starters: map<nat, Starter>) {
    forall t :: t in starters ==> StarterDrain(sh, trackers, t, starters[t])
  }

  ghost predicate StoppersDrain(trackers: Trackers, starters: map<nat, Starter>, stoppers: map<StopId, Stopper>) {
    forall id :: id in stoppers ==> StopperDrain(trackers, starters, stoppers[id])
  }

  /** What is said of Starts and watchers by name. */
  ghost predicate NamesKnown(s: State) {
    s.trackers.Keys <= s.starters.Keys && OwnerKnown(s) && ClaimedOnce(s) && WatchersKnown(s)
  }

  ghost predicate DrainInv(s: State) {
    && TrackersOk(s.trackers)
    && StartersDrain(s.sh, s.trackers, s.starters)
    && StoppersDrain(s.trackers, s.starters, s.stoppers)
    && NamesKnown(s)
  }

  /** Every tracker is still there and moved forward. */
  predicate TrackersLater(trackers: Trackers, trackers': Trackers) {
    forall u :: u in trackers ==> u in trackers' && TrackerLater(trackers[u], trackers'[u])
  }

  // ---------------------------------------------------------------- what a step changes

  predicate TrackerLater(x: RT.Tracker, y: RT.Tracker) {
    (x.stopping ==> y.stopping) && (x.done ==> y.done)
  }

  /** At most the tracker of `t` moved, and it moved forward. */
  predicate OneMoved(trackers: Trackers, trackers': Trackers, t: nat) {
    trackers' == trackers ||
    (t in trackers && t in trackers' && trackers' == trackers[t := trackers'[t]] && TrackerLater(trackers[t], trackers'[t]))
  }

  lemma StopMoves(trackers: Trackers, x: Option<nat>)
    requires TrackersOk(trackers)
    ensures var trackers' := StopRequests(trackers, x);
            && trackers'.Keys == trackers.Keys && TrackersOk(trackers') && TrackersLater(trackers, trackers')
            && (forall t :: t in trackers' ==> trackers'[t].active == trackers[t].active)
            && (x.Some? ==> OneMoved(trackers, trackers', x.value))
            && (x.Some? && x.value in trackers ==> trackers'[x.value].stopping)
            && (x.None? ==> trackers' == trackers)
  {
  }

  /** Which fields of the drain invariant a Start's step can touch in the shared state. */
  ghost predicate StartTouches(sh: Shared, t: nat, th: Starter, r: (Shared, Starter)) {
    && (r.1.generation == th.generation || (th.generation == 0 && r.1.generation == sh.generation + 1 == r.0.generation))
    && (r.1.generation == th.generation ==> r.0.generation == sh.generation)
    && (forall c :: c in r.0.closed ==> c in sh.closed || !c.ShutdownCh? || (th.pc.CompletePc? && c.generation == th.generation))
    && (|| (r.0.tracker == sh.tracker && r.0.httpServer == sh.httpServer && r.0.generation == sh.generation)
        || (r.0.tracker == None && r.0.httpServer == None)
        || (r.0.tracker == Some(t) == r.0.httpServer && th.pc.PublishPc? && r.1.pc.Published? && r.0.generation == th.generation))
  }

  lemma ClaimTouches(sh: Shared, t: nat, th: Starter)
    requires th.pc.Claim? && SharedInv(sh) && StarterInv(sh, t, th)
    ensures StartTouches(sh, t, th, ClaimStep(sh, th))
  {
  }

  lemma CompleteTouches(sh: Shared, t: nat, th: Starter)
    requires th.pc.CompletePc? && SharedInv(sh) && StarterInv(sh, t, th)
    ensures StartTouches(sh, t, th, CompleteStep(sh, th))
  {
  }

  /** Nothing of the published server, the generation or the channels of generations moves. */
  ghost predicate Calm(sh: Shared, sh': Shared) {
    && sh'.tracker == sh.tracker && sh'.httpServer == sh.httpServer && sh'.generation == sh.generation
    && (forall c :: c in sh'.closed ==> c in sh.closed || !c.ShutdownCh?)
  }

  lemma CalmTouches(sh: Shared, t: nat, th: Starter, r: (Shared, Starter))
    requires Calm(sh, r.0) && r.1.generation == th.generation
    ensures StartTouches(sh, t, th, r)
  {
  }

  lemma AbandonIsCalm(sh: Shared)
    requires SharedInv(sh)
    ensures Calm(sh, FinishPendingStartup(sh))
  {
  }

  lemma SlotIsCalm(sh: Shared, sh': Shared)
    requires sh' == sh.(slot := sh'.slot)
    ensures Calm(sh, sh')
  {
  }

  lemma RequestIsCalm(sh: Shared, t: nat)
    ensures Calm(sh, RequestStart(sh, t))
  {
  }

  lemma ServingIsCalm(sh: Shared, ready: bool, serveStarted: bool)
    ensures Calm(sh, sh.(ready := ready)) && Calm(sh, sh.(serveStarted := serveStarted))
  {
  }

  lemma UnlockedTouches(sh: Shared, t: nat, th: Starter, c: Choice, r: (Shared, Starter))
    requires Unlocked(th.pc) && (th.pc.Serving? ==> c.Fail?) && r == UnlockedStep(sh, th, c)
    ensures StartTouches(sh, t, th, r)
  {
    UnlockedAdvances(th, c);
    ServingIsCalm(sh, false, false);
    CalmTouches(sh, t, th, r);
  }

  lemma SlotTouches(sh: Shared, t: nat, th: Starter, sh': Shared, pc: StartPc)
    requires sh' == sh.(slot := sh'.slot)
    ensures StartTouches(sh, t, th, (sh', th.(pc := pc)))
  {
    SlotIsCalm(sh, sh');
    CalmTouches(sh, t, th, (sh', th.(pc := pc)));
  }

  lemma PendingTouches(sh: Shared, t: nat, th: Starter, sh': Shared, th': Starter)
    requires SharedInv(sh) && th'.generation == th.generation
    requires sh' == FinishPendingStartup(sh) || sh' == RequestStart(sh, t)
    ensures StartTouches(sh, t, th, (sh', th'))
  {
    AbandonIsCalm(sh);
    RequestIsCalm(sh, t);
    CalmTouches(sh, t, th, (sh', th'));
  }

  lemma MakeSlotTouches(sh: Shared, t: nat, th: Starter)
    ensures StartTouches(sh, t, th, (MakeSlot(sh), th.(pc := AwaitSlot)))
  {
    if sh.slot.None? {
      SlotTouches(sh, t, th, sh.(slot := Some(1)), AwaitSlot);
    } else {
      SlotTouches(sh, t, th, sh, AwaitSlot);
    }
  }

  lemma AwaitSlotTouches(sh: Shared, t: nat, th: Starter, c: Choice)
    requires th.pc.AwaitSlot? && StartEnabled(sh, th, c)
    ensures StartTouches(sh, t, th, StartStep(sh, t, th, c))
  {
    if c.Proceed? {
      SlotTouches(sh, t, th, sh.(slot := Some(sh.slot.value - 1)), Claim);
    } else {
      SlotTouches(sh, t, th, sh, Abandon(false));
    }
  }

  lemma ReleaseTouches(sh: Shared, t: nat, th: Starter)
    ensures StartTouches(sh, t, th, (sh.(slot := Some(1)), th.(pc := Returned)))
  {
    SlotTouches(sh, t, th, sh.(slot := Some(1)), Returned);
  }

  lemma EarlyTouches(sh: Shared, t: nat, th: Starter, c: Choice, r: (Shared, Starter))
    requires BeforeClaim(th.pc) && !th.pc.Claim? && SharedInv(sh) && StartEnabled(sh, th, c)
    requires r == StartStep(sh, t, th, c)
    ensures StartTouches(sh, t, th, r)
  {
    match th.pc {
      case PrepareSlot => MakeSlotTouches(sh, t, th);
      case AwaitSlot => AwaitSlotTouches(sh, t, th, c);
      case Release => ReleaseTouches(sh, t, th);
      case _ => PendingTouches(sh, t, th, r.0, r.1);
    }
  }

  lemma PublishTouches(sh: Shared, t: nat, th: Starter)
    requires th.pc.PublishPc?
    ensures StartTouches(sh, t, th, PublishStep(sh, t, th))
  {
  }

  lemma LateTouches(sh: Shared, t: nat, th: Starter, c: Choice, r: (Shared, Starter))
    requires (th.pc.MarkServing? || th.pc.Handoff? || th.pc.Served?) && StartEnabled(sh, th, c)
    requires r == StartStep(sh, t, th, c)
    ensures StartTouches(sh, t, th, r)
  {
    ServingIsCalm(sh, true, true);
    CalmTouches(sh, t, th, r);
  }

  lemma StartStepTouches(sh: Shared, t: nat, th: Starter, c: Choice, r: (Shared, Starter))
    requires StartEnabled(sh, th, c) && SharedInv(sh) && StarterInv(sh, t, th) && r == StartStep(sh, t, th, c)
    ensures StartTouches(sh, t, th, r)
  {
    if Unlocked(th.pc) {
      UnlockedTouches(sh, t, th, c, r);
    } else if BeforeClaim(th.pc) {
      match th.pc {
        case Claim => ClaimTouches(sh, t, th);
        case _ => EarlyTouches(sh, t, th, c, r);
      }
    } else {
      match th.pc {
        case PublishPc => PublishTouches(sh, t, th);
        case CompletePc(_) => CompleteTouches(sh, t, th);
        case _ => LateTouches(sh, t, th, c, r);
      }
    }
  }

  /** How Serve is called, ended and waited for. */
  predicate ServeMoves(th: Starter, th': Starter) {
    && (th'.handed <==> th.handed || (th.pc.Handoff? && th'.pc.Serving?))
    && (th'.pc.Serving? ==> th.pc.Handoff?)
    && (Serves(th'.pc) ==> Serves(th.pc) || th'.pc.Serving?)
    && (th'.pc.Draining? ==> th.pc.StopHandler?)
    && (Over(th'.pc) && Serves(th.pc) ==> th.pc.Draining?)
    && (Serves(th.pc) ==> Serves(th'.pc) || Over(th'.pc))
    && (Over(th.pc) ==> Over(th'.pc))
  }

  /** How a server is published. */
  predicate PublishMoves(th: Starter, th': Starter) {
    && (PhaseOf(th'.pc) == Live ==> PhaseOf(th.pc) == Live || (th.pc.PublishPc? && th'.pc.Published?))
    && (BeforePublish(th'.pc) ==> BeforePublish(th.pc))
  }

  predicate PcMoves(th: Starter, th': Starter) {
    ServeMoves(th, th') && PublishMoves(th, th')
  }

  lemma UnlockedPcMoves(th: Starter, c: Choice)
    requires Unlocked(th.pc) && (th.pc.Serving? ==> c.Fail?)
    ensures PcMoves(th, UnlockedNext(th, c))
  {
    UnlockedServeMoves(th, c);
  }

  lemma UnlockedServeMoves(th: Starter, c: Choice)
    requires Unlocked(th.pc) && (th.pc.Serving? ==> c.Fail?)
    ensures ServeMoves(th, UnlockedNext(th, c))
  {
  }

  lemma EarlyServeMoves(sh: Shared, t: nat, th: Starter, c: Choice)
    requires BeforeClaim(th.pc) && StartEnabled(sh, th, c)
    ensures ServeMoves(th, StartStep(sh, t, th, c).1)
  {
    var th' := StartStep(sh, t, th, c).1;
    assert th'.handed == th.handed && !Serves(th.pc) && !Serves(th'.pc);
  }

  lemma EarlyPublishMoves(sh: Shared, t: nat, th: Starter, c: Choice)
    requires BeforeClaim(th.pc) && StartEnabled(sh, th, c)
    ensures PublishMoves(th, StartStep(sh, t, th, c).1)
  {
  }

  /** A Start whose generation is the server's takes no foreign-generation exit. */
  lemma LateServeMoves(sh: Shared, t: nat, th: Starter, c: Choice)
    requires !Unlocked(th.pc) && !BeforeClaim(th.pc) && StartEnabled(sh, th, c) && th.generation == sh.generation
    ensures ServeMoves(th, StartStep(sh, t, th, c).1)
  {
  }

  lemma LatePublishMoves(sh: Shared, t: nat, th: Starter, c: Choice)
    requires !Unlocked(th.pc) && !BeforeClaim(th.pc) && StartEnabled(sh, th, c) && th.generation == sh.generation
    ensures PublishMoves(th, StartStep(sh, t, th, c).1)
  {
  }

  lemma StartPcMoves(sh: Shared, t: nat, th: Starter, c: Choice, r: (Shared, Starter))
    requires StartEnabled(sh, th, c) && StarterInv(sh, t, th) && r == StartStep(sh, t, th, c)
    ensures PcMoves(th, r.1)
  {
    if Unlocked(th.pc) {
      UnlockedPcMoves(th, c);
    } else if BeforeClaim(th.pc) {
      EarlyServeMoves(sh, t, th, c);
      EarlyPublishMoves(sh, t, th, c);
    } else {
      LateServeMoves(sh, t, th, c);
      LatePublishMoves(sh, t, th, c);
    }
  }

  // ---------------------------------------------------------------- a Start's step

  lemma OwnDrain(sh: Shared, trackers: Trackers, t: nat, th: Starter, r: (Shared, Starter), trackers': Trackers)
    requires SharedInv(sh) && StarterInv(sh, t, th) && StarterDrain(sh, trackers, t, th)
    requires TrackersOk(trackers)
    requires th.pc.Draining? ==> Drained(trackers, Some(t))
    requires StartTouches(sh, t, th, r) && PcMoves(th, r.1)
    requires th.pc.Handoff? && r.1.pc.Serving? ==> !sh.shutdownStarted && r.0.closed == sh.closed
    requires trackers' == TrackersAfterStart(trackers, t, th.pc, r.1.pc)
    ensures StarterDrain(r.0, trackers', t, r.1)
  {
    StopMoves(trackers, Some(t));
  }

  /** What a step of `t` leaves of the others: their trackers, and their generations' channels open. */
  lemma OtherDrain(sh: Shared, trackers: Trackers, t: nat, th: Starter, sh': Shared, trackers': Trackers, u: nat, other: Starter)
    requires StarterDrain(sh, trackers, u, other) && u != t
    requires forall c :: c in sh'.closed ==> c in sh.closed || !c.ShutdownCh? || (th.pc.CompletePc? && c.generation == th.generation)
    requires other.generation > 0 ==> other.generation != th.generation
    requires trackers' - {t} == trackers - {t}
    ensures StarterDrain(sh', trackers', u, other)
  {
    assert u in trackers <==> u in trackers - {t};
    assert u in trackers' <==> u in trackers' - {t};
    if u in trackers {
      assert trackers'[u] == (trackers' - {t})[u] == (trackers - {t})[u];
    }
  }

  lemma StartTrackers(trackers: Trackers, t: nat, th: Starter, th': Starter)
    requires TrackersOk(trackers)
    requires th.pc.PublishPc? ==> t !in trackers
    ensures var trackers' := TrackersAfterStart(trackers, t, th.pc, th'.pc);
            && trackers' - {t} == trackers - {t}
            && TrackersOk(trackers') && trackers'.Keys <= trackers.Keys + {t}
            && TrackersLater(trackers, trackers')
  {
    StopMoves(trackers, Some(t));
  }

  lemma StopperDrainKept(trackers: Trackers, starters: map<nat, Starter>, trackers': Trackers, starters': map<nat, Starter>, st: Stopper)
    requires StopperDrain(trackers, starters, st) && (ShutsDown(st) ==> st.captured > 0)
    requires TrackersLater(trackers, trackers')
    requires forall u :: u in starters ==>
               u in starters' && (starters[u].generation > 0 ==> starters'[u].generation == starters[u].generation)
    ensures StopperDrain(trackers', starters', st)
  {
  }

  lemma ClaimedOnceKept(s: State, s': State, t: nat)
    requires Threads(s) && ClaimedOnce(s) && t in s.starters && t in s'.starters && s'.starters == s.starters[t := s'.starters[t]]
    requires s'.starters[t].generation == s.starters[t].generation || s'.starters[t].generation > s.sh.generation
    ensures ClaimedOnce(s')
  {
    forall u, v
      ensures !Twins(s'.starters, u, v)
    {
      assert !Twins(s.starters, u, v);
      assert u in s.starters ==> StarterInv(s.sh, u, s.starters[u]);
      assert v in s.starters ==> StarterInv(s.sh, v, s.starters[v]);
    }
  }

  lemma StartKeepsDrain(s: State, s': State, t: nat, c: Choice)
    requires Inv(s) && DrainInv(s) && Enabled(s, RunStart(t, c)) && s' == Apply(s, RunStart(t, c))
    ensures DrainInv(s')
  {
    var th := s.starters[t];
    var r := StartStep(s.sh, t, th, c);
    assert StarterInv(s.sh, t, th) && StarterDrain(s.sh, s.trackers, t, th);
    StartStepTouches(s.sh, t, th, c, r);
    StartPcMoves(s.sh, t, th, c, r);
    if th.pc.Handoff? {
      HandoffIsCalm(s.sh, t, th);
    }
    StartDrains(s, s', t, r);
  }

  lemma HandoffIsCalm(sh: Shared, t: nat, th: Starter)
    requires th.pc.Handoff?
    ensures var r := HandoffStep(sh, t, th);
            r.1.pc.Serving? ==> r.0.closed == sh.closed && (th.generation == sh.generation ==> !sh.shutdownStarted)
  {
  }

  lemma StartDrains(s: State, s': State, t: nat, r: (Shared, Starter))
    requires SharedInv(s.sh) && Threads(s) && DrainInv(s)
    requires t in s.starters && StartTouches(s.sh, t, s.starters[t], r) && PcMoves(s.starters[t], r.1)
    requires s.starters[t].pc.Draining? ==> Drained(s.trackers, Some(t))
    requires s.starters[t].pc.Handoff? && r.1.pc.Serving? ==> !s.sh.shutdownStarted && r.0.closed == s.sh.closed
    requires s' == State(r.0, TrackersAfterStart(s.trackers, t, s.starters[t].pc, r.1.pc), s.starters[t := r.1],
                         WithWatcher(s.stoppers, t, s.starters[t], r.1))
    ensures DrainInv(s')
  {
    assert StarterInv(s.sh, t, s.starters[t]) && StarterDrain(s.sh, s.trackers, t, s.starters[t]);
    StartTrackers(s.trackers, t, s.starters[t], r.1);
    StartKeepsStarters(s, s', t, r);
    StartKeepsStoppers(s, s', t, r.1);
    StartKeepsWatchers(s, s', t, r.1);
    StartKeepsOwner(s, s', t, r);
    ClaimedOnceKept(s, s', t);
  }

  lemma StartKeepsStarters(s: State, s': State, t: nat, r: (Shared, Starter))
    requires SharedInv(s.sh) && Threads(s) && ClaimedOnce(s)
    requires TrackersOk(s.trackers)
    requires StartersDrain(s.sh, s.trackers, s.starters)
    requires t in s.starters && StartTouches(s.sh, t, s.starters[t], r) && PcMoves(s.starters[t], r.1)
    requires s.starters[t].pc.Draining? ==> Drained(s.trackers, Some(t))
    requires s.starters[t].pc.Handoff? && r.1.pc.Serving? ==> !s.sh.shutdownStarted && r.0.closed == s.sh.closed
    requires s'.sh == r.0 && s'.starters == s.starters[t := r.1]
    requires s'.trackers == TrackersAfterStart(s.trackers, t, s.starters[t].pc, r.1.pc)
    ensures StartersDrain(s'.sh, s'.trackers, s'.starters)
  {
    var th := s.starters[t];
    assert StarterInv(s.sh, t, th) && StarterDrain(s.sh, s.trackers, t, th);
    StartTrackers(s.trackers, t, th, r.1);
    OwnDrain(s.sh, s.trackers, t, th, r, s'.trackers);
    forall u | u in s'.starters && u != t
      ensures StarterDrain(s'.sh, s'.trackers, u, s'.starters[u])
    {
      assert !Twins(s.starters, t, u);
      OtherDrain(s.sh, s.trackers, t, th, s'.sh, s'.trackers, u, s.starters[u]);
    }
  }

  lemma StartKeepsStoppers(s: State, s': State, t: nat, th': Starter)
    requires Threads(s) && t in s.starters
    requires StoppersDrain(s.trackers, s.starters, s.stoppers)
    requires s.starters[t].generation > 0 ==> th'.generation == s.starters[t].generation
    requires TrackersLater(s.trackers, s'.trackers)
    requires s'.starters == s.starters[t := th'] && s'.stoppers == WithWatcher(s.stoppers, t, s.starters[t], th')
    ensures StoppersDrain(s'.trackers, s'.starters, s'.stoppers)
  {
    AllStoppersKept(s, s'.(stoppers := s.stoppers));
  }

  lemma CapturedIsClaimed(s: State, id: StopId)
    requires Threads(s) && id in s.stoppers
    ensures ShutsDown(s.stoppers[id]) ==> s.stoppers[id].captured > 0
  {
    assert StopperInv(s.sh, s.starters, s.stoppers[id]);
  }

  lemma StartKeepsWatchers(s: State, s': State, t: nat, th': Starter)
    requires WatchersKnown(s) && t in s.starters
    requires s.starters[t].generation > 0 ==> th'.generation == s.starters[t].generation
    requires s.starters[t].pc.Handoff? ==> s.starters[t].generation > 0
    requires s'.starters == s.starters[t := th'] && s'.stoppers == WithWatcher(s.stoppers, t, s.starters[t], th')
    ensures WatchersKnown(s')
  {
  }

  lemma StartKeepsOwner(s: State, s': State, t: nat, r: (Shared, Starter))
    requires OwnerKnown(s) && t in s.starters && StartTouches(s.sh, t, s.starters[t], r)
    requires s.starters[t].generation <= s.sh.generation
    requires s.trackers.Keys <= s'.trackers.Keys
    requires s.starters[t].pc.PublishPc? && r.1.pc.Published? ==> t in s'.trackers && r.1.generation == s.starters[t].generation
    requires s'.sh == r.0 && s'.starters == s.starters[t := r.1]
    ensures OwnerKnown(s')
  {
  }

  // ---------------------------------------------------------------- a stopper's step

  /** Which fields of the drain invariant a stopper's step can touch in the shared state. */
  ghost predicate StopTouches(sh: Shared, st: Stopper, sh': Shared) {
    && sh'.generation == sh.generation
    && (forall c :: c in sh'.closed ==> c in sh.closed || !c.ShutdownCh? || (st.pc.StopComplete? && c.generation == st.captured))
    && ((sh'.tracker == sh.tracker && sh'.httpServer == sh.httpServer) || (sh'.tracker == None && sh'.httpServer == None))
  }

  lemma CompletionTouches(sh: Shared, st: Stopper)
    requires st.pc.StopComplete? && SharedInv(sh) && 0 < st.captured
    ensures StopTouches(sh, st, CompleteLifecycle(sh, st.captured, None))
  {
  }

  lemma EnterTouches(sh: Shared, id: StopId, st: Stopper)
    ensures StopTouches(sh, st, EnterShutdown(sh, id, st).0)
  {
  }

  lemma StopStepTouches(sh: Shared, id: StopId, st: Stopper, c: Choice)
    requires SharedInv(sh) && (ShutsDown(st) ==> 0 < st.captured)
    ensures StopTouches(sh, st, StopStep(sh, id, st, c).0)
  {
    match st.pc {
      case Enter => EnterTouches(sh, id, st);
      case StopComplete => CompletionTouches(sh, st);
      case RecordErr(err) => RecordTouches(sh, st, err);
      case ReadError =>
      case _ => UnlockedStopTouches(sh, st, c);
    }
  }

  lemma RecordTouches(sh: Shared, st: Stopper, err: Error)
    ensures StopTouches(sh, st, RecordShutdownErr(sh, st.captured, err))
  {
  }

  lemma UnlockedStopTouches(sh: Shared, st: Stopper, c: Choice)
    ensures StopTouches(sh, st, UnlockedStop(sh, st, c).0)
  {
  }

  lemma EnterOwnDrain(s: State, id: StopId, st: Stopper)
    requires st.pc.Enter? && OwnerKnown(s)
    ensures StopperDrain(s.trackers, s.starters, EnterShutdown(s.sh, id, st).1)
  {
  }

  /** Where a shutdown goes on, it goes on with the tracker it found. */
  lemma ShutdownGoesOn(sh: Shared, id: StopId, st: Stopper, c: Choice)
    requires !st.pc.Enter?
    ensures var st' := StopStep(sh, id, st, c).1;
            ShutsDown(st') ==>
              && ShutsDown(st) && !st'.pc.StopTracker? && st'.captured == st.captured && st'.tracker == st.tracker
              && (st'.pc.StopComplete? ==> st.pc.AwaitTracker?)
  {
  }

  /** The stopper's own knowledge of its tracker. */
  lemma StopperOwnDrain(s: State, id: StopId, st: Stopper, c: Choice, st': Stopper, trackers': Trackers)
    requires StopperDrain(s.trackers, s.starters, st) && OwnerKnown(s)
    requires st.pc.AwaitTracker? ==> Drained(s.trackers, st.tracker)
    requires TrackersOk(s.trackers)
    requires st' == StopStep(s.sh, id, st, c).1 && trackers' == TrackersAfterStop(s.trackers, st)
    ensures StopperDrain(trackers', s.starters, st')
  {
    if st.pc.Enter? {
      EnterOwnDrain(s, id, st);
    } else {
      ShutdownGoesOn(s.sh, id, st, c);
      StopMoves(s.trackers, st.tracker);
    }
  }

  lemma StarterDrainKept(sh: Shared, trackers: Trackers, sh': Shared, trackers': Trackers, u: nat, th: Starter)
    requires StarterDrain(sh, trackers, u, th)
    requires trackers'.Keys == trackers.Keys
    requires u in trackers ==> TrackerLater(trackers[u], trackers'[u]) && (!th.handed ==> trackers'[u].active == trackers[u].active)
    requires th.generation > 0 && ShutdownCh(th.generation) in sh'.closed ==>
               ShutdownCh(th.generation) in sh.closed || (u in trackers' && trackers'[u].done)
    ensures StarterDrain(sh', trackers', u, th)
  {
  }

  lemma StopKeepsStarters(s: State, s': State, id: StopId)
    requires TrackersOk(s.trackers)
    requires StartersDrain(s.sh, s.trackers, s.starters)
    requires ClaimedOnce(s) && id in s.stoppers && StopTouches(s.sh, s.stoppers[id], s'.sh)
    requires StopperDrain(s.trackers, s.starters, s.stoppers[id])
    requires s'.starters == s.starters && s'.trackers == TrackersAfterStop(s.trackers, s.stoppers[id])
    ensures StartersDrain(s'.sh, s'.trackers, s'.starters)
  {
    var st := s.stoppers[id];
    StopMoves(s.trackers, st.tracker);
    forall u | u in s'.starters
      ensures StarterDrain(s'.sh, s'.trackers, u, s'.starters[u])
    {
      if st.pc.StopComplete? && s.starters[u].generation == st.captured > 0 {
        assert !Twins(s.starters, u, st.tracker.value);
      }
      StarterDrainKept(s.sh, s.trackers, s'.sh, s'.trackers, u, s.starters[u]);
    }
  }

  lemma StopKeepsStoppers(s: State, s': State, id: StopId, st': Stopper)
    requires Threads(s) && StoppersDrain(s.trackers, s.starters, s.stoppers)
    requires TrackersLater(s.trackers, s'.trackers)
    requires s'.starters == s.starters && s'.stoppers == s.stoppers[id := st'] && StopperDrain(s'.trackers, s'.starters, st')
    ensures StoppersDrain(s'.trackers, s'.starters, s'.stoppers)
  {
    AllStoppersKept(s, s'.(stoppers := s.stoppers));
  }

  /** The clauses about the shared state and the names of threads. */
  lemma NamesKept(s: State, s': State)
    requires NamesKnown(s)
    requires s'.starters == s.starters && s'.trackers.Keys == s.trackers.Keys && s'.sh.generation == s.sh.generation
    requires || (s'.sh.tracker == s.sh.tracker && s'.sh.httpServer == s.sh.httpServer)
             || (s'.sh.tracker == None && s'.sh.httpServer == None)
    requires forall t :: Watcher(t) in s'.stoppers ==>
               Watcher(t) in s.stoppers && s'.stoppers[Watcher(t)].target == s.stoppers[Watcher(t)].target
    ensures NamesKnown(s')
  {
  }

  lemma StopKeepsDrain(s: State, s': State, id: StopId, c: Choice)
    requires Inv(s) && DrainInv(s) && Enabled(s, RunStop(id, c)) && s' == Apply(s, RunStop(id, c))
    ensures DrainInv(s')
  {
    CapturedIsClaimed(s, id);
    StopStepTouches(s.sh, id, s.stoppers[id], c);
    StopperOwnDrain(s, id, s.stoppers[id], c, s'.stoppers[id], s'.trackers);
    StopKeepsTarget(s.sh, id, s.stoppers[id], c);
    StopDrains(s, s', id, s'.stoppers[id]);
  }

  lemma StopDrains(s: State, s': State, id: StopId, st': Stopper)
    requires Threads(s) && DrainInv(s) && id in s.stoppers && StopTouches(s.sh, s.stoppers[id], s'.sh)
    requires s' == State(s'.sh, TrackersAfterStop(s.trackers, s.stoppers[id]), s.starters, s.stoppers[id := st'])
    requires StopperDrain(s'.trackers, s.starters, st') && st'.target == s.stoppers[id].target
    ensures DrainInv(s')
  {
    StopMoves(s.trackers, s.stoppers[id].tracker);
    StopKeepsStarters(s, s', id);
    StopKeepsStoppers(s, s', id, st');
    NamesKept(s, s');
  }

  lemma StopKeepsTarget(sh: Shared, id: StopId, st: Stopper, c: Choice)
    ensures StopStep(sh, id, st, c).1.target == st.target
  {
  }

  // ---------------------------------------------------------------- requests and calls

  lemma RequestKeepsDrain(s: State, s': State, t: nat)
    requires DrainInv(s) && Threads(s) && t in s.trackers && t in s'.trackers
    requires s' == s.(trackers := s.trackers[t := s'.trackers[t]])
    requires TrackerOk(s'.trackers[t]) && TrackerLater(s.trackers[t], s'.trackers[t])
    requires t in s.starters && !s.starters[t].handed ==> s'.trackers[t].active == s.trackers[t].active
    ensures DrainInv(s')
  {
    RequestKeepsStarters(s, s', t);
    AllStoppersKept(s, s');
    NamesKept(s, s');
  }

  lemma RequestKeepsStarters(s: State, s': State, t: nat)
    requires t in s.trackers && t in s'.trackers && s' == s.(trackers := s.trackers[t := s'.trackers[t]])
    requires StartersDrain(s.sh, s.trackers, s.starters)
    requires TrackerLater(s.trackers[t], s'.trackers[t])
    requires t in s.starters && !s.starters[t].handed ==> s'.trackers[t].active == s.trackers[t].active
    ensures StartersDrain(s'.sh, s'.trackers, s'.starters)
  {
    forall u | u in s'.starters
      ensures StarterDrain(s'.sh, s'.trackers, u, s'.starters[u])
    {
      StarterDrainKept(s.sh, s.trackers, s'.sh, s'.trackers, u, s.starters[u]);
    }
  }

  lemma AllStoppersKept(s: State, s': State)
    requires Threads(s) && s'.stoppers == s.stoppers
    requires StoppersDrain(s.trackers, s.starters, s.stoppers)
    requires TrackersLater(s.trackers, s'.trackers)
    requires forall u :: u in s.starters ==>
               u in s'.starters && (s.starters[u].generation > 0 ==> s'.starters[u].generation == s.starters[u].generation)
    ensures StoppersDrain(s'.trackers, s'.starters, s'.stoppers)
  {
    forall i | i in s'.stoppers
      ensures StopperDrain(s'.trackers, s'.starters, s'.stoppers[i])
    {
      CapturedIsClaimed(s, i);
      StopperDrainKept(s.trackers, s.starters, s'.trackers, s'.starters, s.stoppers[i]);
    }
  }

  lemma AdmitIsSound(x: RT.Tracker)
    requires TrackerOk(x)
    ensures TrackerOk(RT.Admit(x)) && TrackerLater(x, RT.Admit(x))
    ensures x.active > 0 ==> TrackerOk(RT.Finish(x)) && TrackerLater(x, RT.Finish(x))
  {
  }

  /** A call arrives or a context is cancelled. */
  lemma StarterCallKeepsDrain(s: State, s': State, t: nat, th': Starter)
    requires DrainInv(s) && Threads(s) && s' == s.(starters := s.starters[t := th'])
    requires
      || (t !in s.starters && th' == NEW_START)
      || (t in s.starters && th' == s.starters[t].(cancelled := true))
    ensures DrainInv(s')
  {
    AllStoppersKept(s, s');
    CallKeepsStarters(s, s', t, th');
    CallKeepsNames(s, s', t, th');
  }

  lemma CallKeepsStarters(s: State, s': State, t: nat, th': Starter)
    requires s.trackers.Keys <= s.starters.Keys
    requires StartersDrain(s.sh, s.trackers, s.starters)
    requires s' == s.(starters := s.starters[t := th'])
    requires
      || (t !in s.starters && th' == NEW_START)
      || (t in s.starters && th' == s.starters[t].(cancelled := true))
    ensures StartersDrain(s'.sh, s'.trackers, s'.starters)
  {
  }

  lemma CallKeepsNames(s: State, s': State, t: nat, th': Starter)
    requires NamesKnown(s) && s' == s.(starters := s.starters[t := th'])
    requires if t in s.starters then th'.generation == s.starters[t].generation else th'.generation == 0
    ensures NamesKnown(s')
  {
    forall u, v
      ensures !Twins(s'.starters, u, v)
    {
      assert !Twins(s.starters, u, v);
    }
  }

  lemma StopperCallKeepsDrain(s: State, s': State, id: StopId, st: Stopper)
    requires DrainInv(s) && s' == s.(stoppers := s.stoppers[id := st])
    requires
      || (id.Caller? && id !in s.stoppers && st == NewStopper(Enter, 0))
      || (id in s.stoppers && st == s.stoppers[id].(cancelled := true))
    ensures DrainInv(s')
  {
    NamesKept(s, s');
  }

  lemma StepKeepsDrain(s: State, s': State, step: Step)
    requires Inv(s) && DrainInv(s) && Enabled(s, step) && s' == Apply(s, step)
    ensures DrainInv(s')
  {
    match step {
      case CallStart(t) => StarterCallKeepsDrain(s, s', t, s'.starters[t]);
      case CancelStart(t) => StarterCallKeepsDrain(s, s', t, s'.starters[t]);
      case RunStart(t, c) => StartKeepsDrain(s, s', t, c);
      case CallShutdown(n) => StopperCallKeepsDrain(s, s', Caller(n), s'.stoppers[Caller(n)]);
      case CancelStop(id) => StopperCallKeepsDrain(s, s', id, s'.stoppers[id]);
      case RunStop(id, c) => StopKeepsDrain(s, s', id, c);
      case RequestEnters(t) =>
        AdmitIsSound(s.trackers[t]);
        RequestKeepsDrain(s, s', t);
      case RequestLeaves(t) =>
        AdmitIsSound(s.trackers[t]);
        assert StarterDrain(s.sh, s.trackers, t, s.starters[t]);
        RequestKeepsDrain(s, s', t);
    }
  }

  /** Every state of every run keeps trackers and generations in step. */
  lemma {:induction false} RunKeepsDrain(run: seq<State>, i: nat)
    requires IsRun(run) && i < |run|
    ensures DrainInv(run[i])
  {
    if i > 0 {
      RunKeepsDrain(run, i - 1);
      LifecycleTheorems.RunKeepsInv(run, i - 1);
      assert Next(run[i - 1], run[i - 1 + 1]);
      var step :| Enabled(run[i - 1], step) && run[i] == Apply(run[i - 1], step);
      StepKeepsDrain(run[i - 1], run[i], step);
    }
  }

  /**
   A generation's done channel is closed only when the tracker of its server is drained or Serve was
   never called, so no handler of a completed generation runs, then or ever after; and no tracker closes
   its channel twice.
   */
  lemma NoHandlerAfterCompletion(run: seq<State>, i: nat, j: nat, t: nat)
    requires IsRun(run) && i <= j < |run|
    requires t in run[i].starters && run[i].starters[t].generation > 0
    requires ShutdownCh(run[i].starters[t].generation) in run[i].sh.closed
    ensures run[i].starters[t].handed ==> t in run[i].trackers && run[i].trackers[t].done
    ensures t in run[j].trackers ==> run[j].trackers[t].active == 0 && !run[j].trackers[t].panicked
  {
    RunKeepsDrain(run, i);
    RunKeepsDrain(run, j);
    LifecycleTheorems.RunIsLater(run, i, j);
    assert StarterDrain(run[i].sh, run[i].trackers, t, run[i].starters[t]);
    assert StarterDrain(run[j].sh, run[j].trackers, t, run[j].starters[t]);
  }

  /** So a Shutdown that returns without giving up leaves no handler of its generation running. */
  lemma ShutdownLeavesNoHandler(run: seq<State>, i: nat, j: nat, id: StopId, t: nat)
    requires IsRun(run) && i <= j < |run| && id in run[i].stoppers && t in run[i].starters && t in run[j].trackers
    requires run[i].stoppers[id].pc.StopReturned? && !run[i].stoppers[id].gaveUp
    requires run[i].stoppers[id].awaited == Some(ShutdownCh(run[i].starters[t].generation))
    ensures run[j].trackers[t].active == 0
  {
    LifecycleTheorems.RunKeepsInv(run, i);
    assert StopperInv(run[i].sh, run[i].starters, run[i].stoppers[id]);
    NoHandlerAfterCompletion(run, i, j, t);
  }

  /**
   A Shutdown that waits for its tracker can go on, or a handler still runs that can leave; and once every
   Start has returned no Shutdown is blocked at all, whatever it waits for.
   */
  lemma NoShutdownLeftBehind(run: seq<State>, i: nat, id: StopId)
    requires IsRun(run) && i < |run| && id in run[i].stoppers
    ensures run[i].stoppers[id].pc.AwaitTracker? ==>
              || Enabled(run[i], RunStop(id, Proceed))
              || (run[i].stoppers[id].tracker.Some? && Enabled(run[i], RequestLeaves(run[i].stoppers[id].tracker.value)))
    ensures (forall t :: t in run[i].starters ==> run[i].starters[t].pc.Returned?) ==>
              run[i].stoppers[id].pc.StopReturned? || run[i].stoppers[id].pc.Watching? || Enabled(run[i], RunStop(id, Proceed))
  {
    LifecycleTheorems.NoWaiterLeftBehind(run, i, id);
    RunKeepsDrain(run, i);
    if run[i].stoppers[id].pc.AwaitTracker? {
      TrackerAnswers(run[i], id);
    }
  }

  lemma TrackerAnswers(s: State, id: StopId)
    requires DrainInv(s) && id in s.stoppers && s.stoppers[id].pc.AwaitTracker?
    ensures var x := s.stoppers[id].tracker;
            && x.Some? && x.value in s.trackers && x.value in s.starters
            && (s.trackers[x.value].done || s.trackers[x.value].active > 0)
            && (s.starters[x.value].pc.Returned? ==> s.trackers[x.value].done)
  {
    assert StopperDrain(s.trackers, s.starters, s.stoppers[id]);
    var t := s.stoppers[id].tracker.value;
    assert TrackerOk(s.trackers[t]) && StarterDrain(s.sh, s.trackers, t, s.starters[t]);
  }
}
