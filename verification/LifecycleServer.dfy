/**
 The server object itself: the critical sections of `Start`, `completeLifecycle` and
 `shutdownForGeneration` as methods on mutable fields, each proved to be the step the
 interleaving uses.
 */
module LifecycleServer {
  import opened Wrappers
  import opened Lifecycle

  datatype ClaimOutcome = AlreadyStarted | Cancelled | ClaimedGeneration(generation: nat)

  class Server {
    var started: bool
    var startupPending: bool
    var startupCancelled: bool
    var startupDone: Option<Chan>
    var shutdownStarted: bool
    var shutdownComplete: bool
    var shutdownDone: Option<Chan>
    var shutdownErr: Option<Error>
    var generation: nat
    var httpServer: Option<nat>
    var listener: Option<nat>
    var tracker: Option<nat>
    var serveStarted: bool
    var mcpClosed: bool
    var slot: Option<nat>
    var ready: bool
    var closed: set<Chan>
    var panicked: bool

    function View(): Shared
      reads this
    {
      Shared(started, startupPending, startupCancelled, startupDone, shutdownStarted, shutdownComplete,
             shutdownDone, shutdownErr, generation, httpServer, listener, tracker, serveStarted, mcpClosed,
             slot, ready, closed, panicked)
    }

    constructor ()
      ensures View() == InitialShared(Some(1))
    {
      started, startupPending, startupCancelled, startupDone := false, false, false, None;
      shutdownStarted, shutdownComplete, shutdownDone, shutdownErr := false, false, None, None;
      generation, httpServer, listener, tracker := 0, None, None, None;
      serveStarted, mcpClosed, slot, ready, closed, panicked := false, false, Some(1), false, {}, false;
    }

    method CloseChannel(c: Option<Chan>)
      modifies this`closed, this`panicked
      ensures View() == CloseIfMade(old(View()), c)
    {
      if c.Some? {
        if c.value in closed {
          panicked := true;
        } else {
          closed := closed + {c.value};
        }
      }
    }

    method Request(t: nat) returns (accepted: bool)
      modifies this
      ensures View() == RequestStart(old(View()), t)
      ensures accepted <==> RequestStep(old(View()), t, NEW_START.(pc := StartPc.Request)).1.pc.PrepareSlot?
    {
      if started || startupPending {
        return false;
      }
      startupPending := true;
      startupCancelled := false;
      startupDone := Some(StartupCh(t));
      accepted := true;
    }

    method EnsureSlot()
      modifies this`slot
      ensures View() == MakeSlot(old(View()))
    {
      if slot.None? {
        slot := Some(1);
      }
    }

    method ClaimNext() returns (outcome: ClaimOutcome)
      modifies this
      ensures outcome.AlreadyStarted? <==> old(started)
      ensures outcome.Cancelled? <==> !old(started) && old(startupCancelled)
      ensures View() == if outcome.ClaimedGeneration? then ClaimGeneration(old(View())) else old(View())
      ensures outcome.ClaimedGeneration? ==> outcome.generation == generation
    {
      if started {
        return AlreadyStarted;
      }
      if startupCancelled {
        return Cancelled;
      }
      CloseChannel(startupDone);
      OpenGeneration();
      outcome := ClaimedGeneration(generation);
    }

    method OpenGeneration()
      modifies this`startupPending, this`startupDone, this`started, this`generation, this`shutdownStarted,
               this`shutdownDone, this`shutdownErr, this`shutdownComplete, this`httpServer, this`tracker,
               this`mcpClosed
      ensures !startupPending && startupDone == None && started
      ensures generation == old(generation) + 1
      ensures !shutdownStarted && shutdownDone == Some(ShutdownCh(generation)) && shutdownErr == None
      ensures !shutdownComplete && httpServer == None && tracker == None && !mcpClosed
    {
      startupPending, startupDone, started := false, None, true;
      generation := generation + 1;
      shutdownStarted, shutdownDone, shutdownErr := false, Some(ShutdownCh(generation)), None;
      shutdownComplete, httpServer, tracker, mcpClosed := false, None, None, false;
    }

    method FinishPending()
      modifies this
      ensures View() == FinishPendingStartup(old(View()))
    {
      if !startupPending {
        return;
      }
      startupPending := false;
      startupCancelled := false;
      var done := startupDone;
      startupDone := None;
      CloseChannel(done);
      assert View().closed == FinishPendingStartup(old(View())).closed;
    }

    /** Returns whether the caller still owes `SetReady(false)`. */
    method Complete(target: nat, err: Option<Error>) returns (owes: bool)
      modifies this
      ensures View() == CompleteLifecycle(old(View()), target, err)
      ensures owes <==> CompletesNow(old(View()), target)
    {
      if target != generation || shutdownComplete {
        return false;
      }
      if err.Some? || shutdownErr.None? {
        shutdownErr := err;
      }
      DropServer();
      CloseChannel(shutdownDone);
      owes := true;
    }

    method DropServer()
      modifies this
      ensures View() == old(View()).(shutdownComplete := true, started := false, serveStarted := false,
                                     listener := None, tracker := None, httpServer := None)
    {
      shutdownComplete, started, serveStarted := true, false, false;
      listener, tracker, httpServer := None, None, None;
    }

    method PublishServer(t: nat, th: Starter) returns (next: StartPc)
      requires th.pc.PublishPc?
      modifies this
      ensures (View(), th.(pc := next)) == PublishStep(old(View()), t, th)
    {
      var sameGeneration := th.generation == generation;
      if !sameGeneration || shutdownStarted || th.cancelled {
        if sameGeneration {
          return CompletePc(None);
        }
        return Release;
      }
      httpServer := Some(t);
      listener := Some(t);
      tracker := Some(t);
      next := Published;
    }

    method BeginServing(th: Starter) returns (next: StartPc)
      requires th.pc.MarkServing?
      modifies this
      ensures (View(), th.(pc := next)) == MarkServingStep(old(View()), th)
    {
      var sameGeneration := th.generation == generation;
      var shutdownRequested := sameGeneration && shutdownStarted;
      if sameGeneration && !shutdownRequested && !th.cancelled {
        serveStarted := true;
        return Handoff;
      }
      next := if sameGeneration then CompletePc(None) else Release;
    }

    method HandOver(t: nat, th: Starter) returns (next: StartPc)
      requires th.pc.Handoff?
      modifies this
      ensures (View(), th.(pc := next, handed := th.handed || next.Serving?)) == HandoffStep(old(View()), t, th)
    {
      var sameGeneration := th.generation == generation;
      var shutdownRequested := sameGeneration && shutdownStarted;
      var ownsLifecycle := sameGeneration && httpServer == Some(t) && listener == Some(t);
      if !ownsLifecycle || shutdownRequested || th.cancelled {
        return if sameGeneration then CompletePc(None) else Release;
      }
      ready := true;
      next := Serving;
    }

    method BeginShutdown(id: StopId, st: Stopper) returns (st': Stopper)
      requires st.pc.Enter?
      modifies this
      ensures (View(), st') == EnterShutdown(old(View()), id, st)
    {
      if st.target != 0 && st.target != generation {
        return st.(pc := StopReturned);
      }
      mcpClosed := true;
      if startupPending && !started {
        startupCancelled := true;
        return st.(pc := UnreadyThenAwait(startupDone), saw := startupDone);
      }
      if shutdownStarted {
        return st.(pc := AwaitLifecycle(shutdownDone), awaited := shutdownDone);
      }
      if !started {
        return st.(pc := UnreadyThenReturn, result := if shutdownComplete then shutdownErr else None);
      }
      shutdownStarted := true;
      if shutdownDone.None? {
        shutdownDone := Some(LateCh(id));
      }
      if httpServer.None? || !serveStarted {
        return st.(pc := AwaitLifecycle(shutdownDone), captured := generation, awaited := shutdownDone, tracker := tracker);
      }
      st' := st.(pc := StopTracker, captured := generation, awaited := shutdownDone, tracker := tracker);
    }

    method RecordError(target: nat, err: Error)
      modifies this`shutdownErr
      ensures View() == RecordShutdownErr(old(View()), target, err)
    {
      if target == generation && !shutdownComplete {
        shutdownErr := Some(err);
      }
    }
  }
}
