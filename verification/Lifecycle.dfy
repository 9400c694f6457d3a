/**
 The lifecycle of the HTTP server: any number of concurrent `Start`, `Shutdown` and
 context-watcher threads over one server.

 Everything the threads share is in `Shared`; every critical section of the program is one
 function on it, and every access to `ready` outside the lock is a step of its own.  A thread
 is a program counter with the few locals the program keeps.  The request trackers have locks of
 their own and stand beside it.  `Next` interleaves the steps of the threads with the requests that
 come and go at the servers handed to Serve.
 */
module Lifecycle {
  import opened Wrappers
  import RT = RequestTracker

  /** A one-shot channel, named by whoever makes it; each name is made at most once. */
  datatype Chan =
    | StartupCh(starter: nat)       // made by a Start that becomes pending
    | ShutdownCh(generation: nat)   // made by the Start that claims the generation
    | LateCh(stopper: StopId)       // made by a Shutdown that finds no channel

  datatype StopId = Caller(id: nat) | Watcher(starter: nat)

  datatype Error = ContextDone | ServerClosed | NetClosed | Other(code: nat)

  datatype Shared = Shared(
    started: bool,
    startupPending: bool,
    startupCancelled: bool,
    startupDone: Option<Chan>,
    shutdownStarted: bool,
    shutdownComplete: bool,
    shutdownDone: Option<Chan>,
    shutdownErr: Option<Error>,
    generation: nat,
    httpServer: Option<nat>,        // the Start whose server, listener and tracker are published
    listener: Option<nat>,
    tracker: Option<nat>,
    serveStarted: bool,
    mcpClosed: bool,
    slot: Option<nat>,              // tokens buffered in the start slot; None before it is made
    ready: bool,
    closed: set<Chan>,
    panicked: bool                  // a closed channel was closed again
  )

  // ---------------------------------------------------------------- critical sections

  /** Go's `close`: closing a closed channel panics. */
  function Close(sh: Shared, c: Chan): Shared {
    if c in sh.closed then sh.(panicked := true) else sh.(closed := sh.closed + {c})
  }

  function CloseIfMade(sh: Shared, c: Option<Chan>): Shared {
    match c
    case None => sh
    case Some(ch) => Close(sh, ch)
  }

  /** Start becomes pending, unless a server runs or another Start is pending. */
  function RequestStart(sh: Shared, t: nat): Shared
  {
    if sh.started || sh.startupPending then sh
    else sh.(startupPending := true, startupCancelled := false, startupDone := Some(StartupCh(t)))
  }

  function MakeSlot(sh: Shared): Shared {
    if sh.slot.None? then sh.(slot := Some(1)) else sh
  }

  /** The pending Start claims the next generation. */
  function ClaimGeneration(sh: Shared): Shared
  {
    var s1 := CloseIfMade(sh, sh.startupDone);
    s1.(startupPending := false,
        startupDone := None,
        started := true,
        generation := sh.generation + 1,
        shutdownStarted := false,
        shutdownDone := Some(ShutdownCh(sh.generation + 1)),
        shutdownErr := None,
        shutdownComplete := false,
        httpServer := None,
        tracker := None,
        mcpClosed := false)
  }

  function FinishPendingStartup(sh: Shared): Shared {
    if !sh.startupPending then sh
    else
      CloseIfMade(sh.(startupPending := false, startupCancelled := false, startupDone := None), sh.startupDone)
  }

  predicate CompletesNow(sh: Shared, generation: nat) {
    generation == sh.generation && !sh.shutdownComplete
  }

  function CompleteLifecycle(sh: Shared, generation: nat, err: Option<Error>): Shared {
    if !CompletesNow(sh, generation) then sh
    else
      CloseIfMade(
        sh.(shutdownErr := if err.Some? || sh.shutdownErr.None? then err else sh.shutdownErr,
            shutdownComplete := true,
            started := false,
            serveStarted := false,
            listener := None,
            tracker := None,
            httpServer := None),
        sh.shutdownDone)
  }

  function Publish(sh: Shared, t: nat): Shared {
    sh.(httpServer := Some(t), listener := Some(t), tracker := Some(t))
  }

  // ---------------------------------------------------------------- request trackers

  /** Every tracker ever published, by the Start that made it. */
  type Trackers = map<nat, RT.Tracker>

  function StopRequests(trackers: Trackers, tracker: Option<nat>): Trackers {
    if tracker.None? || tracker.value !in trackers then trackers
    else trackers[tracker.value := RT.Stop(trackers[tracker.value])]
  }

  /** Waiting for a tracker is over. */
  predicate Drained(trackers: Trackers, tracker: Option<nat>) {
    tracker.Some? ==> tracker.value in trackers && trackers[tracker.value].done
  }

  // ---------------------------------------------------------------- Start threads

  datatype StartPc =
    | Entry
    | Request
    | PrepareSlot
    | AwaitSlot
    | Claim
    | Abandon(slotted: bool)
    | ClearReady
    | Prepare
    | PublishPc
    | Published
    | MarkServing
    | Handoff
    | Serving
    | Served(err: Error)
    | StopHandler(err: Error, requested: bool)
    | Draining(err: Error, requested: bool)
    | UnreadyThenComplete
    | CompletePc(result: Option<Error>)
    | Completed
    | Release
    | Returned

  datatype Starter = Starter(
    pc: StartPc,
    generation: nat,      // the generation it claimed; 0 until then
    made: bool,           // whether it made a startup channel
    cancelled: bool,      // its context is done
    serveDone: bool,      // it closed the channel its watcher listens on
    handed: bool          // it called Serve
  )

  const NEW_START := Starter(Entry, 0, false, false, false, false)

  /** How the world resolves a step: a call that succeeds or fails, a select arm that fires. */
  datatype Choice = Proceed | Fail(err: Error)

  predicate StartEnabled(sh: Shared, th: Starter, c: Choice) {
    match th.pc
    case AwaitSlot => if c.Proceed? then sh.slot.Some? && sh.slot.value > 0 else th.cancelled
    case Release => sh.slot.Some? && sh.slot.value == 0    // a send into a channel of capacity one
    case Serving => c.Fail?                                // Serve always returns an error
    case Returned => false
    case _ => true
  }

  function RequestStep(sh: Shared, t: nat, th: Starter): (Shared, Starter) {
    (RequestStart(sh, t),
     if sh.started || sh.startupPending then th.(pc := Returned) else th.(pc := PrepareSlot, made := true))
  }

  function ClaimStep(sh: Shared, th: Starter): (Shared, Starter) {
    if sh.started || sh.startupCancelled then (sh, th.(pc := Abandon(true)))
    else (ClaimGeneration(sh), th.(pc := ClearReady, generation := sh.generation + 1))
  }

  function PublishStep(sh: Shared, t: nat, th: Starter): (Shared, Starter) {
    var same := th.generation == sh.generation;
    if !same || sh.shutdownStarted || th.cancelled then
      (sh, th.(pc := if same then CompletePc(None) else Release))
    else
      (Publish(sh, t), th.(pc := Published))
  }

  function MarkServingStep(sh: Shared, th: Starter): (Shared, Starter) {
    var same := th.generation == sh.generation;
    if same && !sh.shutdownStarted && !th.cancelled then
      (sh.(serveStarted := true), th.(pc := Handoff))
    else
      (sh, th.(pc := if same then CompletePc(None) else Release))
  }

  /** Readiness and the handoff to Serve are one critical section. */
  function HandoffStep(sh: Shared, t: nat, th: Starter): (Shared, Starter) {
    var same := th.generation == sh.generation;
    var owns := same && sh.httpServer == Some(t) && sh.listener == Some(t);
    if !owns || (same && sh.shutdownStarted) || th.cancelled then
      (sh, th.(pc := if same then CompletePc(None) else Release))
    else
      (sh.(ready := true), th.(pc := Serving, handed := true))
  }

  function ServedStep(sh: Shared, th: Starter): (Shared, Starter)
    requires th.pc.Served?
  {
    if th.generation == sh.generation then
      (sh, th.(pc := StopHandler(th.pc.err, sh.shutdownStarted)))
    else
      (sh, th.(pc := Release))
  }

  function AfterDraining(err: Error, requested: bool): StartPc {
    if err == ServerClosed then CompletePc(None)
    else if requested && err == NetClosed then UnreadyThenComplete
    else CompletePc(Some(err))
  }

  function CompleteStep(sh: Shared, th: Starter): (Shared, Starter)
    requires th.pc.CompletePc?
  {
    (CompleteLifecycle(sh, th.generation, th.pc.result),
     th.(pc := if CompletesNow(sh, th.generation) then Completed else Release))
  }

  /** The steps between critical sections: they touch nothing shared but `ready`. */
  predicate Unlocked(pc: StartPc) {
    || pc.Entry? || pc.ClearReady? || pc.Prepare? || pc.Published? || pc.Serving?
    || pc.StopHandler? || pc.Draining? || pc.UnreadyThenComplete? || pc.Completed?
  }

  function UnlockedNext(th: Starter, c: Choice): Starter
    requires Unlocked(th.pc) && (th.pc.Serving? ==> c.Fail?)
  {
    match th.pc
    case Entry => th.(pc := if th.cancelled || c.Fail? then Returned else Request)
    case ClearReady => th.(pc := Prepare)
    case Prepare => th.(pc := if th.cancelled || c.Fail? then CompletePc(None) else PublishPc)
    case Published => th.(pc := if th.cancelled then CompletePc(None) else MarkServing)
    case Serving => th.(pc := Served(c.err), serveDone := true)
    case StopHandler(err, requested) => th.(pc := Draining(err, requested))
    case Draining(err, requested) => th.(pc := AfterDraining(err, requested))
    case UnreadyThenComplete => th.(pc := CompletePc(None))
    case Completed => th.(pc := Release)
  }

  /** The program counters at which a Start stores `ready = false`. */
  predicate StoresUnready(pc: StartPc) {
    pc.ClearReady? || pc.UnreadyThenComplete? || pc.Completed?
  }

  function UnlockedStep(sh: Shared, th: Starter, c: Choice): (Shared, Starter)
    requires Unlocked(th.pc) && (th.pc.Serving? ==> c.Fail?)
  {
    (if StoresUnready(th.pc) then sh.(ready := false) else sh, UnlockedNext(th, c))
  }

  function StartStep(sh: Shared, t: nat, th: Starter, c: Choice): (Shared, Starter)
    requires StartEnabled(sh, th, c)
  {
    if Unlocked(th.pc) then UnlockedStep(sh, th, c)
    else
      match th.pc
      case Request => RequestStep(sh, t, th)
      case PrepareSlot => (MakeSlot(sh), th.(pc := AwaitSlot))
      case AwaitSlot =>
        if c.Proceed? then (sh.(slot := Some(sh.slot.value - 1)), th.(pc := Claim))
        else (sh, th.(pc := Abandon(false)))
      case Claim => ClaimStep(sh, th)
      case Abandon(slotted) => (FinishPendingStartup(sh), th.(pc := if slotted then Release else Returned))
      case PublishPc => PublishStep(sh, t, th)
      case MarkServing => MarkServingStep(sh, th)
      case Handoff => HandoffStep(sh, t, th)
      case Served(_) => ServedStep(sh, th)
      case CompletePc(_) => CompleteStep(sh, th)
      case Release => (sh.(slot := Some(1)), th.(pc := Returned))
  }

  /** A tracker comes with its published server; the Start stops it after Serve, and once more after a completion. */
  function TrackersAfterStart(trackers: Trackers, t: nat, before: StartPc, after: StartPc): Trackers {
    if before.PublishPc? && after.Published? then trackers[t := RT.NEW_TRACKER]
    else if before.StopHandler? || before.Completed? then StopRequests(trackers, Some(t))
    else trackers
  }

  // ---------------------------------------------------------------- Shutdown and watcher threads

  datatype StopPc =
    | Watching
    | Enter
    | UnreadyThenAwait(startup: Option<Chan>)
    | AwaitStartup(startup: Option<Chan>)
    | UnreadyThenReturn
    | AwaitLifecycle(done: Option<Chan>)
    | ReadError
    | StopTracker
    | UnreadyThenShutdown
    | HttpShutdown
    | AwaitTracker
    | RecordErr(err: Error)
    | StopComplete
    | StopCompleted
    | StopReturned

  datatype Stopper = Stopper(
    pc: StopPc,
    target: nat,          // 0 for Shutdown, the watched generation for a watcher
    captured: nat,        // the generation it began to shut down; 0 until then
    saw: Option<Chan>,    // the startup channel it found pending
    awaited: Option<Chan>,// the generation's channel it waits for or will close itself
    tracker: Option<nat>, // the tracker it found published
    cancelled: bool,
    gaveUp: bool,         // it stopped waiting, or the HTTP server refused to shut down
    result: Option<Error> // what it returns
  )

  function NewStopper(pc: StopPc, target: nat): Stopper {
    Stopper(pc, target, 0, None, None, None, false, false, None)
  }

  predicate StopEnabled(s: State, id: StopId, st: Stopper, c: Choice) {
    match st.pc
    case Watching =>
      id.Watcher? && id.starter in s.starters &&
      if c.Proceed? then s.starters[id.starter].cancelled else s.starters[id.starter].serveDone
    case AwaitStartup(startup) =>
      startup.None? || (if c.Proceed? then startup.value in s.sh.closed else st.cancelled)
    case AwaitLifecycle(done) =>
      done.None? || (if c.Proceed? then done.value in s.sh.closed else st.cancelled)
    case AwaitTracker => Drained(s.trackers, st.tracker)
    case StopReturned => false
    case _ => true
  }

  /** The whole locked prefix of `shutdownForGeneration`. */
  function EnterShutdown(sh: Shared, id: StopId, st: Stopper): (Shared, Stopper) {
    if st.target != 0 && st.target != sh.generation then (sh, st.(pc := StopReturned))
    else
      var s1 := sh.(mcpClosed := true);
      if sh.startupPending && !sh.started then
        (s1.(startupCancelled := true), st.(pc := UnreadyThenAwait(sh.startupDone), saw := sh.startupDone))
      else if sh.shutdownStarted then (s1, st.(pc := AwaitLifecycle(sh.shutdownDone), awaited := sh.shutdownDone))
      else if !sh.started then
        (s1, st.(pc := UnreadyThenReturn, result := if sh.shutdownComplete then sh.shutdownErr else None))
      else
        var done := if sh.shutdownDone.None? then Some(LateCh(id)) else sh.shutdownDone;
        (s1.(shutdownStarted := true, shutdownDone := done),
         st.(pc := if sh.httpServer.None? || !sh.serveStarted then AwaitLifecycle(done) else StopTracker,
             captured := sh.generation,
             awaited := done,
             tracker := sh.tracker))
  }

  function RecordShutdownErr(sh: Shared, generation: nat, err: Error): Shared {
    if CompletesNow(sh, generation) then sh.(shutdownErr := Some(err)) else sh
  }

  /** The program counters at which a stopper stores `ready = false`. */
  predicate StopStoresUnready(pc: StopPc) {
    pc.UnreadyThenAwait? || pc.UnreadyThenReturn? || pc.UnreadyThenShutdown? || pc.StopCompleted?
  }

  /** Where a stopper goes next at the program counters outside its critical sections. */
  function StopNext(st: Stopper, c: Choice): StopPc {
    match st.pc
    case Watching => if c.Proceed? then Enter else StopReturned
    case UnreadyThenAwait(startup) => AwaitStartup(startup)
    case StopTracker => UnreadyThenShutdown
    case UnreadyThenShutdown => HttpShutdown
    case HttpShutdown => if c.Fail? then RecordErr(c.err) else AwaitTracker
    case AwaitTracker => StopComplete
    case AwaitLifecycle(done) => if done.Some? && c.Proceed? then ReadError else StopReturned
    case _ => StopReturned
  }

  /** The wait ends because the context does. */
  predicate GivesUp(st: Stopper, c: Choice) {
    (st.pc.AwaitStartup? || st.pc.AwaitLifecycle?) && c.Fail?
  }

  function UnlockedStop(sh: Shared, st: Stopper, c: Choice): (Shared, Stopper) {
    (if StopStoresUnready(st.pc) then sh.(ready := false) else sh,
     st.(pc := StopNext(st, c), gaveUp := st.gaveUp || GivesUp(st, c),
         result := if GivesUp(st, c) then Some(ContextDone) else st.result))
  }

  function StopStep(sh: Shared, id: StopId, st: Stopper, c: Choice): (Shared, Stopper)
  {
    match st.pc
    case Enter => EnterShutdown(sh, id, st)
    case ReadError => (sh, st.(pc := StopReturned, result := sh.shutdownErr))
    case RecordErr(err) =>
      (RecordShutdownErr(sh, st.captured, err), st.(pc := StopReturned, gaveUp := true, result := Some(err)))
    case StopComplete =>
      (CompleteLifecycle(sh, st.captured, None),
       st.(pc := if CompletesNow(sh, st.captured) then StopCompleted else StopReturned))
    case _ => UnlockedStop(sh, st, c)
  }

  /** A stopper stops the tracker it found, before the HTTP shutdown and once more after a completion. */
  function TrackersAfterStop(trackers: Trackers, st: Stopper): Trackers {
    if st.pc.StopTracker? || st.pc.StopCompleted? then StopRequests(trackers, st.tracker) else trackers
  }

  // ---------------------------------------------------------------- the interleaving

  datatype State = State(sh: Shared, trackers: Trackers, starters: map<nat, Starter>, stoppers: map<StopId, Stopper>)

  datatype Step =
    | CallStart(t: nat)
    | CancelStart(t: nat)
    | RunStart(t: nat, choice: Choice)
    | CallShutdown(n: nat)
    | CancelStop(id: StopId)
    | RunStop(id: StopId, choice: Choice)
    | RequestEnters(t: nat)
    | RequestLeaves(t: nat)

  function InitialShared(slot: Option<nat>): Shared {
    Shared(false, false, false, None, false, false, None, None, 0, None, None, None, false, false, slot, false, {}, false)
  }

  /** A new server, with or without its start slot made. */
  predicate Init(s: State) {
    (s.sh == InitialShared(None) || s.sh == InitialShared(Some(1)))
    && s.trackers == map[] && s.starters == map[] && s.stoppers == map[]
  }

  predicate Enabled(s: State, step: Step) {
    match step
    case CallStart(t) => t !in s.starters
    case CancelStart(t) => t in s.starters
    case RunStart(t, c) =>
      t in s.starters && StartEnabled(s.sh, s.starters[t], c) && (s.starters[t].pc.Draining? ==> Drained(s.trackers, Some(t)))
    case CallShutdown(n) => Caller(n) !in s.stoppers
    case CancelStop(id) => id in s.stoppers
    case RunStop(id, c) => id in s.stoppers && StopEnabled(s, id, s.stoppers[id], c)
    case RequestEnters(t) => t in s.starters && s.starters[t].handed && t in s.trackers
    case RequestLeaves(t) => t in s.trackers && s.trackers[t].active > 0
  }

  /** The watcher goroutine a Start leaves behind at its handoff. */
  function WithWatcher(stoppers: map<StopId, Stopper>, t: nat, before: Starter, after: Starter): map<StopId, Stopper> {
    if before.pc.Handoff? && after.pc.Serving?
    then stoppers[Watcher(t) := NewStopper(Watching, before.generation)]
    else stoppers
  }

  function Apply(s: State, step: Step): State
    requires Enabled(s, step)
  {
    match step
    case CallStart(t) => s.(starters := s.starters[t := NEW_START])
    case CancelStart(t) => s.(starters := s.starters[t := s.starters[t].(cancelled := true)])
    case RunStart(t, c) =>
      var th := s.starters[t];
      var r := StartStep(s.sh, t, th, c);
      State(r.0, TrackersAfterStart(s.trackers, t, th.pc, r.1.pc), s.starters[t := r.1], WithWatcher(s.stoppers, t, th, r.1))
    case CallShutdown(n) => s.(stoppers := s.stoppers[Caller(n) := NewStopper(Enter, 0)])
    case CancelStop(id) => s.(stoppers := s.stoppers[id := s.stoppers[id].(cancelled := true)])
    case RunStop(id, c) =>
      var r := StopStep(s.sh, id, s.stoppers[id], c);
      s.(sh := r.0, trackers := TrackersAfterStop(s.trackers, s.stoppers[id]), stoppers := s.stoppers[id := r.1])
    case RequestEnters(t) => s.(trackers := s.trackers[t := RT.Admit(s.trackers[t])])
    case RequestLeaves(t) => s.(trackers := s.trackers[t := RT.Finish(s.trackers[t])])
  }

  ghost predicate Next(s: State, s': State) {
    exists step :: Enabled(s, step) && s' == Apply(s, step)
  }

  ghost predicate IsRun(run: seq<State>) {
    && |run| > 0
    && Init(run[0])
    && forall i :: 0 <= i < |run| - 1 ==> Next(run[i], run[i + 1])
  }
}
