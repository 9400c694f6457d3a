/**
 The request tracker in front of the HTTP handler: requests come and go concurrently while any
 number of threads ask it to stop.  Each locked section is one step.
 */
module RequestTracker {

  datatype Tracker = Tracker(active: int, stopping: bool, done: bool, panicked: bool)

  const NEW_TRACKER := Tracker(0, false, false, false)

  /** Go's `close(t.done)`. */
  function CloseDone(t: Tracker): Tracker {
    if t.done then t.(panicked := true) else t.(done := true)
  }

  function Admit(t: Tracker): Tracker {
    if t.stopping then t else t.(active := t.active + 1)
  }

  function Finish(t: Tracker): Tracker {
    var t1 := t.(active := t.active - 1);
    if t1.stopping && t1.active == 0 then CloseDone(t1) else t1
  }

  function Stop(t: Tracker): Tracker {
    if t.stopping then t
    else
      var t1 := t.(stopping := true);
      if t1.active == 0 then CloseDone(t1) else t1
  }

  /** The tracker object. */
  class RequestTracker {
    var active: int
    var stopping: bool
    var done: bool
    var panicked: bool

    function View(): Tracker
      reads this
    {
      Tracker(active, stopping, done, panicked)
    }

    constructor ()
      ensures View() == NEW_TRACKER
    {
      active, stopping, done, panicked := 0, false, false, false;
    }

    method CloseDoneChannel()
      modifies this`done, this`panicked
      ensures View() == CloseDone(old(View()))
    {
      if done {
        panicked := true;
      } else {
        done := true;
      }
    }

    /** The locked entry of ServeHTTP: whether the handler may run. */
    method Enter() returns (admitted: bool)
      modifies this`active
      ensures View() == Admit(old(View()))
      ensures admitted <==> !old(stopping)
    {
      if stopping {
        return false;
      }
      active := active + 1;
      admitted := true;
    }

    method FinishRequest()
      modifies this
      ensures View() == Finish(old(View()))
    {
      active := active - 1;
      if stopping && active == 0 {
        CloseDoneChannel();
      }
    }

    method StopAccepting()
      modifies this
      ensures View() == Stop(old(View()))
    {
      if !stopping {
        stopping := true;
        if active == 0 {
          CloseDoneChannel();
        }
      }
    }
  }

  // ---------------------------------------------------------------- the interleaving

  datatype Request = Arrived | Running | Rejected | Served

  datatype State = State(tracker: Tracker, requests: map<nat, Request>)

  datatype Step = Arrive(r: nat) | Enter(r: nat) | Return(r: nat) | CallStop

  predicate Init(s: State) {
    s == State(NEW_TRACKER, map[])
  }

  predicate Enabled(s: State, step: Step) {
    match step
    case Arrive(r) => r !in s.requests
    case Enter(r) => r in s.requests && s.requests[r].Arrived?
    case Return(r) => r in s.requests && s.requests[r].Running?
    case CallStop => true
  }

  function Apply(s: State, step: Step): State
    requires Enabled(s, step)
  {
    match step
    case Arrive(r) => s.(requests := s.requests[r := Arrived])
    case Enter(r) => State(Admit(s.tracker), s.requests[r := if s.tracker.stopping then Rejected else Running])
    case Return(r) => State(Finish(s.tracker), s.requests[r := Served])
    case CallStop => s.(tracker := Stop(s.tracker))
  }

  ghost predicate Next(s: State, s': State) {
    exists step :: Enabled(s, step) && s' == Apply(s, step)
  }

  ghost predicate IsRun(run: seq<State>) {
    && |run| > 0
    && Init(run[0])
    && forall i :: 0 <= i < |run| - 1 ==> Next(run[i], run[i + 1])
  }

  /** The handlers that are running now. */
  function Live(s: State): set<nat> {
    set r | r in s.requests && s.requests[r].Running?
  }

  /** The counter counts the running handlers, and `done` is closed exactly when a stopped tracker has none. */
  predicate Inv(s: State) {
    && s.tracker.active == |Live(s)|
    && (s.tracker.done <==> s.tracker.stopping && s.tracker.active == 0)
    && !s.tracker.panicked
  }

  /** How one request's change shows in the handlers running. */
  lemma LiveAfter(s: State, s': State, r: nat, now: Request)
    requires s'.requests == s.requests[r := now]
    ensures Live(s') == if now.Running? then Live(s) + {r} else Live(s) - {r}
    ensures r in Live(s) <==> r in s.requests && s.requests[r].Running?
  {
  }

  lemma EnterKeepsInv(s: State, r: nat)
    requires Inv(s) && Enabled(s, Enter(r))
    ensures Inv(Apply(s, Enter(r)))
  {
    var s' := Apply(s, Enter(r));
    LiveAfter(s, s', r, s'.requests[r]);
    if s.tracker.stopping {
      assert Live(s') == Live(s);
    }
  }

  lemma ReturnKeepsInv(s: State, r: nat)
    requires Inv(s) && Enabled(s, Return(r))
    ensures Inv(Apply(s, Return(r)))
  {
    LiveAfter(s, Apply(s, Return(r)), r, Served);
  }

  lemma StepKeepsInv(s: State, s': State, step: Step)
    requires Inv(s) && Enabled(s, step) && s' == Apply(s, step)
    ensures Inv(s')
  {
    match step {
      case Arrive(r) =>
        LiveAfter(s, s', r, Arrived);
        assert Live(s') == Live(s);
      case Enter(r) => EnterKeepsInv(s, r);
      case Return(r) => ReturnKeepsInv(s, r);
      case CallStop => assert Live(s') == Live(s);
    }
  }

  lemma {:induction false} RunKeepsInv(run: seq<State>, i: nat)
    requires IsRun(run) && i < |run|
    ensures Inv(run[i])
  {
    if i == 0 {
      assert Live(run[0]) == {};
    } else {
      RunKeepsInv(run, i - 1);
      assert Next(run[i - 1], run[i - 1 + 1]);
      var step :| Enabled(run[i - 1], step) && run[i] == Apply(run[i - 1], step);
      StepKeepsInv(run[i - 1], run[i], step);
    }
  }

  lemma {:induction false} StaysDone(run: seq<State>, i: nat, j: nat)
    requires IsRun(run) && i <= j < |run| && run[i].tracker.done
    ensures run[j].tracker.done
  {
    if i < j {
      StaysDone(run, i, j - 1);
      RunKeepsInv(run, j - 1);
      assert Next(run[j - 1], run[j - 1 + 1]);
      var step :| Enabled(run[j - 1], step) && run[j] == Apply(run[j - 1], step);
    }
  }

  /** `done` is closed at most once; once it is closed no handler runs, then or ever after. */
  lemma DrainedForGood(run: seq<State>, i: nat, j: nat, r: nat)
    requires IsRun(run) && i <= j < |run| && run[i].tracker.done
    ensures !run[j].tracker.panicked
    ensures r in run[j].requests ==> !run[j].requests[r].Running?
  {
    StaysDone(run, i, j);
    RunKeepsInv(run, j);
    assert Live(run[j]) == {};
    assert r !in Live(run[j]);
  }

  /** A stopped tracker whose handlers have all returned has closed `done`, so no `wait` is left blocked. */
  lemma DrainIsSignalled(run: seq<State>, i: nat)
    requires IsRun(run) && i < |run| && run[i].tracker.stopping
    requires forall r :: r in run[i].requests ==> !run[i].requests[r].Running?
    ensures run[i].tracker.done
  {
    RunKeepsInv(run, i);
    assert Live(run[i]) == {};
  }
}
