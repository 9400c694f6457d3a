/**
 When the bounded diagnosis goes on and what it answers, exactly: which calls are made, what each of them is shown,
 which checks are run and how the last call decides the result.
 */
module RoundsAnswers {
  import opened Wrappers
  import opened Clock
  import opened Observations
  import opened Rubric
  import opened Rounds
  import opened RoundsTheorems
  import opened Telemetry

  // ---------------------------------------------------------------- going on

  function ChecksOf(answer: Answer): seq<Check> {
    match answer
    case Parsed(c) => c.checks
    case _ => []
  }

  /** The checks asked for before round `k`. */
  function AskedBefore(w: World, k: nat): seq<Check> {
    if k <= 1 then [] else AskedBefore(w, k - 1) + ChecksOf(w.answer(k - 1))
  }

  /** The answer of round `k` repeats a check, asked before or in the same answer. */
  predicate Repeats(w: World, k: nat) {
    !NoRepeats(AskedBefore(w, k) + ChecksOf(w.answer(k)))
  }

  /** The fresh snapshot that round `k` asked for came, and from the same environment. */
  predicate Refreshed(w: World, k: nat, shown: Snapshot) {
    w.refresh(k).Ready? && w.refresh(k).next.environment == shown.environment
  }

  /** The answer of round `k` is a conclusion that the rubric, on what was shown, neither refuses nor calls inconclusive. */
  predicate Stands(w: World, k: nat, shown: Snapshot) {
    && w.answer(k).Parsed?
    && var a := Assess(w.answer(k).conclusion, shown.evidence, w.clock(k)); a.Ok? && a.value.status != Inconclusive
  }

  /** What round `k` must meet to be followed by another. */
  predicate GoesOn(w: World, k: nat, shown: Snapshot) {
    Stands(w, k, shown) && (ChecksOf(w.answer(k)) != [] ==> !Repeats(w, k) && Refreshed(w, k, shown))
  }

  /** What the next call is shown: the same again with the tentative conclusion, or the fresh snapshot without it. */
  function NextCall(w: World, k: nat, shown: Snapshot): Call {
    if ChecksOf(w.answer(k)) != [] && w.refresh(k).Ready? then Call(Phase(k + 1), w.refresh(k).next, None)
    else Call(Phase(k + 1), shown, if w.answer(k).Parsed? then Some(w.answer(k).conclusion) else None)
  }

  /** The keys in `seen` are those of the checks asked for before round `k`, all different and of the two known kinds. */
  predicate Tracks(w: World, k: nat, seen: set<string>) {
    var earlier := AskedBefore(w, k);
    Noted(seen, earlier) && NoRepeats(earlier) && KnownKinds(earlier)
  }

  lemma {:induction false} NotingAppends(seen: set<string>, earlier: seq<Check>, checks: seq<Check>, noted: set<string>)
    requires Noted(seen, earlier) && NoteChecks(seen, checks) == Some(noted)
    ensures Noted(noted, earlier + checks)
    decreases checks
  {
    if checks == [] {
      assert earlier + checks == earlier;
    } else {
      AppendNoted(seen, earlier, checks[0]);
      NotingAppends(seen + {CheckKey(checks[0])}, earlier + [checks[0]], checks[1..], noted);
      assert earlier + [checks[0]] + checks[1..] == earlier + checks;
    }
  }

  lemma JudgedChecksAreKnown(c: Conclusion, evidence: seq<Evidence>, at: Time)
    requires Assess(c, evidence, at).Ok?
    ensures KnownKinds(c.checks)
  {
    assert forall i :: 0 <= i < |c.checks| ==> CheckAllowed(c.checks[i], evidence);
  }

  lemma WeighedGoesOn(w: World, k: nat, shown: Snapshot, seen: set<string>, c: Conclusion, judged: Result<Assessment, Error>)
    ensures var turn := Weigh(w, k, shown, seen, c, judged);
            && (turn.Go? <==>
                  && judged.Ok? && judged.value.status != Inconclusive
                  && (c.checks != [] ==> k != 3 && NoteChecks(seen, c.checks).Some? && Refreshed(w, k, shown)))
            && (turn.Go? && c.checks == [] ==> turn.state == shown && turn.tentative == Some(c) && turn.seen == seen)
            && (turn.Go? && c.checks != [] ==>
                  turn.state == w.refresh(k).next && turn.tentative == None && NoteChecks(seen, c.checks) == Some(turn.seen))
  {
  }

  /** Noting the checks of a round keeps track of them, unless one is repeated. */
  lemma NotingTracks(w: World, k: nat, seen: set<string>)
    requires 1 <= k && Tracks(w, k, seen) && w.answer(k).Parsed? && KnownKinds(ChecksOf(w.answer(k)))
    ensures var noted := NoteChecks(seen, ChecksOf(w.answer(k)));
            (noted.None? <==> Repeats(w, k)) && (noted.Some? ==> Tracks(w, k + 1, noted.value))
  {
    var checks := ChecksOf(w.answer(k));
    RefusedExactlyWhenRepeated(seen, AskedBefore(w, k), checks);
    var noted := NoteChecks(seen, checks);
    if noted.Some? {
      NotingAppends(seen, AskedBefore(w, k), checks, noted.value);
    }
  }

  /** Before the last round, a round is followed by another exactly when it meets what that takes; and it hands on what it must. */
  lemma TurnGoesOnExactly(w: World, k: nat, shown: Snapshot, seen: set<string>, at: Time)
    requires 1 <= k && Tracks(w, k, seen)
    ensures var turn := TakeTurn(w, k, shown, seen, at);
            && (turn.Go? <==> GoesOn(w, k, shown) && (k == 3 ==> ChecksOf(w.answer(k)) == []))
            && (turn.Go? ==> Call(Phase(k + 1), turn.state, turn.tentative) == NextCall(w, k, shown) && Tracks(w, k + 1, turn.seen))
  {
    if w.answer(k).Parsed? {
      var c := w.answer(k).conclusion;
      WeighedGoesOn(w, k, shown, seen, c, Assess(c, shown.evidence, w.clock(k)));
      if Stands(w, k, shown) {
        JudgedChecksAreKnown(c, shown.evidence, w.clock(k));
        NotingTracks(w, k, seen);
      }
    }
  }

  // ---------------------------------------------------------------- the result

  function Failure(reason: string): Assessment {
    Assessment(Inconclusive, reason, NO_CONCLUSION)
  }

  function Abstention(reason: string): Assessment {
    Assessment(NeedsEvidence, reason, NO_CONCLUSION)
  }

  /** How a run ends whose last call was that of round `k`: what it answers and with which error. */
  function Ending(w: World, k: nat, shown: Snapshot): (Assessment, Option<Error>) {
    match w.answer(k)
    case ProviderError => (Failure("PROVIDER_UNAVAILABLE"), None)
    case Unparsable => (Failure("INVALID_PROVIDER_OUTPUT"), None)
    case Parsed(c) =>
      var a := Assess(c, shown.evidence, w.clock(k));
      if a.Err? then (Failure("INVALID_PROVIDER_EVIDENCE"), None)
      else if a.value.status == Inconclusive || c.checks == [] then (a.value, None)
      else if k == 3 then (Abstention("COLLECTION_BUDGET_EXHAUSTED"), None)
      else if Repeats(w, k) then (Abstention("REPEATED_CHECK_WITHOUT_PROGRESS"), None)
      else if w.refresh(k).NotReady? then (Abstention("FRESH_COLLECTION_UNAVAILABLE"), None)
      else (a.value, Some(if w.refresh(k).RefreshError? then RefreshFailed else Conflict))
  }

  /** The checks round `k` passes to refresh: those of an answer that stands, unless it repeats one or comes last. */
  function RefreshOf(w: World, k: nat, shown: Snapshot): seq<seq<Check>> {
    if Stands(w, k, shown) && ChecksOf(w.answer(k)) != [] && k != 3 && !Repeats(w, k) then [ChecksOf(w.answer(k))] else []
  }

  /** What a round is said to have come to: a failure of the provider, or the rubric's verdict with the checks asked for. */
  function Noting(w: World, k: nat, shown: Snapshot): (Status, string, nat) {
    match w.answer(k)
    case ProviderError => (Inconclusive, "PROVIDER_UNAVAILABLE", 0)
    case Unparsable => (Inconclusive, "INVALID_PROVIDER_OUTPUT", 0)
    case Parsed(c) =>
      var a := Assess(c, shown.evidence, w.clock(k));
      if a.Err? then (Inconclusive, "INVALID_PROVIDER_EVIDENCE", 0) else (a.value.status, a.value.reason, |c.checks|)
  }

  /** The record of round `k`; usage is noted only if the provider told some. */
  function RoundAt(w: World, k: nat, shown: Snapshot): Round {
    var (status, reason, checks) := Noting(w, k, shown);
    var u := w.usage(k);
    Round(k, status, reason, |shown.evidence|, checks, w.latency(k),
          if u.input <= 0 && u.output <= 0 && u.total <= 0 then None else Some(u))
  }

  /** What a world makes of a round: whether it is followed by another, by which, and otherwise how it ends the run. */
  datatype Course = Course(
    goesOn: (nat, Snapshot) -> bool,
    next: (nat, Snapshot) -> Call,
    ending: (nat, Snapshot) -> (Assessment, Option<Error>),
    refreshes: (nat, Snapshot) -> seq<seq<Check>>,
    record: (nat, Snapshot) -> Round,
    asks: nat -> bool,
    tracks: (nat, set<string>) -> bool
  )

  function CourseOf(w: World): Course {
    Course((k: nat, shown: Snapshot) => GoesOn(w, k, shown), (k: nat, shown: Snapshot) => NextCall(w, k, shown),
           (k: nat, shown: Snapshot) => Ending(w, k, shown), (k: nat, shown: Snapshot) => RefreshOf(w, k, shown),
           (k: nat, shown: Snapshot) => RoundAt(w, k, shown), (k: nat) => ChecksOf(w.answer(k)) != [],
           (k: nat, seen: set<string>) => Tracks(w, k, seen))
  }

  /** The round ends the run as it must, or goes on with what the next needs. */
  predicate ExactTurn(x: Course, k: nat, shown: Snapshot, turn: Turn) {
    && turn.refreshes == x.refreshes(k, shown) && turn.round == x.record(k, shown)
    && (turn.Go? <==> x.goesOn(k, shown) && (k == 3 ==> !x.asks(k)))
    && (turn.Halt? ==> (turn.assessment, turn.error) == x.ending(k, shown))
    && (turn.Go? ==> Call(Phase(k + 1), turn.state, turn.tentative) == x.next(k, shown) && x.tracks(k + 1, turn.seen))
    && (turn.Go? && !x.asks(k) ==> turn.state == shown && (turn.assessment, None) == x.ending(k, shown))
  }

  ghost predicate ExactTurns(x: Course, take: Turns) {
    forall k, shown, seen, at :: 1 <= k && x.tracks(k, seen) ==> ExactTurn(x, k, shown, take(k, shown, seen, at))
  }

  lemma TurnIsExact(w: World, k: nat, shown: Snapshot, seen: set<string>, at: Time)
    requires 1 <= k && Tracks(w, k, seen)
    ensures ExactTurn(CourseOf(w), k, shown, TakeTurn(w, k, shown, seen, at))
  {
    TurnGoesOnExactly(w, k, shown, seen, at);
    TurnEndsExactly(w, k, shown, seen, at);
    TurnRecordsExactly(w, k, shown, seen, at);
  }

  lemma TurnRecordsExactly(w: World, k: nat, shown: Snapshot, seen: set<string>, at: Time)
    ensures TakeTurn(w, k, shown, seen, at).round == RoundAt(w, k, shown)
  {
    if w.answer(k).Parsed? {
      var c := w.answer(k).conclusion;
      WeighedIsRecorded(w, k, shown, seen, c, Assess(c, shown.evidence, w.clock(k)));
    }
  }

  lemma WeighedIsRecorded(w: World, k: nat, shown: Snapshot, seen: set<string>, c: Conclusion, judged: Result<Assessment, Error>)
    ensures var r := Weigh(w, k, shown, seen, c, judged).round;
            && r.number == k && r.evidenceCount == |shown.evidence| && r.latency == w.latency(k) && r.usage == ToldUsage(w.usage(k))
            && (judged.Err? ==> (r.status, r.reason, r.checksRequested) == (Inconclusive, "INVALID_PROVIDER_EVIDENCE", 0))
            && (judged.Ok? ==> (r.status, r.reason, r.checksRequested) == (judged.value.status, judged.value.reason, |c.checks|))
  {
  }

  lemma TurnEndsExactly(w: World, k: nat, shown: Snapshot, seen: set<string>, at: Time)
    requires 1 <= k && Tracks(w, k, seen)
    ensures var turn := TakeTurn(w, k, shown, seen, at);
            && turn.refreshes == RefreshOf(w, k, shown)
            && (turn.Halt? ==> (turn.assessment, turn.error) == Ending(w, k, shown))
            && (turn.Go? && ChecksOf(w.answer(k)) == [] ==> (turn.assessment, None) == Ending(w, k, shown))
  {
    if Stands(w, k, shown) && ChecksOf(w.answer(k)) != [] {
      JudgedChecksAreKnown(w.answer(k).conclusion, shown.evidence, w.clock(k));
      RefusedExactlyWhenRepeated(seen, AskedBefore(w, k), ChecksOf(w.answer(k)));
    }
  }

  /** The checks a trace passes to refresh, call by call. */
  function AllRefreshes(x: Course, first: nat, calls: seq<Call>): seq<seq<Check>>
    decreases calls
  {
    if calls == [] then [] else x.refreshes(first, calls[0].shown) + AllRefreshes(x, first + 1, calls[1..])
  }

  /** The records of a trace, call by call. */
  function AllRounds(x: Course, first: nat, calls: seq<Call>): seq<Round> {
    seq(|calls|, i requires 0 <= i < |calls| => x.record(first + i, calls[i].shown))
  }

  predicate Leads(x: Course, k: nat, call: Call, next: Call) {
    x.goesOn(k, call.shown) && next == x.next(k, call.shown)
  }

  /** Each call but the last is followed by the next as it must, and the last either could not be or is that of round 3. */
  ghost predicate RunsOn(x: Course, first: nat, calls: seq<Call>) {
    && 0 < |calls| <= 4 - first
    && (forall i :: 0 <= i < |calls| - 1 ==> Leads(x, first + i, calls[i], calls[i + 1]))
    && (|calls| < 4 - first ==> !x.goesOn(first + |calls| - 1, calls[|calls| - 1].shown))
  }

  lemma RunsOnFrom(x: Course, first: nat, call: Call, rest: seq<Call>)
    requires RunsOn(x, first + 1, rest) && Leads(x, first, call, rest[0])
    ensures RunsOn(x, first, [call] + rest)
  {
    var calls := [call] + rest;
    forall i | 0 <= i < |calls| - 1
      ensures Leads(x, first + i, calls[i], calls[i + 1])
    {
      if i > 0 {
        assert calls[i] == rest[i - 1] && calls[i + 1] == rest[i];
        assert Leads(x, first + 1 + (i - 1), rest[i - 1], rest[i]);
      }
    }
  }

  /** The calls, refreshes and result of a trace are those of the course it follows. */
  ghost predicate IsCourse(x: Course, first: nat, t: Trace) {
    && RunsOn(x, first, t.calls) && t.refreshes == AllRefreshes(x, first, t.calls) && t.rounds == AllRounds(x, first, t.calls)
    && t.final == t.calls[|t.calls| - 1].shown
    && (t.assessment, t.error) == x.ending(first + |t.calls| - 1, t.final)
  }

  lemma {:induction false} ExploresExactly(x: Course, take: Turns, round: nat, state: Snapshot, tentative: Option<Conclusion>,
                                           seen: set<string>, last: Assessment, at: Time)
    requires ExactTurns(x, take) && 1 <= round <= 3 && x.tracks(round, seen)
    ensures var t := Explore(take, round, state, tentative, seen, last, at);
            IsCourse(x, round, t) && t.calls[0] == Call(Phase(round), state, tentative)
    decreases 4 - round
  {
    var turn := take(round, state, seen, at);
    var call := Call(Phase(round), state, tentative);
    assert ExactTurn(x, round, state, turn);
    if turn.Go? && round < 3 {
      ExploresExactly(x, take, round + 1, turn.state, turn.tentative, turn.seen, turn.assessment, turn.at);
      var rest := Explore(take, round + 1, turn.state, turn.tentative, turn.seen, turn.assessment, turn.at);
      CourseFrom(x, round, call, rest, turn);
    } else {
      var a, error := turn.assessment, if turn.Halt? then turn.error else None;
      CourseEnds(x, round, call, Before([call], turn.refreshes, [turn.round], Ends(a, turn.at, state, error)));
    }
  }

  lemma CourseFrom(x: Course, round: nat, call: Call, rest: Trace, turn: Turn)
    requires round < 3 && IsCourse(x, round + 1, rest) && Leads(x, round, call, rest.calls[0])
    requires turn.refreshes == x.refreshes(round, call.shown) && turn.round == x.record(round, call.shown)
    ensures IsCourse(x, round, Before([call], turn.refreshes, [turn.round], rest))
  {
    RunsOnFrom(x, round, call, rest.calls);
    assert ([call] + rest.calls)[1..] == rest.calls;
    assert [turn.round] + rest.rounds == AllRounds(x, round, [call] + rest.calls);
  }

  lemma CourseEnds(x: Course, round: nat, call: Call, t: Trace)
    requires 1 <= round <= 3 && t.calls == [call] && t.refreshes == x.refreshes(round, call.shown) && t.final == call.shown
    requires t.rounds == [x.record(round, call.shown)]
    requires (t.assessment, t.error) == x.ending(round, call.shown) && (round == 3 || !x.goesOn(round, call.shown))
    ensures IsCourse(x, round, t)
  {
    assert [call][1..] == [];
    assert AllRefreshes(x, round, [call]) == x.refreshes(round, call.shown);
  }

  lemma TurnsAreExact(w: World)
    ensures ExactTurns(CourseOf(w), TurnsIn(w))
  {
    forall k, shown, seen, at | 1 <= k && Tracks(w, k, seen)
      ensures ExactTurn(CourseOf(w), k, shown, TurnsIn(w)(k, shown, seen, at))
    {
      TurnIsExact(w, k, shown, seen, at);
    }
  }

  /**
   The whole run: each call is followed by another exactly when its answer stands, repeats no check and gets the fresh
   snapshot it asks for, up to three; the next is shown what it must; the last call decides the result.
   */
  lemma DiagnosesExactly(w: World, state: Snapshot)
    ensures var t := Diagnose(true, w, state);
            IsCourse(CourseOf(w), 1, t) && t.calls[0] == Call("FORM_CAUSAL_ALTERNATIVES", state, None)
  {
    TurnsAreExact(w);
    assert Tracks(w, 1, {});
    ExploresExactly(CourseOf(w), TurnsIn(w), 1, state, None, {}, START, 0);
  }

  /**
   The provider failed, its answer cannot be parsed, the rubric refuses it or finds it inconclusive, it repeats a check, or
   the refresh it asks for fails, is not ready or comes from another environment.
   */
  predicate Breaks(w: World, k: nat, shown: Snapshot) {
    match w.answer(k)
    case ProviderError => true
    case Unparsable => true
    case Parsed(c) =>
      var judged := Assess(c, shown.evidence, w.clock(k));
      || judged.Err? || judged.value.status == Inconclusive
      || (c.checks != [] &&
          (Repeats(w, k) || w.refresh(k).RefreshError? || w.refresh(k).NotReady? || w.refresh(k).next.environment != shown.environment))
  }

  lemma BreaksExactly(w: World, k: nat, shown: Snapshot)
    ensures Breaks(w, k, shown) <==> !GoesOn(w, k, shown)
  {
  }

  lemma LastCallExactly(x: Course, t: Trace, i: nat)
    requires IsCourse(x, 1, t) && i < |t.calls| && i < 2
    ensures i == |t.calls| - 1 <==> !x.goesOn(i + 1, t.calls[i].shown)
  {
    if i < |t.calls| - 1 {
      assert Leads(x, 1 + i, t.calls[i], t.calls[i + 1]);
    }
  }

  /** Before the third, a call is the last exactly when it breaks off the run. */
  lemma StopsEarlyExactly(w: World, state: Snapshot)
    ensures var calls := Diagnose(true, w, state).calls;
            1 <= |calls| <= 3 && forall i :: 0 <= i < |calls| && i < 2 ==> (i == |calls| - 1 <==> Breaks(w, i + 1, calls[i].shown))
  {
    DiagnosesExactly(w, state);
    var t := Diagnose(true, w, state);
    forall i | 0 <= i < |t.calls| && i < 2
      ensures i == |t.calls| - 1 <==> Breaks(w, i + 1, t.calls[i].shown)
    {
      LastCallExactly(CourseOf(w), t, i);
      BreaksExactly(w, i + 1, t.calls[i].shown);
    }
  }

  lemma EndingIsHypothesis(w: World, k: nat, shown: Snapshot)
    requires k == 3 || !GoesOn(w, k, shown)
    ensures var (a, error) := Ending(w, k, shown);
            error.None? && a.status == Hypothesis <==>
              && k == 3 && w.answer(3).Parsed? && w.answer(3).conclusion.checks == []
              && SupportsHypothesis(w.answer(3).conclusion, shown.evidence, w.clock(3))
  {
    if w.answer(k).Parsed? {
      HypothesisExactly(w.answer(k).conclusion, shown.evidence, w.clock(k));
    }
  }

  /** A hypothesis without error comes exactly of three calls whose last answer asks no check and is supported by what it was shown. */
  lemma HypothesisEarnedExactly(w: World, state: Snapshot)
    ensures var t := Diagnose(true, w, state);
            t.error.None? && t.assessment.status == Hypothesis <==>
              && |t.calls| == 3 && w.answer(3).Parsed? && w.answer(3).conclusion.checks == []
              && SupportsHypothesis(w.answer(3).conclusion, t.final.evidence, w.clock(3))
  {
    DiagnosesExactly(w, state);
    var t := Diagnose(true, w, state);
    EndingIsHypothesis(w, |t.calls|, t.final);
  }

  /** Which phase each call is in. */
  lemma PhasesInOrder(w: World, state: Snapshot)
    ensures var calls := Diagnose(true, w, state).calls;
            && calls[0].phase == "FORM_CAUSAL_ALTERNATIVES"
            && (|calls| > 1 ==> calls[1].phase == "CHALLENGE_UPSTREAM_AND_CONTRADICTIONS")
            && (|calls| > 2 ==> calls[2].phase == "REASSESS_CURRENT_EVIDENCE_AND_ABSTAIN_IF_UNTESTED")
  {
    DiagnosesExactly(w, state);
    var x, calls := CourseOf(w), Diagnose(true, w, state).calls;
    assert |calls| > 1 ==> Leads(x, 1, calls[0], calls[1]);
    assert |calls| > 2 ==> Leads(x, 2, calls[1], calls[2]);
  }

  /** Without a provider nothing is asked and nothing concluded. */
  lemma NoProviderAbstains(w: World, state: Snapshot)
    ensures Diagnose(false, w, state) ==
              Trace([], [], [], Abstention("DISCRIMINATING_EVIDENCE_REQUIRED"), 0, state, None)
  {
  }

  // ---------------------------------------------------------------- the orchestrator's judgement

  const ABSTENTIONS := {"NO_CURRENT_ELIGIBLE_EVIDENCE", "DISCRIMINATING_EVIDENCE_REQUIRED", "COLLECTION_BUDGET_EXHAUSTED",
                        "REPEATED_CHECK_WITHOUT_PROGRESS", "FRESH_COLLECTION_UNAVAILABLE"}

  const FAILURES := {"PROVIDER_UNAVAILABLE", "INVALID_PROVIDER_OUTPUT", "INVALID_PROVIDER_EVIDENCE"}

  /**
   A submitted result is accepted exactly when it has at most three rounds and either a conclusion the rubric accepts on
   the stored evidence, or no conclusion and one of eight reasons; the verdict is the rubric's, or follows from the reason.
   */
  lemma AcceptsExactly(rounds: seq<Round>, submitted: Assessment, state: Snapshot, at: Time)
    ensures var r := ValidateAgentResult(rounds, submitted, state, at);
            var judged := Assess(submitted.conclusion, state.evidence, at);
            && (|rounds| > 3 ==> r == Err(Invalid))
            && (|rounds| <= 3 && submitted.conclusion != NO_CONCLUSION ==> r == judged)
            && (|rounds| <= 3 && submitted.conclusion == NO_CONCLUSION ==>
                  && (submitted.reason in ABSTENTIONS ==> r == Ok(Abstention(submitted.reason)))
                  && (submitted.reason in FAILURES ==> r == Ok(Failure(submitted.reason)))
                  && (submitted.reason !in ABSTENTIONS + FAILURES ==> r == Err(Invalid)))
  {
  }
}
