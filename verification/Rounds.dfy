/**
 The bounded diagnosis: up to three provider calls with evidence refreshes in between, judged by
 the rubric, and the orchestrator's own judgement of the result an agent submits.

 The provider, the refresh and the clock are adversaries: any answer, any snapshot, any instant.
 */
module Rounds {
  import opened Wrappers
  import opened Clock
  import opened Observations
  import opened Rubric
  import opened Telemetry

  /** `tag` stands for the parents, validity and clarifications that travel with the evidence. */
  datatype Snapshot = Snapshot(evidence: seq<Evidence>, environment: Option<int>, tag: nat)

  datatype Answer = ProviderError | Unparsable | Parsed(conclusion: Conclusion)

  datatype Refresh = RefreshError | NotReady | Ready(next: Snapshot)

  /** What the world does in each round. */
  datatype World = World(answer: nat -> Answer, refresh: nat -> Refresh, clock: nat -> Time, latency: nat -> int, usage: nat -> Usage)

  /** What the provider is shown. */
  datatype Call = Call(phase: string, shown: Snapshot, tentative: Option<Conclusion>)

  datatype Round = Round(number: nat, status: Status, reason: string, evidenceCount: nat, checksRequested: nat,
                         latency: int, usage: Option<Usage>)

  datatype Trace = Trace(
    calls: seq<Call>,
    refreshes: seq<seq<Check>>,
    rounds: seq<Round>,
    assessment: Assessment,
    assessedAt: Time,
    final: Snapshot,
    error: Option<Error>
  )

  function Phase(round: nat): string {
    if round == 2 then "CHALLENGE_UPSTREAM_AND_CONTRADICTIONS"
    else if round == 3 then "REASSESS_CURRENT_EVIDENCE_AND_ABSTAIN_IF_UNTESTED"
    else "FORM_CAUSAL_ALTERNATIVES"
  }

  function Abstain(reason: string): Assessment {
    Assessment(NeedsEvidence, reason, NO_CONCLUSION)
  }

  function Unsettled(reason: string): Assessment {
    Assessment(Inconclusive, reason, NO_CONCLUSION)
  }

  function CheckKey(c: Check): string {
    c.kind + "/" + c.handle
  }

  /** Note every check, or None as soon as one was already noted. */
  function NoteChecks(seen: set<string>, checks: seq<Check>): Option<set<string>>
    decreases checks
  {
    if checks == [] then Some(seen)
    else if CheckKey(checks[0]) in seen then None
    else NoteChecks(seen + {CheckKey(checks[0])}, checks[1..])
  }

  /** What precedes a trace. */
  function Before(calls: seq<Call>, refreshes: seq<seq<Check>>, rounds: seq<Round>, t: Trace): Trace {
    t.(calls := calls + t.calls, refreshes := refreshes + t.refreshes, rounds := rounds + t.rounds)
  }

  function Ends(assessment: Assessment, at: Time, final: Snapshot, error: Option<Error>): Trace {
    Trace([], [], [], assessment, at, final, error)
  }

  /** One round: it ends the run, or goes on from a new position. */
  datatype Turn =
    | Halt(refreshes: seq<seq<Check>>, round: Round, assessment: Assessment, at: Time, error: Option<Error>)
    | Go(refreshes: seq<seq<Check>>, round: Round, assessment: Assessment, at: Time,
         state: Snapshot, tentative: Option<Conclusion>, seen: set<string>)

  /** Usage is recorded only when the provider told any. */
  function ToldUsage(u: Usage): Option<Usage> {
    if u.input > 0 || u.output > 0 || u.total > 0 then Some(u) else None
  }

  function RoundOf(w: World, round: nat, status: Status, reason: string, n: nat, checks: nat): Round {
    Round(round, status, reason, n, checks, w.latency(round), ToldUsage(w.usage(round)))
  }

  function Reject(w: World, round: nat, n: nat, reason: string, at: Time): Turn {
    Halt([], RoundOf(w, round, Inconclusive, reason, n, 0), Unsettled(reason), at, None)
  }

  function TakeTurn(w: World, round: nat, state: Snapshot, seen: set<string>, at: Time): Turn {
    match w.answer(round)
    case ProviderError => Reject(w, round, |state.evidence|, "PROVIDER_UNAVAILABLE", at)
    case Unparsable => Reject(w, round, |state.evidence|, "INVALID_PROVIDER_OUTPUT", at)
    case Parsed(c) => Weigh(w, round, state, seen, c, Assess(c, state.evidence, w.clock(round)))
  }

  /** A conclusion as the rubric judged it. */
  function Weigh(w: World, round: nat, state: Snapshot, seen: set<string>, c: Conclusion, judged: Result<Assessment, Error>): Turn {
    match judged
    case Err(_) => Reject(w, round, |state.evidence|, "INVALID_PROVIDER_EVIDENCE", w.clock(round))
    case Ok(a) =>
      var r := RoundOf(w, round, a.status, a.reason, |state.evidence|, |c.checks|);
      if a.status == Inconclusive then Halt([], r, a, w.clock(round), None)
      else if c.checks == [] then Go([], r, a, w.clock(round), state, Some(c), seen)
      else if round == 3 then Halt([], r, Abstain("COLLECTION_BUDGET_EXHAUSTED"), w.clock(round), None)
      else RunChecks(w, round, state, seen, r, c, a)
  }

  /** A round that asks for fresh checks: each may be asked for once, and the environment must not move. */
  function RunChecks(w: World, round: nat, state: Snapshot, seen: set<string>, r: Round, c: Conclusion, a: Assessment): Turn {
    var at := w.clock(round);
    match NoteChecks(seen, c.checks)
    case None => Halt([], r, Abstain("REPEATED_CHECK_WITHOUT_PROGRESS"), at, None)
    case Some(noted) =>
      match w.refresh(round)
      case RefreshError => Halt([c.checks], r, a, at, Some(RefreshFailed))
      case NotReady => Halt([c.checks], r, Abstain("FRESH_COLLECTION_UNAVAILABLE"), at, None)
      case Ready(next) =>
        if state.environment != next.environment then Halt([c.checks], r, a, at, Some(Conflict))
        else Go([c.checks], r, a, at, next, None, noted)
  }

  /** How a round comes out, by its number, its snapshot, the checks seen and the last instant. */
  type Turns = (nat, Snapshot, set<string>, Time) -> Turn

  function TurnsIn(w: World): Turns {
    (round: nat, state: Snapshot, seen: set<string>, at: Time) => TakeTurn(w, round, state, seen, at)
  }

  /** The rounds from `round` on, given what has been concluded so far. */
  function Explore(take: Turns, round: nat, state: Snapshot, tentative: Option<Conclusion>, seen: set<string>,
                   last: Assessment, at: Time): Trace
    requires 1 <= round <= 4
    decreases 4 - round
  {
    if round == 4 then Ends(last, at, state, None)
    else
      var call := Call(Phase(round), state, tentative);
      match take(round, state, seen, at)
      case Halt(refreshes, r, a, at', error) => Before([call], refreshes, [r], Ends(a, at', state, error))
      case Go(refreshes, r, a, at', state', tentative', seen') =>
        Before([call], refreshes, [r], Explore(take, round + 1, state', tentative', seen', a, at'))
  }

  const START := Abstain("DISCRIMINATING_EVIDENCE_REQUIRED")

  /** The whole run; without a provider it abstains at once. */
  function Diagnose(hasRunner: bool, w: World, state: Snapshot): Trace {
    if !hasRunner then Ends(START, 0, state, None) else Explore(TurnsIn(w), 1, state, None, {}, START, 0)
  }

  // ---------------------------------------------------------------- the orchestrator's judgement

  predicate AbstentionReason(reason: string) {
    || reason == "NO_CURRENT_ELIGIBLE_EVIDENCE" || reason == "DISCRIMINATING_EVIDENCE_REQUIRED"
    || reason == "COLLECTION_BUDGET_EXHAUSTED" || reason == "REPEATED_CHECK_WITHOUT_PROGRESS"
    || reason == "FRESH_COLLECTION_UNAVAILABLE"
  }

  predicate FailureReason(reason: string) {
    reason == "PROVIDER_UNAVAILABLE" || reason == "INVALID_PROVIDER_OUTPUT" || reason == "INVALID_PROVIDER_EVIDENCE"
  }

  /** A submitted result, judged on the orchestrator's own stored snapshot. */
  function ValidateAgentResult(rounds: seq<Round>, submitted: Assessment, state: Snapshot, at: Time): Result<Assessment, Error> {
    if |rounds| > 3 then Err(Invalid)
    else if submitted.conclusion != NO_CONCLUSION then Assess(submitted.conclusion, state.evidence, at)
    else if AbstentionReason(submitted.reason) then Ok(Abstain(submitted.reason))
    else if FailureReason(submitted.reason) then Ok(Unsettled(submitted.reason))
    else Err(Invalid)
  }

  predicate UsageAllowed(u: Usage) {
    0 <= u.input <= 1_000_000_000 && 0 <= u.output <= 1_000_000_000 && 0 <= u.total <= 1_000_000_000
  }

  predicate TelemetryAllowed(latency: int, usage: Option<Usage>) {
    0 <= latency <= 90_000 && (usage.Some? ==> UsageAllowed(usage.value))
  }

  predicate RoundAllowed(r: Round) {
    r.evidenceCount <= 64 && r.checksRequested <= 2 && TelemetryAllowed(r.latency, r.usage)
  }

  function Recorded(r: Round, number: nat, a: Assessment): Round {
    r.(number := number, status := a.status, reason := a.reason)
  }

  /** The submitted rounds as the orchestrator records them: renumbered, with its own verdict. */
  function RecordRounds(rounds: seq<Round>, a: Assessment): Result<seq<Round>, Error> {
    if exists i :: 0 <= i < |rounds| && !RoundAllowed(rounds[i]) then Err(Invalid)
    else Ok(seq(|rounds|, i requires 0 <= i < |rounds| => Recorded(rounds[i], i + 1, a)))
  }

  // ---------------------------------------------------------------- the procedure

  method NoteEach(seen: set<string>, checks: seq<Check>) returns (noted: Option<set<string>>)
    ensures noted == NoteChecks(seen, checks)
  {
    var keys := seen;
    for i := 0 to |checks|
      invariant NoteChecks(keys, checks[i..]) == NoteChecks(seen, checks)
    {
      assert checks[i..][1..] == checks[i + 1..];
      if CheckKey(checks[i]) in keys {
        return None;
      }
      keys := keys + {CheckKey(checks[i])};
    }
    noted := Some(keys);
  }

  method OneRound(w: World, round: nat, state: Snapshot, seen: set<string>, at: Time) returns (turn: Turn)
    ensures turn == TakeTurn(w, round, state, seen, at)
  {
    var answer := w.answer(round);
    if answer.ProviderError? {
      return Reject(w, round, |state.evidence|, "PROVIDER_UNAVAILABLE", at);
    }
    if answer.Unparsable? {
      return Reject(w, round, |state.evidence|, "INVALID_PROVIDER_OUTPUT", at);
    }
    var candidate := answer.conclusion;
    var assessed := AssessCandidate(candidate, state.evidence, w.clock(round));
    if assessed.Err? {
      return Reject(w, round, |state.evidence|, "INVALID_PROVIDER_EVIDENCE", w.clock(round));
    }
    var assessment := assessed.value;
    var r := RoundOf(w, round, assessment.status, assessment.reason, |state.evidence|, |candidate.checks|);
    if assessment.status == Inconclusive {
      return Halt([], r, assessment, w.clock(round), None);
    }
    if |candidate.checks| == 0 {
      return Go([], r, assessment, w.clock(round), state, Some(candidate), seen);
    }
    if round == 3 {
      return Halt([], r, Abstain("COLLECTION_BUDGET_EXHAUSTED"), w.clock(round), None);
    }
    var noted := NoteEach(seen, candidate.checks);
    if noted.None? {
      return Halt([], r, Abstain("REPEATED_CHECK_WITHOUT_PROGRESS"), w.clock(round), None);
    }
    var refreshed := w.refresh(round);
    if refreshed.RefreshError? {
      return Halt([candidate.checks], r, assessment, w.clock(round), Some(RefreshFailed));
    }
    if refreshed.NotReady? {
      return Halt([candidate.checks], r, Abstain("FRESH_COLLECTION_UNAVAILABLE"), w.clock(round), None);
    }
    if state.environment != refreshed.next.environment {
      return Halt([candidate.checks], r, assessment, w.clock(round), Some(Conflict));
    }
    turn := Go([candidate.checks], r, assessment, w.clock(round), refreshed.next, None, noted.value);
  }

  lemma BeforeBefore(c1: seq<Call>, f1: seq<seq<Check>>, r1: seq<Round>, c2: seq<Call>, f2: seq<seq<Check>>, r2: seq<Round>, t: Trace)
    ensures Before(c1, f1, r1, Before(c2, f2, r2, t)) == Before(c1 + c2, f1 + f2, r1 + r2, t)
  {
    assert c1 + (c2 + t.calls) == (c1 + c2) + t.calls;
    assert f1 + (f2 + t.refreshes) == (f1 + f2) + t.refreshes;
    assert r1 + (r2 + t.rounds) == (r1 + r2) + t.rounds;
  }

  method ExecuteRounds(hasRunner: bool, w: World, initial: Snapshot) returns (t: Trace)
    ensures t == Diagnose(hasRunner, w, initial)
  {
    var assessment, at := START, 0;
    var calls: seq<Call>, refreshes: seq<seq<Check>>, rounds: seq<Round> := [], [], [];
    var state := initial;
    if !hasRunner {
      return Trace(calls, refreshes, rounds, assessment, at, state, None);
    }
    var tentative: Option<Conclusion>, seen: set<string> := None, {};
    ghost var whole := Explore(TurnsIn(w), 1, initial, None, {}, assessment, 0);
    for round := 1 to 4
      invariant Before(calls, refreshes, rounds, Explore(TurnsIn(w), round, state, tentative, seen, assessment, at)) == whole
    {
      var turn := OneRound(w, round, state, seen, at);
      var call := Call(Phase(round), state, tentative);
      BeforeBefore(calls, refreshes, rounds, [call], turn.refreshes, [turn.round],
                   if turn.Halt? then Ends(turn.assessment, turn.at, state, turn.error)
                   else Explore(TurnsIn(w), round + 1, turn.state, turn.tentative, turn.seen, turn.assessment, turn.at));
      calls, refreshes, rounds := calls + [call], refreshes + turn.refreshes, rounds + [turn.round];
      assessment, at := turn.assessment, turn.at;
      if turn.Halt? {
        return Trace(calls, refreshes, rounds, assessment, at, state, turn.error);
      }
      state, tentative, seen := turn.state, turn.tentative, turn.seen;
    }
    t := Trace(calls, refreshes, rounds, assessment, at, state, None);
  }

  method RecordEach(rounds: seq<Round>, a: Assessment) returns (recorded: Result<seq<Round>, Error>)
    ensures recorded == RecordRounds(rounds, a)
  {
    var kept: seq<Round> := [];
    for i := 0 to |rounds|
      invariant |kept| == i
      invariant forall j :: 0 <= j < i ==> RoundAllowed(rounds[j]) && kept[j] == Recorded(rounds[j], j + 1, a)
    {
      var r := rounds[i];
      if r.latency < 0 || r.latency > 90_000 || r.evidenceCount > 64 || r.checksRequested > 2
         || (r.usage.Some? && !UsageAllowed(r.usage.value)) {
        assert !RoundAllowed(rounds[i]);
        return Err(Invalid);
      }
      kept := kept + [rounds[i].(number := i + 1, status := a.status, reason := a.reason)];
    }
    assert kept == seq(|rounds|, i requires 0 <= i < |rounds| => Recorded(rounds[i], i + 1, a));
    recorded := Ok(kept);
  }
}
