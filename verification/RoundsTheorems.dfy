/**
 What the bounded diagnosis guarantees whatever the provider, the refresh and the clock do, and how
 the orchestrator judges the result again.
 */
module RoundsTheorems {
  import opened Wrappers
  import opened Clock
  import opened Observations
  import opened Rubric
  import opened Rounds
  import opened Telemetry

  // ---------------------------------------------------------------- bounded and frugal

  function Asked(refreshes: seq<seq<Check>>): seq<Check> {
    if refreshes == [] then [] else refreshes[0] + Asked(refreshes[1..])
  }

  predicate NoRepeats(checks: seq<Check>) {
    forall i, j :: 0 <= i < j < |checks| ==> checks[i] != checks[j]
  }

  predicate Fresh(checks: seq<Check>, seen: set<string>) {
    forall i :: 0 <= i < |checks| ==> CheckKey(checks[i]) !in seen
  }

  lemma {:induction false} NotedChecks(seen: set<string>, checks: seq<Check>, noted: set<string>)
    requires NoteChecks(seen, checks) == Some(noted)
    ensures seen <= noted && NoRepeats(checks) && Fresh(checks, seen)
    ensures forall i :: 0 <= i < |checks| ==> CheckKey(checks[i]) in noted
    decreases checks
  {
    if checks != [] {
      NotedChecks(seen + {CheckKey(checks[0])}, checks[1..], noted);
      forall i | 0 <= i < |checks|
        ensures CheckKey(checks[i]) in noted && CheckKey(checks[i]) !in seen
        ensures forall j :: i < j < |checks| ==> checks[i] != checks[j]
      {
        if i > 0 {
          assert checks[i] == checks[1..][i - 1];
          forall j | i < j < |checks|
            ensures checks[i] != checks[j]
          {
            assert checks[j] == checks[1..][j - 1];
          }
        } else {
          forall j | 0 < j < |checks|
            ensures checks[0] != checks[j]
          {
            assert checks[j] == checks[1..][j - 1];
          }
        }
      }
    }
  }

  /** An assessment with a conclusion is the rubric's verdict on this snapshot; one without is an admitted abstention. */
  predicate Settled(a: Assessment, state: Snapshot, at: Time) {
    if a.conclusion == NO_CONCLUSION then
      (a.status == NeedsEvidence && AbstentionReason(a.reason)) || (a.status == Inconclusive && FailureReason(a.reason))
    else Judged(a, state, at)
  }

  /** Which assessments may stand on which snapshot, left open where only its use matters. */
  type Rule = (Assessment, Snapshot, Time) -> bool

  predicate Judged(a: Assessment, state: Snapshot, at: Time) {
    Assess(a.conclusion, state.evidence, at) == Ok(a)
  }

  /** What a round may refresh and record. */
  ghost predicate Measured(w: World, round: nat, state: Snapshot, seen: set<string>, turn: Turn) {
    && |turn.refreshes| <= 1 && (round == 3 ==> turn.refreshes == [])
    && turn.round.number == round && turn.round.evidenceCount == |state.evidence| && turn.round.checksRequested <= 2
    && turn.round.latency == w.latency(round) && turn.round.usage == ToldUsage(w.usage(round))
    && (turn.refreshes != [] ==>
          exists noted :: NoteChecks(seen, turn.refreshes[0]) == Some(noted) && (turn.Go? ==> turn.seen == noted))
  }

  /** What a round may hand to the next. */
  predicate HandsOn(w: World, round: nat, state: Snapshot, seen: set<string>, turn: Turn) {
    turn.Go? ==>
      && turn.state.environment == state.environment
      && (turn.refreshes == [] ==> turn.seen == seen && turn.state == state)
      && (turn.tentative.Some? ==> turn.state == state && w.answer(round) == Parsed(turn.tentative.value))
  }

  /** What a round may conclude. */
  predicate Concludes(w: World, settled: Rule, round: nat, state: Snapshot, turn: Turn) {
    && turn.assessment.status != Corroborated
    && (turn.Halt? && turn.error.None? ==> settled(turn.assessment, state, turn.at) && turn.assessment.status != Hypothesis)
    && (turn.Go? ==> w.answer(round) == Parsed(turn.assessment.conclusion) && turn.at == w.clock(round))
    && (turn.Go? && turn.refreshes == [] ==> settled(turn.assessment, state, turn.at))
  }

  ghost predicate LawfulTurn(w: World, settled: Rule, round: nat, state: Snapshot, seen: set<string>, turn: Turn) {
    Measured(w, round, state, seen, turn) && HandsOn(w, round, state, seen, turn) && Concludes(w, settled, round, state, turn)
  }

  ghost predicate Lawful(w: World, settled: Rule, take: Turns) {
    forall round, state, seen, at :: LawfulTurn(w, settled, round, state, seen, take(round, state, seen, at))
  }

  lemma RubricVerdicts(c: Conclusion, evidence: seq<Evidence>, at: Time)
    ensures var a := Assess(c, evidence, at);
            a.Ok? ==> a.value.status != Corroborated && a.value.conclusion == c != NO_CONCLUSION && |c.checks| <= 2
  {
  }

  lemma WeighedIsMeasured(w: World, round: nat, state: Snapshot, seen: set<string>, c: Conclusion, judged: Result<Assessment, Error>)
    requires w.answer(round) == Parsed(c)
    requires judged.Ok? ==> |c.checks| <= 2
    ensures var turn := Weigh(w, round, state, seen, c, judged);
            Measured(w, round, state, seen, turn) && HandsOn(w, round, state, seen, turn)
  {
  }

  /** The rule admits every abstention and failure without a conclusion. */
  ghost predicate AdmitsAbstention(settled: Rule) {
    && (forall reason, state, at :: AbstentionReason(reason) ==> settled(Abstain(reason), state, at))
    && (forall reason, state, at :: FailureReason(reason) ==> settled(Unsettled(reason), state, at))
  }

  lemma WeighedConcludes(w: World, settled: Rule, round: nat, state: Snapshot, seen: set<string>, c: Conclusion,
                         judged: Result<Assessment, Error>)
    requires w.answer(round) == Parsed(c) && AdmitsAbstention(settled)
    requires judged.Ok? ==> judged.value.status != Corroborated && judged.value.conclusion == c
    requires judged.Ok? ==> settled(judged.value, state, w.clock(round))
    ensures Concludes(w, settled, round, state, Weigh(w, round, state, seen, c, judged))
  {
  }

  lemma TurnIsLawful(w: World, round: nat, state: Snapshot, seen: set<string>, at: Time)
    ensures LawfulTurn(w, Settled, round, state, seen, TakeTurn(w, round, state, seen, at))
  {
    if w.answer(round).Parsed? {
      var c := w.answer(round).conclusion;
      var judged := Assess(c, state.evidence, w.clock(round));
      RubricVerdicts(c, state.evidence, w.clock(round));
      WeighedIsMeasured(w, round, state, seen, c, judged);
      WeighedConcludes(w, Settled, round, state, seen, c, judged);
    }
  }

  lemma TurnsAreLawful(w: World)
    ensures Lawful(w, Settled, TurnsIn(w))
  {
    forall round, state, seen, at
      ensures LawfulTurn(w, Settled, round, state, seen, TurnsIn(w)(round, state, seen, at))
    {
      TurnIsLawful(w, round, state, seen, at);
    }
  }

  /** At most three calls and two refreshes, one round recorded for each call. */
  lemma {:induction false} CallsAreBounded(w: World, settled: Rule, take: Turns, round: nat, state: Snapshot,
                                           tentative: Option<Conclusion>, seen: set<string>, last: Assessment, at: Time)
    requires Lawful(w, settled, take) && 1 <= round <= 4
    ensures var t := Explore(take, round, state, tentative, seen, last, at);
            && |t.calls| == |t.rounds| <= 4 - round
            && |t.refreshes| <= (if round < 4 then 3 - round else 0)
            && |t.refreshes| <= |t.calls|
    decreases 4 - round
  {
    if round < 4 {
      var turn := take(round, state, seen, at);
      assert LawfulTurn(w, settled, round, state, seen, turn);
      if turn.Go? {
        CallsAreBounded(w, settled, take, round + 1, turn.state, turn.tentative, turn.seen, turn.assessment, turn.at);
      }
    }
  }

  lemma AskedStep(first: seq<seq<Check>>, rest: seq<seq<Check>>)
    requires |first| <= 1
    ensures Asked(first + rest) == (if first == [] then [] else first[0]) + Asked(rest)
  {
    if first == [] {
      assert first + rest == rest;
    } else {
      assert (first + rest)[1..] == rest;
    }
  }

  lemma JoinFresh(first: seq<Check>, rest: seq<Check>, seen: set<string>, noted: set<string>)
    requires NoRepeats(first) && Fresh(first, seen) && seen <= noted
    requires forall i :: 0 <= i < |first| ==> CheckKey(first[i]) in noted
    requires NoRepeats(rest) && Fresh(rest, noted)
    ensures NoRepeats(first + rest) && Fresh(first + rest, seen)
  {
    var all := first + rest;
    forall i, j | 0 <= i < j < |all|
      ensures all[i] != all[j]
    {
      if i < |first| <= j {
        assert CheckKey(all[j]) !in noted;
      }
    }
  }

  /** A round adds only checks that neither came before nor come later. */
  lemma TurnAsksFresh(w: World, round: nat, state: Snapshot, seen: set<string>, turn: Turn, rest: seq<seq<Check>>)
    requires Measured(w, round, state, seen, turn) && HandsOn(w, round, state, seen, turn)
    requires if turn.Go? then NoRepeats(Asked(rest)) && Fresh(Asked(rest), turn.seen) else rest == []
    ensures NoRepeats(Asked(turn.refreshes + rest)) && Fresh(Asked(turn.refreshes + rest), seen)
  {
    AskedStep(turn.refreshes, rest);
    if turn.refreshes == [] {
      assert [] + Asked(rest) == Asked(rest);
    } else {
      var first := turn.refreshes[0];
      var noted :| NoteChecks(seen, first) == Some(noted) && (turn.Go? ==> turn.seen == noted);
      NotedChecks(seen, first, noted);
      JoinFresh(first, Asked(rest), seen, noted);
    }
  }

  /** No check is ever passed to refresh twice. */
  lemma {:induction false} NoCheckAskedTwice(w: World, settled: Rule, take: Turns, round: nat, state: Snapshot,
                                            tentative: Option<Conclusion>, seen: set<string>, last: Assessment, at: Time)
    requires Lawful(w, settled, take) && 1 <= round <= 4
    ensures var asked := Asked(Explore(take, round, state, tentative, seen, last, at).refreshes);
            NoRepeats(asked) && Fresh(asked, seen)
    decreases 4 - round
  {
    if round < 4 {
      var turn := take(round, state, seen, at);
      assert LawfulTurn(w, settled, round, state, seen, turn);
      if turn.Go? {
        NoCheckAskedTwice(w, settled, take, round + 1, turn.state, turn.tentative, turn.seen, turn.assessment, turn.at);
        var rest := Explore(take, round + 1, turn.state, turn.tentative, turn.seen, turn.assessment, turn.at);
        TurnAsksFresh(w, round, state, seen, turn, rest.refreshes);
      } else {
        TurnAsksFresh(w, round, state, seen, turn, []);
      }
    }
  }

  predicate KnownKind(c: Check) {
    c.kind == "REFRESH_RESOURCE_STATE" || c.kind == "REFRESH_DEPENDENCIES"
  }

  predicate KnownKinds(checks: seq<Check>) {
    forall i :: 0 <= i < |checks| ==> KnownKind(checks[i])
  }

  /** Different checks of the two kinds the rubric admits have different keys. */
  lemma KeysTellChecksApart(c: Check, d: Check)
    requires KnownKind(c) && KnownKind(d) && CheckKey(c) == CheckKey(d)
    ensures c == d
  {
    assert CheckKey(c)[8] == c.kind[8] && CheckKey(d)[8] == d.kind[8];
    assert c.kind == d.kind;
    assert c.handle == CheckKey(c)[|c.kind| + 1..];
    assert d.handle == CheckKey(d)[|c.kind| + 1..];
  }

  /** `seen` holds the keys of exactly these checks. */
  predicate Noted(seen: set<string>, earlier: seq<Check>) {
    && (forall i :: 0 <= i < |earlier| ==> CheckKey(earlier[i]) in seen)
    && (forall k :: k in seen ==> exists i :: 0 <= i < |earlier| && CheckKey(earlier[i]) == k)
  }

  lemma SeenMeansAsked(seen: set<string>, earlier: seq<Check>, c: Check)
    requires Noted(seen, earlier) && KnownKinds(earlier) && KnownKind(c)
    ensures CheckKey(c) in seen <==> c in earlier
  {
    if CheckKey(c) in seen {
      var i :| 0 <= i < |earlier| && CheckKey(earlier[i]) == CheckKey(c);
      KeysTellChecksApart(earlier[i], c);
    }
  }

  lemma AppendNoted(seen: set<string>, earlier: seq<Check>, c: Check)
    requires Noted(seen, earlier)
    ensures Noted(seen + {CheckKey(c)}, earlier + [c])
  {
    var all := earlier + [c];
    forall k | k in seen + {CheckKey(c)}
      ensures exists i :: 0 <= i < |all| && CheckKey(all[i]) == k
    {
      if k in seen {
        var i :| 0 <= i < |earlier| && CheckKey(earlier[i]) == k;
        assert CheckKey(all[i]) == k;
      } else {
        assert CheckKey(all[|earlier|]) == k;
      }
    }
  }

  /** A list of checks is refused exactly when one of them repeats an earlier one. */
  lemma {:induction false} RefusedExactlyWhenRepeated(seen: set<string>, earlier: seq<Check>, checks: seq<Check>)
    requires Noted(seen, earlier) && NoRepeats(earlier) && KnownKinds(earlier + checks)
    ensures NoteChecks(seen, checks).None? <==> !NoRepeats(earlier + checks)
    decreases checks
  {
    if checks == [] {
      assert earlier + checks == earlier;
    } else {
      var c, all := checks[0], earlier + checks;
      assert all[|earlier|] == c;
      assert KnownKinds(earlier) by {
        assert forall i :: 0 <= i < |earlier| ==> earlier[i] == all[i];
      }
      SeenMeansAsked(seen, earlier, c);
      if c in earlier {
        var i :| 0 <= i < |earlier| && earlier[i] == c;
        assert all[i] == all[|earlier|];
      } else {
        AppendNoted(seen, earlier, c);
        assert (earlier + [c]) + checks[1..] == all;
        RefusedExactlyWhenRepeated(seen + {CheckKey(c)}, earlier + [c], checks[1..]);
      }
    }
  }

  // ---------------------------------------------------------------- what each call is shown

  /** Call `i` of a trace whose first call is round `first` is shown only what belongs to its snapshot. */
  predicate Shown(w: World, t: Trace, first: nat, i: nat)
    requires i < |t.calls|
  {
    && t.calls[i].phase == Phase(first + i)
    && (i > 0 && t.calls[i].tentative.Some? ==>
          && t.calls[i - 1].shown == t.calls[i].shown
          && w.answer(first + i - 1) == Parsed(t.calls[i].tentative.value))
  }

  /**
   A tentative conclusion is shown only if the previous call formed it on the very same snapshot;
   the run ends on the snapshot shown last, in the environment it started in.
   */
  lemma {:induction false} TentativeStaysOnItsSnapshot(w: World, settled: Rule, take: Turns, round: nat, state: Snapshot,
                                                       tentative: Option<Conclusion>, seen: set<string>, last: Assessment, at: Time)
    requires Lawful(w, settled, take) && 1 <= round <= 4
    ensures var t := Explore(take, round, state, tentative, seen, last, at);
            && (round < 4 ==> t.calls != [] && t.calls[0] == Call(Phase(round), state, tentative))
            && (forall i :: 0 <= i < |t.calls| ==> Shown(w, t, round, i))
            && t.final == (if t.calls == [] then state else t.calls[|t.calls| - 1].shown)
            && (forall i :: 0 <= i < |t.calls| ==> t.calls[i].shown.environment == state.environment)
            && t.final.environment == state.environment
    decreases 4 - round
  {
    if round < 4 {
      var turn := take(round, state, seen, at);
      assert LawfulTurn(w, settled, round, state, seen, turn);
      if turn.Go? {
        TentativeStaysOnItsSnapshot(w, settled, take, round + 1, turn.state, turn.tentative, turn.seen, turn.assessment, turn.at);
        var rest := Explore(take, round + 1, turn.state, turn.tentative, turn.seen, turn.assessment, turn.at);
        var t := Explore(take, round, state, tentative, seen, last, at);
        assert t.calls == [Call(Phase(round), state, tentative)] + rest.calls;
        assert turn.tentative.Some? ==> turn.state == state && w.answer(round) == Parsed(turn.tentative.value);
        forall i | 0 <= i < |t.calls|
          ensures Shown(w, t, round, i) && t.calls[i].shown.environment == state.environment
        {
          if i > 0 {
            assert t.calls[i] == rest.calls[i - 1] && Shown(w, rest, round + 1, i - 1);
          }
        }
      }
    }
  }

  // ---------------------------------------------------------------- what the result means

  /** Without an error the result is settled on the final snapshot, and a hypothesis took every round. */
  lemma {:induction false} ResultIsSettled(w: World, settled: Rule, take: Turns, round: nat, state: Snapshot,
                                           tentative: Option<Conclusion>, seen: set<string>, last: Assessment, at: Time)
    requires Lawful(w, settled, take) && 1 <= round <= 4
    requires round == 4 ==> settled(last, state, at)
    requires last.status != Corroborated
    ensures Explore(take, round, state, tentative, seen, last, at).assessment.status != Corroborated
    ensures var t := Explore(take, round, state, tentative, seen, last, at);
            t.error.None? ==>
              && settled(t.assessment, t.final, t.assessedAt)
              && (t.assessment.status == Hypothesis ==>
                    && |t.calls| == 4 - round
                    && (round < 4 ==> w.answer(3) == Parsed(t.assessment.conclusion) && t.assessedAt == w.clock(3)))
    decreases 4 - round
  {
    if round < 4 {
      var turn := take(round, state, seen, at);
      assert LawfulTurn(w, settled, round, state, seen, turn);
      if turn.Go? {
        ResultIsSettled(w, settled, take, round + 1, turn.state, turn.tentative, turn.seen, turn.assessment, turn.at);
      }
    }
  }

  /** A whole run, whatever the provider, the refresh and the clock do. */
  lemma DiagnosisIsBounded(hasRunner: bool, w: World, state: Snapshot)
    ensures var t := Diagnose(hasRunner, w, state);
            && |t.calls| <= 3 && |t.refreshes| <= 2 && |t.rounds| == |t.calls|
            && NoRepeats(Asked(t.refreshes))
            && (forall i :: 0 <= i < |t.calls| ==> Shown(w, t, 1, i))
            && (t.calls != [] ==> t.calls[0].tentative == None && t.calls[0].shown == state)
            && t.final.environment == state.environment
  {
    if hasRunner {
      TurnsAreLawful(w);
      CallsAreBounded(w, Settled, TurnsIn(w), 1, state, None, {}, START, 0);
      NoCheckAskedTwice(w, Settled, TurnsIn(w), 1, state, None, {}, START, 0);
      TentativeStaysOnItsSnapshot(w, Settled, TurnsIn(w), 1, state, None, {}, START, 0);
    }
  }

  /** A hypothesis is returned only after three calls, judged by the rubric on the snapshot returned with it. */
  lemma HypothesisIsEarned(hasRunner: bool, w: World, state: Snapshot)
    ensures var t := Diagnose(hasRunner, w, state);
            && t.assessment.status != Corroborated
            && (t.error.None? && t.assessment.status == Hypothesis ==>
                  && |t.calls| == 3
                  && t.final == t.calls[2].shown
                  && w.answer(3) == Parsed(t.assessment.conclusion)
                  && Assess(t.assessment.conclusion, t.final.evidence, w.clock(3)) == Ok(t.assessment))
  {
    if hasRunner {
      TurnsAreLawful(w);
      ResultIsSettled(w, Settled, TurnsIn(w), 1, state, None, {}, START, 0);
      TentativeStaysOnItsSnapshot(w, Settled, TurnsIn(w), 1, state, None, {}, START, 0);
    }
  }

  // ---------------------------------------------------------------- the orchestrator's judgement

  lemma SettledIsAccepted(t: Trace)
    requires t.error.None? && |t.rounds| <= 3 && Settled(t.assessment, t.final, t.assessedAt)
    ensures ValidateAgentResult(t.rounds, t.assessment, t.final, t.assessedAt) == Ok(t.assessment)
  {
  }

  lemma LawfulResultAccepted(w: World, take: Turns, state: Snapshot)
    requires Lawful(w, Settled, take)
    ensures var t := Explore(take, 1, state, None, {}, START, 0);
            t.error.None? ==> ValidateAgentResult(t.rounds, t.assessment, t.final, t.assessedAt) == Ok(t.assessment)
  {
    var t := Explore(take, 1, state, None, {}, START, 0);
    CallsAreBounded(w, Settled, take, 1, state, None, {}, START, 0);
    ResultIsSettled(w, Settled, take, 1, state, None, {}, START, 0);
    if t.error.None? {
      SettledIsAccepted(t);
    }
  }

  /** Every error-free result, judged again on its final snapshot at the same instant, is accepted unchanged. */
  lemma HonestResultAccepted(hasRunner: bool, w: World, state: Snapshot)
    ensures var t := Diagnose(hasRunner, w, state);
            t.error.None? ==> ValidateAgentResult(t.rounds, t.assessment, t.final, t.assessedAt) == Ok(t.assessment)
  {
    if hasRunner {
      TurnsAreLawful(w);
      LawfulResultAccepted(w, TurnsIn(w), state);
    }
  }

  /** Whatever was submitted, certainty comes only from the rubric on the stored evidence. */
  lemma CertaintyCannotBeClaimed(rounds: seq<Round>, submitted: Assessment, state: Snapshot, at: Time, a: Assessment)
    requires ValidateAgentResult(rounds, submitted, state, at) == Ok(a)
    ensures a.status != Corroborated
    ensures a.status == Hypothesis ==> Assess(submitted.conclusion, state.evidence, at) == Ok(a)
    ensures a.status == Hypothesis ==> SupportsHypothesis(submitted.conclusion, state.evidence, at)
  {
    HypothesisExactly(submitted.conclusion, state.evidence, at);
  }

  /** The submitted status and reason of a result with a conclusion change nothing. */
  lemma ClaimedStatusIgnored(rounds: seq<Round>, a: Assessment, b: Assessment, state: Snapshot, at: Time)
    requires a.conclusion == b.conclusion && (a.conclusion == NO_CONCLUSION ==> a.reason == b.reason)
    ensures ValidateAgentResult(rounds, a, state, at) == ValidateAgentResult(rounds, b, state, at)
  {
  }

  /** The snapshot of a call had at most 64 items, and its telemetry was in range. */
  predicate SmallCall(w: World, c: Call, number: nat) {
    |c.shown.evidence| <= 64 && TelemetryAllowed(w.latency(number), ToldUsage(w.usage(number)))
  }

  predicate Recordable(w: World, t: Trace) {
    forall i :: 0 <= i < |t.calls| ==> SmallCall(w, t.calls[i], i + 1)
  }

  /** A round tells the number of its call, the size of what that was shown and its telemetry. */
  predicate Describes(w: World, r: Round, c: Call, number: nat) {
    && r.number == number && r.evidenceCount == |c.shown.evidence| && r.checksRequested <= 2
    && r.latency == w.latency(number) && r.usage == ToldUsage(w.usage(number))
  }

  predicate Described(w: World, t: Trace, first: nat) {
    |t.rounds| == |t.calls| && forall i :: 0 <= i < |t.calls| ==> Describes(w, t.rounds[i], t.calls[i], first + i)
  }

  lemma {:induction false} RoundsDescribeCalls(w: World, settled: Rule, take: Turns, round: nat, state: Snapshot,
                                               tentative: Option<Conclusion>, seen: set<string>, last: Assessment, at: Time)
    requires Lawful(w, settled, take) && 1 <= round <= 4
    ensures Described(w, Explore(take, round, state, tentative, seen, last, at), round)
    decreases 4 - round
  {
    if round < 4 {
      var turn := take(round, state, seen, at);
      assert LawfulTurn(w, settled, round, state, seen, turn);
      if turn.Go? {
        RoundsDescribeCalls(w, settled, take, round + 1, turn.state, turn.tentative, turn.seen, turn.assessment, turn.at);
        var rest := Explore(take, round + 1, turn.state, turn.tentative, turn.seen, turn.assessment, turn.at);
        var t := Explore(take, round, state, tentative, seen, last, at);
        forall i | 0 <= i < |t.calls|
          ensures Describes(w, t.rounds[i], t.calls[i], round + i)
        {
          if i > 0 {
            assert t.calls[i] == rest.calls[i - 1] && t.rounds[i] == rest.rounds[i - 1];
            assert Describes(w, rest.rounds[i - 1], rest.calls[i - 1], round + 1 + (i - 1));
          }
        }
      }
    }
  }

  lemma RecordedWhenSmall(w: World, t: Trace, a: Assessment)
    requires Described(w, t, 1)
    ensures RecordRounds(t.rounds, a).Ok? <==> Recordable(w, t)
    ensures Recordable(w, t) ==>
              forall i :: 0 <= i < |t.rounds| ==>
                RecordRounds(t.rounds, a).value[i] == t.rounds[i].(status := a.status, reason := a.reason)
  {
    forall i | 0 <= i < |t.rounds|
      ensures RoundAllowed(t.rounds[i]) <==> SmallCall(w, t.calls[i], i + 1)
    {
      assert Describes(w, t.rounds[i], t.calls[i], 1 + i);
    }
  }

  /** A run's rounds are recorded exactly when no snapshot exceeded 64 items and all telemetry was in range,
      each under the number it already had. */
  lemma HonestRoundsRecorded(hasRunner: bool, w: World, state: Snapshot, a: Assessment)
    ensures var t := Diagnose(hasRunner, w, state);
            && (RecordRounds(t.rounds, a).Ok? <==> Recordable(w, t))
            && (Recordable(w, t) ==>
                  forall i :: 0 <= i < |t.rounds| ==>
                    RecordRounds(t.rounds, a).value[i] == t.rounds[i].(status := a.status, reason := a.reason))
  {
    if hasRunner {
      TurnsAreLawful(w);
      RoundsDescribeCalls(w, Settled, TurnsIn(w), 1, state, None, {}, START, 0);
    }
    RecordedWhenSmall(w, Diagnose(hasRunner, w, state), a);
  }
}
