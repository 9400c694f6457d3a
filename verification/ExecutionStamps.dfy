/**
 The stamp of a claim: it is taken after the checks, so the deadlines bound it exactly when none of them
 falls between the two.
 */
module ExecutionStamps {
  import opened Wrappers
  import opened Clock
  import opened Observations
  import opened Execution
  import opened ExecutionRuns
  import opened ExecutionTheorems

  // ---------------------------------------------------------------- when a claim is stamped in time

  function Earlier(a: Time, b: Time): Time {
    if a < b then a else b
  }

  /** The claim begins at `t` and all its clock readings lie within `d`. */
  predicate Spans(env: Env, t: Time, d: int) {
    Sane(env) && env.authAt == t && env.stampAt <= t + d
  }

  /** Before the approval's expiry and before each of the five deadlines folded into the plan. */
  ghost predicate InTime(proposal: Entry, a: Action, at: Time)
    requires Legit(proposal) && proposal.before.None? && a.approvalExpiresAt.Some?
  {
    at < a.approvalExpiresAt.value && forall d :: d in PlanDeadlines(proposal) ==> at < d
  }

  lemma InTimeIsEarlier(proposal: Entry, a: Action, at: Time)
    requires Legit(proposal) && proposal.before.None? && a.approvalExpiresAt.Some? && a.plan == proposal.after.action.plan
    ensures InTime(proposal, a, at) <==> at < Earlier(a.approvalExpiresAt.value, a.plan.expiresAt)
  {
    PlanExpiresFirst(proposal);
  }

  /** What the world shows an executor whose claim is due, with the stamp taken at `stamp`. */
  function DueEnv(plan: Plan, t: Time, stamp: Time): Env {
    var x := Agent(plan.executorId, "EXECUTOR", "sre-execution", plan.epoch, plan.executorGeneration, "", t + 1, false);
    Env(true, true, plan.epoch, plan.policyVersion, None, Some(true), Some(ItemHead(plan.evidence.version, plan.evidenceHash)),
        Some(x), None, Some(x), t, t, t, t, t, t, stamp, plan.id, "", None)
  }

  lemma DueClaimSucceeds(db: Db, id: string, t: Time, stamp: Time)
    requires ValidIdentifier(id) && id in db.actions && t <= stamp
    requires var a := db.actions[id].action;
             && a.state == Approved && a.approvedBy != "" && a.approvalExpiresAt.Some? && a.hash == HashOf(a.plan) && a.plan.id == id
             && t < Earlier(a.approvalExpiresAt.value, a.plan.expiresAt) && a.version > 0
    ensures var (_, result) := Transact(db, Claim(id), DueEnv(db.actions[id].action.plan, t, stamp));
            result.Ok? && result.value.submittedAt == Some(stamp)
  {
  }

  lemma ClaimSucceedsBefore(db: Db, id: string, env: Env)
    requires id in db.actions && Ordered(env)
    ensures var (_, result) := Transact(db, Claim(id), env);
            var a := db.actions[id].action;
            result.Ok? ==>
              && a.approvalExpiresAt.Some? && env.authAt < Earlier(a.approvalExpiresAt.value, a.plan.expiresAt)
              && result.value.submittedAt == Some(env.stampAt)
  {
  }

  /**
   Every claim of an approved action that begins at `t` and reads its clocks within `d` is stamped in time,
   if and only if the earlier of approval expiry and plan expiry does not fall within that span.
   */
  lemma StampedInTimeExactly(run: seq<Sys>, i: nat, id: string, t: Time, d: int)
    requires IsRun(run) && i < |run| && id in run[i].db.actions && run[i].db.actions[id].action.state == Approved
    ensures var a, h := run[i].db.actions[id].action, History(run[i].log, id);
            && h != [] && Legit(h[0]) && h[0].before.None? && a.approvalExpiresAt.Some?
            && var m := Earlier(a.approvalExpiresAt.value, a.plan.expiresAt);
               (forall env :: Spans(env, t, d) && Transact(run[i].db, Claim(id), env).1.Ok? ==>
                  && Transact(run[i].db, Claim(id), env).1.value.submittedAt.Some?
                  && InTime(h[0], a, Transact(run[i].db, Claim(id), env).1.value.submittedAt.value))
               <==> !(t < m <= t + d)
  {
    var db, a, h := run[i].db, run[i].db.actions[id].action, History(run[i].log, id);
    ApprovedHasItsProposal(run, i, id);
    var m := Earlier(a.approvalExpiresAt.value, a.plan.expiresAt);
    forall env | Spans(env, t, d) && Transact(db, Claim(id), env).1.Ok?
      ensures Transact(db, Claim(id), env).1.value.submittedAt == Some(env.stampAt) && t < m
      ensures InTime(h[0], a, env.stampAt) <==> env.stampAt < m
    {
      ClaimSucceedsBefore(db, id, env);
      InTimeIsEarlier(h[0], a, env.stampAt);
    }
    if t < m <= t + d {
      var env := DueEnv(a.plan, t, m);
      DueClaimSucceeds(db, id, t, m);
      assert Spans(env, t, d) && Transact(db, Claim(id), env).1.Ok?;
    }
  }

  lemma ApprovedHasItsProposal(run: seq<Sys>, i: nat, id: string)
    requires IsRun(run) && i < |run| && id in run[i].db.actions
    ensures var a, h := run[i].db.actions[id].action, History(run[i].log, id);
            && h != [] && Legit(h[0]) && h[0].before.None? && a.plan == h[0].after.action.plan
            && ValidIdentifier(id) && a.plan.id == id && a.hash == HashOf(a.plan) && a.version > 0
            && (a.state == Approved ==> a.approvalExpiresAt.Some? && a.approvedBy != "")
  {
    RecordOf(run, i, id);
    HistoryOf(run, i, id);
    var h := History(run[i].log, id);
    StoredIsProposed(h, id);
    HistoryShape(h, id, |h| - 1);
  }

  // ---------------------------------------------------------------- a run in which it is not

  lemma Extend(run: seq<Sys>, step: Step) returns (longer: seq<Sys>)
    requires IsRun(run) && Enabled(run[|run| - 1], step)
    ensures IsRun(longer) && longer[|longer| - 1] == Apply(run[|run| - 1], step)
  {
    longer := run + [Apply(run[|run| - 1], step)];
    forall i | 0 <= i < |longer| - 1
      ensures Next(longer[i], longer[i + 1])
    {
      if i < |run| - 1 {
        assert Next(run[i], run[i + 1]);
      } else {
        assert Enabled(run[|run| - 1], step) && longer[i + 1] == Apply(run[|run| - 1], step);
      }
    }
  }

  /** A transaction that nothing interleaves with is a run of its read and its save. */
  lemma TransactRuns(run: seq<Sys>, j: nat, op: Op, env: Env) returns (longer: seq<Sys>)
    requires IsRun(run) && j !in run[|run| - 1].jobs && Sane(env)
    ensures IsRun(longer)
    ensures var s, s' := run[|run| - 1], longer[|longer| - 1];
            && s'.db == Transact(s.db, op, env).0
            && s'.jobs == s.jobs[j := Finished(op, Transact(s.db, op, env).1)]
  {
    var s := run[|run| - 1];
    var r1 := Extend(run, Call(j, op));
    longer := Extend(r1, Read(j, env));
    var s2 := longer[|longer| - 1];
    if s2.jobs[j].Deciding? {
      longer := Extend(longer, SaveStep(j));
    }
    assert longer[|longer| - 1].jobs == s.jobs[j := Finished(op, Transact(s.db, op, env).1)];
  }

  const WITNESS_EXECUTOR := Agent("x", "EXECUTOR", "sre-execution", "epoch", 1, "cluster", 10, false)

  const WITNESS_HANDLE := "00000000000000000000000000000000"

  const WITNESS_ITEM := Item(ItemRef("e", 1), true, "i", "h", 10,
    Some(Observation(CrashLoop, WITNESS_HANDLE, 1, 10, Some(Target("Pod", "uid", "1", "c")), Some(Source("s", 1)), true)))

  /** The world at time 0, with the stamp taken at `stamp`. */
  function WitnessEnv(stamp: Time): Env {
    Env(true, true, "epoch", "policy", Some(WITNESS_ITEM), Some(true), Some(ItemHead(1, "h")), Some(WITNESS_EXECUTOR),
        Some(WITNESS_EXECUTOR), Some(WITNESS_EXECUTOR), 0, 0, 0, 0, 0, 0, stamp, "a", "t", None)
  }

  const WITNESS_PLAN := Plan("a", "i", "REPLACE_POD", ItemRef("e", 1), "h", WITNESS_HANDLE, "c", "s", 1, "x", 1, "epoch", "policy", 10)

  const WITNESS_PROPOSAL := Propose("i", "REPLACE_POD", ItemRef("e", 1), "h", "x", Principal("p", 10))

  const WITNESS_APPROVAL := Approve("a", HashOf(WITNESS_PLAN), Principal("q", 10))

  lemma WitnessExpires()
    ensures ActionableObservation(WITNESS_ITEM.observation.value)
    ensures ProposedPlan(WITNESS_PROPOSAL, WitnessEnv(0)) == WITNESS_PLAN
  {
    var deadlines := ProposalDeadlines(WITNESS_ITEM, WITNESS_ITEM.observation.value, WITNESS_EXECUTOR, WITNESS_EXECUTOR);
    assert forall d :: d in deadlines ==> d == 10;
    assert deadlines[0] in deadlines;
    assert Earliest(PROPOSAL_WINDOW, deadlines) == 10;
  }

  lemma WitnessIsDecided()
    ensures var a := Action(WITNESS_PLAN, HashOf(WITNESS_PLAN), 1, Proposed, "p", "", None, 0, None, None, None, "");
            DecidePropose(WITNESS_PROPOSAL, WitnessEnv(0)) == Ok(Save(Record(a, NoToken), 0))
  {
    WitnessExpires();
  }

  lemma WitnessProposes()
    ensures var (db, result) := Transact(Db(map[], []), WITNESS_PROPOSAL, WitnessEnv(0));
            result.Ok? && db.actions == map["a" := Record(result.value, NoToken)]
            && result.value == Action(WITNESS_PLAN, HashOf(WITNESS_PLAN), 1, Proposed, "p", "", None, 0, None, None, None, "")
  {
    WitnessIsDecided();
    assert Gate(WITNESS_PROPOSAL, WitnessEnv(0)) == Ok(());
  }

  lemma WitnessApproves(db: Db, a: Action)
    requires "a" in db.actions && db.actions["a"] == Record(a, NoToken)
    requires a == Action(WITNESS_PLAN, HashOf(WITNESS_PLAN), 1, Proposed, "p", "", None, 0, None, None, None, "")
    ensures var (db', result) := Transact(db, WITNESS_APPROVAL, WitnessEnv(0));
            result.Ok? && "a" in db'.actions && db'.actions["a"].action == result.value
            && result.value == a.(state := Approved, approvedBy := "q", approvalExpiresAt := Some(10), version := 2)
  {
  }

  /** A run in which an action is proposed, approved and claimed, and stamped at the very deadline of its plan. */
  lemma StampMayPassTheDeadline()
    ensures exists run: seq<Sys> :: IsRun(run) && "a" in run[|run| - 1].db.actions &&
              var a := run[|run| - 1].db.actions["a"].action;
              a.state == Submitted && a.submittedAt == Some(a.plan.expiresAt) == a.approvalExpiresAt
  {
    var start := Sys(Db(map[], []), [], map[]);
    var r0 := [start];
    WitnessProposes();
    var r1 := TransactRuns(r0, 0, WITNESS_PROPOSAL, WitnessEnv(0));
    var db1 := r1[|r1| - 1].db;
    WitnessApproves(db1, db1.actions["a"].action);
    var r2 := TransactRuns(r1, 1, WITNESS_APPROVAL, WitnessEnv(0));
    var db2 := r2[|r2| - 1].db;
    DueClaimSucceeds(db2, "a", 0, 10);
    WitnessClaims(db2);
    var r3 := TransactRuns(r2, 2, Claim("a"), DueEnv(WITNESS_PLAN, 0, 10));
    assert IsRun(r3);
  }

  lemma WitnessClaims(db: Db)
    requires "a" in db.actions && Transact(db, Claim("a"), DueEnv(WITNESS_PLAN, 0, 10)).1.Ok?
    requires db.actions["a"].action.plan == WITNESS_PLAN && db.actions["a"].action.approvalExpiresAt == Some(10)
    ensures var db' := Transact(db, Claim("a"), DueEnv(WITNESS_PLAN, 0, 10)).0;
            "a" in db'.actions && var a := db'.actions["a"].action;
            a.state == Submitted && a.submittedAt == Some(10) == a.approvalExpiresAt && a.plan == WITNESS_PLAN
  {
  }
}
