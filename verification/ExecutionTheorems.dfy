/**
 What every run of the action protocol promises: fixed plans, one path through the states, one
 claim under the approval and deadlines it was planned with, one ending.
 */
module ExecutionTheorems {
  import opened Wrappers
  import opened Clock
  import opened Observations
  import opened Execution
  import opened ExecutionRuns

  // ---------------------------------------------------------------- one transition

  /** The state graph of the protocol. */
  predicate Follows(before: ActionState, after: ActionState) {
    match before
    case Proposed => after == Approved || after == Cancelled
    case Approved => after == Submitted || after == Cancelled
    case Submitted => after == Applied || after == Failed || after == Ambiguous
    case _ => false
  }

  /** The position of a state on its path; every history is at most four long. */
  function Depth(state: ActionState): nat {
    match state
    case Proposed => 0
    case Approved => 1
    case Submitted => 2
    case _ => 3
  }

  predicate Terminal(state: ActionState) {
    Depth(state) == 3
  }

  lemma FollowingSave(e: Entry)
    requires Legit(e) && e.before.Some? && e.after.action.version > 1
    ensures !e.op.Propose?
    ensures e.after.action.plan == e.before.value.action.plan && e.after.action.hash == e.before.value.action.hash
    ensures Follows(e.before.value.action.state, e.after.action.state)
  {
  }

  lemma FirstSave(e: Entry)
    requires Legit(e) && e.before.None?
    ensures e.op.Propose? && e.after.action.state == Proposed && e.after.action.hash == HashOf(e.after.action.plan)
    ensures e.after.action.plan.epoch == e.env.epoch && e.after.action.plan.policyVersion == e.env.policyVersion
  {
  }

  /** State, outcome, times and token of a record agree. */
  predicate Agrees(r: Record) {
    var a := r.action;
    && (a.outcome.Some? <==> a.state == Applied || a.state == Failed || a.state == Ambiguous)
    && (a.state == Applied <==> a.outcome == Some(OutcomeApplied))
    && (a.state == Failed <==> a.outcome == Some(PreconditionFailed) || a.outcome == Some(Denied))
    && (a.state == Ambiguous <==> a.outcome == Some(OutcomeAmbiguous))
    && (a.reconciledBy != "" ==> a.state == Ambiguous)
    && (a.submittedAt.Some? <==> a.state == Submitted || a.outcome.Some?)
    && (a.completedAt.Some? <==> Terminal(a.state))
    && (r.token.TokenHashOf? <==> a.submittedAt.Some?)
    && (a.state == Approved || a.submittedAt.Some? ==> a.approvalExpiresAt.Some? && a.approvedBy != "")
    && (a.state == Proposed ==> a.approvalExpiresAt.None? && a.approvedBy == "")
  }

  lemma FirstSaveAgrees(e: Entry)
    requires Legit(e) && e.before.None?
    ensures Agrees(e.after)
  {
  }

  lemma FollowingSaveAgrees(e: Entry)
    requires Legit(e) && e.before.Some? && Agrees(e.before.value)
    ensures Agrees(e.after)
  {
  }

  // ---------------------------------------------------------------- one history

  /** Along a history plan and hash are fixed, states follow the graph and records agree. */
  lemma {:induction false} HistoryShape(h: seq<Entry>, id: string, k: nat)
    requires Chain(h, id) && k < |h|
    ensures h[k].after.action.plan == h[0].after.action.plan && h[k].after.action.hash == HashOf(h[0].after.action.plan)
    ensures k == 0 ==> h[k].after.action.state == Proposed
    ensures k > 0 ==> Follows(h[k - 1].after.action.state, h[k].after.action.state)
    ensures Depth(h[k].after.action.state) >= k && (!Terminal(h[k].after.action.state) ==> Depth(h[k].after.action.state) == k)
    ensures Agrees(h[k].after)
  {
    assert Link(h, k, id, Legit);
    if k == 0 {
      FirstSave(h[0]);
      FirstSaveAgrees(h[0]);
    } else {
      HistoryShape(h, id, k - 1);
      FollowingSave(h[k]);
      FollowingSaveAgrees(h[k]);
    }
  }

  /** Nothing follows a terminal record. */
  lemma TerminalIsLast(h: seq<Entry>, id: string, k: nat)
    requires Chain(h, id) && k < |h| && Terminal(h[k].after.action.state)
    ensures k == |h| - 1
  {
    if k + 1 < |h| {
      HistoryShape(h, id, k + 1);
    }
  }

  /** The saves that can lead to a state. */
  lemma SavedBy(e: Entry)
    requires Legit(e)
    ensures e.op.Claim? <==> e.after.action.state == Submitted
    ensures e.op.Approve? <==> e.after.action.state == Approved
    ensures e.op.Cancel? <==> e.after.action.state == Cancelled
    ensures e.op.Reconcile? ==> e.after.action.state == Ambiguous && e.after.action.reconciledBy == e.op.reconciler.id != ""
    ensures e.op.Receipt? ==> e.after.action.outcome == Some(e.op.outcome)
  {
  }

  /** The deadlines folded into a plan when it was proposed. */
  function PlanDeadlines(e: Entry): seq<Time>
    requires Legit(e) && e.before.None?
  {
    var item := e.env.item.value;
    [e.env.windowAt + PROPOSAL_WINDOW, item.validUntil, item.observation.value.validUntil,
     e.env.source.value.expiresAt, e.env.executor.value.expiresAt]
  }

  lemma PlanExpiresFirst(e: Entry)
    requires Legit(e) && e.before.None?
    ensures forall d :: d in PlanDeadlines(e) ==> e.after.action.plan.expiresAt <= d
    ensures e.after.action.plan.expiresAt in PlanDeadlines(e)
  {
    var item := e.env.item.value;
    var deadlines := ProposalDeadlines(item, item.observation.value, e.env.source.value, e.env.executor.value);
    assert PlanDeadlines(e) == [e.env.windowAt + PROPOSAL_WINDOW] + deadlines;
  }

  /** A claim's own checks. */
  lemma ClaimChecks(e: Entry)
    requires Legit(e) && e.op.Claim? && e.before.Some?
    ensures var b := e.before.value.action;
            && b.state == Approved && b.approvedBy != ""
            && b.approvalExpiresAt.Some? && e.env.approvalAt < b.approvalExpiresAt.value
            && e.env.planAt < b.plan.expiresAt
            && e.env.caller.Some? && e.env.caller.value.id == b.plan.executorId
            && e.env.caller.value.generation == b.plan.executorGeneration
            && !e.env.caller.value.revoked && e.env.authAt < e.env.caller.value.expiresAt
            && e.env.epoch == b.plan.epoch && e.env.policyVersion == b.plan.policyVersion
            && e.after.token == TokenOf(e.env.freshToken)
  {
  }

  lemma ApprovalChecks(e: Entry)
    requires Legit(e) && e.op.Approve? && e.before.Some?
    ensures e.op.hash == e.before.value.action.hash
    ensures e.after.action.approvalExpiresAt == Some(e.op.approver.expiresAt)
    ensures e.after.action.approvedBy == e.op.approver.id
  {
  }

  /**
   The whole story behind a claim: third in its history, after the proposal and an approval of the
   same hash; by the planned executor generation, under the epoch and policy pinned at proposal;
   checked strictly before the approval's expiry and before each of the five planned deadlines.
   */
  ghost predicate ClaimStory(h: seq<Entry>) {
    && |h| >= 3 && h[0].op.Propose? && h[1].op.Approve? && h[2].op.Claim?
    && Legit(h[0]) && h[0].before.None?
    && var plan := h[0].after.action.plan;
       && h[1].op.hash == HashOf(plan) && h[2].after.action.plan == plan
       && h[2].env.approvalAt < h[1].op.approver.expiresAt
       && (forall d :: d in PlanDeadlines(h[0]) ==> h[2].env.planAt < d)
       && h[2].env.caller.Some?
       && h[2].env.caller.value.id == plan.executorId && h[2].env.caller.value.generation == plan.executorGeneration
       && h[2].env.epoch == plan.epoch == h[0].env.epoch
       && h[2].env.policyVersion == plan.policyVersion == h[0].env.policyVersion
       && h[2].after.token == TokenOf(h[2].env.freshToken)
  }

  lemma ClaimPosition(h: seq<Entry>, id: string, k: nat)
    requires Chain(h, id) && k < |h| && h[k].op.Claim?
    ensures k == 2 && h[0].op.Propose? && h[1].op.Approve?
  {
    assert Link(h, k, id, Legit);
    SavedBy(h[k]);
    HistoryShape(h, id, k);
    assert Link(h, 1, id, Legit);
    HistoryShape(h, id, 1);
    SavedBy(h[1]);
    assert Link(h, 0, id, Legit);
    FirstSave(h[0]);
  }

  lemma ClaimHasItsStory(h: seq<Entry>, id: string, k: nat)
    requires Chain(h, id) && k < |h| && h[k].op.Claim?
    ensures k == 2 && ClaimStory(h)
  {
    ClaimPosition(h, id, k);
    assert Link(h, 0, id, Legit) && Link(h, 1, id, Legit) && Link(h, 2, id, Legit);
    HistoryShape(h, id, 0);
    HistoryShape(h, id, 1);
    HistoryShape(h, id, 2);
    FirstSave(h[0]);
    PlanExpiresFirst(h[0]);
    ApprovalChecks(h[1]);
    ClaimChecks(h[2]);
  }

  // ---------------------------------------------------------------- events

  /** The outbox reports exactly the states of the history. */
  lemma {:induction false} ReportedStates(log: seq<Entry>, outbox: seq<Event>, id: string)
    requires |outbox| == |log| && forall i :: 0 <= i < |log| ==> outbox[i] == EventOf(log[i].after.action)
    ensures Reported(outbox, id) == States(History(log, id))
  {
    if log != [] {
      ReportedStates(log[..|log| - 1], outbox[..|outbox| - 1], id);
    }
  }

  ghost predicate Path(states: seq<ActionState>) {
    && (states != [] ==> states[0] == Proposed)
    && forall k :: 0 < k < |states| ==> Follows(states[k - 1], states[k])
  }

  /** The store of a reachable state holds the last record of an action's history. */
  lemma HistoryOf(run: seq<Sys>, i: nat, id: string)
    requires IsRun(run) && i < |run|
    ensures Stored(run[i], id)
  {
    RunKeepsInv(run, i);
  }

  lemma OutboxTells(run: seq<Sys>, i: nat)
    requires IsRun(run) && i < |run|
    ensures |run[i].db.outbox| == |run[i].log|
    ensures forall k :: 0 <= k < |run[i].log| ==> run[i].db.outbox[k] == EventOf(run[i].log[k].after.action)
  {
    RunKeepsInv(run, i);
  }

  /**
   In every reachable state, the ACTION_UPDATED events of an action are one path through the state
   graph, as many as its version, ending in its state; and its record agrees with itself.
   */
  lemma EventsTellTheHistory(run: seq<Sys>, i: nat, id: string)
    requires IsRun(run) && i < |run|
    ensures Path(Reported(run[i].db.outbox, id))
    ensures id !in run[i].db.actions ==> Reported(run[i].db.outbox, id) == []
    ensures id in run[i].db.actions ==>
              var r, told := run[i].db.actions[id], Reported(run[i].db.outbox, id);
              && |told| == r.action.version
              && 0 < |told| <= 4
              && told[|told| - 1] == r.action.state
              && r.action.plan.id == id && r.action.hash == HashOf(r.action.plan)
              && Agrees(r)
  {
    HistoryOf(run, i, id);
    OutboxTells(run, i);
    var s := run[i];
    var h := History(s.log, id);
    ReportedStates(s.log, s.db.outbox, id);
    forall k | 0 <= k < |h|
      ensures k == 0 ==> h[k].after.action.state == Proposed
      ensures k > 0 ==> Follows(h[k - 1].after.action.state, h[k].after.action.state)
    {
      HistoryShape(h, id, k);
    }
    if h != [] {
      HistoryShape(h, id, |h| - 1);
      VersionsCount(h, |h| - 1, id, Legit);
    }
  }

  // ---------------------------------------------------------------- what later states keep

  lemma {:induction false} LogGrows(run: seq<Sys>, i: nat, j: nat)
    requires IsRun(run) && i <= j < |run|
    ensures run[i].log <= run[j].log
  {
    if i < j {
      LogGrows(run, i, j - 1);
      assert Next(run[j - 1], run[j - 1 + 1]);
      var step :| Enabled(run[j - 1], step) && run[j] == Apply(run[j - 1], step);
      assert run[j - 1].log <= run[j].log;
    }
  }

  lemma {:induction false} HistoryPrefix(log: seq<Entry>, log': seq<Entry>, id: string)
    requires log <= log'
    ensures History(log, id) <= History(log', id)
  {
    if |log| < |log'| {
      var shorter := log'[..|log'| - 1];
      assert log <= shorter;
      HistoryPrefix(log, shorter, id);
    } else {
      assert log == log';
    }
  }

  /** Two records of one history. */
  lemma LaterRecord(h: seq<Entry>, id: string, m: nat, n: nat)
    requires Chain(h, id) && m <= n < |h|
    ensures var a, b := h[m].after.action, h[n].after.action;
            a.plan == b.plan && a.hash == b.hash && a.version <= b.version && (Terminal(a.state) ==> m == n)
  {
    HistoryShape(h, id, m);
    HistoryShape(h, id, n);
    VersionsCount(h, m, id, Legit);
    VersionsCount(h, n, id, Legit);
    if Terminal(h[m].after.action.state) {
      TerminalIsLast(h, id, m);
    }
  }

  lemma StoredLater(s: Sys, s': Sys, id: string)
    requires Stored(s, id) && Stored(s', id) && s.log <= s'.log && id in s.db.actions
    ensures id in s'.db.actions
    ensures var h' := History(s'.log, id);
            exists m, n :: 0 <= m <= n < |h'| && h'[m].after == s.db.actions[id] && h'[n].after == s'.db.actions[id]
  {
    var h, h' := History(s.log, id), History(s'.log, id);
    HistoryPrefix(s.log, s'.log, id);
    assert h'[|h| - 1] == h[|h| - 1];
  }

  /** Plan and hash never change after the proposal, versions only grow, and a terminal record never changes again. */
  lemma PlansAreFixed(run: seq<Sys>, i: nat, j: nat, id: string)
    requires IsRun(run) && i <= j < |run| && id in run[i].db.actions
    ensures id in run[j].db.actions
    ensures var a, b := run[i].db.actions[id].action, run[j].db.actions[id].action;
            a.plan == b.plan && a.hash == b.hash && a.version <= b.version
    ensures Terminal(run[i].db.actions[id].action.state) ==> run[j].db.actions[id] == run[i].db.actions[id]
  {
    RunKeepsInv(run, i);
    RunKeepsInv(run, j);
    LogGrows(run, i, j);
    assert Stored(run[i], id) && Stored(run[j], id);
    StoredLater(run[i], run[j], id);
    var h' := History(run[j].log, id);
    var m, n :| 0 <= m <= n < |h'| && h'[m].after == run[i].db.actions[id] && h'[n].after == run[j].db.actions[id];
    LaterRecord(h', id, m, n);
  }

  /** A submitted action ends once: a receipt and a reconciliation never both save. */
  lemma EndsOnce(run: seq<Sys>, i: nat, id: string, m: nat, n: nat)
    requires IsRun(run) && i < |run| && m < |History(run[i].log, id)| && n < |History(run[i].log, id)|
    requires History(run[i].log, id)[m].op.Receipt? || History(run[i].log, id)[m].op.Reconcile?
    requires History(run[i].log, id)[n].op.Receipt? || History(run[i].log, id)[n].op.Reconcile?
    ensures m == n == |History(run[i].log, id)| - 1
  {
    RunKeepsInv(run, i);
    assert Stored(run[i], id);
    var h := History(run[i].log, id);
    EndingIsLast(h, id, m);
    EndingIsLast(h, id, n);
  }

  lemma EndingIsLast(h: seq<Entry>, id: string, k: nat)
    requires Chain(h, id) && k < |h| && (h[k].op.Receipt? || h[k].op.Reconcile?)
    ensures k == |h| - 1
  {
    assert Link(h, k, id, Legit);
    SavedBy(h[k]);
    HistoryShape(h, id, k);
    TerminalIsLast(h, id, k);
  }

  // ---------------------------------------------------------------- results

  /** The save a finished job made. */
  ghost predicate SavedIts(s: Sys, j: nat, op: Op, a: Action) {
    exists i :: 0 <= i < |s.log| && s.log[i].job == j && s.log[i].op == op && s.log[i].after.action == a
  }

  /** A receipt acknowledged on a record that was saved before: the outcome it reports, or a reconciliation. */
  ghost predicate Acknowledged(s: Sys, op: Op, a: Action) {
    && op.Receipt? && a.plan.id == op.id && Terminal(a.state) && (a.outcome == Some(op.outcome) || a.reconciledBy != "")
    && exists i :: 0 <= i < |s.log| && s.log[i].after.action == a
  }

  /** Every successful job made its save or is an acknowledged receipt. */
  ghost predicate SuccessesSaved(s: Sys) {
    forall j :: j in s.jobs && s.jobs[j].Finished? && s.jobs[j].result.Ok? ==>
      || SavedIts(s, j, s.jobs[j].op, s.jobs[j].result.value)
      || Acknowledged(s, s.jobs[j].op, s.jobs[j].result.value)
  }

  /** Only finished jobs made saves, and none made two. */
  predicate OneSaveEach(s: Sys) {
    && (forall i :: 0 <= i < |s.log| ==> s.log[i].job in s.jobs && s.jobs[s.log[i].job].Finished?)
    && (forall i, k :: 0 <= i < k < |s.log| ==> s.log[i].job != s.log[k].job)
  }

  ghost predicate Results(s: Sys) {
    SuccessesSaved(s) && OneSaveEach(s)
  }

  /** Only a receipt is ever acknowledged without a save. */
  lemma OnlyReceiptsAcknowledge(op: Op, env: Env, read: Option<Record>)
    ensures var d := Decide(op, env, read); d.Ok? && d.value.Acknowledge? ==> op.Receipt?
  {
  }

  lemma SavedItsGrows(s: Sys, s': Sys, j: nat, op: Op, a: Action)
    requires SavedIts(s, j, op, a) && s.log <= s'.log
    ensures SavedIts(s', j, op, a)
  {
    var i :| 0 <= i < |s.log| && s.log[i].job == j && s.log[i].op == op && s.log[i].after.action == a;
    assert s'.log[i] == s.log[i];
  }

  lemma AcknowledgedGrows(s: Sys, s': Sys, op: Op, a: Action)
    requires Acknowledged(s, op, a) && s.log <= s'.log
    ensures Acknowledged(s', op, a)
  {
    var i :| 0 <= i < |s.log| && s.log[i].after.action == a;
    assert s'.log[i] == s.log[i];
  }

  lemma AcknowledgesStored(op: Op, env: Env, stored: Option<Record>)
    ensures var d := Decide(op, env, stored);
            d.Ok? && d.value.Acknowledge? ==>
              && op.Receipt? && stored.Some? && d.value.seen == stored.value.action
              && (stored.value.action.outcome == Some(op.outcome)
                  || (stored.value.action.state == Ambiguous && stored.value.action.reconciledBy != ""))
  {
  }

  lemma StoredWasSaved(s: Sys, id: string)
    requires Inv(s) && id in s.db.actions
    ensures var a := s.db.actions[id].action;
            a.plan.id == id && Agrees(s.db.actions[id]) && exists i :: 0 <= i < |s.log| && s.log[i].after.action == a
  {
    assert Stored(s, id);
    var h := History(s.log, id);
    HistoryShape(h, id, |h| - 1);
    assert h[|h| - 1] in s.log;
  }

  /** What is acknowledged is the stored record, and that was saved before. */
  lemma ReadAcknowledges(s: Sys, op: Op, env: Env)
    requires Inv(s)
    ensures var d := Decide(op, env, Lookup(s.db, Subject(op, env)));
            d.Ok? && d.value.Acknowledge? ==> Acknowledged(s, op, d.value.seen)
  {
    AcknowledgesStored(op, env, Lookup(s.db, Subject(op, env)));
    if op.Receipt? && op.id in s.db.actions {
      StoredWasSaved(s, op.id);
    }
  }

  lemma StepKeepsSaves(s: Sys, s': Sys, step: Step)
    requires OneSaveEach(s) && Enabled(s, step) && s' == Apply(s, step)
    ensures OneSaveEach(s') && s.log <= s'.log
  {
  }

  lemma StepKeepsResults(s: Sys, s': Sys, step: Step)
    requires Inv(s) && Results(s) && Enabled(s, step) && s' == Apply(s, step)
    ensures Results(s')
  {
    StepKeepsSaves(s, s', step);
    forall j | j in s'.jobs && s'.jobs[j].Finished? && s'.jobs[j].result.Ok?
      ensures SavedIts(s', j, s'.jobs[j].op, s'.jobs[j].result.value) || Acknowledged(s', s'.jobs[j].op, s'.jobs[j].result.value)
    {
      if j in s.jobs && s'.jobs[j] == s.jobs[j] {
        SuccessStays(s, s', j);
      } else if step.Read? {
        ReadAcknowledges(s, s.jobs[step.j].op, step.env);
        AcknowledgedGrows(s, s', s'.jobs[j].op, s'.jobs[j].result.value);
      } else {
        assert s'.log[|s.log|].job == j;
      }
    }
  }

  lemma SuccessStays(s: Sys, s': Sys, j: nat)
    requires SuccessesSaved(s) && s.log <= s'.log && j in s.jobs && s.jobs[j].Finished? && s.jobs[j].result.Ok?
    ensures SavedIts(s', j, s.jobs[j].op, s.jobs[j].result.value) || Acknowledged(s', s.jobs[j].op, s.jobs[j].result.value)
  {
    if SavedIts(s, j, s.jobs[j].op, s.jobs[j].result.value) {
      SavedItsGrows(s, s', j, s.jobs[j].op, s.jobs[j].result.value);
    } else {
      AcknowledgedGrows(s, s', s.jobs[j].op, s.jobs[j].result.value);
    }
  }

  lemma {:induction false} RunKeepsResults(run: seq<Sys>, i: nat)
    requires IsRun(run) && i < |run|
    ensures Results(run[i])
  {
    if i == 0 {
      StartHasResults(run[0]);
    } else {
      RunKeepsResults(run, i - 1);
      RunKeepsInv(run, i - 1);
      assert Next(run[i - 1], run[i - 1 + 1]);
      NextKeepsResults(run[i - 1], run[i]);
    }
  }

  lemma StartHasResults(s: Sys)
    requires Init(s)
    ensures Results(s)
  {
  }

  lemma NextKeepsResults(s: Sys, s': Sys)
    requires Inv(s) && Results(s) && Next(s, s')
    ensures Results(s')
  {
    var step :| Enabled(s, step) && s' == Apply(s, step);
    StepKeepsResults(s, s', step);
  }

  lemma {:induction false} InHistory(log: seq<Entry>, i: nat, id: string)
    requires i < |log| && log[i].after.action.plan.id == id
    ensures exists k :: 0 <= k < |History(log, id)| && History(log, id)[k] == log[i]
  {
    var h := History(log, id);
    if i == |log| - 1 {
      assert h[|h| - 1] == log[i];
    } else {
      var shorter := log[..|log| - 1];
      InHistory(shorter, i, id);
      var k :| 0 <= k < |History(shorter, id)| && History(shorter, id)[k] == shorter[i];
      assert h[k] == log[i];
    }
  }

  /** A successful claim is the third save of its action's history, and has its story. */
  lemma ClaimIsAuthorized(run: seq<Sys>, i: nat, j: nat)
    requires IsRun(run) && i < |run| && j in run[i].jobs
    requires run[i].jobs[j].Finished? && run[i].jobs[j].op.Claim? && run[i].jobs[j].result.Ok?
    ensures var a := run[i].jobs[j].result.value;
            var h := History(run[i].log, a.plan.id);
            ClaimStory(h) && h[2].job == j && h[2].after.action == a
  {
    RunKeepsInv(run, i);
    RunKeepsResults(run, i);
    var s := run[i];
    var a := s.jobs[j].result.value;
    assert SavedIts(s, j, s.jobs[j].op, a);
    var n :| 0 <= n < |s.log| && s.log[n].job == j && s.log[n].op == s.jobs[j].op && s.log[n].after.action == a;
    InHistory(s.log, n, a.plan.id);
    var h := History(s.log, a.plan.id);
    var k :| 0 <= k < |h| && h[k] == s.log[n];
    assert Stored(s, a.plan.id);
    ClaimHasItsStory(h, a.plan.id, k);
  }

  /** At most one Claim of an action ever succeeds. */
  lemma AtMostOneClaim(run: seq<Sys>, i: nat, j: nat, k: nat)
    requires IsRun(run) && i < |run| && j in run[i].jobs && k in run[i].jobs
    requires run[i].jobs[j].Finished? && run[i].jobs[j].op.Claim? && run[i].jobs[j].result.Ok?
    requires run[i].jobs[k].Finished? && run[i].jobs[k].op.Claim? && run[i].jobs[k].result.Ok?
    requires run[i].jobs[j].result.value.plan.id == run[i].jobs[k].result.value.plan.id
    ensures j == k
  {
    ClaimIsAuthorized(run, i, j);
    ClaimIsAuthorized(run, i, k);
  }

  // ---------------------------------------------------------------- receipts and reconciliation

  /** The caller is the action's executor, with a current credential and the receipt token of the claim. */
  predicate HoldsReceipt(r: Record, op: Op, env: Env) {
    && op.Receipt? && env.enabled && Authentic(env) && IsPlannedExecutor(env, r.action)
    && |op.receipt| == 64 && r.token == TokenOf(op.receipt)
  }

  lemma RecordOf(run: seq<Sys>, i: nat, id: string)
    requires IsRun(run) && i < |run| && id in run[i].db.actions
    ensures var r := run[i].db.actions[id];
            r.action.plan.id == id && r.action.hash == HashOf(r.action.plan) && r.action.version > 0 && Agrees(r) && ValidIdentifier(id)
  {
    EventsTellTheHistory(run, i, id);
    RunKeepsInv(run, i);
    assert Stored(run[i], id);
    StoredIsProposed(History(run[i].log, id), id);
  }

  lemma StoredIsProposed(h: seq<Entry>, id: string)
    requires Chain(h, id) && h != []
    ensures Legit(h[0]) && h[0].before.None? && ValidIdentifier(id)
  {
    assert Link(h, 0, id, Legit);
    FirstSave(h[0]);
  }

  /**
   A receipt is accepted from exactly the holder of the claim's token, and for exactly: a submitted
   action, the outcome already recorded, or any outcome once the action has been reconciled.
   Only the first writes, and so needs the database to take it; the others leave store and outbox as they are.
   */
  lemma ReceiptAcceptance(run: seq<Sys>, i: nat, op: Op, env: Env)
    requires IsRun(run) && i < |run| && op.Receipt? && op.id in run[i].db.actions
    ensures var db, r := run[i].db, run[i].db.actions[op.id];
            var (db', result) := Transact(db, op, env);
            && (result.Ok? <==>
                  && HoldsReceipt(r, op, env) && !op.outcome.Unknown?
                  && ((r.action.state == Submitted && env.fault.None?) || r.action.outcome == Some(op.outcome)
                      || (r.action.state == Ambiguous && r.action.reconciledBy != "")))
            && (result.Ok? && r.action.state != Submitted ==> db' == db && result.value == r.action)
            && (result.Err? ==> db' == db)
            && (result.Ok? && r.action.state == Submitted ==>
                  && db'.actions[op.id].action == result.value && Terminal(result.value.state)
                  && result.value.outcome == Some(op.outcome) && result.value.version == r.action.version + 1
                  && db'.actions[op.id].token == r.token
                  && db'.outbox == db.outbox + [EventOf(result.value)])
  {
    RecordOf(run, i, op.id);
  }

  /** Reconciliation is enabled for exactly the submitted actions that are two minutes old. */
  lemma ReconcileAcceptance(run: seq<Sys>, i: nat, op: Op, env: Env)
    requires IsRun(run) && i < |run| && op.Reconcile? && op.id in run[i].db.actions
    ensures var db, r := run[i].db, run[i].db.actions[op.id];
            var (db', result) := Transact(db, op, env);
            && (result.Ok? <==>
                  && env.enabled && Authorized(env, op.reconciler) && op.hash == HashOf(r.action.plan)
                  && r.action.state == Submitted && r.action.submittedAt.Some?
                  && r.action.submittedAt.value + RECONCILE_AFTER <= env.stampAt && env.fault.None?)
            && (result.Err? ==> db' == db)
            && (result.Ok? ==> result.value.state == Ambiguous && db'.actions[op.id].token == r.token
                               && db'.outbox == db.outbox + [EventOf(result.value)])
  {
    RecordOf(run, i, op.id);
  }

  lemma ReconciledIsSettled(run: seq<Sys>, i: nat, id: string, k: nat)
    requires IsRun(run) && i < |run| && k < |History(run[i].log, id)| && History(run[i].log, id)[k].op.Reconcile?
    ensures id in run[i].db.actions
    ensures run[i].db.actions[id].action.state == Ambiguous && run[i].db.actions[id].action.reconciledBy != ""
  {
    HistoryOf(run, i, id);
    ReconcileEnds(History(run[i].log, id), id, k);
  }

  lemma ReconcileEnds(h: seq<Entry>, id: string, k: nat)
    requires Chain(h, id) && k < |h| && h[k].op.Reconcile?
    ensures k == |h| - 1 && h[k].after.action.state == Ambiguous && h[k].after.action.reconciledBy != ""
  {
    EndingIsLast(h, id, k);
    assert Link(h, k, id, Legit);
    SavedBy(h[k]);
  }

  /** After a reconciliation the executor's late receipt, whatever it reports, is acknowledged and changes nothing. */
  lemma LateReceiptAcknowledged(run: seq<Sys>, i: nat, j: nat, id: string, k: nat, op: Op, env: Env)
    requires IsRun(run) && i <= j < |run| && k < |History(run[i].log, id)| && History(run[i].log, id)[k].op.Reconcile?
    requires op.Receipt? && op.id == id && !op.outcome.Unknown? && id in run[i].db.actions
    requires HoldsReceipt(run[i].db.actions[id], op, env)
    ensures Transact(run[j].db, op, env) == (run[j].db, Ok(run[i].db.actions[id].action))
  {
    ReconciledIsSettled(run, i, id, k);
    PlansAreFixed(run, i, j, id);
    ReceiptAcceptance(run, j, op, env);
  }
}
