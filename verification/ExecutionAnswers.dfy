/**
 What each operation of the action protocol answers and saves, exactly: which check refuses it, what a save
 changes, and what later states keep of it.
 */
module ExecutionAnswers {
  import opened Wrappers
  import opened Clock
  import opened Observations
  import opened Execution
  import opened ExecutionRuns
  import opened ExecutionTheorems

  // ---------------------------------------------------------------- refusals

  /** A check and the error that reports its failure. */
  datatype Check = Check(passes: bool, error: Error)

  /** The error of the first check that fails, if any does. */
  function Refusal(checks: seq<Check>): Option<Error> {
    if checks == [] then None else if !checks[0].passes then Some(checks[0].error) else Refusal(checks[1..])
  }

  /** The agent is an executor of this epoch whose credential holds at this instant. */
  predicate Serves(x: Option<Agent>, epoch: string, at: Time) {
    x.Some? && !x.value.revoked && x.value.role == "EXECUTOR" && x.value.epoch == epoch && at < x.value.expiresAt
  }

  /** What Approve and Claim check of a plan: it is in force, its evidence is current, its executor can still act. */
  function CurrencyChecks(a: Action, env: Env): seq<Check> {
    [Check(a.hash == HashOf(a.plan) && a.plan.epoch == env.epoch && a.plan.policyVersion == env.policyVersion
           && env.planAt < a.plan.expiresAt, Conflict),
     Check(env.eligible.Some?, NotFound),
     Check(env.eligible == Some(true), Conflict),
     Check(env.current.Some?, NotFound),
     Check(env.current == Some(ItemHead(a.plan.evidence.version, a.plan.evidenceHash)), Conflict),
     Check(env.executor.Some?, NotFound),
     Check(Serves(env.executor, a.plan.epoch, env.executorAt) && env.executor.value.generation == a.plan.executorGeneration, Conflict)]
  }

  function ProposalChecks(op: Op, env: Env): seq<Check>
    requires op.Propose?
  {
    var item, o := env.item, if env.item.Some? then env.item.value.observation else None;
    [Check(op.kind == "REPLACE_POD" && ValidIdentifier(op.executorId), Invalid),
     Check(item.Some?, NotFound),
     Check(item.Some? && item.value.isEvidence && item.value.incidentId == op.incidentId && item.value.hash == op.evidenceHash, Conflict),
     Check(env.eligible.Some?, NotFound),
     Check(env.eligible == Some(true), Conflict),
     Check(env.current.Some?, NotFound),
     Check(item.Some? && env.current.Some? && env.current.value.version == item.value.ref.version, Conflict),
     Check(o.Some? && Replaceable(o.value), Invalid),
     Check(env.executor.Some? && env.source.Some?, NotFound),
     Check(Serves(env.executor, env.epoch, env.executorAt) && env.source.Some?
           && env.executor.value.clusterUid == env.source.value.clusterUid, Conflict)]
  }

  /** A valid observation, from a known source, that an identified pod crashes or has failed. */
  predicate Replaceable(o: Observation) {
    && ValidObservation(o) && o.code in {CrashLoop, PodFailed} && o.source.Some?
    && o.target.Some? && o.target.value.kind == "Pod" && o.target.value.uid != "" && o.target.value.resourceVersion != ""
  }

  /** The principal has a proper name, an unexpired credential and the right bindings. */
  predicate Permitted(env: Env, p: Principal) {
    env.authorized && ValidIdentifier(p.id) && env.authAt < p.expiresAt
  }

  /** The credential of the calling agent holds. */
  predicate CallerServes(env: Env) {
    Serves(env.caller, env.epoch, env.authAt) && env.caller.value.audience == "sre-execution"
  }

  predicate CallerIsPlanned(env: Env, plan: Plan) {
    env.caller.Some? && env.caller.value.id == plan.executorId && env.caller.value.generation == plan.executorGeneration
  }

  /** What is checked before anything is read. */
  function Opening(op: Op, env: Env): seq<Check> {
    var gate := Check(env.enabled, Forbidden);
    match op
    case Propose(_, _, _, _, _, proposer) => [gate, Check(Permitted(env, proposer), Forbidden)]
    case Approve(_, _, approver) => [gate, Check(Permitted(env, approver), Forbidden)]
    case Cancel(_, canceller) => [gate, Check(Permitted(env, canceller), Forbidden)]
    case Reconcile(_, hash, reconciler) =>
      [gate, Check(Permitted(env, reconciler), Forbidden), Check(hash.Foreign? ==> |hash.text| == 64, Invalid)]
    case Claim(_) => [gate, Check(CallerServes(env), Unauthorized)]
    case Receipt(_, _, outcome) => [gate, Check(!outcome.Unknown?, Invalid), Check(CallerServes(env), Unauthorized)]
  }

  /** The action must be there; a proposal makes it. */
  function Lookups(op: Op, stored: Option<Record>): seq<Check> {
    if op.Propose? then [] else [Check(ValidIdentifier(op.id), Invalid), Check(stored.Some?, NotFound)]
  }

  /** The approval stands and names the calling executor. */
  predicate Claimable(a: Action, env: Env) {
    && a.state == Approved && a.approvedBy != "" && a.approvalExpiresAt.Some? && env.approvalAt < a.approvalExpiresAt.value
    && CallerIsPlanned(env, a.plan)
  }

  /** There is still something to report, or this was reported, or a reconciliation has put an end to reports. */
  predicate Reportable(a: Action, outcome: Outcome) {
    || a.state == Submitted || a.outcome == Some(outcome)
    || (a.state == Ambiguous && a.outcome == Some(OutcomeAmbiguous) && a.reconciledBy != "")
  }

  /** What is checked of the action itself. */
  function OwnChecks(op: Op, env: Env, stored: Option<Record>): seq<Check> {
    if op.Propose? then ProposalChecks(op, env)
    else if stored.None? then []
    else
      var a := stored.value.action;
      match op
      case Approve(_, hash, _) => [Check(a.state == Proposed && hash == a.hash, Conflict)] + CurrencyChecks(a, env)
      case Claim(_) => [Check(Claimable(a, env), Conflict)] + CurrencyChecks(a, env)
      case Receipt(_, receipt, outcome) =>
        [Check(CallerIsPlanned(env, a.plan) && |receipt| == 64 && stored.value.token == TokenHashOf(receipt), Conflict),
         Check(Reportable(a, outcome), Conflict)]
      case Cancel(_, _) => [Check(a.state == Proposed || a.state == Approved, Conflict)]
      case Reconcile(_, hash, _) =>
        [Check(a.state == Submitted && a.submittedAt.Some? && a.submittedAt.value + 120 * SECOND <= env.stampAt && hash == a.hash,
               Conflict)]
  }

  /** Every check of an operation, in the order in which they are made. */
  function Checks(op: Op, env: Env, stored: Option<Record>): seq<Check> {
    Opening(op, env) + Lookups(op, stored) + OwnChecks(op, env, stored)
  }

  lemma {:induction false} RefusalJoins(first: seq<Check>, rest: seq<Check>)
    ensures Refusal(first + rest) == if Refusal(first).Some? then Refusal(first) else Refusal(rest)
  {
    if first == [] {
      assert first + rest == rest;
    } else {
      assert (first + rest)[1..] == first[1..] + rest;
      RefusalJoins(first[1..], rest);
    }
  }

  lemma RefusalOf(c: Check)
    ensures Refusal([c]) == if c.passes then None else Some(c.error)
  {
    assert [c][1..] == [];
  }

  lemma RefusalOfTwo(c: Check, d: Check)
    ensures Refusal([c, d]) == if !c.passes then Some(c.error) else if !d.passes then Some(d.error) else None
  {
    assert [c, d][1..] == [d];
    RefusalOf(d);
  }

  lemma CurrencyRefuses(a: Action, env: Env)
    ensures var r := Current(a, env); Refusal(CurrencyChecks(a, env)) == if r.Err? then Some(r.error) else None
  {
    var c := CurrencyChecks(a, env);
    assert c == [c[0]] + ([c[1], c[2]] + ([c[3], c[4]] + [c[5], c[6]]));
    RefusalOf(c[0]);
    RefusalOfTwo(c[1], c[2]);
    RefusalOfTwo(c[3], c[4]);
    RefusalOfTwo(c[5], c[6]);
    RefusalJoins([c[3], c[4]], [c[5], c[6]]);
    RefusalJoins([c[1], c[2]], [c[3], c[4]] + [c[5], c[6]]);
    RefusalJoins([c[0]], [c[1], c[2]] + ([c[3], c[4]] + [c[5], c[6]]));
  }

  lemma ProposalRefuses(op: Op, env: Env)
    requires op.Propose?
    ensures var r := DecidePropose(op, env); Refusal(ProposalChecks(op, env)) == if r.Err? then Some(r.error) else None
  {
    var c := ProposalChecks(op, env);
    assert c == [c[0], c[1]] + ([c[2], c[3]] + ([c[4], c[5]] + ([c[6], c[7]] + [c[8], c[9]])));
    RefusalOfTwo(c[0], c[1]);
    RefusalOfTwo(c[2], c[3]);
    RefusalOfTwo(c[4], c[5]);
    RefusalOfTwo(c[6], c[7]);
    RefusalOfTwo(c[8], c[9]);
    RefusalJoins([c[6], c[7]], [c[8], c[9]]);
    RefusalJoins([c[4], c[5]], [c[6], c[7]] + [c[8], c[9]]);
    RefusalJoins([c[2], c[3]], [c[4], c[5]] + ([c[6], c[7]] + [c[8], c[9]]));
    RefusalJoins([c[0], c[1]], [c[2], c[3]] + ([c[4], c[5]] + ([c[6], c[7]] + [c[8], c[9]])));
  }

  lemma OpeningRefuses(op: Op, env: Env)
    ensures var r := Gate(op, env);
            && (r.Ok? <==> Refusal(Opening(op, env)).None? && (op.Reconcile? ==> ValidIdentifier(op.id)))
            && (Refusal(Opening(op, env)).Some? ==> r == Err(Refusal(Opening(op, env)).value))
            && (Refusal(Opening(op, env)).None? && r.Err? ==> r == Err(Invalid))
  {
    var c := Opening(op, env);
    RefusalOfTwo(c[0], c[1]);
    if |c| == 3 {
      assert c == [c[0], c[1]] + [c[2]];
      RefusalJoins([c[0], c[1]], [c[2]]);
      RefusalOf(c[2]);
    } else {
      assert c == [c[0], c[1]];
    }
  }

  lemma OwnRefuses(op: Op, env: Env, r: Record)
    requires !op.Propose?
    ensures var d := match op
                     case Approve(_, _, _) => DecideApprove(op, env, r.action)
                     case Claim(_) => DecideClaim(env, r.action)
                     case Receipt(_, _, _) => DecideReceipt(op, env, r)
                     case Cancel(_, _) => DecideCancel(env, r.action)
                     case Reconcile(_, _, _) => DecideReconcile(op, env, r);
            Refusal(OwnChecks(op, env, Some(r))) == if d.Err? then Some(d.error) else None
  {
    var c := OwnChecks(op, env, Some(r));
    if op.Approve? || op.Claim? {
      assert c == [c[0]] + CurrencyChecks(r.action, env);
      RefusalJoins([c[0]], CurrencyChecks(r.action, env));
      CurrencyRefuses(r.action, env);
      RefusalOf(c[0]);
    } else if op.Receipt? {
      RefusalOfTwo(c[0], c[1]);
    } else {
      RefusalOf(c[0]);
    }
  }

  /** An operation is refused with the error of the first check that fails, and with none otherwise. */
  lemma RefusedExactly(op: Op, env: Env, stored: Option<Record>)
    ensures var d := Decide(op, env, stored);
            Refusal(Checks(op, env, stored)) == if d.Err? then Some(d.error) else None
  {
    RefusalJoins(Opening(op, env), Lookups(op, stored));
    RefusalJoins(Opening(op, env) + Lookups(op, stored), OwnChecks(op, env, stored));
    OpeningRefuses(op, env);
    if op.Propose? {
      ProposalRefuses(op, env);
    } else {
      RefusalOfTwo(Lookups(op, stored)[0], Lookups(op, stored)[1]);
      if stored.Some? {
        OwnRefuses(op, env, stored.value);
      }
    }
  }

  // ---------------------------------------------------------------- saves

  /** A proposal pins what it was made for, what was observed and who is to act, under the policy of the moment. */
  predicate Pins(plan: Plan, op: Op, env: Env) {
    && op.Propose? && env.item.Some? && env.item.value.observation.Some? && env.executor.Some?
    && var o := env.item.value.observation.value;
       && o.target.Some? && o.source.Some?
       && plan.id == env.freshId && plan.incidentId == op.incidentId && plan.kind == op.kind
       && plan.evidence == op.evidence && plan.evidenceHash == op.evidenceHash
       && plan.resourceHandle == o.handle && plan.targetCommitment == o.target.value.commitment
       && plan.sourceAgentId == o.source.value.agentId && plan.sourceGeneration == o.source.value.generation
       && plan.executorId == env.executor.value.id && plan.executorGeneration == env.executor.value.generation
       && plan.epoch == env.epoch && plan.policyVersion == env.policyVersion
  }

  /** A new action: nobody has approved, claimed or ended it. */
  predicate IsNew(a: Action, op: Op, env: Env) {
    && op.Propose? && a.hash == HashOf(a.plan) && a.version == 1 && a.state == Proposed
    && a.proposedBy == op.proposer.id && a.createdAt == env.stampAt && a.approvedBy == "" && a.approvalExpiresAt == None
    && a.submittedAt == None && a.completedAt == None && a.outcome == None && a.reconciledBy == ""
  }

  /** The same action one version later, but for what concerns its approval, its claim and its end. */
  predicate Continues(a: Action, b: Action) {
    b == a.(version := a.version + 1, state := b.state, approvedBy := b.approvedBy, approvalExpiresAt := b.approvalExpiresAt,
            submittedAt := b.submittedAt, completedAt := b.completedAt, outcome := b.outcome, reconciledBy := b.reconciledBy)
  }

  predicate SameApproval(a: Action, b: Action) {
    a.approvedBy == b.approvedBy && a.approvalExpiresAt == b.approvalExpiresAt
  }

  predicate SameEnd(a: Action, b: Action) {
    a.completedAt == b.completedAt && a.outcome == b.outcome && a.reconciledBy == b.reconciledBy
  }

  /** What an operation other than a proposal makes of a record. */
  predicate Makes(op: Op, env: Env, r: Record, r': Record) {
    var a, b := r.action, r'.action;
    && Continues(a, b)
    && match op
       case Propose(_, _, _, _, _, _) => false
       case Approve(_, _, approver) =>
         && b.state == Approved && b.approvedBy == approver.id && b.approvalExpiresAt == Some(approver.expiresAt)
         && b.submittedAt == a.submittedAt && SameEnd(a, b) && r'.token == NoToken
       case Claim(_) =>
         b.state == Submitted && b.submittedAt == Some(env.stampAt) && SameApproval(a, b) && SameEnd(a, b)
         && r'.token == TokenHashOf(env.freshToken)
       case Receipt(_, _, outcome) =>
         && (outcome.OutcomeApplied? ==> b.state == Applied) && (outcome.OutcomeAmbiguous? ==> b.state == Ambiguous)
         && (outcome.PreconditionFailed? || outcome.Denied? ==> b.state == Failed)
         && b.outcome == Some(outcome) && b.completedAt == Some(env.stampAt) && b.reconciledBy == a.reconciledBy
         && b.submittedAt == a.submittedAt && SameApproval(a, b) && r'.token == r.token
       case Cancel(_, _) =>
         && b.state == Cancelled && b.completedAt == Some(env.stampAt) && b.outcome == a.outcome && b.reconciledBy == a.reconciledBy
         && b.submittedAt == a.submittedAt && SameApproval(a, b) && r'.token == NoToken
       case Reconcile(_, _, reconciler) =>
         && b.state == Ambiguous && b.outcome == Some(OutcomeAmbiguous) && b.completedAt == Some(env.stampAt)
         && b.reconciledBy == reconciler.id && b.submittedAt == a.submittedAt && SameApproval(a, b) && r'.token == r.token
  }

  /** An operation that passes its checks saves exactly what it is for, except a Receipt with nothing left to report. */
  lemma SavesExactly(op: Op, env: Env, stored: Option<Record>)
    requires Refusal(Checks(op, env, stored)).None?
    ensures var d := Decide(op, env, stored);
            && d.Ok?
            && (op.Propose? ==> d.value.Save? && d.value.expected == 0 && d.value.record.token == NoToken
                                && IsNew(d.value.record.action, op, env) && Pins(d.value.record.action.plan, op, env))
            && (!op.Propose? ==> stored.Some?)
            && (op.Receipt? && stored.value.action.state != Submitted ==> d.value == Acknowledge(stored.value.action))
            && (!op.Propose? && !(op.Receipt? && stored.value.action.state != Submitted) ==>
                  && d.value.Save? && d.value.expected == stored.value.action.version
                  && Makes(op, env, stored.value, d.value.record))
  {
    RefusedExactly(op, env, stored);
    if op.Propose? {
      ProposalIsNew(op, env);
    } else {
      SaveMakes(op, env, stored);
    }
  }

  lemma ProposalIsNew(op: Op, env: Env)
    requires op.Propose? && DecidePropose(op, env).Ok?
    ensures var w := DecidePropose(op, env).value;
            && w.Save? && w.expected == 0 && w.record.token == NoToken
            && IsNew(w.record.action, op, env) && Pins(w.record.action.plan, op, env)
  {
  }

  lemma SaveMakes(op: Op, env: Env, stored: Option<Record>)
    requires !op.Propose? && Decide(op, env, stored).Ok?
    ensures var d := Decide(op, env, stored);
            && stored.Some?
            && (op.Receipt? && stored.value.action.state != Submitted ==> d.value == Acknowledge(stored.value.action))
            && (!(op.Receipt? && stored.value.action.state != Submitted) ==>
                  && d.value.Save? && d.value.expected == stored.value.action.version
                  && Makes(op, env, stored.value, d.value.record))
  {
  }

  // ---------------------------------------------------------------- transactions

  predicate OnlyReports(op: Op, stored: Option<Record>) {
    op.Receipt? && stored.Some? && stored.value.action.state != Submitted
  }

  /**
   A transaction on any reachable store: refused by its first failing check or by a fault of the database it would
   write to, with nothing changed; answered from the stored record; or saved together with its event.
   */
  lemma TransactsExactly(run: seq<Sys>, i: nat, op: Op, env: Env)
    requires IsRun(run) && i < |run| && Sane(env)
    ensures var db, id := run[i].db, Subject(op, env);
            var stored, refusal := Lookup(db, id), Refusal(Checks(op, env, Lookup(db, id)));
            var (db', result) := Transact(db, op, env);
            && (refusal.Some? ==> (db', result) == (db, Err(refusal.value)))
            && (refusal.None? && OnlyReports(op, stored) ==> (db', result) == (db, Ok(stored.value.action)))
            && (refusal.None? && !OnlyReports(op, stored) && env.fault.Some? ==> (db', result) == (db, Err(env.fault.value)))
            && (refusal.None? && !OnlyReports(op, stored) && env.fault.None? && op.Propose? && stored.Some? ==>
                  (db', result) == (db, Err(Conflict)))
            && (refusal.None? && !OnlyReports(op, stored) && env.fault.None? && (op.Propose? ==> stored.None?) ==>
                  && result.Ok? && id in db'.actions && db'.actions[id].action == result.value
                  && db' == Db(db.actions[id := db'.actions[id]], db.outbox + [Event(id, result.value.plan.incidentId, result.value.state)])
                  && (if op.Propose?
                      then IsNew(result.value, op, env) && Pins(result.value.plan, op, env) && db'.actions[id].token == NoToken
                      else Makes(op, env, stored.value, db'.actions[id])))
  {
    var id := Subject(op, env);
    RefusedExactly(op, env, Lookup(run[i].db, id));
    if id in run[i].db.actions {
      RecordOf(run, i, id);
    }
    if Refusal(Checks(op, env, Lookup(run[i].db, id))).None? {
      SavesExactly(op, env, Lookup(run[i].db, id));
    }
  }

  // ---------------------------------------------------------------- what later states keep

  /** Who proposed and when never changes; an approval, a claim and its token do not change once they are there. */
  predicate Keeps(r: Record, r': Record) {
    var a, b := r.action, r'.action;
    && a.proposedBy == b.proposedBy && a.createdAt == b.createdAt
    && (a.approvedBy != "" ==> SameApproval(a, b))
    && (a.submittedAt.Some? ==> b.submittedAt == a.submittedAt && r'.token == r.token)
    && (a.completedAt.Some? ==> r' == r)
  }

  lemma FollowingSaveKeeps(e: Entry)
    requires Legit(e) && e.before.Some? && e.after.action.version > 1 && Agrees(e.before.value)
    ensures Keeps(e.before.value, e.after)
  {
    FollowingSave(e);
    SaveMakes(e.op, e.env, e.before);
  }

  lemma {:induction false} HistoryKeeps(h: seq<Entry>, id: string, m: nat, n: nat)
    requires Chain(h, id) && m <= n < |h|
    ensures Keeps(h[m].after, h[n].after)
  {
    if m < n {
      HistoryKeeps(h, id, m, n - 1);
      HistoryShape(h, id, n - 1);
      assert Link(h, n, id, Legit);
      FollowingSaveKeeps(h[n]);
      if h[n - 1].after.action.completedAt.Some? {
        TerminalIsLast(h, id, n - 1);
      }
    }
  }

  /** Between any two states of a run each fact about an action is written once: its origin, its approval, its claim and token, its end. */
  lemma FactsAreWrittenOnce(run: seq<Sys>, i: nat, j: nat, id: string)
    requires IsRun(run) && i <= j < |run| && id in run[i].db.actions
    ensures id in run[j].db.actions && Keeps(run[i].db.actions[id], run[j].db.actions[id])
  {
    RunKeepsInv(run, i);
    RunKeepsInv(run, j);
    LogGrows(run, i, j);
    assert Stored(run[i], id) && Stored(run[j], id);
    StoredLater(run[i], run[j], id);
    var h := History(run[j].log, id);
    var m, n :| 0 <= m <= n < |h| && h[m].after == run[i].db.actions[id] && h[n].after == run[j].db.actions[id];
    HistoryKeeps(h, id, m, n);
  }

  /** The receipt token of an action never changes after its claim. */
  lemma TokenIsFixed(run: seq<Sys>, i: nat, j: nat, id: string)
    requires IsRun(run) && i <= j < |run| && id in run[i].db.actions && run[i].db.actions[id].token != NoToken
    ensures id in run[j].db.actions && run[j].db.actions[id].token == run[i].db.actions[id].token
  {
    RecordOf(run, i, id);
    FactsAreWrittenOnce(run, i, j, id);
  }

  lemma ReceiptEnds(h: seq<Entry>, id: string, k: nat)
    requires Chain(h, id) && k < |h| && h[k].op.Receipt?
    ensures k == |h| - 1 && h[k].op.id == id && h[k].after.token == TokenOf(h[k].op.receipt) && |h[k].op.receipt| == 64
    ensures h[k].after.action.outcome == Some(h[k].op.outcome) && !h[k].op.outcome.Unknown? && Terminal(h[k].after.action.state)
  {
    EndingIsLast(h, id, k);
    HistoryShape(h, id, k);
    assert Link(h, k, id, Legit);
    ReceiptSaved(h[k]);
  }

  lemma ReceiptSaved(e: Entry)
    requires Legit(e) && e.op.Receipt?
    ensures e.before.Some? && e.after.token == TokenOf(e.op.receipt) && |e.op.receipt| == 64 && !e.op.outcome.Unknown?
    ensures e.after.action.outcome == Some(e.op.outcome)
  {
  }

  lemma ReceiptIsStored(run: seq<Sys>, i: nat, id: string, k: nat)
    requires IsRun(run) && i < |run| && k < |History(run[i].log, id)| && History(run[i].log, id)[k].op.Receipt?
    ensures var op := History(run[i].log, id)[k].op;
            && op.id == id && !op.outcome.Unknown? && |op.receipt| == 64 && id in run[i].db.actions
            && run[i].db.actions[id].token == TokenOf(op.receipt) && run[i].db.actions[id].action.outcome == Some(op.outcome)
            && Terminal(run[i].db.actions[id].action.state)
  {
    HistoryOf(run, i, id);
    ReceiptEnds(History(run[i].log, id), id, k);
  }

  /**
   Once a Receipt has gone through, its executor may repeat it: the same receipt and outcome succeed in every later
   state, with the stored record, and change neither store nor outbox.
   */
  lemma ReplayAcknowledged(run: seq<Sys>, i: nat, j: nat, id: string, k: nat, env: Env)
    requires IsRun(run) && i <= j < |run| && k < |History(run[i].log, id)| && History(run[i].log, id)[k].op.Receipt?
    requires id in run[i].db.actions && env.enabled && CallerServes(env) && CallerIsPlanned(env, run[i].db.actions[id].action.plan)
    ensures Transact(run[j].db, History(run[i].log, id)[k].op, env) == (run[j].db, Ok(run[i].db.actions[id].action))
  {
    var op := History(run[i].log, id)[k].op;
    ReceiptIsStored(run, i, id, k);
    PlansAreFixed(run, i, j, id);
    assert HoldsReceipt(run[j].db.actions[id], op, env);
    ReceiptAcceptance(run, j, op, env);
  }
}
