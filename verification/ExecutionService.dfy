/**
 The service object: each operation reads the stored record, changes a copy, saves it over the
 version it read and appends the event, and is proved to be the transaction the runs are made of.
 */
module ExecutionService {
  import opened Wrappers
  import opened Clock
  import opened Observations
  import opened Execution

  class Service {
    var actions: map<string, Record>
    var outbox: seq<Event>

    function View(): Db
      reads this
    {
      Db(actions, outbox)
    }

    constructor ()
      ensures View() == Db(map[], [])
    {
      actions, outbox := map[], [];
    }

    /** SaveAction and enqueue inside one transaction. */
    method SaveAndEnqueue(r: Record, expected: nat, fault: Option<Error>) returns (result: Result<Action, Error>)
      modifies this
      ensures match Commit(old(View()), Save(r, expected), fault)
              case Ok(db) => View() == db && result == Ok(r.action)
              case Err(e) => View() == old(View()) && result == Err(e)
    {
      var a := r.action;
      if !ValidIdentifier(a.plan.id) || a.hash != HashOf(a.plan) || a.version != expected + 1 {
        return Err(Invalid);
      }
      if fault.Some? {
        return Err(fault.value);
      }
      if expected == 0 {
        if a.plan.id in actions {
          return Err(Conflict);
        }
      } else if a.plan.id !in actions || actions[a.plan.id].action.version != expected {
        return Err(Conflict);
      }
      actions := actions[a.plan.id := r];
      outbox := outbox + [EventOf(a)];
      result := Ok(a);
    }

    method ProposeAction(op: Op, env: Env) returns (result: Result<Action, Error>)
      requires op.Propose?
      modifies this
      ensures (View(), result) == Transact(old(View()), op, env)
    {
      if !env.enabled || !Authorized(env, op.proposer) {
        return Err(Forbidden);
      }
      if op.kind != "REPLACE_POD" || !ValidIdentifier(op.executorId) {
        return Err(Invalid);
      }
      if env.item.None? {
        return Err(NotFound);
      }
      var item := env.item.value;
      if !item.isEvidence || item.incidentId != op.incidentId || item.hash != op.evidenceHash {
        return Err(Conflict);
      }
      if env.eligible.None? {
        return Err(NotFound);
      }
      if !env.eligible.value {
        return Err(Conflict);
      }
      if env.current.None? {
        return Err(NotFound);
      }
      if env.current.value.version != item.ref.version {
        return Err(Conflict);
      }
      if item.observation.None? || !ActionableObservation(item.observation.value) {
        return Err(Invalid);
      }
      var o := item.observation.value;
      if env.executor.None? || env.source.None? {
        return Err(NotFound);
      }
      var executor, source := env.executor.value, env.source.value;
      if executor.role != "EXECUTOR" || executor.revoked || executor.epoch != env.epoch
         || executor.expiresAt <= env.executorAt || executor.clusterUid != source.clusterUid {
        return Err(Conflict);
      }
      var expiry := FoldDeadlines(env.windowAt + PROPOSAL_WINDOW,
                                  [item.validUntil, o.validUntil, source.expiresAt, executor.expiresAt]);
      var plan := Plan(env.freshId, op.incidentId, op.kind, op.evidence, item.hash, o.handle,
                       o.target.value.commitment, o.source.value.agentId, o.source.value.generation,
                       executor.id, executor.generation, env.epoch, env.policyVersion, expiry);
      var a := Action(plan, HashOf(plan), 1, Proposed, op.proposer.id, "", None, env.stampAt, None, None, None, "");
      result := SaveAndEnqueue(Record(a, NoToken), 0, env.fault);
    }

    method ApproveAction(op: Op, env: Env) returns (result: Result<Action, Error>)
      requires op.Approve?
      modifies this
      ensures (View(), result) == Transact(old(View()), op, env)
    {
      if !env.enabled || !Authorized(env, op.approver) {
        return Err(Forbidden);
      }
      if !ValidIdentifier(op.id) {
        return Err(Invalid);
      }
      if op.id !in actions {
        return Err(NotFound);
      }
      var a := actions[op.id].action;
      if a.state != Proposed || op.hash != a.hash {
        return Err(Conflict);
      }
      var current := Current(a, env);
      if current.Err? {
        return Err(current.error);
      }
      var expected := a.version;
      a := a.(state := Approved);
      a := a.(approvedBy := op.approver.id);
      a := a.(approvalExpiresAt := Some(op.approver.expiresAt));
      a := a.(version := a.version + 1);
      result := SaveAndEnqueue(Record(a, NoToken), expected, env.fault);
    }

    method ClaimAction(op: Op, env: Env) returns (result: Result<Action, Error>)
      requires op.Claim?
      modifies this
      ensures (View(), result) == Transact(old(View()), op, env)
    {
      if !env.enabled {
        return Err(Forbidden);
      }
      if !Authentic(env) {
        return Err(Unauthorized);
      }
      if !ValidIdentifier(op.id) {
        return Err(Invalid);
      }
      if op.id !in actions {
        return Err(NotFound);
      }
      var a := actions[op.id].action;
      if a.state != Approved || a.approvedBy == "" || a.approvalExpiresAt.None?
         || a.approvalExpiresAt.value <= env.approvalAt || !IsPlannedExecutor(env, a) {
        return Err(Conflict);
      }
      var current := Current(a, env);
      if current.Err? {
        return Err(current.error);
      }
      var expected := a.version;
      a := a.(state := Submitted);
      a := a.(submittedAt := Some(env.stampAt));
      a := a.(version := a.version + 1);
      result := SaveAndEnqueue(Record(a, TokenOf(env.freshToken)), expected, env.fault);
    }

    method ReceiptAction(op: Op, env: Env) returns (result: Result<Action, Error>)
      requires op.Receipt?
      modifies this
      ensures (View(), result) == Transact(old(View()), op, env)
    {
      if !env.enabled {
        return Err(Forbidden);
      }
      if op.outcome.Unknown? {
        return Err(Invalid);
      }
      if !Authentic(env) {
        return Err(Unauthorized);
      }
      if !ValidIdentifier(op.id) {
        return Err(Invalid);
      }
      if op.id !in actions {
        return Err(NotFound);
      }
      var a, stored := actions[op.id].action, actions[op.id].token;
      if !IsPlannedExecutor(env, a) || |op.receipt| != 64 || stored != TokenOf(op.receipt) {
        return Err(Conflict);
      }
      if a.state != Submitted {
        if a.outcome == Some(op.outcome)
           || (a.state == Ambiguous && a.outcome == Some(OutcomeAmbiguous) && a.reconciledBy != "") {
          return Ok(a);
        }
        return Err(Conflict);
      }
      var expected := a.version;
      a := a.(state := Failed);
      if op.outcome == OutcomeApplied {
        a := a.(state := Applied);
      } else if op.outcome == OutcomeAmbiguous {
        a := a.(state := Ambiguous);
      }
      a := a.(outcome := Some(op.outcome));
      a := a.(completedAt := Some(env.stampAt));
      a := a.(version := a.version + 1);
      result := SaveAndEnqueue(Record(a, stored), expected, env.fault);
    }

    method CancelAction(op: Op, env: Env) returns (result: Result<Action, Error>)
      requires op.Cancel?
      modifies this
      ensures (View(), result) == Transact(old(View()), op, env)
    {
      if !env.enabled || !Authorized(env, op.canceller) {
        return Err(Forbidden);
      }
      if !ValidIdentifier(op.id) {
        return Err(Invalid);
      }
      if op.id !in actions {
        return Err(NotFound);
      }
      var a := actions[op.id].action;
      if a.state != Proposed && a.state != Approved {
        return Err(Conflict);
      }
      var expected := a.version;
      a := a.(state := Cancelled);
      a := a.(completedAt := Some(env.stampAt));
      a := a.(version := a.version + 1);
      result := SaveAndEnqueue(Record(a, NoToken), expected, env.fault);
    }

    method ReconcileAction(op: Op, env: Env) returns (result: Result<Action, Error>)
      requires op.Reconcile?
      modifies this
      ensures (View(), result) == Transact(old(View()), op, env)
    {
      if !env.enabled || !Authorized(env, op.reconciler) {
        return Err(Forbidden);
      }
      if !ValidIdentifier(op.id) || (op.hash.Foreign? && |op.hash.text| != 64) {
        return Err(Invalid);
      }
      if op.id !in actions {
        return Err(NotFound);
      }
      var a, stored := actions[op.id].action, actions[op.id].token;
      if a.state != Submitted || a.submittedAt.None? || a.submittedAt.value + RECONCILE_AFTER > env.stampAt
         || op.hash != a.hash {
        return Err(Conflict);
      }
      var expected := a.version;
      a := a.(state := Ambiguous);
      a := a.(outcome := Some(OutcomeAmbiguous));
      a := a.(reconciledBy := op.reconciler.id);
      a := a.(completedAt := Some(env.stampAt));
      a := a.(version := a.version + 1);
      result := SaveAndEnqueue(Record(a, stored), expected, env.fault);
    }
  }
}
