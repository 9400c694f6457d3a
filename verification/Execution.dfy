/**
 The action authorization protocol: one typed mutation is proposed, approved, claimed by its
 executor and reported on, or cancelled, or reconciled.

 Everything an operation looks up outside the action record (evidence, agents, the policy, the
 clock, fresh identifiers) is an input, `Env`, chosen by the world.  `Decide` is what the
 operation computes from the record it read; the record is then saved with a version check.
 */
module Execution {
  import opened Wrappers
  import opened Clock
  import opened Observations

  datatype Error = Forbidden | Invalid | Conflict | NotFound | Unauthorized | Unavailable

  datatype Plan = Plan(
    id: string,
    incidentId: string,
    kind: string,
    evidence: ItemRef,
    evidenceHash: string,
    resourceHandle: string,
    targetCommitment: string,
    sourceAgentId: string,
    sourceGeneration: int,
    executorId: string,
    executorGeneration: int,
    epoch: string,
    policyVersion: string,
    expiresAt: Time
  )

  /** A digest without collisions: the hash of a plan, or a text that is no plan's hash. */
  datatype Hash = HashOf(plan: Plan) | Foreign(text: string)

  datatype ActionState = Proposed | Approved | Submitted | Applied | Failed | Ambiguous | Cancelled

  datatype Outcome = OutcomeApplied | PreconditionFailed | Denied | OutcomeAmbiguous | Unknown(text: string)

  datatype Action = Action(
    plan: Plan,
    hash: Hash,
    version: nat,
    state: ActionState,
    proposedBy: string,
    approvedBy: string,
    approvalExpiresAt: Option<Time>,
    createdAt: Time,
    submittedAt: Option<Time>,
    completedAt: Option<Time>,
    outcome: Option<Outcome>,
    reconciledBy: string
  )

  /** The stored digest of a receipt token; empty until the action is claimed. */
  datatype TokenHash = NoToken | TokenHashOf(token: string)

  datatype Record = Record(action: Action, token: TokenHash)

  datatype Event = Event(actionId: string, incidentId: string, state: ActionState)

  datatype Principal = Principal(id: string, expiresAt: Time)

  datatype Agent = Agent(id: string, role: string, audience: string, epoch: string, generation: int,
                         clusterUid: string, expiresAt: Time, revoked: bool)

  datatype Item = Item(ref: ItemRef, isEvidence: bool, incidentId: string, hash: string, validUntil: Time,
                       observation: Option<Observation>)
  datatype ItemHead = ItemHead(version: int, hash: string)

  datatype Op =
    | Propose(incidentId: string, kind: string, evidence: ItemRef, evidenceHash: string, executorId: string,
              proposer: Principal)
    | Approve(id: string, hash: Hash, approver: Principal)
    | Claim(id: string)
    | Receipt(id: string, receipt: string, outcome: Outcome)
    | Cancel(id: string, canceller: Principal)
    | Reconcile(id: string, hash: Hash, reconciler: Principal)

  /** What an operation finds in the world; `None` is a failed lookup.  The clock is read where the program reads it. */
  datatype Env = Env(
    enabled: bool,
    authorized: bool,
    epoch: string,
    policyVersion: string,
    item: Option<Item>,
    eligible: Option<bool>,
    current: Option<ItemHead>,
    executor: Option<Agent>,
    source: Option<Agent>,
    caller: Option<Agent>,
    authAt: Time,
    approvalAt: Time,
    planAt: Time,
    eligibleAt: Time,
    executorAt: Time,
    windowAt: Time,
    stampAt: Time,
    freshId: string,
    freshToken: string,
    fault: Option<Error>               // what the database reports when it takes neither save nor event
  )

  predicate Ordered(env: Env) {
    env.authAt <= env.approvalAt <= env.planAt <= env.eligibleAt <= env.executorAt <= env.windowAt <= env.stampAt
  }

  /** Clock readings come in program order, and fresh identifiers are well formed. */
  predicate Sane(env: Env) {
    Ordered(env) && ValidIdentifier(env.freshId)
  }

  /** What a transaction does after its checks: nothing, or save a record over an expected version. */
  datatype Write = Acknowledge(seen: Action) | Save(record: Record, expected: nat)

  const PROPOSAL_WINDOW: int := 300 * SECOND
  const RECONCILE_AFTER: int := 120 * SECOND

  // ---------------------------------------------------------------- deadlines

  /** The earliest of a base instant and a list of deadlines. */
  function Earliest(base: Time, deadlines: seq<Time>): (r: Time)
    ensures r <= base && (forall d :: d in deadlines ==> r <= d)
    ensures r == base || r in deadlines
    decreases deadlines
  {
    if deadlines == [] then base
    else
      assert forall d :: d in deadlines ==> d == deadlines[0] || d in deadlines[1..];
      Earliest(if deadlines[0] < base then deadlines[0] else base, deadlines[1..])
  }

  /** The fold of Propose over the evidence and agent deadlines. */
  method FoldDeadlines(base: Time, deadlines: seq<Time>) returns (expiry: Time)
    ensures expiry == Earliest(base, deadlines)
    ensures expiry <= base && (forall d :: d in deadlines ==> expiry <= d)
    ensures expiry == base || expiry in deadlines
  {
    expiry := base;
    for i := 0 to |deadlines|
      invariant Earliest(expiry, deadlines[i..]) == Earliest(base, deadlines)
    {
      if deadlines[i] < expiry {
        expiry := deadlines[i];
      }
      assert deadlines[i..][1..] == deadlines[i + 1..];
    }
  }

  // ---------------------------------------------------------------- checks

  function TokenOf(receipt: string): TokenHash { TokenHashOf(receipt) }

  predicate ValidIdentifier(id: string) {
    0 < |id| <= 128 &&
    forall i :: 0 <= i < |id| ==>
      'a' <= id[i] <= 'z' || 'A' <= id[i] <= 'Z' || '0' <= id[i] <= '9' || id[i] == '_' || id[i] == '-'
  }

  /** The executor agent behind a bearer token, if it is a current credential. */
  predicate Authentic(env: Env) {
    && env.caller.Some?
    && var a := env.caller.value;
       !a.revoked && a.expiresAt > env.authAt && a.epoch == env.epoch && a.role == "EXECUTOR" && a.audience == "sre-execution"
  }

  predicate IsPlannedExecutor(env: Env, a: Action) {
    env.caller.Some? && a.plan.executorId == env.caller.value.id && a.plan.executorGeneration == env.caller.value.generation
  }

  /** The approval-independent currency checks shared by Approve and Claim. */
  function Current(a: Action, env: Env): Result<(), Error> {
    if a.hash != HashOf(a.plan) || a.plan.epoch != env.epoch || a.plan.policyVersion != env.policyVersion
       || a.plan.expiresAt <= env.planAt then Err(Conflict)
    else if env.eligible.None? then Err(NotFound)
    else if !env.eligible.value then Err(Conflict)
    else if env.current.None? then Err(NotFound)
    else if env.current.value.version != a.plan.evidence.version || env.current.value.hash != a.plan.evidenceHash then Err(Conflict)
    else if env.executor.None? then Err(NotFound)
    else
      var x := env.executor.value;
      if x.revoked || x.role != "EXECUTOR" || x.epoch != a.plan.epoch || x.generation != a.plan.executorGeneration
         || x.expiresAt <= env.executorAt then Err(Conflict)
      else Ok(())
  }

  predicate ActionableObservation(o: Observation) {
    && ValidObservation(o) && o.target.Some? && o.source.Some?
    && o.target.value.kind == "Pod" && o.target.value.uid != "" && o.target.value.resourceVersion != ""
    && (o.code == CrashLoop || o.code == PodFailed)
  }

  function ProposalDeadlines(item: Item, o: Observation, source: Agent, executor: Agent): seq<Time> {
    [item.validUntil, o.validUntil, source.expiresAt, executor.expiresAt]
  }

  function ProposedPlan(op: Op, env: Env): Plan
    requires op.Propose? && env.item.Some? && env.item.value.observation.Some? && env.source.Some? && env.executor.Some?
    requires ActionableObservation(env.item.value.observation.value)
  {
    var item, x := env.item.value, env.executor.value;
    var o := item.observation.value;
    Plan(env.freshId, op.incidentId, op.kind, op.evidence, item.hash, o.handle, o.target.value.commitment,
         o.source.value.agentId, o.source.value.generation, x.id, x.generation, env.epoch, env.policyVersion,
         Earliest(env.windowAt + PROPOSAL_WINDOW, ProposalDeadlines(item, o, env.source.value, x)))
  }

  // ---------------------------------------------------------------- the operations

  function DecidePropose(op: Op, env: Env): Result<Write, Error>
    requires op.Propose?
  {
    if op.kind != "REPLACE_POD" || !ValidIdentifier(op.executorId) then Err(Invalid)
    else if env.item.None? then Err(NotFound)
    else
      var item := env.item.value;
      if !item.isEvidence || item.incidentId != op.incidentId || item.hash != op.evidenceHash then Err(Conflict)
      else if env.eligible.None? then Err(NotFound)
      else if !env.eligible.value then Err(Conflict)
      else if env.current.None? then Err(NotFound)
      else if env.current.value.version != item.ref.version then Err(Conflict)
      else if item.observation.None? || !ActionableObservation(item.observation.value) then Err(Invalid)
      else if env.executor.None? || env.source.None? then Err(NotFound)
      else
        var x := env.executor.value;
        if x.role != "EXECUTOR" || x.revoked || x.epoch != env.epoch || x.expiresAt <= env.executorAt
           || x.clusterUid != env.source.value.clusterUid then Err(Conflict)
        else
          var plan := ProposedPlan(op, env);
          Ok(Save(Record(Action(plan, HashOf(plan), 1, Proposed, op.proposer.id, "", None, env.stampAt, None, None, None, ""),
                         NoToken), 0))
  }

  function DecideApprove(op: Op, env: Env, a: Action): Result<Write, Error>
    requires op.Approve?
  {
    if a.state != Proposed || op.hash != a.hash then Err(Conflict)
    else
      match Current(a, env)
      case Err(e) => Err(e)
      case Ok(_) =>
        Ok(Save(Record(a.(state := Approved, approvedBy := op.approver.id,
                          approvalExpiresAt := Some(op.approver.expiresAt), version := a.version + 1),
                       NoToken), a.version))
  }

  function DecideClaim(env: Env, a: Action): Result<Write, Error> {
    if a.state != Approved || a.approvedBy == "" || a.approvalExpiresAt.None? || a.approvalExpiresAt.value <= env.approvalAt
       || !IsPlannedExecutor(env, a) then Err(Conflict)
    else
      match Current(a, env)
      case Err(e) => Err(e)
      case Ok(_) =>
        Ok(Save(Record(a.(state := Submitted, submittedAt := Some(env.stampAt), version := a.version + 1),
                       TokenOf(env.freshToken)), a.version))
  }

  function StateOf(outcome: Outcome): ActionState {
    match outcome
    case OutcomeApplied => Applied
    case OutcomeAmbiguous => Ambiguous
    case _ => Failed
  }

  function DecideReceipt(op: Op, env: Env, r: Record): Result<Write, Error>
    requires op.Receipt?
  {
    var a := r.action;
    if !IsPlannedExecutor(env, a) || |op.receipt| != 64 || r.token != TokenOf(op.receipt) then Err(Conflict)
    else if a.state != Submitted then
      if a.outcome == Some(op.outcome) || (a.state == Ambiguous && a.outcome == Some(OutcomeAmbiguous) && a.reconciledBy != "")
      then Ok(Acknowledge(a))
      else Err(Conflict)
    else
      Ok(Save(Record(a.(state := StateOf(op.outcome), outcome := Some(op.outcome), completedAt := Some(env.stampAt),
                        version := a.version + 1), r.token), a.version))
  }

  function DecideCancel(env: Env, a: Action): Result<Write, Error> {
    if a.state != Proposed && a.state != Approved then Err(Conflict)
    else Ok(Save(Record(a.(state := Cancelled, completedAt := Some(env.stampAt), version := a.version + 1), NoToken), a.version))
  }

  function DecideReconcile(op: Op, env: Env, r: Record): Result<Write, Error>
    requires op.Reconcile?
  {
    var a := r.action;
    if a.state != Submitted || a.submittedAt.None? || a.submittedAt.value + RECONCILE_AFTER > env.stampAt || op.hash != a.hash
    then Err(Conflict)
    else
      Ok(Save(Record(a.(state := Ambiguous, outcome := Some(OutcomeAmbiguous), reconciledBy := op.reconciler.id,
                        completedAt := Some(env.stampAt), version := a.version + 1), r.token), a.version))
  }

  /** `authorized` stands for the issuer, the age and the bindings of a principal; its name and expiry are checked here. */
  predicate Authorized(env: Env, p: Principal) {
    env.authorized && ValidIdentifier(p.id) && env.authAt < p.expiresAt
  }

  /** What is checked before a transaction begins or before it reads the action. */
  function Gate(op: Op, env: Env): Result<(), Error> {
    if !env.enabled then Err(Forbidden)
    else
      match op
      case Claim(_) => if Authentic(env) then Ok(()) else Err(Unauthorized)
      case Receipt(_, _, outcome) =>
        if outcome.Unknown? then Err(Invalid) else if Authentic(env) then Ok(()) else Err(Unauthorized)
      case Propose(_, _, _, _, _, proposer) => if Authorized(env, proposer) then Ok(()) else Err(Forbidden)
      case Approve(_, _, approver) => if Authorized(env, approver) then Ok(()) else Err(Forbidden)
      case Reconcile(id, hash, reconciler) =>
        if !Authorized(env, reconciler) then Err(Forbidden)
        else if !ValidIdentifier(id) || (hash.Foreign? && |hash.text| != 64) then Err(Invalid) else Ok(())
      case Cancel(_, canceller) => if Authorized(env, canceller) then Ok(()) else Err(Forbidden)
  }

  /** The action an operation is about. */
  function Subject(op: Op, env: Env): string {
    if op.Propose? then env.freshId else op.id
  }

  /** The operation's decision from the record it read. */
  function Decide(op: Op, env: Env, stored: Option<Record>): Result<Write, Error> {
    match Gate(op, env)
    case Err(e) => Err(e)
    case Ok(_) =>
      if op.Propose? then DecidePropose(op, env)
      else if !ValidIdentifier(op.id) then Err(Invalid)
      else if stored.None? then Err(NotFound)
      else
        match op
        case Approve(_, _, _) => DecideApprove(op, env, stored.value.action)
        case Claim(_) => DecideClaim(env, stored.value.action)
        case Receipt(_, _, _) => DecideReceipt(op, env, stored.value)
        case Cancel(_, _) => DecideCancel(env, stored.value.action)
        case Reconcile(_, _, _) => DecideReconcile(op, env, stored.value)
  }

  // ---------------------------------------------------------------- the store

  datatype Db = Db(actions: map<string, Record>, outbox: seq<Event>)

  function Lookup(db: Db, id: string): Option<Record> {
    if id in db.actions then Some(db.actions[id]) else None
  }

  /** A versioned save: an insert for version 0, otherwise an update of exactly that version. */
  predicate SaveSucceeds(db: Db, w: Write)
    requires w.Save?
  {
    var a := w.record.action;
    && ValidIdentifier(a.plan.id) && a.hash == HashOf(a.plan) && a.version == w.expected + 1
    && if w.expected == 0 then a.plan.id !in db.actions
       else a.plan.id in db.actions && db.actions[a.plan.id].action.version == w.expected
  }

  function EventOf(a: Action): Event { Event(a.plan.id, a.plan.incidentId, a.state) }

  /** Saving and enqueueing happen together or, after a fault of either, not at all. */
  function Commit(db: Db, w: Write, fault: Option<Error>): Result<Db, Error>
    requires w.Save?
  {
    var a := w.record.action;
    if !ValidIdentifier(a.plan.id) || a.hash != HashOf(a.plan) || a.version != w.expected + 1 then Err(Invalid)
    else if fault.Some? then Err(fault.value)
    else if !SaveSucceeds(db, w) then Err(Conflict)
    else Ok(Db(db.actions[a.plan.id := w.record], db.outbox + [EventOf(a)]))
  }

  /** A transaction that nothing interleaves with. */
  function Transact(db: Db, op: Op, env: Env): (Db, Result<Action, Error>) {
    match Decide(op, env, Lookup(db, Subject(op, env)))
    case Err(e) => (db, Err(e))
    case Ok(Acknowledge(seen)) => (db, Ok(seen))
    case Ok(Save(r, expected)) =>
      match Commit(db, Save(r, expected), env.fault)
      case Err(e) => (db, Err(e))
      case Ok(db') => (db', Ok(r.action))
  }
}
