/**
 Any number of action transactions interleaved at their reads and their versioned saves.

 The log keeps, for every save that succeeded, the operation, what it found in the world, the
 record it replaced and the record it wrote.  The invariant says that every logged decision was
 made on exactly the record it replaced, although reading and saving are separate steps.
 */
module ExecutionRuns {
  import opened Wrappers
  import opened Clock
  import opened Observations
  import opened Execution

  datatype Job =
    | Waiting(op: Op)
    | Deciding(op: Op, env: Env, read: Option<Record>, write: Write)
    | Finished(op: Op, result: Result<Action, Error>)

  datatype Entry = Entry(job: nat, op: Op, env: Env, before: Option<Record>, after: Record)

  datatype Sys = Sys(db: Db, log: seq<Entry>, jobs: map<nat, Job>)

  datatype Step = Call(j: nat, op: Op) | Read(j: nat, env: Env) | SaveStep(j: nat)

  predicate Init(s: Sys) {
    s.db == Db(map[], []) && s.log == [] && s.jobs == map[]
  }

  predicate Enabled(s: Sys, step: Step) {
    match step
    case Call(j, _) => j !in s.jobs
    case Read(j, env) => j in s.jobs && s.jobs[j].Waiting? && Sane(env)
    case SaveStep(j) => j in s.jobs && s.jobs[j].Deciding? && s.jobs[j].write.Save?
  }

  function AfterRead(op: Op, env: Env, read: Option<Record>): Job {
    match Decide(op, env, read)
    case Err(e) => Finished(op, Err(e))
    case Ok(Acknowledge(seen)) => Finished(op, Ok(seen))
    case Ok(w) => Deciding(op, env, read, w)
  }

  function AfterSave(s: Sys, j: nat): Sys
    requires Enabled(s, SaveStep(j))
  {
    var job := s.jobs[j];
    var after := job.write.record;
    match Commit(s.db, job.write, job.env.fault)
    case Err(e) => s.(jobs := s.jobs[j := Finished(job.op, Err(e))])
    case Ok(db') =>
      s.(db := db',
         log := s.log + [Entry(j, job.op, job.env, Lookup(s.db, after.action.plan.id), after)],
         jobs := s.jobs[j := Finished(job.op, Ok(after.action))])
  }

  function Apply(s: Sys, step: Step): Sys
    requires Enabled(s, step)
  {
    match step
    case Call(j, op) => s.(jobs := s.jobs[j := Waiting(op)])
    case Read(j, env) =>
      var op := s.jobs[j].op;
      s.(jobs := s.jobs[j := AfterRead(op, env, Lookup(s.db, Subject(op, env)))])
    case SaveStep(j) => AfterSave(s, j)
  }

  ghost predicate Next(s: Sys, s': Sys) {
    exists step :: Enabled(s, step) && s' == Apply(s, step)
  }

  ghost predicate IsRun(run: seq<Sys>) {
    && |run| > 0
    && Init(run[0])
    && forall i :: 0 <= i < |run| - 1 ==> Next(run[i], run[i + 1])
  }

  // ---------------------------------------------------------------- histories

  /** The saves of one action, oldest first. */
  function History(log: seq<Entry>, id: string): (h: seq<Entry>)
    ensures forall e :: e in h ==> e in log && e.after.action.plan.id == id
  {
    if log == [] then []
    else
      var rest := History(log[..|log| - 1], id);
      if log[|log| - 1].after.action.plan.id == id then rest + [log[|log| - 1]] else rest
  }

  /** The states an action's ACTION_UPDATED events report, oldest first. */
  function Reported(outbox: seq<Event>, id: string): seq<ActionState> {
    if outbox == [] then []
    else
      var rest := Reported(outbox[..|outbox| - 1], id);
      if outbox[|outbox| - 1].actionId == id then rest + [outbox[|outbox| - 1].state] else rest
  }

  function States(h: seq<Entry>): seq<ActionState> {
    seq(|h|, i requires 0 <= i < |h| => h[i].after.action.state)
  }

  lemma HistorySnoc(log: seq<Entry>, e: Entry, id: string)
    ensures History(log + [e], id) == History(log, id) + (if e.after.action.plan.id == id then [e] else [])
  {
    assert (log + [e])[..|log + [e]| - 1] == log;
  }

  /** The decision recorded in the log is the one the operation makes on the record it replaced, of the action it names. */
  predicate Legit(e: Entry) {
    && e.after.action.version > 0 && Decide(e.op, e.env, e.before) == Ok(Save(e.after, e.after.action.version - 1)) && Sane(e.env)
    && e.after.action.plan.id == Subject(e.op, e.env)
  }

  /** The k-th entry is good and continues the one before it. */
  predicate Link(h: seq<Entry>, k: nat, id: string, good: Entry -> bool)
    requires k < |h|
  {
    && good(h[k])
    && h[k].after.action.plan.id == id
    && h[k].after.action.version == k + 1
    && h[k].before == if k == 0 then None else Some(h[k - 1].after)
  }

  ghost predicate Linked(h: seq<Entry>, id: string, good: Entry -> bool) {
    forall k :: 0 <= k < |h| ==> Link(h, k, id, good)
  }

  lemma VersionsCount(h: seq<Entry>, k: nat, id: string, good: Entry -> bool)
    requires Linked(h, id, good) && k < |h|
    ensures h[k].after.action.version == k + 1 && h[k].after.action.plan.id == id
  {
    assert Link(h, k, id, good);
  }

  ghost predicate Chain(h: seq<Entry>, id: string) {
    Linked(h, id, Legit)
  }

  /** The store holds the last record of each history, and a version counts its history. */
  ghost predicate Stored(s: Sys, id: string) {
    var h := History(s.log, id);
    && Chain(h, id)
    && (id in s.db.actions <==> h != [])
    && (h != [] ==> s.db.actions[id] == h[|h| - 1].after)
  }

  /** A job that has read a record and not yet saved holds some record of that action's history. */
  ghost predicate JobInv(s: Sys, job: Job) {
    job.Deciding? ==>
      && job.write.Save?
      && Decide(job.op, job.env, job.read) == Ok(job.write)
      && Sane(job.env)
      && (!job.op.Propose? ==>
            && job.read.Some?
            && var h := History(s.log, job.op.id);
               exists k :: 0 <= k < |h| && h[k].after == job.read.value)
  }

  ghost predicate Inv(s: Sys) {
    && (forall id :: Stored(s, id))
    && (forall j :: j in s.jobs ==> JobInv(s, s.jobs[j]))
    && |s.db.outbox| == |s.log|
    && (forall i :: 0 <= i < |s.log| ==> s.db.outbox[i] == EventOf(s.log[i].after.action))
  }

  // ---------------------------------------------------------------- one step keeps the invariant

  /** What every saving decision has in common. */
  lemma DecisionShape(op: Op, env: Env, read: Option<Record>)
    ensures var d := Decide(op, env, read);
            d.Ok? && d.value.Save? ==>
              && d.value.record.action.version == d.value.expected + 1
              && (op.Propose? ==> d.value.expected == 0 && d.value.record.action.plan.id == env.freshId)
              && (!op.Propose? ==> read.Some? && d.value.record.action.plan == read.value.action.plan
                                   && d.value.expected == read.value.action.version)
  {
  }

  lemma LastByVersion(h: seq<Entry>, k: nat, id: string, good: Entry -> bool)
    requires Linked(h, id, good) && k < |h|
    requires h[|h| - 1].after.action.version == h[k].after.action.version
    ensures k == |h| - 1
  {
    VersionsCount(h, k, id, good);
    VersionsCount(h, |h| - 1, id, good);
  }

  /** A version identifies a record of the history. */
  lemma SameVersionSameRecord(s: Sys, id: string, k: nat)
    requires Stored(s, id) && k < |History(s.log, id)|
    requires s.db.actions[id].action.version == History(s.log, id)[k].after.action.version
    ensures s.db.actions[id] == History(s.log, id)[k].after
  {
    LastByVersion(History(s.log, id), k, id, Legit);
  }

  /** A save that goes through replaces the very record its job read. */
  lemma SavesWhatItRead(s: Sys, j: nat)
    requires Inv(s) && Enabled(s, SaveStep(j)) && SaveSucceeds(s.db, s.jobs[j].write)
    ensures var job := s.jobs[j];
            var id := job.write.record.action.plan.id;
            && Decide(job.op, job.env, Lookup(s.db, id)) == Ok(job.write)
            && id == Subject(job.op, job.env)
            && (!job.op.Propose? ==> Lookup(s.db, id) == job.read)
            && (job.op.Propose? ==> Lookup(s.db, id) == None)
  {
    var job := s.jobs[j];
    DecisionShape(job.op, job.env, job.read);
    if !job.op.Propose? {
      var h := History(s.log, job.op.id);
      assert Stored(s, job.op.id);
      var k :| 0 <= k < |h| && h[k].after == job.read.value;
      VersionsCount(h, k, job.op.id, Legit);
      SameVersionSameRecord(s, job.op.id, k);
    }
  }

  /** The entry a successful save appends to the log. */
  function EntryOf(s: Sys, j: nat): Entry
    requires Enabled(s, SaveStep(j))
  {
    var job := s.jobs[j];
    Entry(j, job.op, job.env, Lookup(s.db, job.write.record.action.plan.id), job.write.record)
  }

  lemma EntryIsLegit(s: Sys, j: nat)
    requires Inv(s) && Enabled(s, SaveStep(j)) && SaveSucceeds(s.db, s.jobs[j].write)
    ensures Legit(EntryOf(s, j))
  {
    SavesWhatItRead(s, j);
  }

  lemma EntryContinues(s: Sys, e: Entry)
    requires Stored(s, e.after.action.plan.id)
    requires e.after.action.version > 0 && SaveSucceeds(s.db, Save(e.after, e.after.action.version - 1))
    requires e.before == Lookup(s.db, e.after.action.plan.id)
    ensures var h := History(s.log, e.after.action.plan.id);
            && e.after.action.version == |h| + 1
            && e.before == if h == [] then None else Some(h[|h| - 1].after)
  {
    var h := History(s.log, e.after.action.plan.id);
    if h != [] {
      VersionsCount(h, |h| - 1, e.after.action.plan.id, Legit);
    }
  }

  lemma LinkedSnoc(h: seq<Entry>, e: Entry, id: string, good: Entry -> bool)
    requires Linked(h, id, good) && good(e) && e.after.action.plan.id == id && e.after.action.version == |h| + 1
    requires e.before == if h == [] then None else Some(h[|h| - 1].after)
    ensures Linked(h + [e], id, good)
  {
    forall k | 0 <= k < |h + [e]|
      ensures Link(h + [e], k, id, good)
    {
      if k < |h| {
        assert Link(h, k, id, good);
      }
    }
  }

  lemma SaveKeepsStored(s: Sys, s': Sys, e: Entry, id: string)
    requires Stored(s, id) && s'.log == s.log + [e]
    requires s'.db.actions == s.db.actions[e.after.action.plan.id := e.after]
    requires e.after.action.plan.id == id ==> Chain(History(s.log, id) + [e], id)
    ensures Stored(s', id)
  {
    HistorySnoc(s.log, e, id);
  }

  lemma HistoryGrows(s: Sys, s': Sys, job: Job)
    requires JobInv(s, job)
    requires s'.log == s.log || (|s'.log| > 0 && s'.log[..|s'.log| - 1] == s.log)
    ensures JobInv(s', job)
  {
    if job.Deciding? && !job.op.Propose? && s'.log != s.log {
      var e := s'.log[|s'.log| - 1];
      HistorySnoc(s.log, e, job.op.id);
      assert s'.log == s.log + [e];
      var h, h' := History(s.log, job.op.id), History(s'.log, job.op.id);
      var k :| 0 <= k < |h| && h[k].after == job.read.value;
      assert h'[k] == h[k];
    }
  }

  lemma SaveLinks(s: Sys, e: Entry, id: string, good: Entry -> bool)
    requires Stored(s, id) && Linked(History(s.log, id), id, good) && id == e.after.action.plan.id && good(e)
    requires e.after.action.version > 0 && SaveSucceeds(s.db, Save(e.after, e.after.action.version - 1))
    requires e.before == Lookup(s.db, id)
    ensures Linked(History(s.log, id) + [e], id, good)
  {
    EntryContinues(s, e);
    LinkedSnoc(History(s.log, id), e, id, good);
  }

  lemma SaveKeepsInv(s: Sys, s': Sys, e: Entry, j: nat, done: Job)
    requires Inv(s)
    requires Linked(History(s.log, e.after.action.plan.id) + [e], e.after.action.plan.id, Legit)
    requires s'.log == s.log + [e] && s'.db.outbox == s.db.outbox + [EventOf(e.after.action)]
    requires s'.db.actions == s.db.actions[e.after.action.plan.id := e.after]
    requires s'.jobs == s.jobs[j := done] && done.Finished?
    ensures Inv(s')
  {
    forall id
      ensures Stored(s', id)
    {
      assert Stored(s, id);
      SaveKeepsStored(s, s', e, id);
    }
    forall i | i in s'.jobs
      ensures JobInv(s', s'.jobs[i])
    {
      if i != j {
        HistoryGrows(s, s', s.jobs[i]);
      }
    }
  }

  lemma StepKeepsInv(s: Sys, s': Sys, step: Step)
    requires Inv(s) && Enabled(s, step) && s' == Apply(s, step)
    ensures Inv(s')
  {
    match step {
      case Call(_, _) => JobsKeepInv(s, s', step.j);
      case Read(j, env) =>
        ReadKeepsJob(s, s.jobs[j].op, env);
        JobsKeepInv(s, s', j);
      case SaveStep(j) =>
        if s.jobs[j].env.fault.None? && SaveSucceeds(s.db, s.jobs[j].write) {
          var e := EntryOf(s, j);
          EntryIsLegit(s, j);
          assert Stored(s, e.after.action.plan.id);
          SaveLinks(s, e, e.after.action.plan.id, Legit);
          SaveKeepsInv(s, s', e, j, s'.jobs[j]);
        } else {
          JobsKeepInv(s, s', j);
        }
    }
  }

  lemma ReadKeepsJob(s: Sys, op: Op, env: Env)
    requires Inv(s) && Sane(env)
    ensures JobInv(s, AfterRead(op, env, Lookup(s.db, Subject(op, env))))
  {
    var read := Lookup(s.db, Subject(op, env));
    DecisionShape(op, env, read);
    if !op.Propose? && read.Some? {
      assert Stored(s, op.id);
      var h := History(s.log, op.id);
      assert h[|h| - 1].after == read.value;
    }
  }

  /** A step that changes one job and neither the store nor the log. */
  lemma JobsKeepInv(s: Sys, s': Sys, j: nat)
    requires Inv(s) && s'.db == s.db && s'.log == s.log && j in s'.jobs && s'.jobs == s.jobs[j := s'.jobs[j]]
    requires JobInv(s, s'.jobs[j])
    ensures Inv(s')
  {
    forall id
      ensures Stored(s', id)
    {
      assert Stored(s, id);
    }
    forall i | i in s'.jobs
      ensures JobInv(s', s'.jobs[i])
    {
      HistoryGrows(s, s', s'.jobs[i]);
    }
  }

  lemma {:induction false} RunKeepsInv(run: seq<Sys>, i: nat)
    requires IsRun(run) && i < |run|
    ensures Inv(run[i])
  {
    if i == 0 {
      assert forall id :: Stored(run[0], id);
    } else {
      RunKeepsInv(run, i - 1);
      assert Next(run[i - 1], run[i - 1 + 1]);
      var step :| Enabled(run[i - 1], step) && run[i] == Apply(run[i - 1], step);
      StepKeepsInv(run[i - 1], run[i], step);
    }
  }
}
