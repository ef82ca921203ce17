/** The writes of the SQL repository, each as a function of the tables. */
module Statements {
  import opened Records
  import opened AuditTrail
  import opened Ordering

  datatype Store = Store(jobs: map<string, Job>, executions: map<string, Execution>)

  datatype Write =
    | CreateJob(job: Job)
    | UpdateJob(job: Job, expected: int)
    | DeleteJob(id: string, expected: int, at: int, who: string)
    | CreateExecution(execution: Execution)
    | CreateManualExecution(execution: Execution, expected: int)
    | FinishExecution(execution: Execution)
    | SweepExecutions(before: int, limit: nat, at: int, who: string)

  /** `NoActor` is the refusal before the transaction's body, `Raised` the trigger's missing-actor exception. */
  datatype WriteError = NotFound | Stale | Duplicate | UnknownJob | NoActor | Raised | Faulted

  /** The tables after a write and the rows it affected. */
  datatype Applied = Applied(store: Store, rows: nat)

  // ---- rows ----

  function InsertedJob(tx: Session, job: Job): Job
  {
    job.(audit := InsertAudit(tx, job.audit))
  }

  function UpdatedJob(tx: Session, prior: Job, job: Job): Job
  {
    var proposed := prior.audit.(version := prior.audit.version + 1, updatedAt := job.audit.updatedAt,
        updatedBy := job.audit.updatedBy);
    prior.(definition := job.definition, audit := UpdateAudit(tx, prior.audit, proposed))
  }

  function Deletion(prior: Audit, at: int, who: string): Audit
  {
    prior.(deletedAt := Some(at), deletedBy := Some(who), version := prior.version + 1, updatedAt := at,
        updatedBy := who)
  }

  function DeletedJob(tx: Session, prior: Job, at: int, who: string): Job
  {
    prior.(audit := UpdateAudit(tx, prior.audit, Deletion(prior.audit, at, who)))
  }

  function InsertedExecution(tx: Session, e: Execution): Execution
  {
    e.(audit := InsertAudit(tx, e.audit))
  }

  function FinishedExecution(tx: Session, prior: Execution, e: Execution): Execution
  {
    var proposed := prior.audit.(version := prior.audit.version + 1, updatedAt := e.audit.updatedAt,
        updatedBy := e.audit.updatedBy);
    prior.(outcome := e.outcome, finishedAt := e.finishedAt, duration := e.duration,
        audit := UpdateAudit(tx, prior.audit, proposed))
  }

  function SweptExecution(tx: Session, prior: Execution, at: int, who: string): Execution
  {
    prior.(audit := UpdateAudit(tx, prior.audit, Deletion(prior.audit, at, who)))
  }

  // ---- equality up to audit timestamps ----

  ghost predicate SameJob(a: Job, b: Job)
  {
    a.id == b.id && a.scope == b.scope && a.definition == b.definition && SameAudit(a.audit, b.audit)
  }

  ghost predicate SameExecution(a: Execution, b: Execution)
  {
    a == b.(audit := a.audit) && SameAudit(a.audit, b.audit)
  }

  // ---- reads the writes depend on ----

  function GetJob(s: Store, id: string): Option<Job>
  {
    if id in s.jobs && s.jobs[id].Live() then Some(s.jobs[id]) else None
  }

  /** The live, enabled jobs whose tenant and application are not empty. */
  function ListEnabled(jobs: map<string, Job>): map<string, Job>
  {
    map id | id in jobs && jobs[id].Runnable() && jobs[id].scope.tenant != ""
        && jobs[id].scope.application != "" :: jobs[id]
  }

  predicate AtVersion(s: Store, id: string, expected: int)
  {
    id in s.jobs && s.jobs[id].audit.version == expected && s.jobs[id].Live()
  }

  function Expired(executions: map<string, Execution>, before: int): set<string>
  {
    set id | id in executions && executions[id].Expired(before)
  }

  /** The sort keys of ORDER BY finished_at, id. */
  function FinishKeys(executions: map<string, Execution>, ids: set<string>): set<Key>
    requires forall id :: id in ids ==> id in executions && executions[id].finishedAt.Some?
  {
    set id | id in ids :: Key(executions[id].finishedAt.value, id)
  }

  /** ORDER BY finished_at, id LIMIT ? */
  function TakeOldest(executions: map<string, Execution>, ids: set<string>, limit: nat): (taken: set<string>)
    requires forall id :: id in ids ==> id in executions && executions[id].finishedAt.Some?
    decreases limit
  {
    if limit == 0 || ids == {} then {} else
      var keys := FinishKeys(executions, ids);
      SomeKey(executions, ids);
      FirstIsUnique(keys);
      var oldest :| IsFirst(oldest, keys);
      {oldest.id} + TakeOldest(executions, ids - {oldest.id}, limit - 1)
  }

  lemma SomeKey(executions: map<string, Execution>, ids: set<string>)
    requires ids != {} && forall id :: id in ids ==> id in executions && executions[id].finishedAt.Some?
    ensures FinishKeys(executions, ids) != {}
  {
    var id :| id in ids;
    assert Key(executions[id].finishedAt.value, id) in FinishKeys(executions, ids);
  }

  /** SELECT id ... ORDER BY finished_at, id LIMIT ? */
  function SelectExpired(executions: map<string, Execution>, before: int, limit: nat): set<string>
  {
    TakeOldest(executions, Expired(executions, before), limit)
  }

  /** UPDATE ... WHERE id IN (?) with the retention test repeated. */
  function Sweep(tx: Session, executions: map<string, Execution>, ids: set<string>, before: int, at: int,
      who: string): map<string, Execution>
  {
    map id | id in executions ::
      if id in ids && executions[id].Expired(before) then SweptExecution(tx, executions[id], at, who)
          else executions[id]
  }

  // ---- the write as one statement list ----

  function Apply(tx: Session, s: Store, w: Write): Result<Applied, WriteError>
  {
    match w
    case CreateJob(job) =>
      if job.id in s.jobs then Err(Duplicate)
      else Written(tx, s.(jobs := s.jobs[job.id := InsertedJob(tx, job)]), 1)
    case UpdateJob(job, expected) =>
      if !AtVersion(s, job.id, expected) then Err(Stale)
      else Written(tx, s.(jobs := s.jobs[job.id := UpdatedJob(tx, s.jobs[job.id], job)]), 1)
    case DeleteJob(id, expected, at, who) =>
      if !AtVersion(s, id, expected) then Err(Stale)
      else Written(tx, s.(jobs := s.jobs[id := DeletedJob(tx, s.jobs[id], at, who)]), 1)
    case CreateExecution(e) =>
      InsertExecution(tx, s, e)
    case CreateManualExecution(e, expected) =>
      var job := GetJob(s, e.jobId);
      if job.None? then Err(NotFound)
      else if job.value.audit.version != expected || job.value.definition.status != Enabled then Err(Stale)
      else InsertExecution(tx, s, e)
    case FinishExecution(e) =>
      if e.id !in s.executions || s.executions[e.id].audit.version != e.audit.version then Err(Stale)
      else Written(tx, s.(executions := s.executions[e.id := FinishedExecution(tx, s.executions[e.id], e)]), 1)
    case SweepExecutions(before, limit, at, who) =>
      SweepIds(tx, s, SelectExpired(s.executions, before, limit), before, at, who)
  }

  function SweepIds(tx: Session, s: Store, ids: set<string>, before: int, at: int, who: string): Result<Applied,
      WriteError>
  {
    if ids == {} then Ok(Applied(s, 0))
    else Written(tx, s.(executions := Sweep(tx, s.executions, ids, before, at, who)), |ids|)
  }

  function InsertExecution(tx: Session, s: Store, e: Execution): Result<Applied, WriteError>
  {
    if e.id in s.executions then Err(Duplicate)
    else if e.jobId !in s.jobs then Err(UnknownJob)
    else Written(tx, s.(executions := s.executions[e.id := InsertedExecution(tx, e)]), 1)
  }

  /** A row reached the table unless the trigger raised its missing-actor exception. */
  function Written(tx: Session, s: Store, rows: nat): Result<Applied, WriteError>
  {
    if tx.dialect == Triggered && tx.actor == "" then Err(Raised) else Ok(Applied(s, rows))
  }

  lemma {:induction false} TakesTheOldest(executions: map<string, Execution>, ids: set<string>, limit: nat)
    requires forall id :: id in ids ==> id in executions && executions[id].finishedAt.Some?
    ensures var taken := TakeOldest(executions, ids, limit);
      && taken <= ids && |taken| == AtMost(|ids|, limit)
      && forall x, y :: x in taken && y in ids - taken ==>
           Before(Key(executions[x].finishedAt.value, x), Key(executions[y].finishedAt.value, y))
    decreases limit
  {
    hide Before;
    if limit != 0 && ids != {} {
      var keys := FinishKeys(executions, ids);
      SomeKey(executions, ids);
      FirstIsUnique(keys);
      var oldest :| IsFirst(oldest, keys);
      TakesTheOldest(executions, ids - {oldest.id}, limit - 1);
      forall y | y in ids && y != oldest.id ensures Before(oldest, Key(executions[y].finishedAt.value, y)) {
        assert Key(executions[y].finishedAt.value, y) in keys;
      }
    }
  }

  function AtMost(n: nat, limit: nat): nat { if limit <= n then limit else n }

  /** A batch holds expired rows only, as many of them as its limit allows. */
  lemma SelectionIsExpired(executions: map<string, Execution>, before: int, limit: nat)
    ensures var ids, all := SelectExpired(executions, before, limit), Expired(executions, before);
      ids <= all && |ids| == AtMost(|all|, limit)
  {
    TakesTheOldest(executions, Expired(executions, before), limit);
  }

  // ---- the reads, on columns ----

  lemma GetJobOnColumns(s: Store, id: string)
    ensures GetJob(s, id).Some? <==> id in s.jobs && s.jobs[id].audit.deletedAt == None
    ensures GetJob(s, id).Some? ==> GetJob(s, id).value == s.jobs[id]
  {
  }

  lemma AtVersionOnColumns(s: Store, id: string, expected: int)
    ensures AtVersion(s, id, expected) <==>
      id in s.jobs && s.jobs[id].audit.version == expected && s.jobs[id].audit.deletedAt == None
  {
  }

  /** The jobs a replica schedules. */
  lemma ListEnabledOnColumns(jobs: map<string, Job>, id: string)
    ensures id in ListEnabled(jobs) <==>
      && id in jobs && jobs[id].audit.deletedAt == None && jobs[id].definition.status == Enabled
      && jobs[id].scope.tenant != "" && jobs[id].scope.application != ""
    ensures id in ListEnabled(jobs) ==> ListEnabled(jobs)[id] == jobs[id]
  {
  }

  /** The rows a cleaner may delete. */
  lemma ExpiredOnColumns(executions: map<string, Execution>, before: int, id: string)
    ensures id in Expired(executions, before) <==>
      && id in executions && (executions[id].outcome.status == Succeeded || executions[id].outcome.status == Failed)
      && executions[id].finishedAt != None && executions[id].finishedAt.value < before
      && executions[id].audit.deletedAt == None
  {
  }

  /** The update repeats the retention test on every selected row. */
  lemma SweepOnRow(
      tx: Session, executions: map<string, Execution>, ids: set<string>, before: int, at: int, who: string, id: string)
    requires id in executions
    ensures var e, row := executions[id], Sweep(tx, executions, ids, before, at, who)[id];
      var due := id in ids && (e.outcome.status == Succeeded || e.outcome.status == Failed)
                 && e.finishedAt != None && e.finishedAt.value < before && e.audit.deletedAt == None;
      row == if due then SweptExecution(tx, e, at, who) else e
  {
  }

  lemma SweptOnColumns(tx: Session, e: Execution, at: int, who: string)
    requires e.audit.deletedAt == None
    ensures var row := SweptExecution(tx, e, at, who);
      && row == e.(audit := row.audit) && row.audit.deletedAt != None
      && row.audit.version == e.audit.version + 1
      && row.audit.deletedBy == Some(if tx.dialect == Triggered then tx.actor else who)
  {
  }
}
