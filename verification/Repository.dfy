/** The repository's writes on tables updated in place, and the transaction around one of them. */
module Repository {
  import opened Records
  import opened Text
  import opened AuditTrail
  import opened Ordering
  import opened Statements

  /** Where the database or the connection can fail around a transaction's statements. */
  datatype Fault = NoFault | BeginFails | ActorFails | StatementFails | CommitFails | CommitUnknown

  /** One call of `Within`: the principal in its context, the statement time, its body, and what fails. */
  datatype Call = Call(principal: Option<string>, at: int, write: Write, fault: Fault)

  /** The call ends before its body: no transaction, or no actor for it. */
  function Refusal(dialect: Dialect, call: Call): Option<WriteError>
  {
    if call.fault == BeginFails then Some(Faulted)
    else if call.principal.None? || !HasActor(call.principal.value) then Some(NoActor)
    else if call.fault == ActorFails && dialect == Triggered then Some(Faulted)
    else None
  }

  /** COMMIT after a successful body, ROLLBACK otherwise. */
  function Conclude(s: Store, applied: Result<Applied, WriteError>, fault: Fault): (Store, Result<nat, WriteError>)
  {
    var committed := applied.Ok? && fault != StatementFails && fault != CommitFails;
    var error := if applied.Err? && fault != StatementFails then applied.error else Faulted;
    (if committed then applied.value.store else s,
     if committed && fault != CommitUnknown then Ok(applied.value.rows) else Err(error))
  }

  /** The tables after a call and its answer: all of the write or none of it. */
  function Transact(dialect: Dialect, s: Store, call: Call): (Store, Result<nat, WriteError>)
  {
    var refusal := Refusal(dialect, call);
    var body := if refusal.Some? then Err(refusal.value)
        else Apply(Session(dialect, call.principal.value, call.at), s, call.write);
    Conclude(s, body, if refusal.Some? then NoFault else call.fault)
  }

  // ---- what a write leaves ----

  /** One row is new or changed, and every other one is as it was. */
  ghost predicate OnlyRow<T(!new)>(before: map<string, T>, after: map<string, T>, id: string)
  {
    && after.Keys == before.Keys + {id}
    && forall other :: other in before && other != id ==> after[other] == before[other]
  }

  /** The actor the database records: the principal where a trigger writes it, else the one the statement names. */
  function Recorded(tx: Session, named: string): string { if tx.dialect == Triggered then tx.actor else named }

  /** The time the database records: the statement's where a trigger writes it, else the one the statement names. */
  function Stamped(tx: Session, named: int): int { if tx.dialect == Triggered then tx.at else named }

  /** A change of a row by an update: one version on, its creation untouched. */
  ghost predicate NextVersion(tx: Session, prior: Audit, next: Audit, at: int, named: string)
  {
    && next.version == prior.version + 1 && next.createdAt == prior.createdAt && next.createdBy == prior.createdBy
    && next.updatedAt == Stamped(tx, at) && next.updatedBy == Recorded(tx, named)
  }

  ghost predicate KeepsDeletion(prior: Audit, next: Audit)
  {
    next.deletedAt == prior.deletedAt && next.deletedBy == prior.deletedBy
  }

  /** The audit columns of a new row: the trigger's own ones, or what the statement says. */
  ghost predicate FirstVersion(tx: Session, given: Audit, row: Audit)
  {
    if tx.dialect == Explicit then row == given
    else row == Audit(1, tx.at, tx.actor, tx.at, tx.actor, None, None)
  }

  // ---- what a sweep leaves ----

  function Changed(before: map<string, Execution>, after: map<string, Execution>): set<string>
  {
    set id | id in before && id in after && after[id] != before[id]
  }

  /** The row was terminal, older than the cutoff and not deleted; only its audit columns changed. */
  ghost predicate SweptOnce(tx: Session, prior: Execution, row: Execution, before: int, at: int, who: string)
  {
    && (prior.outcome.status == Succeeded || prior.outcome.status == Failed)
    && prior.finishedAt != None && prior.finishedAt.value < before && prior.audit.deletedAt == None
    && row == prior.(audit := row.audit) && NextVersion(tx, prior.audit, row.audit, at, who)
    && row.audit.deletedAt == Some(Stamped(tx, at)) && row.audit.deletedBy == Some(Recorded(tx, who))
  }

  /** The oldest due rows are deleted, as many as the limit allows, and every other row is as it was. */
  ghost predicate SweptOldest(
      tx: Session, first: map<string, Execution>, swept: map<string, Execution>, before: int, limit: nat,
      at: int, who: string)
  {
    var changed, due := Changed(first, swept), Expired(first, before);
    && swept.Keys == first.Keys && changed <= due && |changed| == AtMost(|due|, limit)
    && (forall id :: id in changed ==> SweptOnce(tx, first[id], swept[id], before, at, who))
    && (forall x, y :: x in changed && y in due - changed ==>
          Before(Key(first[x].finishedAt.value, x), Key(first[y].finishedAt.value, y)))
  }

  lemma SweptRowOnColumns(tx: Session, prior: Execution, before: int, at: int, who: string)
    requires prior.Expired(before)
    ensures SweptOnce(tx, prior, SweptExecution(tx, prior, at, who), before, at, who)
  {
  }

  lemma SweepChangesExactly(
      tx: Session, first: map<string, Execution>, ids: set<string>, before: int, at: int, who: string)
    requires ids <= Expired(first, before)
    ensures var swept := Sweep(tx, first, ids, before, at, who);
      && swept.Keys == first.Keys && Changed(first, swept) == ids
      && forall id :: id in ids ==> SweptOnce(tx, first[id], swept[id], before, at, who)
  {
    hide SweptOnce, SweptExecution;
    var swept := Sweep(tx, first, ids, before, at, who);
    forall id | id in ids ensures SweptOnce(tx, first[id], swept[id], before, at, who) && swept[id] != first[id] {
      SweptRowOnColumns(tx, first[id], before, at, who);
      SweptChanges(tx, first[id], swept[id], before, at, who);
    }
  }

  lemma SweepOnColumns(tx: Session, first: map<string, Execution>, before: int, limit: nat, at: int, who: string)
    ensures var ids := SelectExpired(first, before, limit);
      SweptOldest(tx, first, Sweep(tx, first, ids, before, at, who), before, limit, at, who)
    ensures var ids := SelectExpired(first, before, limit);
      Changed(first, Sweep(tx, first, ids, before, at, who)) == ids
  {
    hide SweptOnce, Sweep, TakeOldest, Changed, AtMost, Before;
    TakesTheOldest(first, Expired(first, before), limit);
    SweepChangesExactly(tx, first, SelectExpired(first, before, limit), before, at, who);
  }

  lemma NothingSelected(tx: Session, first: map<string, Execution>, before: int, limit: nat, at: int, who: string)
    ensures var ids := SelectExpired(first, before, limit);
      && (ids == {} ==> Sweep(tx, first, ids, before, at, who) == first)
      && (ids == {} <==> limit == 0 || Expired(first, before) == {})
  {
    TakesTheOldest(first, Expired(first, before), limit);
  }

  lemma SweptChanges(tx: Session, prior: Execution, row: Execution, before: int, at: int, who: string)
    requires SweptOnce(tx, prior, row, before, at, who)
    ensures row != prior
  {
  }

  // ---- what each fault leaves ----

  /** A blank principal and a failing begin write nothing; only an unconfirmed commit writes and reports an error. */
  lemma TransactOnFaults(dialect: Dialect, s: Store, call: Call)
    ensures call.fault == BeginFails ==> Transact(dialect, s, call) == (s, Err(Faulted))
    ensures call.fault != BeginFails && (call.principal == None || Trim(call.principal.value) == "") ==>
      Transact(dialect, s, call) == (s, Err(NoActor))
    ensures call.fault != BeginFails && call.principal != None && Trim(call.principal.value) != "" ==>
      var applied := Apply(Session(dialect, call.principal.value, call.at), s, call.write);
      && (call.fault == NoFault || (call.fault == ActorFails && dialect == Explicit) ==>
            Transact(dialect, s, call) == if applied.Ok? then (applied.value.store, Ok(applied.value.rows))
                                          else (s, Err(applied.error)))
      && (call.fault == ActorFails && dialect == Triggered ==> Transact(dialect, s, call) == (s, Err(Faulted)))
      && (call.fault == StatementFails ==> Transact(dialect, s, call) == (s, Err(Faulted)))
      && (call.fault == CommitFails ==>
            Transact(dialect, s, call) == (s, Err(if applied.Err? then applied.error else Faulted)))
      && (call.fault == CommitUnknown ==>
            Transact(dialect, s, call) == if applied.Ok? then (applied.value.store, Err(Faulted))
                                          else (s, Err(applied.error)))
  {
    hide Apply, Trim;
    if call.principal != None { ActorsAreNotBlank(call.principal.value); }
  }

  class SqlRepository {
    const dialect: Dialect
    var jobs: map<string, Job>
    var executions: map<string, Execution>

    constructor (dialect: Dialect)
      ensures this.dialect == dialect && Contents() == Store(map[], map[])
    {
      this.dialect := dialect;
      jobs, executions := map[], map[];
    }

    function Contents(): Store
      reads this
    {
      Store(jobs, executions)
    }

    /** Nothing reaches a table when the trigger raises. */
    predicate Raises(tx: Session) { tx.dialect == Triggered && tx.actor == "" }

    method CreateJob(tx: Session, job: Job) returns (r: Result<nat, WriteError>)
      modifies this`jobs
      ensures r.Ok? <==> job.id !in old(jobs) && !Raises(tx)
      ensures r.Ok? ==> OnlyRow(old(jobs), jobs, job.id) && jobs[job.id] == job.(audit := jobs[job.id].audit)
                        && FirstVersion(tx, job.audit, jobs[job.id].audit)
      ensures r.Err? ==> jobs == old(jobs) && r.error == if job.id in jobs then Duplicate else Raised
      ensures var applied := Apply(tx, old(Contents()), Write.CreateJob(job));
        if applied.Ok? then Contents() == applied.value.store && r == Ok(applied.value.rows)
        else Contents() == old(Contents()) && r == Err(applied.error)
    {
      if job.id in jobs { return Err(Duplicate); }
      if Raises(tx) { return Err(Raised); }
      jobs := jobs[job.id := InsertedJob(tx, job)];
      return Ok(1);
    }

    method UpdateJob(tx: Session, job: Job, expected: int) returns (r: Result<nat, WriteError>)
      modifies this`jobs
      ensures r.Ok? <==> AtVersion(old(Contents()), job.id, expected) && !Raises(tx)
      ensures r.Ok? ==> OnlyRow(old(jobs), jobs, job.id)
      ensures r.Ok? ==>
        var prior, row := old(jobs)[job.id], jobs[job.id];
        && row == prior.(definition := job.definition, audit := row.audit)
        && NextVersion(tx, prior.audit, row.audit, job.audit.updatedAt, job.audit.updatedBy)
        && KeepsDeletion(prior.audit, row.audit)
      ensures r.Err? ==> jobs == old(jobs) && r.error == if AtVersion(Contents(), job.id, expected) then Raised
          else Stale
      ensures var applied := Apply(tx, old(Contents()), Write.UpdateJob(job, expected));
        if applied.Ok? then Contents() == applied.value.store && r == Ok(applied.value.rows)
        else Contents() == old(Contents()) && r == Err(applied.error)
    {
      if job.id !in jobs { return Err(Stale); }
      var row := jobs[job.id];
      if row.audit.version != expected || row.audit.deletedAt.Some? { return Err(Stale); }
      if Raises(tx) { return Err(Raised); }
      jobs := jobs[job.id := UpdatedJob(tx, row, job)];
      return Ok(1);
    }

    method DeleteJob(tx: Session, id: string, expected: int, at: int, who: string) returns (r: Result<nat, WriteError>)
      modifies this`jobs
      ensures r.Ok? <==> AtVersion(old(Contents()), id, expected) && !Raises(tx)
      ensures r.Ok? ==> OnlyRow(old(jobs), jobs, id)
      ensures r.Ok? ==>
        var prior, row := old(jobs)[id], jobs[id];
        && row == prior.(audit := row.audit)
        && NextVersion(tx, prior.audit, row.audit, at, who)
        && row.audit.deletedAt == Some(Stamped(tx, at)) && row.audit.deletedBy == Some(Recorded(tx, who))
      ensures r.Err? ==> jobs == old(jobs) && r.error == if AtVersion(Contents(), id, expected) then Raised else Stale
      ensures var applied := Apply(tx, old(Contents()), Write.DeleteJob(id, expected, at, who));
        if applied.Ok? then Contents() == applied.value.store && r == Ok(applied.value.rows)
        else Contents() == old(Contents()) && r == Err(applied.error)
    {
      if id !in jobs { return Err(Stale); }
      var row := jobs[id];
      if row.audit.version != expected || row.audit.deletedAt.Some? { return Err(Stale); }
      if Raises(tx) { return Err(Raised); }
      jobs := jobs[id := DeletedJob(tx, row, at, who)];
      return Ok(1);
    }

    method CreateExecution(tx: Session, e: Execution) returns (r: Result<nat, WriteError>)
      modifies this`executions
      ensures r.Ok? <==> e.id !in old(executions) && e.jobId in jobs && !Raises(tx)
      ensures r.Ok? ==>
        OnlyRow(old(executions), executions, e.id)
        && executions[e.id] == e.(audit := executions[e.id].audit)
        && FirstVersion(tx, e.audit, executions[e.id].audit)
      ensures r.Err? ==> executions == old(executions)
                         && r.error == if e.id in executions then Duplicate else if e.jobId !in jobs then UnknownJob
                             else Raised
      ensures var applied := Apply(tx, old(Contents()), Write.CreateExecution(e));
        if applied.Ok? then Contents() == applied.value.store && r == Ok(applied.value.rows)
        else Contents() == old(Contents()) && r == Err(applied.error)
    {
      if e.id in executions { return Err(Duplicate); }
      if e.jobId !in jobs { return Err(UnknownJob); }
      if Raises(tx) { return Err(Raised); }
      executions := executions[e.id := InsertedExecution(tx, e)];
      return Ok(1);
    }

    method CreateManualExecution(tx: Session, e: Execution, expected: int) returns (r: Result<nat, WriteError>)
      modifies this`executions
      ensures r.Ok? <==> e.jobId in jobs && jobs[e.jobId].Runnable() && jobs[e.jobId].audit.version == expected
                         && e.id !in old(executions) && !Raises(tx)
      ensures r.Ok? ==>
        OnlyRow(old(executions), executions, e.id)
        && executions[e.id] == e.(audit := executions[e.id].audit)
        && FirstVersion(tx, e.audit, executions[e.id].audit)
      ensures r.Err? ==> executions == old(executions)
      ensures r == Err(NotFound) <==> !(e.jobId in jobs && jobs[e.jobId].Live())
      ensures r == Err(Stale) <==> e.jobId in jobs && jobs[e.jobId].Live()
                                   && !(jobs[e.jobId].Runnable() && jobs[e.jobId].audit.version == expected)
      ensures var applied := Apply(tx, old(Contents()), Write.CreateManualExecution(e, expected));
        if applied.Ok? then Contents() == applied.value.store && r == Ok(applied.value.rows)
        else Contents() == old(Contents()) && r == Err(applied.error)
    {
      if e.jobId !in jobs || jobs[e.jobId].audit.deletedAt.Some? { return Err(NotFound); }
      var current := jobs[e.jobId];
      if current.audit.version != expected || current.definition.status != Enabled { return Err(Stale); }
      r := CreateExecution(tx, e);
    }

    method FinishExecution(tx: Session, e: Execution) returns (r: Result<nat, WriteError>)
      modifies this`executions
      ensures r.Ok? <==>
        e.id in old(executions) && old(executions)[e.id].audit.version == e.audit.version
        && !Raises(tx)
      ensures r.Ok? ==> OnlyRow(old(executions), executions, e.id)
      ensures r.Ok? ==>
        var prior, row := old(executions)[e.id], executions[e.id];
        && row == prior.(outcome := e.outcome, finishedAt := e.finishedAt, duration := e.duration, audit := row.audit)
        && NextVersion(tx, prior.audit, row.audit, e.audit.updatedAt, e.audit.updatedBy)
        && KeepsDeletion(prior.audit, row.audit)
      ensures r.Err? ==> executions == old(executions)
      ensures r == Err(Stale) <==> !(e.id in old(executions) && old(executions)[e.id].audit.version == e.audit.version)
      ensures var applied := Apply(tx, old(Contents()), Write.FinishExecution(e));
        if applied.Ok? then Contents() == applied.value.store && r == Ok(applied.value.rows)
        else Contents() == old(Contents()) && r == Err(applied.error)
    {
      if e.id !in executions || executions[e.id].audit.version != e.audit.version { return Err(Stale); }
      if Raises(tx) { return Err(Raised); }
      executions := executions[e.id := FinishedExecution(tx, executions[e.id], e)];
      return Ok(1);
    }

    /** UPDATE ... WHERE id IN (?), one row at a time. */
    method SweepRows(tx: Session, ids: set<string>, before: int, at: int, who: string)
      requires ids <= Expired(executions, before)
      modifies this`executions
      ensures executions == Sweep(tx, old(executions), ids, before, at, who)
    {
      var left := ids;
      while left != {}
        invariant left <= ids
        invariant executions.Keys == old(executions).Keys
        invariant forall id :: id in executions ==>
          executions[id] == if id in ids - left then SweptExecution(tx, old(executions)[id], at, who)
              else old(executions)[id]
        decreases |left|
      {
        var id :| id in left;
        executions := executions[id := SweptExecution(tx, executions[id], at, who)];
        left := left - {id};
      }
    }

    method SweepExecutions(tx: Session, before: int, limit: nat, at: int, who: string)
        returns (r: Result<nat, WriteError>)
      modifies this`executions
      ensures r.Ok? ==> SweptOldest(tx, old(executions), executions, before, limit, at, who)
                        && r.value == |Changed(old(executions), executions)|
      ensures r.Err? ==> executions == old(executions) && r.error == Raised
      ensures r.Err? <==> Raises(tx) && limit > 0 && Expired(old(executions), before) != {}
      ensures var applied := Apply(tx, old(Contents()), Write.SweepExecutions(before, limit, at, who));
        if applied.Ok? then Contents() == applied.value.store && r == Ok(applied.value.rows)
        else Contents() == old(Contents()) && r == Err(applied.error)
    {
      SelectionIsExpired(executions, before, limit);
      var ids := SelectExpired(executions, before, limit);
      SweepOnColumns(tx, executions, before, limit, at, who);
      NothingSelected(tx, executions, before, limit, at, who);
      hide SweptOldest, Changed, TakeOldest, Sweep, Expired, SelectExpired;
      if ids == {} { return Ok(0); }
      if Raises(tx) { return Err(Raised); }
      SweepRows(tx, ids, before, at, who);
      return Ok(|ids|);
    }

    /** BEGIN, set the audit actor, run the body, then COMMIT or ROLLBACK. */
    method Within(call: Call) returns (r: Result<nat, WriteError>)
      modifies this
      ensures (Contents(), r) == Transact(dialect, old(Contents()), call)
    {
      if call.fault == BeginFails { return Err(Faulted); }
      var saved := Contents();
      if call.principal.None? || !HasActor(call.principal.value) { return Err(NoActor); }
      if dialect == Triggered && call.fault == ActorFails { return Err(Faulted); }
      var tx := Session(dialect, call.principal.value, call.at);
      match call.write {
        case CreateJob(job) => r := CreateJob(tx, job);
        case UpdateJob(job, expected) => r := UpdateJob(tx, job, expected);
        case DeleteJob(id, expected, at, who) => r := DeleteJob(tx, id, expected, at, who);
        case CreateExecution(e) => r := CreateExecution(tx, e);
        case CreateManualExecution(e, expected) => r := CreateManualExecution(tx, e, expected);
        case FinishExecution(e) => r := FinishExecution(tx, e);
        case SweepExecutions(before, limit, at, who) => r := SweepExecutions(tx, before, limit, at, who);
      }
      if call.fault == StatementFails { r := Err(Faulted); }
      if r.Err? || call.fault == CommitFails {
        jobs, executions := saved.jobs, saved.executions;
        return if r.Err? then r else Err(Faulted);
      }
      if call.fault == CommitUnknown { return Err(Faulted); }
    }
  }
}
