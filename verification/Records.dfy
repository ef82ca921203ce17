/** The rows of the scheduler's two tables, `scheduled_jobs` and `job_executions`. */
module Records {

  datatype Option<+T> = None | Some(value: T)

  datatype Result<+T, +E> = Ok(value: T) | Err(error: E)

  /** The owner of a job: fixed when the job is created and copied to its executions. */
  datatype Scope = Scope(tenant: string, application: string)

  datatype JobStatus = Enabled | Disabled

  /** The part of a job an update replaces: everything a schedule or an invocation depends on. */
  datatype Definition = Definition(
    name: string, cron: string, timezone: string, upstream: string,
    fullMethod: string, request: string, timeout: int, status: JobStatus)

  /** The audit columns both tables share. Times are milliseconds. */
  datatype Audit = Audit(
    version: int, createdAt: int, createdBy: string, updatedAt: int, updatedBy: string,
    deletedAt: Option<int>, deletedBy: Option<string>)

  datatype Job = Job(id: string, scope: Scope, definition: Definition, audit: Audit) {
    predicate Live() { audit.deletedAt.None? }
    predicate Runnable() { Live() && definition.status == Enabled }
  }

  datatype Trigger = Scheduled | Manual

  datatype ExecutionStatus = Running | Succeeded | Failed

  datatype Outcome = Outcome(status: ExecutionStatus, response: string, errorCode: string, errorMessage: string)

  const NoOutcome := Outcome(Running, "", "", "")

  datatype Execution = Execution(
    id: string, jobId: string, scope: Scope, trigger: Trigger, outcome: Outcome,
    startedAt: int, finishedAt: Option<int>, duration: int, audit: Audit)
  {
    predicate Live() { audit.deletedAt.None? }

    predicate Terminal() { outcome.status != Running }

    /** The retention test shared by the cleaner's SELECT and its UPDATE. */
    predicate Expired(before: int)
    {
      Terminal() && finishedAt.Some? && finishedAt.value < before && Live()
    }
  }

  // ---- the states of a row, on its columns ----

  lemma JobStates(j: Job)
    ensures j.Live() <==> j.audit.deletedAt == None
    ensures j.Runnable() <==> j.audit.deletedAt == None && j.definition.status == Enabled
  {
  }

  lemma ExecutionStates(e: Execution, before: int)
    ensures e.Live() <==> e.audit.deletedAt == None
    ensures e.Terminal() <==> e.outcome.status == Succeeded || e.outcome.status == Failed
    ensures e.Expired(before) <==>
      && (e.outcome.status == Succeeded || e.outcome.status == Failed)
      && e.finishedAt != None && e.finishedAt.value < before && e.audit.deletedAt == None
  {
  }
}
