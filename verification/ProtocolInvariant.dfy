/** The inductive invariant of the execution protocol, one predicate per concern. */
module ProtocolInvariant {
  import opened Records
  import opened AuditTrail
  import opened Statements
  import opened Protocol

  // ---- committed versions of a job ----

  /** `v` is the version numbered k + 1 of the job whose latest row is `job`. */
  ghost predicate VersionOf(v: Job, job: Job, k: int)
  {
    && v.id == job.id && v.scope == job.scope && v.audit.version == k + 1
    && v.audit.createdAt == job.audit.createdAt && v.audit.createdBy == job.audit.createdBy
    && (v.Live() ==> v.audit.deletedBy == None)
  }

  /** Versions 1, 2, 3, ... of one job, of which only the last can be deleted. */
  ghost predicate ChainOf(chain: seq<Job>, job: Job)
  {
    && |chain| > 0 && chain[|chain| - 1] == job
    && (forall k :: 0 <= k < |chain| ==> VersionOf(chain[k], job, k))
    && (forall k :: 0 <= k < |chain| - 1 ==> chain[k].Live())
  }

  ghost predicate Histories(jobs: map<string, Job>, history: map<string, seq<Job>>, writers: map<string, seq<Pid>>)
  {
    && history.Keys == jobs.Keys && writers.Keys == jobs.Keys
    && forall id :: id in jobs ==> jobs[id].id == id && ChainOf(history[id], jobs[id]) && |writers[id]| == |history[id]|
  }

  /** `job` was once the committed row of its id. Its id and version determine all of it. */
  ghost predicate Committed(history: map<string, seq<Job>>, job: Job)
  {
    && job.id in history && 1 <= job.audit.version <= |history[job.id]|
    && history[job.id][job.audit.version - 1] == job
  }

  ghost predicate RunOk(history: map<string, seq<Job>>, run: Run)
  {
    && Committed(history, run.job) && run.job.Runnable() && run.loaded == run.job
    && (run.trigger == Manual ==> run.expected == run.job.audit.version)
  }

  ghost predicate SnapshotOk(history: map<string, seq<Job>>, proc: Process)
  {
    && (proc.Updating? ==> Committed(history, proc.snapshot) && proc.snapshot.Live())
    && (proc.Fired? ==> Committed(history, proc.loaded) && proc.loaded.Runnable())
    && (proc.HasRun() ==> RunOk(history, proc.run))
  }

  ghost predicate EntriesOk(history: map<string, seq<Job>>, entries: map<nat, map<string, Job>>)
  {
    forall r, id :: r in entries && id in entries[r] ==> Committed(history, entries[r][id]) && entries[r][id].Runnable()
  }

  // ---- time, leases and row locks ----

  ghost predicate TimelyProcess(c: Config, now: int, proc: Process)
  {
    && (proc.Waiting? ==> proc.run.deadline <= now + proc.run.job.definition.timeout)
    && (proc.InSection() ==> now <= proc.Limit(c) <= proc.run.deadline + c.pause + FINISH_LIMIT)
  }

  ghost predicate Holds(leases: map<string, Lease>, p: Pid, proc: Process)
  {
    proc.InSection() ==>
      && proc.run.job.id in leases && leases[proc.run.job.id].owner == p
      && proc.run.deadline + LEASE_MARGIN <= leases[proc.run.job.id].expiry
  }

  /** Short enough pauses leave the lease alive until the section is over. */
  predicate Punctual(c: Config) { c.pause + FINISH_LIMIT < LEASE_MARGIN }

  ghost predicate RowLockOk(jobs: map<string, Job>, rowLocks: map<string, Pid>, p: Pid, proc: Process)
  {
    && (proc.HoldsRowLock() ==> proc.run.job.id in rowLocks && rowLocks[proc.run.job.id] == p)
    && (proc.Inserting? && proc.run.trigger == Manual ==>
      proc.run.job.id in jobs
      && jobs[proc.run.job.id] == proc.run.job)
    && (proc.Locked? ==> proc.run.trigger == Manual)
  }

  // ---- executions ----

  predicate Open(e: Execution)
  {
    e.outcome.status == Running && e.audit.version == 1 && e.finishedAt == None && e.Live()
  }

  predicate Finished(e: Execution)
  {
    e.Terminal() && e.audit.version == 2 && e.finishedAt.Some? && e.Live()
  }

  predicate Retired(e: Execution)
  {
    e.Terminal() && e.audit.version == 3 && e.finishedAt.Some? && !e.Live()
  }

  /** A row as the tables can hold it, given its job and the outcomes reported so far. */
  ghost predicate RowOk(id: string, e: Execution, jobs: map<string, Job>, results: map<string, Outcome>)
  {
    && e.id == id && (Open(e) || Finished(e) || Retired(e))
    && e.jobId in jobs && e.scope == jobs[e.jobId].scope
    && (e.Terminal() ==> id in results && results[id] == e.outcome)
  }

  ghost predicate Rows(store: Store, issued: map<string, Pid>, results: map<string, Outcome>)
  {
    forall id :: id in store.executions ==> id in issued && RowOk(id, store.executions[id], store.jobs, results)
  }

  /** The identity of an execution follows its run. */
  ghost predicate ExecutionOf(e: Execution, run: Run)
  {
    e.jobId == run.job.id && e.scope == run.job.scope && e.trigger == run.trigger
  }

  /** What is on record about an execution id. */
  datatype Books = Books(
    executions: map<string, Execution>, issued: map<string, Pid>, against: map<string, Job>, results: map<string,
        Outcome>)

  function BooksOf(w: World): Books { Books(w.store.executions, w.issued, w.against, w.results) }

  /** The row of an execution follows its run, and a manual one was inserted against the run's own job. */
  ghost predicate OnRecord(b: Books, id: string, p: Pid, run: Run)
  {
    && id in b.issued && b.issued[id] == p && id in b.executions && ExecutionOf(b.executions[id], run)
    && id in b.against && (run.trigger == Manual ==> b.against[id] == run.job)
  }

  ghost predicate OwnsExecution(b: Books, p: Pid, proc: Process)
  {
    && (proc.Inserting? ==>
          && proc.execution.id in b.issued && b.issued[proc.execution.id] == p
          && proc.execution.id !in b.executions && Open(proc.execution))
    && (proc.HasExecution() ==> ExecutionOf(proc.execution, proc.run) && proc.execution.audit.version == 1)
    && (proc.HasRow() ==> OnRecord(b, proc.execution.id, p, proc.run) && Open(b.executions[proc.execution.id]))
    && (proc.HasResult() ==> ResultOf(b.results, proc.execution))
  }

  ghost predicate ResultOf(results: map<string, Outcome>, e: Execution)
  {
    e.Terminal() && e.finishedAt.Some? && e.id in results && results[e.id] == e.outcome
  }

  /** The job row an execution was inserted against. */
  ghost predicate AgainstOk(history: map<string, seq<Job>>, against: map<string, Job>)
  {
    forall id :: id in against ==> Committed(history, against[id])
  }

  // ---- the ledger of upstream calls ----

  ghost predicate Invoked(invocations: seq<Invocation>, key: string)
  {
    exists i :: 0 <= i < |invocations| && invocations[i].key == key
  }

  ghost predicate InvocationOk(history: map<string, seq<Job>>, b: Books, i: Invocation)
  {
    RunOk(history, i.run) && OnRecord(b, i.key, i.pid, i.run)
  }

  ghost predicate Ledger(history: map<string, seq<Job>>, b: Books, invocations: seq<Invocation>)
  {
    && (forall i :: 0 <= i < |invocations| ==> InvocationOk(history, b, invocations[i]))
    && (forall i, j :: 0 <= i < j < |invocations| ==> invocations[i].key != invocations[j].key)
    && (forall key :: key in b.results ==> Invoked(invocations, key))
  }

  /** A process calls upstream once: before it the key is unused, during it there is no result. */
  ghost predicate CallOk(invocations: seq<Invocation>, results: map<string, Outcome>, proc: Process)
  {
    && (proc.Inserting? || proc.Recorded? ==> !Invoked(invocations, proc.execution.id))
    && (proc.Invoking? ==> Invoked(invocations, proc.execution.id) && proc.execution.id !in results)
  }

  // ---- cleaning ----

  ghost predicate BatchOk(executions: map<string, Execution>, b: Batch)
  {
    forall id :: id in b.ids ==>
      id in executions && Retired(executions[id]) && executions[id].finishedAt.value < b.before
  }

  ghost predicate Batches(executions: map<string, Execution>, batches: seq<Batch>)
  {
    && (forall i :: 0 <= i < |batches| ==> BatchOk(executions, batches[i]))
    && (forall i, j :: 0 <= i < j < |batches| ==> batches[i].ids !! batches[j].ids)
    && (forall id ::
      id in executions && !executions[id].Live()
      ==> exists i :: 0 <= i < |batches| && id in batches[i].ids)
  }

  // ---- replies ----

  /** The reply of `p` reports version v of the job, which `p` itself committed. */
  ghost predicate Wrote(history: map<string, seq<Job>>, writers: map<string, seq<Pid>>, p: Pid, id: string, v: int)
  {
    && id in history && id in writers && 1 <= v <= |history[id]| && v <= |writers[id]|
    && writers[id][v - 1] == p
  }

  ghost predicate ReplyOk(history: map<string, seq<Job>>, writers: map<string, seq<Pid>>, p: Pid, reply: Reply)
  {
    match reply
    case Created(job) => Wrote(history, writers, p, job.id, 1) && SameJob(job, history[job.id][0])
    case Updated(job) =>
      && job.audit.version > 1 && Wrote(history, writers, p, job.id, job.audit.version)
      && SameJob(job, history[job.id][job.audit.version - 1])
    case Deleted(id, expected) =>
      && expected >= 1 && Wrote(history, writers, p, id, expected + 1)
      && !history[id][expected].Live() && history[id][expected].definition == history[id][expected - 1].definition
    case _ => true
  }

  ghost predicate ClientOk(history: map<string, seq<Job>>, writers: map<string, seq<Pid>>, p: Pid, proc: Process)
  {
    && (proc.Updating? || proc.Deleting? ==> proc.expected >= 1)
    && (proc.Releasing? ==> !proc.reply.Created? && !proc.reply.Updated? && !proc.reply.Deleted?)
    && (proc.Ended? ==> ReplyOk(history, writers, p, proc.reply))
  }

  // ---- everything ----

  ghost predicate Tables(w: World)
  {
    && Histories(w.store.jobs, w.history, w.writers)
    && EntriesOk(w.history, w.entries)
    && Rows(w.store, w.issued, w.results)
    && AgainstOk(w.history, w.against)
    && Ledger(w.history, BooksOf(w), w.invocations)
    && Batches(w.store.executions, w.batches)
  }

  ghost predicate ProcessOk(c: Config, w: World, p: Pid, proc: Process)
  {
    && SnapshotOk(w.history, proc)
    && TimelyProcess(c, w.now, proc)
    && (Punctual(c) ==> Holds(w.leases, p, proc))
    && RowLockOk(w.store.jobs, w.rowLocks, p, proc)
    && OwnsExecution(BooksOf(w), p, proc)
    && CallOk(w.invocations, w.results, proc)
    && ClientOk(w.history, w.writers, p, proc)
  }

  ghost predicate Inv(c: Config, w: World)
  {
    Tables(w) && forall p :: p in w.procs ==> ProcessOk(c, w, p, w.procs[p])
  }

  lemma StartIsSound(c: Config)
    ensures Inv(c, Start)
  {
  }
}
