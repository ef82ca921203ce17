/**
 When each step of the protocol is possible, and what it does, on the columns of the rows: no step is refused
 for another reason than the code's own.
 */
module ProtocolSteps {
  import opened Records
  import opened AuditTrail
  import opened Statements
  import opened Protocol
  import opened ProtocolInvariant
  import opened ProtocolTheorems
  import Overlap

  // ---- the states of a process ----

  lemma ProcessStates(proc: Process)
    ensures proc.InSection() <==>
      || proc.Leased? || proc.Locked? || proc.Inserting? || proc.Recorded? || proc.Invoking? || proc.Returned?
      || proc.Finishing?
    ensures proc.HasRun() <==> proc.Accepted? || proc.Waiting? || proc.InSection()
    ensures proc.HasRow() <==> proc.Recorded? || proc.Invoking? || proc.Returned? || proc.Finishing?
    ensures proc.HoldsRowLock() <==> proc.Locked? || (proc.Inserting? && proc.run.trigger == Manual)
  {
  }

  // ---- the row an execution needs ----

  /** The row of a job is live, enabled and at a version. */
  ghost predicate RunsAt(jobs: map<string, Job>, id: string, version: int)
  {
    && id in jobs && jobs[id].audit.deletedAt == None && jobs[id].definition.status == Enabled
    && jobs[id].audit.version == version
  }

  /** The row locks of a process end with its transaction, and no others. */
  ghost predicate Unlocked(w: World, p: Pid, after: World)
  {
    && (forall id :: id in after.rowLocks <==> id in w.rowLocks && w.rowLocks[id] != p)
    && (forall id :: id in after.rowLocks ==> after.rowLocks[id] == w.rowLocks[id])
  }

  // ---- scheduled executions ----

  /** A tick fires every entry a replica holds, whatever happened to its job. */
  lemma FireIsPossible(c: Config, w: World, p: Pid, replica: nat, id: string)
    ensures Step(c, w, Fire(p, replica, id)).Some? <==>
      p !in w.procs && replica in w.entries && id in w.entries[replica]
    ensures Step(c, w, Fire(p, replica, id)).Some? ==>
      Step(c, w, Fire(p, replica, id)).value == w.(procs := w.procs[p := Fired(w.entries[replica][id])])
  {
  }

  /**
   * The re-read lets the execution go on exactly when the row of the loaded job is not deleted, enabled and at the
   * loaded version; the run is that row's.
   */
  lemma ReReadIsPossible(c: Config, w: World, p: Pid)
    requires p in w.procs && w.procs[p].Fired?
    ensures var loaded, jobs := w.procs[p].loaded, w.store.jobs;
      && (Step(c, w, ReRead(p)).Some? <==>
            && loaded.id in jobs && jobs[loaded.id].audit.deletedAt == None
            && jobs[loaded.id].definition.status == Enabled
            && jobs[loaded.id].audit.version == loaded.audit.version)
      && (Step(c, w, ReRead(p)).Some? ==>
            var run := Run(jobs[loaded.id], loaded, Scheduled, "scheduler-service", 0, 0);
            Step(c, w, ReRead(p)).value == w.(procs := w.procs[p := Accepted(run)]))
  {
  }

  /** A reload always reads exactly the live, enabled, scoped rows. */
  lemma ReloadIsPossible(c: Config, w: World, replica: nat, id: string)
    ensures var next := Step(c, w, Reload(replica));
      && next.Some? && next.value == w.(entries := next.value.entries) && replica in next.value.entries
      && (id in next.value.entries[replica] <==>
            && id in w.store.jobs && w.store.jobs[id].audit.deletedAt == None
            && w.store.jobs[id].definition.status == Enabled
            && w.store.jobs[id].scope.tenant != "" && w.store.jobs[id].scope.application != "")
      && (id in next.value.entries[replica] ==> next.value.entries[replica][id] == w.store.jobs[id])
  {
  }

  // ---- manual executions ----

  lemma TriggerIsPossible(c: Config, w: World, p: Pid, id: string, expected: int, actor: string)
    ensures Step(c, w, BeginTrigger(p, id, expected, actor)).Some? <==>
      p !in w.procs && expected >= 1 && actor != "" && RunsAt(w.store.jobs, id, expected)
    ensures Step(c, w, BeginTrigger(p, id, expected, actor)).Some? ==>
      var run := Run(w.store.jobs[id], w.store.jobs[id], Manual, actor, expected, 0);
      Step(c, w, BeginTrigger(p, id, expected, actor)).value == w.(procs := w.procs[p := Accepted(run)])
  {
  }

  // ---- the lease ----

  /** The context of an execution ends after the job's timeout. */
  lemma ExecuteIsPossible(c: Config, w: World, p: Pid)
    ensures Step(c, w, Execute(p)).Some? <==> p in w.procs && w.procs[p].Accepted?
    ensures Step(c, w, Execute(p)).Some? ==>
      var run := w.procs[p].run;
      Step(c, w, Execute(p)).value
      == w.(procs := w.procs[p := Waiting(run.(deadline := w.now + run.job.definition.timeout))])
  {
  }

  /** A lease is granted when the key is free or expired, for the timeout and 30 seconds. */
  lemma AcquireIsPossible(c: Config, w: World, p: Pid, ack: bool)
    requires p in w.procs && w.procs[p].Waiting?
    ensures var run := w.procs[p].run;
      && (Step(c, w, Acquire(p, ack)).Some? <==>
            && (run.job.id in w.leases ==> w.leases[run.job.id].expiry <= w.now)
            && w.now <= run.deadline)
      && (Step(c, w, Acquire(p, ack)).Some? ==>
            Step(c, w, Acquire(p, ack)).value
            == w.(leases := w.leases[run.job.id := Lease(p, w.now + run.job.definition.timeout + 30000)],
                  procs := w.procs[p := if ack then Leased(run) else Ended(Refused)]))
  {
  }

  lemma ReleaseIsPossible(c: Config, w: World, p: Pid, done: bool)
    ensures Step(c, w, Release(p, done)).Some? <==> p in w.procs && w.procs[p].Releasing?
    ensures Step(c, w, Release(p, done)).Some? ==>
      var after, id := Step(c, w, Release(p, done)).value, w.procs[p].jobId;
      && after.procs == w.procs[p := Ended(w.procs[p].reply)] && after.store == w.store
      && (done && id in w.leases && w.leases[id].owner == p ==> id !in after.leases)
      && (forall other :: other in w.leases && (other != id || w.leases[other].owner != p) ==>
            other in after.leases && after.leases[other] == w.leases[other])
  {
  }

  lemma RenewIsPossible(c: Config, w: World, p: Pid, expiry: int)
    requires p in w.procs && w.procs[p].InSection()
    ensures var id := w.procs[p].run.job.id;
      && (Step(c, w, Renew(p, expiry)).Some? <==>
            id in w.leases && w.leases[id].owner == p && w.leases[id].expiry <= expiry)
      && (Step(c, w, Renew(p, expiry)).Some? ==>
            Step(c, w, Renew(p, expiry)).value == w.(leases := w.leases[id := Lease(p, expiry)]))
  {
  }

  // ---- the running row ----

  /** The row lock is granted when nobody holds it and the row is not deleted. */
  lemma LockRowIsPossible(c: Config, w: World, p: Pid)
    requires p in w.procs && w.procs[p].Leased?
    ensures var run := w.procs[p].run;
      && (Step(c, w, LockRow(p)).Some? <==>
            && run.trigger == Manual && run.job.id !in w.rowLocks
            && run.job.id in w.store.jobs && w.store.jobs[run.job.id].audit.deletedAt == None)
      && (Step(c, w, LockRow(p)).Some? ==>
            Step(c, w, LockRow(p)).value
            == w.(rowLocks := w.rowLocks[run.job.id := p], procs := w.procs[p := Locked(run)]))
  {
  }

  /** A scheduled execution inserts at once, a manual one when the locked row is live, enabled and at its version. */
  lemma InsertIsPossible(c: Config, w: World, p: Pid, uuid: string, clock: int)
    requires p in w.procs && (w.procs[p].Leased? || w.procs[p].Locked?)
    ensures var proc := w.procs[p];
      && (Step(c, w, Action.Insert(p, uuid, clock)).Some? <==>
            && uuid !in w.issued
            && (proc.Leased? ==> proc.run.trigger == Scheduled)
            && (proc.Locked? ==> RunsAt(w.store.jobs, proc.run.job.id, proc.run.expected)))
      && (Step(c, w, Action.Insert(p, uuid, clock)).Some? ==>
            var run := proc.run;
            var audit := Audit(1, clock, run.actor, clock, run.actor, None, None);
            var row := Execution(
              uuid, run.job.id, run.job.scope, run.trigger, Outcome(Running, "", "", ""), clock, None, 0, audit);
            Step(c, w, Action.Insert(p, uuid, clock)).value
            == w.(issued := w.issued[uuid := p], procs := w.procs[p := Inserting(run, row)]))
  {
  }

  lemma CommitInsertIsPossible(c: Config, w: World, p: Pid, at: int, ack: bool)
    requires p in w.procs && w.procs[p].Inserting?
    ensures var run, e := w.procs[p].run, w.procs[p].execution;
      && (Step(c, w, CommitInsert(p, at, ack)).Some? <==>
            && e.id !in w.store.executions && e.jobId in w.store.jobs
            && (c.dialect == Explicit || run.actor != ""))
      && (Step(c, w, CommitInsert(p, at, ack)).Some? ==>
            var after := Step(c, w, CommitInsert(p, at, ack)).value;
            && after.store.jobs == w.store.jobs && e.id in after.store.executions
            && after.store.executions == w.store.executions[e.id := after.store.executions[e.id]]
            && after.store.executions[e.id] == e.(audit := after.store.executions[e.id].audit)
            && after.procs == w.procs[p := if ack then Recorded(run, e) else Releasing(run.job.id, Refused)]
            && Unlocked(w, p, after) && after.against == w.against[e.id := w.store.jobs[e.jobId]])
  {
  }

  // ---- the call and its result ----

  lemma InvokeIsPossible(c: Config, w: World, p: Pid)
    ensures Step(c, w, Invoke(p)).Some? <==> p in w.procs && w.procs[p].Recorded?
    ensures Step(c, w, Invoke(p)).Some? ==>
      var run, e := w.procs[p].run, w.procs[p].execution;
      Step(c, w, Invoke(p)).value
      == w.(invocations := w.invocations + [Invocation(p, e.id, run)], procs := w.procs[p := Invoking(run, e)])
  {
  }

  lemma ReturnIsPossible(c: Config, w: World, p: Pid, outcome: Outcome, clock: int)
    requires p in w.procs && w.procs[p].Invoking?
    ensures Step(c, w, Return(p, outcome, clock)).Some? <==> outcome.status != Running
    ensures Step(c, w, Return(p, outcome, clock)).Some? ==>
      var run, e := w.procs[p].run, w.procs[p].execution;
      var over := e.(outcome := outcome, finishedAt := Some(clock), duration := clock - e.startedAt,
                     audit := e.audit.(updatedAt := clock));
      Step(c, w, Return(p, outcome, clock)).value
      == w.(results := w.results[e.id := outcome], procs := w.procs[p := Returned(run, over)])
  {
  }

  /** The finishing transaction gets five seconds of its own. */
  lemma BeginFinishIsPossible(c: Config, w: World, p: Pid)
    ensures Step(c, w, BeginFinish(p)).Some? <==> p in w.procs && w.procs[p].Returned?
    ensures Step(c, w, BeginFinish(p)).Some? ==>
      Step(c, w, BeginFinish(p)).value
      == w.(procs := w.procs[p := Finishing(w.procs[p].run, w.procs[p].execution, w.now + 5000)])
  {
  }

  lemma CommitFinishIsPossible(c: Config, w: World, p: Pid, at: int, ack: bool)
    requires p in w.procs && w.procs[p].Finishing?
    ensures var run, e, rows := w.procs[p].run, w.procs[p].execution, w.store.executions;
      && (Step(c, w, CommitFinish(p, at, ack)).Some? <==>
            && e.id in rows && rows[e.id].audit.version == e.audit.version
            && (c.dialect == Explicit || run.actor != ""))
      && (Step(c, w, CommitFinish(p, at, ack)).Some? ==>
            var after := Step(c, w, CommitFinish(p, at, ack)).value;
            && after.store.jobs == w.store.jobs && e.id in after.store.executions
            && after.store.executions == rows[e.id := after.store.executions[e.id]]
            && after.store.executions[e.id]
               == rows[e.id].(outcome := e.outcome, finishedAt := e.finishedAt, duration := e.duration,
                              audit := after.store.executions[e.id].audit)
            && after.store.executions[e.id].audit.version == e.audit.version + 1
            && after.procs == w.procs[p := Releasing(run.job.id,
                 if ack then Executed(e.(audit := e.audit.(version := e.audit.version + 1))) else Refused)])
  {
  }

  // ---- clients ----

  lemma CreateIsPossible(c: Config, w: World, p: Pid, job: Job, actor: string, at: int, ack: bool)
    ensures Step(c, w, Create(p, job, actor, at, ack)).Some? <==>
      && p !in w.procs && actor != "" && job.id !in w.store.jobs
      && job.audit == Audit(1, job.audit.createdAt, actor, job.audit.createdAt, actor, None, None)
    ensures Step(c, w, Create(p, job, actor, at, ack)).Some? ==>
      var after := Step(c, w, Create(p, job, actor, at, ack)).value;
      && job.id in after.store.jobs && after.store.jobs == w.store.jobs[job.id := after.store.jobs[job.id]]
      && after.store.jobs[job.id] == job.(audit := after.store.jobs[job.id].audit)
      && after.store.jobs[job.id].audit.version == 1 && after.store.executions == w.store.executions
      && after.procs == w.procs[p := Ended(if ack then Created(job) else Refused)]
  {
  }

  lemma BeginUpdateIsPossible(c: Config, w: World, p: Pid, id: string, input: Definition, expected: int, actor: string)
    ensures Step(c, w, BeginUpdate(p, id, input, expected, actor)).Some? <==>
      && p !in w.procs && expected >= 1 && actor != ""
      && id in w.store.jobs && w.store.jobs[id].audit.deletedAt == None
    ensures Step(c, w, BeginUpdate(p, id, input, expected, actor)).Some? ==>
      Step(c, w, BeginUpdate(p, id, input, expected, actor)).value
      == w.(procs := w.procs[p := Updating(w.store.jobs[id], input, expected, actor)])
  {
  }

  /** An update takes effect exactly on an unlocked, live row at the expected version. */
  lemma CommitUpdateIsPossible(c: Config, w: World, p: Pid, clock: int, at: int, ack: bool)
    requires p in w.procs && w.procs[p].Updating? && w.procs[p].actor != ""
    ensures var id, jobs := w.procs[p].snapshot.id, w.store.jobs;
      && (Step(c, w, CommitUpdate(p, clock, at, ack)).Some? <==>
            && id !in w.rowLocks && id in jobs && jobs[id].audit.deletedAt == None
            && jobs[id].audit.version == w.procs[p].expected)
      && (Step(c, w, CommitUpdate(p, clock, at, ack)).Some? ==>
            var after := Step(c, w, CommitUpdate(p, clock, at, ack)).value;
            && id in after.store.jobs && after.store.jobs == jobs[id := after.store.jobs[id]]
            && after.store.jobs[id] == jobs[id].(definition := w.procs[p].input, audit := after.store.jobs[id].audit)
            && after.store.jobs[id].audit.version == jobs[id].audit.version + 1
            && after.store.jobs[id].audit.deletedAt == None && after.store.executions == w.store.executions
            && var read, who := w.procs[p].snapshot, w.procs[p].actor;
               var audit := read.audit.(version := w.procs[p].expected + 1, updatedAt := clock, updatedBy := who);
               after.procs == w.procs[p := Ended(
                 if ack then Updated(read.(definition := w.procs[p].input, audit := audit)) else Refused)])
  {
  }

  lemma BeginDeleteIsPossible(c: Config, w: World, p: Pid, id: string, expected: int, actor: string)
    ensures Step(c, w, BeginDelete(p, id, expected, actor)).Some? <==>
      && p !in w.procs && expected >= 1 && actor != ""
      && id in w.store.jobs && w.store.jobs[id].audit.deletedAt == None
    ensures Step(c, w, BeginDelete(p, id, expected, actor)).Some? ==>
      Step(c, w, BeginDelete(p, id, expected, actor)).value == w.(procs := w.procs[p := Deleting(id, expected, actor)])
  {
  }

  lemma CommitDeleteIsPossible(c: Config, w: World, p: Pid, clock: int, at: int, ack: bool)
    requires p in w.procs && w.procs[p].Deleting? && w.procs[p].actor != ""
    ensures var id, jobs := w.procs[p].id, w.store.jobs;
      && (Step(c, w, CommitDelete(p, clock, at, ack)).Some? <==>
            && id !in w.rowLocks && id in jobs && jobs[id].audit.deletedAt == None
            && jobs[id].audit.version == w.procs[p].expected)
      && (Step(c, w, CommitDelete(p, clock, at, ack)).Some? ==>
            var after := Step(c, w, CommitDelete(p, clock, at, ack)).value;
            && id in after.store.jobs && after.store.jobs == jobs[id := after.store.jobs[id]]
            && after.store.jobs[id] == jobs[id].(audit := after.store.jobs[id].audit)
            && after.store.jobs[id].audit.version == jobs[id].audit.version + 1
            && after.store.jobs[id].audit.deletedAt != None && after.store.executions == w.store.executions
            && after.procs == w.procs[p := Ended(if ack then Deleted(id, w.procs[p].expected) else Refused)])
  {
  }

  // ---- cleaners, failures and time ----

  lemma SelectIsPossible(c: Config, w: World, p: Pid, before: int, ids: set<string>)
    ensures Step(c, w, Select(p, before, ids)).Some? <==>
      && p !in w.procs
      && forall id :: id in ids ==>
           && id in w.store.executions
           && (w.store.executions[id].outcome.status == Succeeded || w.store.executions[id].outcome.status == Failed)
           && w.store.executions[id].finishedAt != None && w.store.executions[id].finishedAt.value < before
           && w.store.executions[id].audit.deletedAt == None
    ensures Step(c, w, Select(p, before, ids)).Some? ==>
      Step(c, w, Select(p, before, ids)).value == w.(procs := w.procs[p := Selected(ids, before)])
  {
  }

  /** The update repeats the retention test: of the selected rows it deletes exactly those that are still due. */
  lemma SweepIsPossible(c: Config, w: World, p: Pid, clock: int, at: int, ack: bool, id: string)
    requires p in w.procs && w.procs[p].Selected?
    ensures var next, rows := Step(c, w, SweepSelected(p, clock, at, ack)), w.store.executions;
      var Selected(ids, before) := w.procs[p];
      && next.Some? && next.value.store.jobs == w.store.jobs && next.value.store.executions.Keys == rows.Keys
      && (id in rows ==>
            var due := id in ids && (rows[id].outcome.status == Succeeded || rows[id].outcome.status == Failed)
                       && rows[id].finishedAt != None && rows[id].finishedAt.value < before
                       && rows[id].audit.deletedAt == None;
            var row := next.value.store.executions[id];
            && (!due ==> row == rows[id])
            && (due ==> row == rows[id].(audit := row.audit) && row.audit.deletedAt != None
                        && row.audit.version == rows[id].audit.version + 1
                        && row.audit.deletedBy == Some("scheduler-service")))
  {
    var Selected(ids, before) := w.procs[p];
    var tx := Session(c.dialect, SYSTEM_ACTOR, at);
    if id in w.store.executions {
      SweepOnRow(tx, w.store.executions, ids, before, clock, SYSTEM_ACTOR, id);
      if w.store.executions[id].audit.deletedAt == None {
        SweptOnColumns(tx, w.store.executions[id], clock, SYSTEM_ACTOR);
      }
    }
    SweepIsTheUpdate(c, w, p, clock, at, ack);
    hide Sweep, SweptExecution, Step;
  }

  /** A confirmed sweep reports as many rows as it deleted, an unconfirmed one an error. */
  lemma SweepIsReported(c: Config, w: World, p: Pid, clock: int, at: int, ack: bool)
    requires p in w.procs && w.procs[p].Selected?
    ensures var Selected(ids, before) := w.procs[p];
      var after, hit := Step(c, w, SweepSelected(p, clock, at, ack)).value, ids * Expired(w.store.executions, before);
      && after.batches == w.batches + [Batch(p, before, hit)]
      && after.procs == w.procs[p := Ended(if ack then Swept(|hit|) else Refused)]
  {
    hide Sweep, Expired;
  }

  lemma SweepIsTheUpdate(c: Config, w: World, p: Pid, clock: int, at: int, ack: bool)
    requires p in w.procs && w.procs[p].Selected?
    ensures var next := Step(c, w, SweepSelected(p, clock, at, ack));
      var Selected(ids, before) := w.procs[p];
      var swept := Sweep(Session(c.dialect, SYSTEM_ACTOR, at), w.store.executions, ids, before, clock, SYSTEM_ACTOR);
      && next.Some? && next.value.store == w.store.(executions := swept) && swept.Keys == w.store.executions.Keys
  {
    hide SweptExecution;
  }

  lemma FailuresArePossible(c: Config, w: World, p: Pid)
    ensures Step(c, w, Crash(p)).Some? <==> p in w.procs && !w.procs[p].Ended?
    ensures Step(c, w, Abort(p)).Some? <==>
      && p in w.procs && !w.procs[p].Ended? && !w.procs[p].Releasing?
      && !w.procs[p].Recorded? && !w.procs[p].Invoking? && !w.procs[p].Returned?
    ensures Step(c, w, Crash(p)).Some? ==>
      var after := Step(c, w, Crash(p)).value;
      after.store == w.store && Unlocked(w, p, after) && after.procs == w.procs[p := Ended(Crashed)]
    ensures Step(c, w, Abort(p)).Some? ==>
      var after, proc := Step(c, w, Abort(p)).value, w.procs[p];
      && after.store == w.store && Unlocked(w, p, after)
      && after.procs
         == w.procs[p := if proc.InSection() then Releasing(proc.run.job.id, Refused) else Ended(Refused)]
  {
  }

  /** Time passes until a process in its section reaches its deadline and pause, or the end of its last write. */
  lemma TickIsPossible(c: Config, w: World, delay: nat)
    ensures Step(c, w, Tick(delay)).Some? <==>
      forall p :: p in w.procs && w.procs[p].InSection() ==>
        w.now + delay <= if w.procs[p].Finishing? then w.procs[p].limit else w.procs[p].run.deadline + c.pause
    ensures Step(c, w, Tick(delay)).Some? ==> Step(c, w, Tick(delay)).value == w.(now := w.now + delay)
  {
  }

  // ---- progress ----

  /** From its insert on, an execution can always take its next step: its row is there, and open. */
  lemma SectionIsNeverStuck(c: Config, w: World, p: Pid, outcome: Outcome, clock: int, at: int, ack: bool)
    requires Reachable(c, w) && p in w.procs && outcome.status != Running
    requires w.procs[p].HasExecution() && (c.dialect == Explicit || w.procs[p].run.actor != "")
    ensures match w.procs[p]
      case Inserting(_, _) => Step(c, w, CommitInsert(p, at, ack)).Some?
      case Recorded(_, _) => Step(c, w, Invoke(p)).Some?
      case Invoking(_, _) => Step(c, w, Return(p, outcome, clock)).Some?
      case Returned(_, _) => Step(c, w, BeginFinish(p)).Some?
      case Finishing(_, _, _) => Step(c, w, CommitFinish(p, at, ack)).Some?
      case _ => false
  {
    hide Step, Reachable;
    OwnRow(c, w, p);
    if w.procs[p].Inserting? { CommitInsertIsPossible(c, w, p, at, ack); }
    if w.procs[p].Invoking? { ReturnIsPossible(c, w, p, outcome, clock); }
    if w.procs[p].Finishing? { CommitFinishIsPossible(c, w, p, at, ack); }
    InvokeIsPossible(c, w, p);
    BeginFinishIsPossible(c, w, p);
  }

  lemma OwnRow(c: Config, w: World, p: Pid)
    requires Reachable(c, w) && p in w.procs && w.procs[p].HasExecution()
    ensures var proc, e := w.procs[p], w.procs[p].execution;
      && e.jobId in w.store.jobs && e.audit.version == 1
      && (proc.Inserting? ==> e.id !in w.store.executions)
      && (proc.HasRow() ==> e.id in w.store.executions && w.store.executions[e.id].audit.version == 1)
  {
    ReachableIsSound(c, w);
    assert ProcessOk(c, w, p, w.procs[p]);
  }

  // ---- an updated job runs on schedule ----

  /** The job has been updated once and is what replica 0 has loaded; the process of its tick is at `proc`. */
  ghost predicate Loaded(w: World, proc: Option<Process>)
  {
    && RunsAt(w.store.jobs, "j", 2) && w.store.jobs["j"].id == "j" && w.store.jobs["j"].definition.timeout >= 0
    && 0 in w.entries && "j" in w.entries[0] && w.entries[0]["j"] == w.store.jobs["j"]
    && w.leases == map[] && "e" !in w.store.executions && "e" !in w.issued && w.invocations == []
    && (if proc == None then 2 !in w.procs else 2 in w.procs && w.procs[2] == proc.value)
  }

  lemma UpdateLeavesTheRest(c: Config, w: World, after: World)
    requires Step(c, w, CommitUpdate(1, 0, 0, true)) == Some(after)
    ensures after.procs.Keys == w.procs.Keys && after.leases == w.leases && after.issued == w.issued
    ensures after.invocations == w.invocations
  {
    hide Apply;
  }

  lemma UpdateReport(c: Config) returns (w: World)
    ensures Reachable(c, w) && RunsAt(w.store.jobs, "j", 2) && w.store.jobs["j"].scope == Scope("t", "a")
    ensures 2 !in w.procs && w.leases == map[] && "e" !in w.store.executions && "e" !in w.issued && w.invocations == []
    ensures w.store.jobs["j"].id == "j" && w.store.jobs["j"].definition.timeout >= 0
  {
    var start := Overlap.CreateReport(c);
    var d := start.store.jobs["j"].definition;
    hide Step, Reachable;
    BeginUpdateIsPossible(c, start, 1, "j", d, 1, "x");
    var begun := Step(c, start, BeginUpdate(1, "j", d, 1, "x")).value;
    ReachableExtends(c, start, BeginUpdate(1, "j", d, 1, "x"), begun);
    CommitUpdateIsPossible(c, begun, 1, 0, 0, true);
    w := Step(c, begun, CommitUpdate(1, 0, 0, true)).value;
    ReachableExtends(c, begun, CommitUpdate(1, 0, 0, true), w);
    UpdateLeavesTheRest(c, begun, w);
  }

  lemma LoadReport(c: Config) returns (w: World)
    ensures Reachable(c, w) && Loaded(w, None)
  {
    hide Step, Reachable;
    var start := UpdateReport(c);
    ReloadIsPossible(c, start, 0, "j");
    w := Step(c, start, Reload(0)).value;
    ReachableExtends(c, start, Reload(0), w);
  }

  lemma FireReport(c: Config) returns (w: World, run: Run)
    ensures Reachable(c, w) && Loaded(w, Some(Accepted(run)))
    ensures run.job == w.store.jobs["j"] && run.trigger == Scheduled && run.actor == "scheduler-service"
  {
    hide Step, Reachable;
    var start := LoadReport(c);
    FireIsPossible(c, start, 2, 0, "j");
    var fired := Step(c, start, Fire(2, 0, "j")).value;
    ReachableExtends(c, start, Fire(2, 0, "j"), fired);
    ReReadIsPossible(c, fired, 2);
    w := Step(c, fired, ReRead(2)).value;
    ReachableExtends(c, fired, ReRead(2), w);
    run := w.procs[2].run;
  }

  lemma LeaseReport(c: Config) returns (w: World, run: Run)
    ensures Reachable(c, w) && 2 in w.procs && w.procs[2] == Leased(run) && run.trigger == Scheduled
    ensures run.job.audit.version == 2 && run.job.id == "j" && "j" in w.store.jobs && run.actor == "scheduler-service"
    ensures "e" !in w.store.executions && "e" !in w.issued && w.invocations == []
  {
    var start, first := FireReport(c);
    hide Step, Reachable;
    ExecuteIsPossible(c, start, 2);
    var waiting := Step(c, start, Execute(2)).value;
    ReachableExtends(c, start, Execute(2), waiting);
    run := waiting.procs[2].run;
    AcquireIsPossible(c, waiting, 2, true);
    w := Step(c, waiting, Acquire(2, true)).value;
    ReachableExtends(c, waiting, Acquire(2, true), w);
  }

  /** An updated job does run on schedule: an invocation of a job at version 2 is reachable. */
  lemma UpdatedJobRunsOnSchedule(c: Config) returns (w: World)
    ensures Reachable(c, w) && |w.invocations| == 1
    ensures w.invocations[0].run.trigger == Scheduled && w.invocations[0].run.job.audit.version == 2
  {
    var start, run := LeaseReport(c);
    hide Step, Reachable;
    InsertIsPossible(c, start, 2, "e", 0);
    var inserting := Step(c, start, Action.Insert(2, "e", 0)).value;
    ReachableExtends(c, start, Action.Insert(2, "e", 0), inserting);
    CommitInsertIsPossible(c, inserting, 2, 0, true);
    var recorded := Step(c, inserting, CommitInsert(2, 0, true)).value;
    ReachableExtends(c, inserting, CommitInsert(2, 0, true), recorded);
    assert recorded.invocations == [] by { InsertLeavesCalls(c, inserting, recorded); }
    InvokeIsPossible(c, recorded, 2);
    w := Step(c, recorded, Invoke(2)).value;
    ReachableExtends(c, recorded, Invoke(2), w);
  }

  lemma InsertLeavesCalls(c: Config, w: World, after: World)
    requires Step(c, w, CommitInsert(2, 0, true)) == Some(after)
    ensures after.invocations == w.invocations
  {
  }
}
