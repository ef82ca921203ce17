/** What the execution protocol guarantees in every reachable state. */
module ProtocolTheorems {
  import opened Records
  import opened AuditTrail
  import opened Statements
  import opened Protocol
  import opened ProtocolInvariant
  import opened ProtocolPreservation
  import opened ProtocolWrites
  import opened ProtocolExecutions

  // ---- the invariant over all runs ----

  lemma ClientStepKeeps(c: Config, w: World, a: Action, after: World)
    requires Inv(c, w) && Step(c, w, a) == Some(after)
    requires a.Create? || a.BeginUpdate? || a.CommitUpdate? || a.BeginDelete? || a.CommitDelete? || a.BeginTrigger?
        || a.Reload?
    ensures Inv(c, after)
  {
    hide Inv;
    match a
    case Create(p, job, actor, at, ack) => CreateKeeps(c, w, p, job, actor, at, ack, after);
    case BeginUpdate(p, id, input, expected, actor) => BeginUpdateKeeps(c, w, p, id, input, expected, actor, after);
    case CommitUpdate(p, clock, at, ack) => UpdateKeeps(c, w, p, clock, at, ack, after);
    case BeginDelete(p, id, expected, actor) => BeginDeleteKeeps(c, w, p, id, expected, actor, after);
    case CommitDelete(p, clock, at, ack) => DeleteKeeps(c, w, p, clock, at, ack, after);
    case BeginTrigger(p, id, expected, actor) => BeginTriggerKeeps(c, w, p, id, expected, actor, after);
    case Reload(replica) => ReloadKeeps(c, w, replica);
  }

  lemma LeaseStepKeeps(c: Config, w: World, a: Action, after: World)
    requires Inv(c, w) && Step(c, w, a) == Some(after)
    requires a.Tick? || a.Fire? || a.ReRead? || a.Execute? || a.Acquire? || a.Renew? || a.Release? || a.Abort?
        || a.Crash?
    ensures Inv(c, after)
  {
    hide Inv, FireStep, ReReadStep, ExecuteStep, AcquireStep, RenewStep, ReleaseStep, AbortStep, CrashStep, TickStep;
    match a
    case Tick(delay) => TickKeeps(c, w, delay, after);
    case Fire(p, replica, id) => FireKeeps(c, w, p, replica, id, after);
    case ReRead(p) => ReReadKeeps(c, w, p, after);
    case Execute(p) => ExecuteKeeps(c, w, p, after);
    case Acquire(p, ack) => AcquireKeeps(c, w, p, ack, after);
    case Renew(p, expiry) => RenewKeeps(c, w, p, expiry, after);
    case Release(p, done) => ReleaseKeeps(c, w, p, done, after);
    case Abort(p) => AbortKeeps(c, w, p, after);
    case Crash(p) => AbortKeeps(c, w, p, after);
  }

  lemma CallStepKeeps(c: Config, w: World, a: Action, after: World)
    requires Inv(c, w) && Step(c, w, a) == Some(after)
    requires a.LockRow? || a.Insert? || a.CommitInsert? || a.Invoke? || a.Return?
    ensures Inv(c, after)
  {
    hide Inv, LockRowStep, InsertStep, CommitInsertStep, InvokeStep, ReturnStep;
    match a
    case LockRow(p) => LockRowKeeps(c, w, p, after);
    case Insert(p, uuid, clock) => InsertKeeps(c, w, p, uuid, clock, after);
    case CommitInsert(p, at, ack) => CommitInsertKeeps(c, w, p, at, ack, after);
    case Invoke(p) => InvokeKeeps(c, w, p, after);
    case Return(p, outcome, clock) => ReturnKeeps(c, w, p, outcome, clock, after);
  }

  lemma ResultStepKeeps(c: Config, w: World, a: Action, after: World)
    requires Inv(c, w) && Step(c, w, a) == Some(after)
    requires a.BeginFinish? || a.CommitFinish? || a.Select? || a.SweepSelected?
    ensures Inv(c, after)
  {
    hide Inv, BeginFinishStep, CommitFinishStep, SelectStep, SweepStep;
    match a
    case BeginFinish(p) => BeginFinishKeeps(c, w, p, after);
    case CommitFinish(p, at, ack) => FinishKeeps(c, w, p, at, ack, after);
    case Select(p, before, ids) => SelectKeeps(c, w, p, before, ids, after);
    case SweepSelected(p, clock, at, ack) => SweepKeeps(c, w, p, clock, at, ack, after);
  }

  lemma StepKeeps(c: Config, w: World, a: Action, after: World)
    requires Inv(c, w) && Step(c, w, a) == Some(after)
    ensures Inv(c, after)
  {
    hide Inv, Step;
    if a.Create? || a.BeginUpdate? || a.CommitUpdate? || a.BeginDelete? || a.CommitDelete? || a.BeginTrigger?
        || a.Reload? {
      ClientStepKeeps(c, w, a, after);
    } else if a.Tick? || a.Fire? || a.ReRead? || a.Execute? || a.Acquire? || a.Renew? || a.Release? || a.Abort?
        || a.Crash? {
      LeaseStepKeeps(c, w, a, after);
    } else if a.LockRow? || a.Insert? || a.CommitInsert? || a.Invoke? || a.Return? {
      CallStepKeeps(c, w, a, after);
    } else {
      ResultStepKeeps(c, w, a, after);
    }
  }

  lemma {:induction false} RunKeeps(c: Config, w: World, actions: seq<Action>)
    requires Inv(c, w) && RunFrom(c, w, actions).Some?
    ensures Inv(c, RunFrom(c, w, actions).value)
    decreases |actions|
  {
    hide Inv, Step;
    if actions != [] {
      var next := Step(c, w, actions[0]).value;
      StepKeeps(c, w, actions[0], next);
      RunKeeps(c, next, actions[1..]);
    }
  }

  /** `w` is the state after some run from empty tables. */
  ghost predicate Reachable(c: Config, w: World)
  {
    exists actions :: RunFrom(c, Start, actions) == Some(w)
  }

  lemma ReachableIsSound(c: Config, w: World)
    requires Reachable(c, w)
    ensures Inv(c, w)
  {
    StartIsSound(c);
    var actions :| RunFrom(c, Start, actions) == Some(w);
    RunKeeps(c, Start, actions);
  }

  lemma StartIsReachable(c: Config)
    ensures Reachable(c, Start)
  {
    assert RunFrom(c, Start, []) == Some(Start);
  }

  lemma {:induction false} RunExtends(c: Config, start: World, actions: seq<Action>, w: World, a: Action, after: World)
    requires RunFrom(c, start, actions) == Some(w) && Step(c, w, a) == Some(after)
    ensures RunFrom(c, start, actions + [a]) == Some(after)
    decreases |actions|
  {
    hide Step;
    if actions == [] {
      assert RunFrom(c, after, []) == Some(after);
      assert (actions + [a])[1..] == [];
    } else {
      var next := Step(c, start, actions[0]).value;
      RunExtends(c, next, actions[1..], w, a, after);
      assert (actions + [a])[1..] == actions[1..] + [a];
    }
  }

  lemma ReachableExtends(c: Config, w: World, a: Action, after: World)
    requires Reachable(c, w) && Step(c, w, a) == Some(after)
    ensures Reachable(c, after)
  {
    hide Step;
    var actions :| RunFrom(c, Start, actions) == Some(w);
    RunExtends(c, Start, actions, w, a, after);
  }

  // ---- mutual exclusion ----

  /** The section of an execution is over strictly before its lease can be granted to another. */
  lemma SectionInsideLease(c: Config, w: World, p: Pid)
    requires Reachable(c, w) && Punctual(c) && p in w.procs && w.procs[p].InSection()
    ensures var id := w.procs[p].run.job.id;
      id in w.leases && w.leases[id].owner == p && w.now < w.leases[id].expiry && !Free(w.leases, id, w.now)
  {
    ReachableIsSound(c, w);
    assert ProcessOk(c, w, p, w.procs[p]);
  }

  /** Two executions of one job never overlap, whatever changes its timeout and whether or not leases are renewed. */
  lemma MutualExclusion(c: Config, w: World, p: Pid, q: Pid)
    requires Reachable(c, w) && Punctual(c)
    requires p in w.procs && w.procs[p].InSection() && q in w.procs && w.procs[q].InSection()
    requires w.procs[p].run.job.id == w.procs[q].run.job.id
    ensures p == q
  {
    SectionInsideLease(c, w, p);
    SectionInsideLease(c, w, q);
  }

  // ---- what an execution runs ----

  /** A manual call runs the job row as it was, live and enabled, when its execution row was inserted. */
  lemma ManualRunsWhatItRecorded(c: Config, w: World, i: Invocation)
    requires Reachable(c, w) && i in w.invocations && i.run.trigger == Manual
    ensures i.key in w.against && w.against[i.key] == i.run.job && i.run.job.Runnable()
    ensures i.run.job.audit.version == i.run.expected
    ensures i.key in w.store.executions && w.store.executions[i.key].jobId == i.run.job.id
  {
    ReachableIsSound(c, w);
    var k :| 0 <= k < |w.invocations| && w.invocations[k] == i;
    assert InvocationOk(w.history, BooksOf(w), w.invocations[k]);
  }

  /** A scheduled call runs the definition its cron entry was loaded with, however old the entry is. */
  lemma ScheduledRunsWhatItLoaded(c: Config, w: World, i: Invocation)
    requires Reachable(c, w) && i in w.invocations && i.run.trigger == Scheduled
    ensures i.run.job == i.run.loaded && i.run.job.Runnable() && Committed(w.history, i.run.job)
  {
    ReachableIsSound(c, w);
    var k :| 0 <= k < |w.invocations| && w.invocations[k] == i;
    assert InvocationOk(w.history, BooksOf(w), w.invocations[k]);
  }

  /** The re-read after the tick finds that definition as the live, enabled row of that instant. */
  lemma ReReadSeesTheLiveRow(c: Config, w: World, p: Pid, after: World)
    requires Reachable(c, w) && Step(c, w, ReRead(p)) == Some(after)
    ensures p in w.procs && w.procs[p].Fired? && p in after.procs && after.procs[p].Accepted?
    ensures var loaded := w.procs[p].loaded;
      loaded.id in w.store.jobs && w.store.jobs[loaded.id] == loaded && loaded.Runnable()
          && after.procs[p].run.job == loaded
  {
    ReachableIsSound(c, w);
    assert ProcessOk(c, w, p, w.procs[p]);
    CurrentIsCommitted(w.store.jobs, w.history, w.writers, w.procs[p].loaded.id);
  }

  // ---- the life of an execution row ----

  lemma SweepingMovesForward(c: Config, w: World, a: Action, after: World, id: string)
    requires Rows(w.store, w.issued, w.results) && Step(c, w, a) == Some(after) && id in w.store.executions
    requires a.SweepSelected?
    ensures id in after.store.executions && MovesForward(w.store.executions[id], after.store.executions[id])
  {
    SweepMovesForward(c, w, a.p, a.clock, a.at, a.ack, after, id);
  }

  lemma FinishingMovesForward(c: Config, w: World, a: Action, after: World, id: string)
    requires Step(c, w, a) == Some(after) && id in w.store.executions
    requires a.CommitFinish? && a.p in w.procs ==> OwnsExecution(BooksOf(w), a.p, w.procs[a.p])
    requires a.CommitFinish?
    ensures id in after.store.executions && MovesForward(w.store.executions[id], after.store.executions[id])
  {
    FinishMovesForward(c, w, a.p, a.at, a.ack, after, id);
  }

  lemma InsertingMovesForward(c: Config, w: World, a: Action, after: World, id: string)
    requires Step(c, w, a) == Some(after) && id in w.store.executions
    requires a.CommitInsert?
    ensures id in after.store.executions && MovesForward(w.store.executions[id], after.store.executions[id])
  {
    InsertKeepsRows(c, w, a.p, a.at, a.ack, after, id);
  }

  lemma OthersMoveForward(c: Config, w: World, a: Action, after: World, id: string)
    requires Step(c, w, a) == Some(after) && id in w.store.executions
    requires !a.SweepSelected? && !a.CommitFinish? && !a.CommitInsert?
    ensures id in after.store.executions && MovesForward(w.store.executions[id], after.store.executions[id])
  {
    if a.Create? || a.BeginUpdate? || a.CommitUpdate? || a.BeginDelete? || a.CommitDelete? || a.BeginTrigger?
        || a.Reload? {
      ClientsKeepRows(c, w, a, after);
    } else {
      LocalsKeepStore(c, w, a, after);
    }
  }

  lemma RowMovesForward(c: Config, w: World, a: Action, after: World, id: string)
    requires Rows(w.store, w.issued, w.results) && Step(c, w, a) == Some(after) && id in w.store.executions
    requires a.CommitFinish? && a.p in w.procs ==> OwnsExecution(BooksOf(w), a.p, w.procs[a.p])
    ensures id in after.store.executions && MovesForward(w.store.executions[id], after.store.executions[id])
  {
    if a.SweepSelected? {
      SweepingMovesForward(c, w, a, after, id);
    } else if a.CommitFinish? {
      FinishingMovesForward(c, w, a, after, id);
    } else if a.CommitInsert? {
      InsertingMovesForward(c, w, a, after, id);
    } else {
      OthersMoveForward(c, w, a, after, id);
    }
  }

  lemma EveryRowIsOpenFinishedOrRetired(c: Config, w: World, id: string)
    requires Reachable(c, w) && id in w.store.executions
    ensures var e := w.store.executions[id]; Open(e) || Finished(e) || Retired(e)
    ensures var e := w.store.executions[id];
      var terminal := e.outcome.status == Succeeded || e.outcome.status == Failed;
      || (e.outcome.status == Running && e.audit.version == 1 && e.finishedAt == None && e.audit.deletedAt == None)
      || (terminal && e.audit.version == 2 && e.finishedAt != None && e.audit.deletedAt == None)
      || (terminal && e.audit.version == 3 && e.finishedAt != None && e.audit.deletedAt != None)
  {
    ReachableIsSound(c, w);
    assert RowOk(id, w.store.executions[id], w.store.jobs, w.results);
  }

  lemma RowsMoveForward(c: Config, w: World, a: Action, after: World, id: string)
    requires Reachable(c, w) && Step(c, w, a) == Some(after) && id in w.store.executions
    ensures id in after.store.executions && MovesForward(w.store.executions[id], after.store.executions[id])
  {
    ReachableIsSound(c, w);
    assert a.CommitFinish? && a.p in w.procs ==> ProcessOk(c, w, a.p, w.procs[a.p]);
    RowMovesForward(c, w, a, after, id);
  }

  /**
   * Without testing deleted_at, the finishing UPDATE still never meets a finished or deleted row, nor misses its
   * own.
   */
  lemma FinishMeetsAnOpenRow(c: Config, w: World, p: Pid, tx: Session)
    requires Reachable(c, w) && p in w.procs && w.procs[p].Finishing?
    ensures var e := w.procs[p].execution;
      && e.id in w.store.executions && Open(w.store.executions[e.id])
      && (Apply(tx, w.store, FinishExecution(e)).Ok? <==> tx.dialect == Explicit || tx.actor != "")
  {
    ReachableIsSound(c, w);
    FinishingIsOpen(c, w, p);
    OpenRowAcceptsFinish(w.store, w.procs[p].execution, tx);
  }

  lemma OpenRowAcceptsFinish(store: Store, e: Execution, tx: Session)
    requires e.id in store.executions && Open(store.executions[e.id]) && e.audit.version == 1
    ensures Apply(tx, store, FinishExecution(e)).Ok? <==> tx.dialect == Explicit || tx.actor != ""
  {
  }

  lemma FinishingIsOpen(c: Config, w: World, p: Pid)
    requires Inv(c, w) && p in w.procs && w.procs[p].Finishing?
    ensures var e := w.procs[p].execution;
      e.id in w.store.executions && Open(w.store.executions[e.id])
      && e.audit.version == 1
  {
    hide Tables;
    assert ProcessOk(c, w, p, w.procs[p]);
  }

  // ---- no lost updates ----

  /**
   * The committed versions of a job are 1, 2, 3, ..., all of one scope and one creator, and only the last can be
   * deleted.
   */
  lemma VersionsFormOneChain(c: Config, w: World, id: string)
    requires Reachable(c, w) && id in w.store.jobs
    ensures id in w.history && w.history[id] != [] && w.store.jobs[id] == w.history[id][|w.history[id]| - 1]
    ensures forall k :: 0 <= k < |w.history[id]| ==>
      var v := w.history[id][k];
      && v.id == id && v.audit.version == k + 1 && v.scope == w.store.jobs[id].scope
      && v.audit.createdBy == w.store.jobs[id].audit.createdBy && (k < |w.history[id]| - 1 ==> v.Live())
  {
    ReachableIsSound(c, w);
    forall k | 0 <= k < |w.history[id]| ensures VersionOf(w.history[id][k], w.store.jobs[id], k) {}
  }

  /** The version a successful call reports having written. */
  function ReportedVersion(reply: Reply): Option<(string, int)>
  {
    match reply
    case Created(job) => Some((job.id, 1))
    case Updated(job) => Some((job.id, job.audit.version))
    case Deleted(id, expected) => Some((id, expected + 1))
    case _ => None
  }

  /** Of all calls that expected the same version of a job, at most one succeeded. */
  lemma OneWinnerPerVersion(c: Config, w: World, p: Pid, q: Pid)
    requires Reachable(c, w) && p in w.procs && q in w.procs && w.procs[p].Ended? && w.procs[q].Ended?
    requires ReportedVersion(w.procs[p].reply).Some? && ReportedVersion(w.procs[p].reply)
        == ReportedVersion(w.procs[q].reply)
    ensures p == q
  {
    ReachableIsSound(c, w);
    assert ProcessOk(c, w, p, w.procs[p]);
    assert ProcessOk(c, w, q, w.procs[q]);
  }

  /** What Update returned is, up to audit timestamps, the version it committed. */
  lemma UpdateReturnsTheCommittedRow(c: Config, w: World, p: Pid)
    requires Reachable(c, w) && p in w.procs && w.procs[p].Ended? && w.procs[p].reply.Updated?
    ensures var job := w.procs[p].reply.job;
      job.id in w.history && 2 <= job.audit.version <= |w.history[job.id]|
          && SameJob(job, w.history[job.id][job.audit.version - 1])
  {
    ReachableIsSound(c, w);
    assert ProcessOk(c, w, p, w.procs[p]);
  }

  predicate WritesJobs(a: Action) { a.Create? || a.CommitUpdate? || a.CommitDelete? }

  predicate WritesExecutions(a: Action) { a.CommitInsert? || a.CommitFinish? || a.SweepSelected? }

  lemma ExecutionWritesLeaveJobs(c: Config, w: World, a: Action, after: World)
    requires Step(c, w, a) == Some(after) && WritesExecutions(a)
    ensures after.store.jobs == w.store.jobs
  {
    hide Sweep, FinishedExecution, InsertedExecution;
  }

  lemma OthersLeaveJobs(c: Config, w: World, a: Action, after: World)
    requires Step(c, w, a) == Some(after) && !WritesJobs(a)
    ensures after.store.jobs == w.store.jobs
  {
    hide CreateStep, CommitUpdateStep, CommitDeleteStep, CommitInsertStep, CommitFinishStep, SweepStep, Apply;
    if WritesExecutions(a) {
      ExecutionWritesLeaveJobs(c, w, a, after);
    }
  }

  lemma CreateLeavesRows(c: Config, w: World, a: Action, after: World, id: string)
    requires Step(c, w, a) == Some(after) && a.Create? && id in w.store.jobs
    ensures id in after.store.jobs && after.store.jobs[id] == w.store.jobs[id]
  {
  }

  lemma UpdateNeedsALiveRow(c: Config, w: World, a: Action, after: World, id: string)
    requires Step(c, w, a) == Some(after) && a.CommitUpdate? && id in w.store.jobs
    ensures id in after.store.jobs && after.store.jobs[id].scope == w.store.jobs[id].scope
    ensures !w.store.jobs[id].Live() ==> after.store.jobs[id] == w.store.jobs[id]
  {
  }

  lemma DeleteNeedsALiveRow(c: Config, w: World, a: Action, after: World, id: string)
    requires Step(c, w, a) == Some(after) && a.CommitDelete? && id in w.store.jobs
    ensures id in after.store.jobs && after.store.jobs[id].scope == w.store.jobs[id].scope
    ensures !w.store.jobs[id].Live() ==> after.store.jobs[id] == w.store.jobs[id]
  {
  }

  /** No step moves a job to another tenant or application, or takes its row away. */
  lemma StepKeepsScopes(c: Config, w: World, a: Action, after: World, id: string)
    requires Step(c, w, a) == Some(after) && id in w.store.jobs
    ensures id in after.store.jobs && after.store.jobs[id].scope == w.store.jobs[id].scope
    ensures !w.store.jobs[id].Live() ==> after.store.jobs[id] == w.store.jobs[id]
  {
    hide Step;
    if a.Create? {
      CreateLeavesRows(c, w, a, after, id);
    } else if a.CommitUpdate? {
      UpdateNeedsALiveRow(c, w, a, after, id);
    } else if a.CommitDelete? {
      DeleteNeedsALiveRow(c, w, a, after, id);
    } else {
      OthersLeaveJobs(c, w, a, after);
    }
  }

  /** A deleted job is never written again. */
  lemma DeletedJobsAreFrozen(c: Config, w: World, a: Action, after: World, id: string)
    requires Step(c, w, a) == Some(after) && id in w.store.jobs && !w.store.jobs[id].Live()
    ensures id in after.store.jobs && after.store.jobs[id] == w.store.jobs[id]
  {
    hide Step;
    StepKeepsScopes(c, w, a, after, id);
  }

  // ---- the ledger of upstream calls ----

  /** At the moment of a call its execution row is committed and open, and its key has never been used. */
  lemma CallsAreWrittenAhead(c: Config, w: World, p: Pid, after: World)
    requires Reachable(c, w) && Step(c, w, Invoke(p)) == Some(after)
    ensures p in w.procs && w.procs[p].Recorded?
    ensures var Recorded(run, e) := w.procs[p];
      && e.id in w.store.executions && Open(w.store.executions[e.id]) && ExecutionOf(w.store.executions[e.id], run)
      && !Invoked(w.invocations, e.id) && after.invocations == w.invocations + [Invocation(p, e.id, run)]
  {
    ReachableIsSound(c, w);
    assert ProcessOk(c, w, p, w.procs[p]);
  }

  /** No two calls carry the same key, and every key is the id of a row that is still in the table. */
  lemma KeysAreUnique(c: Config, w: World, i: nat, j: nat)
    requires Reachable(c, w) && i < |w.invocations| && j < |w.invocations|
    ensures w.invocations[i].key == w.invocations[j].key ==> i == j
    ensures w.invocations[i].key in w.store.executions
  {
    ReachableIsSound(c, w);
    assert InvocationOk(w.history, BooksOf(w), w.invocations[i]);
  }

  /** A terminal row records the outcome its own call returned, also after it was cleaned. */
  lemma TerminalRowsRecordTheirCall(c: Config, w: World, id: string)
    requires Reachable(c, w) && id in w.store.executions && w.store.executions[id].Terminal()
    ensures Invoked(w.invocations, id) && id in w.results && w.results[id] == w.store.executions[id].outcome
  {
    ReachableIsSound(c, w);
    assert RowOk(id, w.store.executions[id], w.store.jobs, w.results);
  }

  // ---- cleaning on many replicas ----

  /** The sizes of the batches all cleaners deleted, added up. */
  function Counted(batches: seq<Batch>): nat
  {
    if batches == [] then 0 else Counted(batches[..|batches| - 1]) + |batches[|batches| - 1].ids|
  }

  function Cleaned(batches: seq<Batch>): set<string>
  {
    set i, id | 0 <= i < |batches| && id in batches[i].ids :: id
  }

  lemma {:induction false} DisjointBatchesAddUp(batches: seq<Batch>)
    requires forall i, j :: 0 <= i < j < |batches| ==> batches[i].ids !! batches[j].ids
    ensures Counted(batches) == |Cleaned(batches)|
    decreases |batches|
  {
    if batches == [] {
      assert Cleaned(batches) == {};
    } else {
      var rest, last := batches[..|batches| - 1], batches[|batches| - 1];
      DisjointBatchesAddUp(rest);
      assert Cleaned(rest) !! last.ids;
      assert Cleaned(batches) == Cleaned(rest) + last.ids;
    }
  }

  function DeletedIds(executions: map<string, Execution>): set<string>
  {
    set id | id in executions && !executions[id].Live()
  }

  lemma BatchesCoverDeletions(executions: map<string, Execution>, batches: seq<Batch>)
    requires Batches(executions, batches)
    ensures Cleaned(batches) == DeletedIds(executions)
  {
    forall id | id in Cleaned(batches) ensures id in DeletedIds(executions) {
      var i :| 0 <= i < |batches| && id in batches[i].ids;
      assert BatchOk(executions, batches[i]);
    }
  }

  /** However cleaners interleave, the sizes of their batches add up to the number of deleted rows. */
  lemma BatchesAddUp(c: Config, w: World)
    requires Reachable(c, w)
    ensures Counted(w.batches) == |DeletedIds(w.store.executions)|
  {
    ReachableIsSound(c, w);
    BatchesCoverDeletions(w.store.executions, w.batches);
    DisjointBatchesAddUp(w.batches);
  }

  /** A deleted row belongs to one batch, was terminal and older than that batch's cutoff, and was deleted once. */
  lemma EveryDeletionIsOneBatch(c: Config, w: World, id: string)
    requires Reachable(c, w) && id in DeletedIds(w.store.executions)
    ensures exists i :: 0 <= i < |w.batches| && id in w.batches[i].ids
    ensures forall i :: 0 <= i < |w.batches| && id in w.batches[i].ids ==>
      && Retired(w.store.executions[id]) && w.store.executions[id].finishedAt.value < w.batches[i].before
      && forall j :: 0 <= j < |w.batches| && id in w.batches[j].ids ==> i == j
  {
    ReachableIsSound(c, w);
    forall i | 0 <= i < |w.batches| && id in w.batches[i].ids
      ensures Retired(w.store.executions[id]) && w.store.executions[id].finishedAt.value < w.batches[i].before
    {
      assert BatchOk(w.store.executions, w.batches[i]);
    }
  }

  // ---- scope ----

  /** An execution belongs to the scope of its job, which no update can change. */
  lemma ExecutionsShareTheScopeOfTheirJob(c: Config, w: World, id: string)
    requires Reachable(c, w) && id in w.store.executions
    ensures var e := w.store.executions[id];
      e.id == id && e.jobId in w.store.jobs
      && e.scope == w.store.jobs[e.jobId].scope
  {
    ReachableIsSound(c, w);
    assert RowOk(id, w.store.executions[id], w.store.jobs, w.results);
  }
}
