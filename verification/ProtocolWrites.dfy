/** The actions that write the tables keep the invariant. */
module ProtocolWrites {
  import opened Records
  import opened AuditTrail
  import opened Statements
  import opened Protocol
  import opened ProtocolInvariant
  import opened ProtocolPreservation

  // ---- a new version of a job ----

  /** `row` can follow `prior` as the next version of the same job. */
  ghost predicate Follows(row: Job, prior: Job)
  {
    && prior.Live() && row.id == prior.id && row.scope == prior.scope
    && row.audit.version == prior.audit.version + 1
    && row.audit.createdAt == prior.audit.createdAt && row.audit.createdBy == prior.audit.createdBy
    && (row.Live() ==> row.audit.deletedBy == prior.audit.deletedBy)
  }

  lemma UpdateFollows(tx: Session, prior: Job, job: Job)
    requires prior.Live()
    ensures Follows(UpdatedJob(tx, prior, job), prior)
    ensures tx.actor == job.audit.updatedBy ==> UpdatedJob(tx, prior, job).audit.updatedBy == tx.actor
    ensures UpdatedJob(tx, prior, job).Live() && UpdatedJob(tx, prior, job).definition == job.definition
  {
  }

  lemma DeleteFollows(tx: Session, prior: Job, at: int, who: string)
    requires prior.Live()
    ensures Follows(DeletedJob(tx, prior, at, who), prior)
    ensures !DeletedJob(tx, prior, at, who).Live() && DeletedJob(tx, prior, at, who).definition == prior.definition
  {
  }

  lemma ChainGrows(chain: seq<Job>, prior: Job, row: Job)
    requires ChainOf(chain, prior) && Follows(row, prior)
    ensures ChainOf(chain + [row], row)
  {
    var longer := chain + [row];
    assert VersionOf(chain[|chain| - 1], prior, |chain| - 1);
    forall k | 0 <= k < |longer| ensures VersionOf(longer[k], row, k) {
      if k < |chain| { assert VersionOf(chain[k], prior, k); }
    }
  }

  /** The row of the job `id` is new, at version 1, or follows the live row before it. */
  ghost predicate Extends(w: World, store: Store, id: string)
  {
    && id in store.jobs && store.jobs == w.store.jobs[id := store.jobs[id]] && store.executions == w.store.executions
    && store.jobs[id].id == id
    && (if id in w.store.jobs then Follows(store.jobs[id], w.store.jobs[id])
        else VersionOf(store.jobs[id], store.jobs[id], 0))
  }

  lemma AppendGrows(w: World, p: Pid, store: Store, id: string)
    requires id in store.jobs
    ensures var after := Append(w, p, store, id); Grows(w.history, after.history) && Grows(w.writers, after.writers)
  {
  }

  lemma AppendedChain(w: World, p: Pid, store: Store, id: string)
    requires Histories(w.store.jobs, w.history, w.writers) && Extends(w, store, id)
    ensures var after := Append(w, p, store, id);
            ChainOf(after.history[id], store.jobs[id]) && |after.writers[id]| == |after.history[id]|
  {
    if id in w.store.jobs {
      ChainGrows(w.history[id], w.store.jobs[id], store.jobs[id]);
    }
  }

  lemma AppendKeepsHistories(w: World, p: Pid, store: Store, id: string)
    requires Histories(w.store.jobs, w.history, w.writers) && Extends(w, store, id)
    ensures var after := Append(w, p, store, id); Histories(after.store.jobs, after.history, after.writers)
  {
    var after := Append(w, p, store, id);
    AppendedChain(w, p, store, id);
    forall other | other in after.store.jobs && other != id
      ensures after.store.jobs[other].id == other && ChainOf(after.history[other], after.store.jobs[other])
      ensures |after.writers[other]| == |after.history[other]|
    {
      assert other in w.store.jobs;
    }
  }

  lemma AppendKeepsScopes(w: World, store: Store, id: string)
    requires Rows(w.store, w.issued, w.results) && Extends(w, store, id)
    ensures Rows(store, w.issued, w.results)
  {
    forall e | e in store.executions ensures RowOk(e, store.executions[e], store.jobs, w.results) {
      assert RowOk(e, w.store.executions[e], w.store.jobs, w.results);
    }
  }

  lemma CommittedJobsStay(before: map<string, seq<Job>>, after: map<string, seq<Job>>)
    requires Grows(before, after)
    ensures forall job: Job :: Committed(before, job) ==> Committed(after, job)
  {
    forall job: Job | Committed(before, job) ensures Committed(after, job) {
      CommittedStays(before, after, job);
    }
  }

  lemma AppendKeepsTables(w: World, p: Pid, store: Store, id: string)
    requires Tables(w) && Extends(w, store, id)
    ensures Tables(Append(w, p, store, id))
  {
    var after := Append(w, p, store, id);
    AppendGrows(w, p, store, id);
    AppendKeepsHistories(w, p, store, id);
    AppendKeepsScopes(w, store, id);
    CommittedJobsStay(w.history, after.history);
    assert BooksOf(after) == BooksOf(w);
  }

  lemma AppendFrame(w: World, p: Pid, store: Store, id: string, proc: Process)
    requires Extends(w, store, id) && (id in w.store.jobs ==> id !in w.rowLocks)
    ensures Frame(w, Append(w, p, store, id).Set(p, proc), p)
  {
    AppendGrows(w, p, store, id);
    var after := Append(w, p, store, id).Set(p, proc);
    assert BooksOf(after) == BooksOf(w);
    assert KeepsLocks(w, after, p);
  }

  lemma AppendKeeps(c: Config, w: World, p: Pid, store: Store, id: string, reply: Reply)
    requires Inv(c, w) && Extends(w, store, id) && (id in w.store.jobs ==> id !in w.rowLocks)
    requires var after := Append(w, p, store, id); ReplyOk(after.history, after.writers, p, reply)
    ensures Inv(c, Append(w, p, store, id).Set(p, Ended(reply)))
  {
    hide Extends, ReplyOk, Follows, VersionOf;
    AppendKeepsTables(w, p, store, id);
    AppendFrame(w, p, store, id, Ended(reply));
    IdleIsOk(c, Append(w, p, store, id), p, Ended(reply));
    Settle(c, w, Append(w, p, store, id), p, Ended(reply));
  }

  lemma CreateExtends(c: Config, w: World, p: Pid, job: Job, actor: string, at: int, ack: bool, after: World)
    requires CreateStep(c, w, p, job, actor, at, ack) == Some(after) && Histories(w.store.jobs, w.history, w.writers)
    ensures Extends(w, after.store, job.id) && job.id !in w.store.jobs
    ensures after == Append(w, p, after.store, job.id).Set(p, after.procs[p])
    ensures after.procs[p].Ended? && ReplyOk(after.history, after.writers, p, after.procs[p].reply)
  {
  }

  lemma CreateKeeps(c: Config, w: World, p: Pid, job: Job, actor: string, at: int, ack: bool, after: World)
    requires Inv(c, w) && CreateStep(c, w, p, job, actor, at, ack) == Some(after)
    ensures Inv(c, after)
  {
    CreateExtends(c, w, p, job, actor, at, ack, after);
    AppendKeeps(c, w, p, after.store, job.id, after.procs[p].reply);
  }

  /** What a stale snapshot still shares with the current row. */
  lemma SnapshotShares(w: World, snapshot: Job)
    requires Histories(w.store.jobs, w.history, w.writers) && Committed(w.history, snapshot)
    ensures snapshot.id in w.store.jobs && VersionOf(snapshot, w.store.jobs[snapshot.id], snapshot.audit.version - 1)
    ensures w.store.jobs[snapshot.id].id == snapshot.id
        && w.store.jobs[snapshot.id].audit.version == |w.history[snapshot.id]|
  {
    CurrentIsCommitted(w.store.jobs, w.history, w.writers, snapshot.id);
  }

  lemma UpdateExtends(c: Config, w: World, p: Pid, clock: int, at: int, ack: bool, after: World)
    requires CommitUpdateStep(c, w, p, clock, at, ack) == Some(after) && Histories(w.store.jobs, w.history, w.writers)
    requires Committed(w.history, w.procs[p].snapshot)
    ensures var id := w.procs[p].snapshot.id;
            && Extends(w, after.store, id) && id !in w.rowLocks && w.store.jobs[id].audit.version == w.procs[p].expected
            && after == Append(w, p, after.store, id).Set(p, after.procs[p]) && after.procs[p].Ended?
  {
    var Updating(snapshot, input, expected, actor) := w.procs[p];
    SnapshotShares(w, snapshot);
    UpdateFollows(Session(c.dialect, actor, at), w.store.jobs[snapshot.id], Revised(snapshot, input, actor, clock));
  }

  /** The Job returned by Update is the committed row, though its snapshot may be older. */
  lemma UpdateShape(c: Config, w: World, p: Pid, clock: int, at: int, ack: bool, after: World)
    requires CommitUpdateStep(c, w, p, clock, at, ack) == Some(after)
    ensures p in w.procs && w.procs[p].Updating?
    ensures var Updating(snapshot, input, expected, actor) := w.procs[p];
      var value := Revised(snapshot, input, actor, clock);
      && snapshot.id in w.store.jobs && w.store.jobs[snapshot.id].Live()
      && w.store.jobs[snapshot.id].audit.version == expected
      && snapshot.id in after.store.jobs && after.store.jobs[snapshot.id]
          == UpdatedJob(Session(c.dialect, actor, at), w.store.jobs[snapshot.id], value)
      && after.procs[p] == Ended(if ack then Updated(value.(audit := value.audit.(version := expected + 1)))
          else Refused)
  {
    hide UpdatedJob;
  }

  lemma UpdateAnswers(c: Config, w: World, p: Pid, clock: int, at: int, ack: bool, after: World)
    requires CommitUpdateStep(c, w, p, clock, at, ack) == Some(after) && Histories(w.store.jobs, w.history, w.writers)
    requires SnapshotOk(w.history, w.procs[p]) && w.procs[p].expected >= 1
    ensures ReplyOk(after.history, after.writers, p, after.procs[p].reply)
  {
    UpdateShape(c, w, p, clock, at, ack, after);
    var Updating(snapshot, input, expected, actor) := w.procs[p];
    SnapshotShares(w, snapshot);
    UpdateExtends(c, w, p, clock, at, ack, after);
    hide CommitUpdateStep, Extends;
    var row := after.store.jobs[snapshot.id];
    UpdateFollows(Session(c.dialect, actor, at), w.store.jobs[snapshot.id], Revised(snapshot, input, actor, clock));
    assert after.history[snapshot.id] == w.history[snapshot.id] + [row];
    assert after.writers[snapshot.id] == w.writers[snapshot.id] + [p];
  }

  lemma UpdateKeeps(c: Config, w: World, p: Pid, clock: int, at: int, ack: bool, after: World)
    requires Inv(c, w) && CommitUpdateStep(c, w, p, clock, at, ack) == Some(after)
    ensures Inv(c, after)
  {
    assert ProcessOk(c, w, p, w.procs[p]);
    UpdateExtends(c, w, p, clock, at, ack, after);
    UpdateAnswers(c, w, p, clock, at, ack, after);
    AppendKeeps(c, w, p, after.store, w.procs[p].snapshot.id, after.procs[p].reply);
  }

  lemma DeleteShape(c: Config, w: World, p: Pid, clock: int, at: int, ack: bool, after: World)
    requires CommitDeleteStep(c, w, p, clock, at, ack) == Some(after)
    ensures p in w.procs && w.procs[p].Deleting?
    ensures var Deleting(id, expected, actor) := w.procs[p];
      && id in w.store.jobs && w.store.jobs[id].Live() && w.store.jobs[id].audit.version == expected
      && id in after.store.jobs && after.store.jobs == w.store.jobs[id := after.store.jobs[id]]
      && after.store.jobs[id] == DeletedJob(Session(c.dialect, actor, at), w.store.jobs[id], clock, actor)
      && after.store.executions == w.store.executions && id !in w.rowLocks
      && after == Append(w, p, after.store, id).Set(p, after.procs[p])
      && after.procs[p] == Ended(if ack then Deleted(id, expected) else Refused)
  {
    hide DeletedJob;
  }

  lemma DeleteExtends(c: Config, w: World, p: Pid, clock: int, at: int, ack: bool, after: World)
    requires CommitDeleteStep(c, w, p, clock, at, ack) == Some(after) && Histories(w.store.jobs, w.history, w.writers)
    requires w.procs[p].expected >= 1
    ensures var id := w.procs[p].id;
            && Extends(w, after.store, id) && id !in w.rowLocks && w.store.jobs[id].audit.version == w.procs[p].expected
            && after == Append(w, p, after.store, id).Set(p, after.procs[p]) && after.procs[p].Ended?
  {
    DeleteShape(c, w, p, clock, at, ack, after);
    hide CommitDeleteStep, DeletedJob, Append;
    var Deleting(id, expected, actor) := w.procs[p];
    CurrentIsCommitted(w.store.jobs, w.history, w.writers, id);
    DeleteFollows(Session(c.dialect, actor, at), w.store.jobs[id], clock, actor);
  }

  /** The history of a job ends with its row, and has one entry a version. */
  lemma HistoryEnds(w: World, id: string)
    requires Histories(w.store.jobs, w.history, w.writers) && id in w.store.jobs
    ensures var n := w.store.jobs[id].audit.version;
      && id in w.history && id in w.writers && |w.history[id]| == n && |w.writers[id]| == n && n >= 1
      && w.history[id][n - 1] == w.store.jobs[id] && w.store.jobs[id].id == id
  {
    CurrentIsCommitted(w.store.jobs, w.history, w.writers, id);
  }

  lemma DeletedReplyIsOk(
      history: map<string, seq<Job>>, writers: map<string, seq<Pid>>, p: Pid, id: string, expected: int,
      past: seq<Job>, authors: seq<Pid>, row: Job)
    requires id in history && id in writers && history[id] == past + [row] && writers[id] == authors + [p]
    requires |past| == expected && |authors| == expected && expected >= 1
    requires !row.Live() && row.definition == past[expected - 1].definition
    ensures ReplyOk(history, writers, p, Deleted(id, expected))
  {
  }

  lemma DeleteAnswers(c: Config, w: World, p: Pid, clock: int, at: int, ack: bool, after: World)
    requires CommitDeleteStep(c, w, p, clock, at, ack) == Some(after) && Histories(w.store.jobs, w.history, w.writers)
    requires w.procs[p].expected >= 1
    ensures ReplyOk(after.history, after.writers, p, after.procs[p].reply)
  {
    DeleteShape(c, w, p, clock, at, ack, after);
    hide CommitDeleteStep, DeletedJob, Histories;
    var Deleting(id, expected, actor) := w.procs[p];
    HistoryEnds(w, id);
    DeleteFollows(Session(c.dialect, actor, at), w.store.jobs[id], clock, actor);
    if ack {
      DeletedReplyIsOk(after.history, after.writers, p, id, expected, w.history[id], w.writers[id],
        after.store.jobs[id]);
    }
  }

  lemma DeleteKeeps(c: Config, w: World, p: Pid, clock: int, at: int, ack: bool, after: World)
    requires Inv(c, w) && CommitDeleteStep(c, w, p, clock, at, ack) == Some(after)
    ensures Inv(c, after)
  {
    assert ProcessOk(c, w, p, w.procs[p]);
    DeleteExtends(c, w, p, clock, at, ack, after);
    DeleteAnswers(c, w, p, clock, at, ack, after);
    AppendKeeps(c, w, p, after.store, w.procs[p].id, after.procs[p].reply);
  }
}
