/** Every action keeps the invariant. */
module ProtocolPreservation {
  import opened Records
  import opened Statements
  import opened Protocol
  import opened ProtocolInvariant

  // ---- what a step of process p leaves to the others ----

  ghost predicate Grows<T(!new)>(before: map<string, seq<T>>, after: map<string, seq<T>>)
  {
    forall id :: id in before ==> id in after && before[id] <= after[id]
  }

  ghost predicate KeepsLeases(now: int, before: map<string, Lease>, after: map<string, Lease>, p: Pid)
  {
    forall id :: id in before && before[id].owner != p && now < before[id].expiry ==>
      id in after && after[id].owner == before[id].owner && before[id].expiry <= after[id].expiry
  }

  ghost predicate KeepsLocks(w: World, after: World, p: Pid)
  {
    forall id :: id in w.rowLocks && w.rowLocks[id] != p ==>
      && id in after.rowLocks && after.rowLocks[id] == w.rowLocks[id]
      && (id in w.store.jobs ==> id in after.store.jobs && after.store.jobs[id] == w.store.jobs[id])
  }

  /** The open executions of other processes stay as they are, and no id is taken over. */
  ghost predicate KeepsBooks(b: Books, after: Books, p: Pid)
  {
    forall id :: id in b.issued ==>
      && id in after.issued && after.issued[id] == b.issued[id]
      && (b.issued[id] != p ==>
            && (id in b.executions <==> id in after.executions)
            && (id in b.executions && Open(b.executions[id]) ==> after.executions[id] == b.executions[id])
            && (id in b.against ==> id in after.against && after.against[id] == b.against[id])
            && (id in after.results <==> id in b.results)
            && (id in b.results ==> after.results[id] == b.results[id]))
  }

  ghost predicate KeepsCalls(issued: map<string, Pid>, before: seq<Invocation>, after: seq<Invocation>, p: Pid)
  {
    && before <= after
    && forall i :: |before| <= i < |after| ==> after[i].key in issued && issued[after[i].key] == p
  }

  ghost predicate Frame(w: World, after: World, p: Pid)
  {
    && after.now == w.now
    && Grows(w.history, after.history) && Grows(w.writers, after.writers)
    && KeepsLeases(w.now, w.leases, after.leases, p)
    && KeepsLocks(w, after, p)
    && KeepsBooks(BooksOf(w), BooksOf(after), p)
    && KeepsCalls(w.issued, w.invocations, after.invocations, p)
  }

  lemma CommittedStays(before: map<string, seq<Job>>, after: map<string, seq<Job>>, job: Job)
    requires Grows(before, after) && Committed(before, job)
    ensures Committed(after, job)
  {
    assert before[job.id] <= after[job.id];
  }

  lemma SnapshotStays(before: map<string, seq<Job>>, after: map<string, seq<Job>>, proc: Process)
    requires Grows(before, after) && SnapshotOk(before, proc)
    ensures SnapshotOk(after, proc)
  {
    if proc.Updating? { CommittedStays(before, after, proc.snapshot); }
    if proc.Fired? { CommittedStays(before, after, proc.loaded); }
    if proc.HasRun() { CommittedStays(before, after, proc.run.job); }
  }

  lemma ReplyStays(w: World, after: World, p: Pid, reply: Reply)
    requires Grows(w.history, after.history) && Grows(w.writers, after.writers)
        && ReplyOk(w.history, w.writers, p, reply)
    ensures ReplyOk(after.history, after.writers, p, reply)
  {
    if reply.Created? || reply.Updated? || reply.Deleted? {
      var id := if reply.Deleted? then reply.id else reply.job.id;
      assert w.history[id] <= after.history[id] && w.writers[id] <= after.writers[id];
    }
  }

  lemma CallStays(issued: map<string, Pid>, before: seq<Invocation>, after: seq<Invocation>, p: Pid, key: string)
    requires KeepsCalls(issued, before, after, p) && key in issued && issued[key] != p
    ensures Invoked(after, key) <==> Invoked(before, key)
  {
    if Invoked(before, key) {
      var i :| 0 <= i < |before| && before[i].key == key;
      assert after[i].key == key;
    }
    if Invoked(after, key) {
      var i :| 0 <= i < |after| && after[i].key == key;
      assert i < |before| && before[i].key == key;
    }
  }

  lemma HoldStays(c: Config, now: int, before: map<string, Lease>, after: map<string, Lease>, p: Pid, q: Pid,
      proc: Process)
    requires KeepsLeases(now, before, after, p) && q != p
    requires Punctual(c) && TimelyProcess(c, now, proc) && Holds(before, q, proc)
    ensures Holds(after, q, proc)
  {
  }

  lemma RowLockStays(w: World, after: World, p: Pid, q: Pid, proc: Process)
    requires KeepsLocks(w, after, p) && q != p && RowLockOk(w.store.jobs, w.rowLocks, q, proc)
    ensures RowLockOk(after.store.jobs, after.rowLocks, q, proc)
  {
  }

  lemma OwnershipStays(b: Books, after: Books, p: Pid, q: Pid, proc: Process)
    requires KeepsBooks(b, after, p) && q != p && OwnsExecution(b, q, proc)
    ensures OwnsExecution(after, q, proc)
  {
  }

  lemma CallOkStays(w: World, after: World, p: Pid, q: Pid, proc: Process)
    requires KeepsCalls(w.issued, w.invocations, after.invocations, p) && KeepsBooks(BooksOf(w), BooksOf(after), p)
    requires q != p && OwnsExecution(BooksOf(w), q, proc) && CallOk(w.invocations, w.results, proc)
    ensures CallOk(after.invocations, after.results, proc)
  {
    if proc.HasExecution() {
      CallStays(w.issued, w.invocations, after.invocations, p, proc.execution.id);
    }
  }

  lemma OthersUnaffected(c: Config, w: World, after: World, p: Pid, q: Pid, proc: Process)
    requires Frame(w, after, p) && ProcessOk(c, w, q, proc) && q != p
    ensures ProcessOk(c, after, q, proc)
  {
    assert SnapshotOk(after.history, proc) by { SnapshotStays(w.history, after.history, proc); }
    assert Punctual(c) ==> Holds(after.leases, q, proc) by {
      if Punctual(c) { HoldStays(c, w.now, w.leases, after.leases, p, q, proc); }
    }
    assert RowLockOk(after.store.jobs, after.rowLocks, q, proc) by { RowLockStays(w, after, p, q, proc); }
    assert OwnsExecution(BooksOf(after), q, proc) by { OwnershipStays(BooksOf(w), BooksOf(after), p, q, proc); }
    assert CallOk(after.invocations, after.results, proc) by { CallOkStays(w, after, p, q, proc); }
    assert ClientOk(after.history, after.writers, q, proc)
        by { if proc.Ended? { ReplyStays(w, after, q, proc.reply); } }
  }

  /** One process moved: the invariant holds again if it holds of that process and of the tables. */
  lemma Assemble(c: Config, w: World, after: World, p: Pid, proc: Process)
    requires Inv(c, w) && Frame(w, after, p) && Tables(after)
    requires after.procs == w.procs[p := proc] && ProcessOk(c, after, p, proc)
    ensures Inv(c, after)
  {
    forall q | q in after.procs ensures ProcessOk(c, after, q, after.procs[q]) {
      if q != p { OthersUnaffected(c, w, after, p, q, w.procs[q]); }
    }
  }

  /** The same for a step given as the new tables and then the new process. */
  lemma Settle(c: Config, w: World, tables: World, p: Pid, proc: Process)
    requires Inv(c, w) && tables.procs == w.procs && Frame(w, tables.Set(p, proc), p)
    requires Tables(tables) && ProcessOk(c, tables, p, proc)
    ensures Inv(c, tables.Set(p, proc))
  {
    assert BooksOf(tables.Set(p, proc)) == BooksOf(tables);
    Assemble(c, w, tables.Set(p, proc), p, proc);
  }

  lemma LocalFrame(w: World, locks: map<string, Pid>, p: Pid, proc: Process)
    requires forall id :: id in w.rowLocks && w.rowLocks[id] != p ==> id in locks && locks[id] == w.rowLocks[id]
    ensures Frame(w, w.(rowLocks := locks).Set(p, proc), p)
  {
  }

  /** A step that changes nothing but its own process and its own row locks. */
  lemma LocalStep(c: Config, w: World, locks: map<string, Pid>, p: Pid, proc: Process)
    requires Inv(c, w) && ProcessOk(c, w.(rowLocks := locks), p, proc)
    requires forall id :: id in w.rowLocks && w.rowLocks[id] != p ==> id in locks && locks[id] == w.rowLocks[id]
    ensures Inv(c, w.(rowLocks := locks).Set(p, proc))
  {
    LocalFrame(w, locks, p, proc);
    Assemble(c, w, w.(rowLocks := locks).Set(p, proc), p, proc);
  }

  lemma CurrentIsCommitted(jobs: map<string, Job>, history: map<string, seq<Job>>, writers: map<string, seq<Pid>>,
      id: string)
    requires Histories(jobs, history, writers) && id in jobs
    ensures jobs[id].id == id && Committed(history, jobs[id]) && jobs[id].audit.version == |history[id]|
  {
    assert VersionOf(history[id][|history[id]| - 1], jobs[id], |history[id]| - 1);
  }

  // ---- clients and cron entries ----

  /** Outside a run only the snapshot and the reply matter. */
  lemma IdleIsOk(c: Config, w: World, p: Pid, proc: Process)
    requires !proc.HasRun() && SnapshotOk(w.history, proc) && ClientOk(w.history, w.writers, p, proc)
    ensures ProcessOk(c, w, p, proc)
  {
  }

  /** Before the lease only the run matters. */
  lemma WaitingIsOk(c: Config, w: World, p: Pid, proc: Process)
    requires (proc.Accepted? || proc.Waiting?) && RunOk(w.history, proc.run) && TimelyProcess(c, w.now, proc)
    ensures ProcessOk(c, w, p, proc)
  {
  }

  lemma UpdatingIsOk(c: Config, w: World, p: Pid, proc: Process)
    requires proc.Updating? && Committed(w.history, proc.snapshot) && proc.snapshot.Live() && proc.expected >= 1
    ensures ProcessOk(c, w, p, proc)
  {
  }

  lemma BeginUpdateKeeps(c: Config, w: World, p: Pid, id: string, input: Definition, expected: int, actor: string,
      after: World)
    requires Inv(c, w) && BeginUpdateStep(w, p, id, input, expected, actor) == Some(after)
    ensures Inv(c, after)
  {
    CurrentIsCommitted(w.store.jobs, w.history, w.writers, id);
    UpdatingIsOk(c, w, p, after.procs[p]);
    LocalStep(c, w, w.rowLocks, p, after.procs[p]);
  }

  lemma BeginDeleteKeeps(c: Config, w: World, p: Pid, id: string, expected: int, actor: string, after: World)
    requires Inv(c, w) && BeginDeleteStep(w, p, id, expected, actor) == Some(after)
    ensures Inv(c, after)
  {
    IdleIsOk(c, w, p, after.procs[p]);
    LocalStep(c, w, w.rowLocks, p, after.procs[p]);
  }

  lemma BeginTriggerMoves(c: Config, w: World, p: Pid, id: string, expected: int, actor: string, after: World)
    requires BeginTriggerStep(w, p, id, expected, actor) == Some(after) && Histories(w.store.jobs, w.history, w.writers)
    ensures ProcessOk(c, w, p, after.procs[p])
  {
    CurrentIsCommitted(w.store.jobs, w.history, w.writers, id);
    WaitingIsOk(c, w, p, after.procs[p]);
  }

  lemma BeginTriggerKeeps(c: Config, w: World, p: Pid, id: string, expected: int, actor: string, after: World)
    requires Inv(c, w) && BeginTriggerStep(w, p, id, expected, actor) == Some(after)
    ensures Inv(c, after)
  {
    BeginTriggerMoves(c, w, p, id, expected, actor, after);
    LocalStep(c, w, w.rowLocks, p, after.procs[p]);
  }

  lemma ListedIsCommitted(w: World, replica: nat)
    requires Histories(w.store.jobs, w.history, w.writers) && EntriesOk(w.history, w.entries)
    ensures EntriesOk(w.history, w.entries[replica := ListEnabled(w.store.jobs)])
  {
    forall id | id in w.store.jobs ensures Committed(w.history, w.store.jobs[id]) {
      CurrentIsCommitted(w.store.jobs, w.history, w.writers, id);
    }
  }

  lemma ReloadKeeps(c: Config, w: World, replica: nat)
    requires Inv(c, w)
    ensures Inv(c, w.(entries := w.entries[replica := ListEnabled(w.store.jobs)]))
  {
    ListedIsCommitted(w, replica);
    var after := w.(entries := w.entries[replica := ListEnabled(w.store.jobs)]);
    forall q | q in w.procs ensures ProcessOk(c, after, q, w.procs[q]) {
      assert ProcessOk(c, w, q, w.procs[q]);
    }
  }

  lemma FireMoves(c: Config, w: World, p: Pid, replica: nat, id: string, after: World)
    requires FireStep(w, p, replica, id) == Some(after) && EntriesOk(w.history, w.entries)
    ensures ProcessOk(c, w, p, after.procs[p])
  {
    IdleIsOk(c, w, p, after.procs[p]);
  }

  lemma FireKeeps(c: Config, w: World, p: Pid, replica: nat, id: string, after: World)
    requires Inv(c, w) && FireStep(w, p, replica, id) == Some(after)
    ensures Inv(c, after)
  {
    FireMoves(c, w, p, replica, id, after);
    LocalStep(c, w, w.rowLocks, p, after.procs[p]);
  }

  /** The re-read row has the version of the loaded copy, so it is the loaded copy. */
  lemma ReReadMoves(c: Config, w: World, p: Pid, after: World)
    requires ReReadStep(w, p) == Some(after) && SnapshotOk(w.history, w.procs[p])
    requires Histories(w.store.jobs, w.history, w.writers)
    ensures ProcessOk(c, w, p, after.procs[p])
  {
    CurrentIsCommitted(w.store.jobs, w.history, w.writers, w.procs[p].loaded.id);
    WaitingIsOk(c, w, p, after.procs[p]);
  }

  lemma ReReadKeeps(c: Config, w: World, p: Pid, after: World)
    requires Inv(c, w) && ReReadStep(w, p) == Some(after)
    ensures Inv(c, after)
  {
    assert ProcessOk(c, w, p, w.procs[p]);
    ReReadMoves(c, w, p, after);
    LocalStep(c, w, w.rowLocks, p, after.procs[p]);
  }

  lemma ExecuteMoves(c: Config, w: World, p: Pid, after: World)
    requires ExecuteStep(w, p) == Some(after) && SnapshotOk(w.history, w.procs[p])
    ensures ProcessOk(c, w, p, after.procs[p])
  {
    WaitingIsOk(c, w, p, after.procs[p]);
  }

  lemma ExecuteKeeps(c: Config, w: World, p: Pid, after: World)
    requires Inv(c, w) && ExecuteStep(w, p) == Some(after)
    ensures Inv(c, after)
  {
    assert ProcessOk(c, w, p, w.procs[p]);
    ExecuteMoves(c, w, p, after);
    LocalStep(c, w, w.rowLocks, p, after.procs[p]);
  }

  lemma AbortMoves(c: Config, w: World, p: Pid, after: World)
    requires AbortStep(w, p) == Some(after) || CrashStep(w, p) == Some(after)
    ensures ProcessOk(c, w.(rowLocks := after.rowLocks), p, after.procs[p])
    ensures after == w.(rowLocks := w.Unlock(p).rowLocks).Set(p, after.procs[p])
  {
    IdleIsOk(c, w.(rowLocks := after.rowLocks), p, after.procs[p]);
  }

  lemma AbortKeeps(c: Config, w: World, p: Pid, after: World)
    requires Inv(c, w) && (AbortStep(w, p) == Some(after) || CrashStep(w, p) == Some(after))
    ensures Inv(c, after)
  {
    AbortMoves(c, w, p, after);
    LocalStep(c, w, after.rowLocks, p, after.procs[p]);
  }

  lemma SelectKeeps(c: Config, w: World, p: Pid, before: int, ids: set<string>, after: World)
    requires Inv(c, w) && SelectStep(w, p, before, ids) == Some(after)
    ensures Inv(c, after)
  {
    IdleIsOk(c, w, p, after.procs[p]);
    LocalStep(c, w, w.rowLocks, p, after.procs[p]);
  }

  // ---- time and the lease ----

  lemma TickMoves(c: Config, w: World, now: int, p: Pid, proc: Process)
    requires ProcessOk(c, w, p, proc) && w.now <= now && (proc.InSection() ==> now <= proc.Limit(c))
    ensures ProcessOk(c, w.(now := now), p, proc)
  {
  }

  lemma TickKeeps(c: Config, w: World, delay: nat, after: World)
    requires Inv(c, w) && TickStep(c, w, delay) == Some(after)
    ensures Inv(c, after)
  {
    forall q | q in w.procs ensures ProcessOk(c, after, q, w.procs[q]) {
      TickMoves(c, w, w.now + delay, q, w.procs[q]);
    }
  }

  lemma LeaseFrame(w: World, leases: map<string, Lease>, p: Pid, proc: Process)
    requires KeepsLeases(w.now, w.leases, leases, p)
    ensures Frame(w, w.(leases := leases).Set(p, proc), p)
  {
  }

  /** A step that moves its process and changes leases that others no longer rely on. */
  lemma LeaseStep(c: Config, w: World, leases: map<string, Lease>, p: Pid, proc: Process)
    requires Inv(c, w) && ProcessOk(c, w.(leases := leases), p, proc) && KeepsLeases(w.now, w.leases, leases, p)
    ensures Inv(c, w.(leases := leases).Set(p, proc))
  {
    LeaseFrame(w, leases, p, proc);
    Assemble(c, w, w.(leases := leases).Set(p, proc), p, proc);
  }

  lemma AcquireMoves(c: Config, w: World, p: Pid, ack: bool, after: World)
    requires AcquireStep(w, p, ack) == Some(after) && RunOk(w.history, w.procs[p].run)
        && TimelyProcess(c, w.now, w.procs[p])
    ensures ProcessOk(c, w.(leases := after.leases), p, after.procs[p])
    ensures KeepsLeases(w.now, w.leases, after.leases, p)
    ensures after == w.(leases := after.leases).Set(p, after.procs[p])
  {
  }

  lemma AcquireKeeps(c: Config, w: World, p: Pid, ack: bool, after: World)
    requires Inv(c, w) && AcquireStep(w, p, ack) == Some(after)
    ensures Inv(c, after)
  {
    assert SnapshotOk(w.history, w.procs[p]) && TimelyProcess(c, w.now, w.procs[p]);
    AcquireMoves(c, w, p, ack, after);
    LeaseStep(c, w, after.leases, p, after.procs[p]);
  }

  lemma RenewMoves(c: Config, w: World, p: Pid, expiry: int, after: World)
    requires RenewStep(w, p, expiry) == Some(after) && ProcessOk(c, w, p, w.procs[p])
    ensures ProcessOk(c, w.(leases := after.leases), p, w.procs[p])
    ensures KeepsLeases(w.now, w.leases, after.leases, p)
    ensures after == w.(leases := after.leases).Set(p, w.procs[p])
  {
    assert w.procs == w.procs[p := w.procs[p]];
  }

  lemma RenewKeeps(c: Config, w: World, p: Pid, expiry: int, after: World)
    requires Inv(c, w) && RenewStep(w, p, expiry) == Some(after)
    ensures Inv(c, after)
  {
    RenewMoves(c, w, p, expiry, after);
    LeaseStep(c, w, after.leases, p, w.procs[p]);
  }

  lemma ReleaseKeeps(c: Config, w: World, p: Pid, done: bool, after: World)
    requires Inv(c, w) && ReleaseStep(w, p, done) == Some(after)
    ensures Inv(c, after)
  {
    assert ProcessOk(c, w, p, w.procs[p]);
    IdleIsOk(c, w.(leases := after.leases), p, after.procs[p]);
    LeaseStep(c, w, after.leases, p, after.procs[p]);
  }

  // ---- the section ----

  lemma LockRowMoves(c: Config, w: World, p: Pid, after: World)
    requires LockRowStep(w, p) == Some(after) && ProcessOk(c, w, p, w.procs[p])
    ensures ProcessOk(c, w.(rowLocks := after.rowLocks), p, after.procs[p])
  {
  }

  lemma LockRowKeeps(c: Config, w: World, p: Pid, after: World)
    requires Inv(c, w) && LockRowStep(w, p) == Some(after)
    ensures Inv(c, after)
  {
    LockRowMoves(c, w, p, after);
    LocalStep(c, w, after.rowLocks, p, after.procs[p]);
  }

  lemma BeginFinishMoves(c: Config, w: World, p: Pid, after: World)
    requires BeginFinishStep(w, p) == Some(after) && ProcessOk(c, w, p, w.procs[p])
    ensures ProcessOk(c, w, p, after.procs[p])
  {
  }

  lemma BeginFinishKeeps(c: Config, w: World, p: Pid, after: World)
    requires Inv(c, w) && BeginFinishStep(w, p) == Some(after)
    ensures Inv(c, after)
  {
    BeginFinishMoves(c, w, p, after);
    LocalStep(c, w, w.rowLocks, p, after.procs[p]);
  }
}
