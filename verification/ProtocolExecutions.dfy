/** The life of an execution, from its insert to its cleaning, keeps the invariant. */
module ProtocolExecutions {
  import opened Records
  import opened AuditTrail
  import opened Statements
  import opened Protocol
  import opened ProtocolInvariant
  import opened ProtocolPreservation

  // ---- the insert ----

  lemma InsertFrame(w: World, p: Pid, uuid: string, clock: int, after: World)
    requires InsertStep(w, p, uuid, clock) == Some(after)
    ensures Frame(w, after, p) && after == w.(issued := after.issued).Set(p, after.procs[p])
    ensures BooksOf(after) == BooksOf(w).(issued := w.issued[uuid := p])
  {
  }

  /** Recorded executions keep who issued them, whose they are and what they were inserted against. */
  ghost predicate Remembers(b: Books, after: Books)
  {
    && (forall id :: id in b.issued ==> id in after.issued && after.issued[id] == b.issued[id])
    && (forall id :: id in b.executions ==> id in after.executions && SameOwner(after.executions[id], b.executions[id]))
    && (forall id ::
      id in b.against && id in b.executions
      ==> id in after.against && after.against[id] == b.against[id])
  }

  ghost predicate SameOwner(e: Execution, f: Execution)
  {
    e.id == f.id && e.jobId == f.jobId && e.scope == f.scope && e.trigger == f.trigger
  }

  lemma LedgerStays(history: map<string, seq<Job>>, b: Books, after: Books, invocations: seq<Invocation>)
    requires Ledger(history, b, invocations) && Remembers(b, after) && after.results == b.results
    ensures Ledger(history, after, invocations)
  {
    forall i | 0 <= i < |invocations| ensures InvocationOk(history, after, invocations[i]) {
      assert InvocationOk(history, b, invocations[i]);
    }
  }

  lemma RowsStayIssued(store: Store, issued: map<string, Pid>, after: map<string, Pid>, results: map<string, Outcome>)
    requires Rows(store, issued, results) && issued.Keys <= after.Keys
    ensures Rows(store, after, results)
  {
  }

  lemma InsertTables(w: World, p: Pid, uuid: string)
    requires Tables(w) && uuid !in w.issued
    ensures Tables(w.(issued := w.issued[uuid := p]))
  {
    hide Histories, EntriesOk, AgainstOk, Batches, Rows, Ledger;
    RowsStayIssued(w.store, w.issued, w.issued[uuid := p], w.results);
    LedgerStays(w.history, BooksOf(w), BooksOf(w.(issued := w.issued[uuid := p])), w.invocations);
  }

  /** The checks of a manual trigger pass on the locked row, so it is the snapshot's row. */
  lemma InsertMoves(c: Config, w: World, p: Pid, uuid: string, clock: int, after: World)
    requires InsertStep(w, p, uuid, clock) == Some(after) && ProcessOk(c, w, p, w.procs[p])
    requires Histories(w.store.jobs, w.history, w.writers) && uuid !in w.store.executions
        && !Invoked(w.invocations, uuid)
    ensures ProcessOk(c, w.(issued := after.issued), p, after.procs[p])
  {
    var run := w.procs[p].run;
    CurrentIsCommitted(w.store.jobs, w.history, w.writers, run.job.id);
    assert run.trigger == Manual ==> w.store.jobs[run.job.id] == run.job;
  }

  lemma UnissuedIsUnused(w: World, uuid: string)
    requires Tables(w) && uuid !in w.issued
    ensures uuid !in w.store.executions && !Invoked(w.invocations, uuid)
  {
    forall i | 0 <= i < |w.invocations| ensures w.invocations[i].key != uuid {
      assert InvocationOk(w.history, BooksOf(w), w.invocations[i]);
    }
  }

  lemma InsertKeeps(c: Config, w: World, p: Pid, uuid: string, clock: int, after: World)
    requires Inv(c, w) && InsertStep(w, p, uuid, clock) == Some(after)
    ensures Inv(c, after)
  {
    UnissuedIsUnused(w, uuid);
    InsertMoves(c, w, p, uuid, clock, after);
    InsertTables(w, p, uuid);
    InsertFrame(w, p, uuid, clock, after);
    Settle(c, w, w.(issued := after.issued), p, after.procs[p]);
  }

  // ---- its commit ----

  /** The tables once the insert is committed. */
  ghost predicate Inserted(c: Config, w: World, p: Pid, at: int, after: World)
    requires p in w.procs && w.procs[p].Inserting?
  {
    var e := w.procs[p].execution;
    && e.id !in w.store.executions && e.jobId in w.store.jobs
    && after.store == w.store.(executions := w.store.executions[e.id := InsertedExecution(Session(c.dialect,
        w.procs[p].run.actor, at), e)])
    && after.against == w.against[e.id := w.store.jobs[e.jobId]]
    && p in after.procs && after == w.(store := after.store, against := after.against,
        rowLocks := w.Unlock(p).rowLocks).Set(p, after.procs[p])
  }

  lemma CommitInsertShape(c: Config, w: World, p: Pid, at: int, ack: bool, after: World)
    requires CommitInsertStep(c, w, p, at, ack) == Some(after)
    ensures p in w.procs && w.procs[p].Inserting? && p in after.procs && Inserted(c, w, p, at, after)
    ensures var proc := w.procs[p];
      after.procs[p] == if ack then Process.Recorded(proc.run, proc.execution) else Releasing(proc.run.job.id, Refused)
  {
  }

  lemma CommitInsertFrame(c: Config, w: World, p: Pid, at: int, after: World)
    requires p in w.procs && w.procs[p].Inserting? && Inserted(c, w, p, at, after)
    requires OwnsExecution(BooksOf(w), p, w.procs[p])
    ensures Frame(w, after, p) && Remembers(BooksOf(w), BooksOf(after))
  {
  }

  lemma CommitInsertRows(c: Config, w: World, p: Pid, at: int, after: World)
    requires p in w.procs && w.procs[p].Inserting? && Inserted(c, w, p, at, after)
    requires Rows(w.store, w.issued, w.results) && OwnsExecution(BooksOf(w), p, w.procs[p])
    requires w.procs[p].execution.scope == w.store.jobs[w.procs[p].execution.jobId].scope
    ensures Rows(after.store, w.issued, w.results) && Open(after.store.executions[w.procs[p].execution.id])
  {
    var id := w.procs[p].execution.id;
    forall e | e in after.store.executions ensures RowOk(e, after.store.executions[e], w.store.jobs, w.results) {
      if e != id { assert RowOk(e, w.store.executions[e], w.store.jobs, w.results); }
    }
  }

  lemma BatchesGrow(before: map<string, Execution>, after: map<string, Execution>, batches: seq<Batch>)
    requires Batches(before, batches)
    requires forall id :: id in before && !before[id].Live() ==> id in after && after[id] == before[id]
    requires forall id :: id in after && !after[id].Live() ==> id in before && before[id] == after[id]
    ensures Batches(after, batches)
  {
    forall i | 0 <= i < |batches| ensures BatchOk(after, batches[i]) {
      assert BatchOk(before, batches[i]);
    }
  }

  lemma CommitInsertScope(w: World, p: Pid)
    requires p in w.procs && w.procs[p].Inserting? && SnapshotOk(w.history, w.procs[p])
    requires Histories(w.store.jobs, w.history, w.writers) && OwnsExecution(BooksOf(w), p, w.procs[p])
    ensures var e := w.procs[p].execution;
      e.jobId in w.store.jobs && e.scope == w.store.jobs[e.jobId].scope && Committed(w.history, w.store.jobs[e.jobId])
  {
    var run := w.procs[p].run;
    CurrentIsCommitted(w.store.jobs, w.history, w.writers, run.job.id);
    assert VersionOf(run.job, w.store.jobs[run.job.id], run.job.audit.version - 1);
  }

  lemma CommitInsertAgainst(c: Config, w: World, p: Pid, at: int, after: World)
    requires p in w.procs && w.procs[p].Inserting? && Inserted(c, w, p, at, after)
    requires AgainstOk(w.history, w.against) && Committed(w.history, w.store.jobs[w.procs[p].execution.jobId])
    ensures AgainstOk(w.history, after.against)
  {
  }

  lemma CommitInsertBatches(c: Config, w: World, p: Pid, at: int, after: World)
    requires p in w.procs && w.procs[p].Inserting? && Inserted(c, w, p, at, after) && Open(w.procs[p].execution)
    requires Batches(w.store.executions, w.batches)
    ensures Batches(after.store.executions, w.batches)
  {
    BatchesGrow(w.store.executions, after.store.executions, w.batches);
  }

  lemma CommitInsertTables(c: Config, w: World, p: Pid, at: int, after: World)
    requires p in w.procs && w.procs[p].Inserting? && Inserted(c, w, p, at, after)
    requires Tables(w) && SnapshotOk(w.history, w.procs[p]) && OwnsExecution(BooksOf(w), p, w.procs[p])
    ensures Tables(after)
  {
    CommitInsertScope(w, p);
    CommitInsertRows(c, w, p, at, after);
    CommitInsertFrame(c, w, p, at, after);
    CommitInsertAgainst(c, w, p, at, after);
    LedgerStays(w.history, BooksOf(w), BooksOf(after), w.invocations);
    CommitInsertBatches(c, w, p, at, after);
  }

  lemma CommitInsertMoves(c: Config, w: World, p: Pid, at: int, ack: bool, after: World)
    requires p in w.procs && w.procs[p].Inserting? && Inserted(c, w, p, at, after)
    requires CommitInsertStep(c, w, p, at, ack) == Some(after) && ProcessOk(c, w, p, w.procs[p])
    ensures ProcessOk(c, after, p, after.procs[p])
  {
  }

  lemma CommitInsertKeeps(c: Config, w: World, p: Pid, at: int, ack: bool, after: World)
    requires Inv(c, w) && CommitInsertStep(c, w, p, at, ack) == Some(after)
    ensures Inv(c, after)
  {
    assert ProcessOk(c, w, p, w.procs[p]);
    CommitInsertShape(c, w, p, at, ack, after);
    CommitInsertTables(c, w, p, at, after);
    CommitInsertMoves(c, w, p, at, ack, after);
    CommitInsertFrame(c, w, p, at, after);
    Assemble(c, w, after, p, after.procs[p]);
  }

  // ---- the call ----

  lemma InvokeFrame(w: World, p: Pid, after: World)
    requires InvokeStep(w, p) == Some(after) && OwnsExecution(BooksOf(w), p, w.procs[p])
    ensures Frame(w, after, p) && BooksOf(after) == BooksOf(w)
    ensures after == w.(invocations := after.invocations).Set(p, after.procs[p])
  {
  }

  /** The key is new to the ledger, and its row is on record. */
  lemma InvokeLedger(history: map<string, seq<Job>>, b: Books, invocations: seq<Invocation>, call: Invocation)
    requires Ledger(history, b, invocations) && InvocationOk(history, b, call) && !Invoked(invocations, call.key)
    ensures Ledger(history, b, invocations + [call]) && Invoked(invocations + [call], call.key)
  {
    var longer := invocations + [call];
    assert longer[|invocations|] == call;
    forall key | key in b.results ensures Invoked(longer, key) {
      var i :| 0 <= i < |invocations| && invocations[i].key == key;
      assert longer[i].key == key;
    }
  }

  lemma InvokeMoves(c: Config, w: World, p: Pid, after: World)
    requires InvokeStep(w, p) == Some(after) && ProcessOk(c, w, p, w.procs[p])
    requires w.procs[p].execution.id !in w.results && Invoked(after.invocations, w.procs[p].execution.id)
    ensures ProcessOk(c, w.(invocations := after.invocations), p, after.procs[p])
  {
  }

  lemma InvokeKeeps(c: Config, w: World, p: Pid, after: World)
    requires Inv(c, w) && InvokeStep(w, p) == Some(after)
    ensures Inv(c, after)
  {
    assert ProcessOk(c, w, p, w.procs[p]);
    var e := w.procs[p].execution;
    InvokeLedger(w.history, BooksOf(w), w.invocations, Invocation(p, e.id, w.procs[p].run));
    InvokeFrame(w, p, after);
    InvokeMoves(c, w, p, after);
    Settle(c, w, w.(invocations := after.invocations), p, after.procs[p]);
  }

  lemma ReturnFrame(w: World, p: Pid, outcome: Outcome, clock: int, after: World)
    requires ReturnStep(w, p, outcome, clock) == Some(after) && OwnsExecution(BooksOf(w), p, w.procs[p])
    ensures Frame(w, after, p) && after == w.(results := after.results).Set(p, after.procs[p])
  {
  }

  lemma ReturnTables(w: World, p: Pid, outcome: Outcome, clock: int, after: World)
    requires ReturnStep(w, p, outcome, clock) == Some(after) && w.procs[p].execution.id !in w.results
    requires Rows(w.store, w.issued, w.results) && Ledger(w.history, BooksOf(w), w.invocations)
    requires Invoked(w.invocations, w.procs[p].execution.id)
    ensures Rows(w.store, w.issued, after.results) && Ledger(w.history, BooksOf(after), w.invocations)
  {
    forall e | e in w.store.executions ensures RowOk(e, w.store.executions[e], w.store.jobs, after.results) {
      assert RowOk(e, w.store.executions[e], w.store.jobs, w.results);
    }
    forall i | 0 <= i < |w.invocations| ensures InvocationOk(w.history, BooksOf(after), w.invocations[i]) {
      assert InvocationOk(w.history, BooksOf(w), w.invocations[i]);
    }
  }

  lemma ReturnMoves(c: Config, w: World, p: Pid, outcome: Outcome, clock: int, after: World)
    requires ReturnStep(w, p, outcome, clock) == Some(after) && ProcessOk(c, w, p, w.procs[p])
    ensures ProcessOk(c, w.(results := after.results), p, after.procs[p])
  {
  }

  lemma ReturnKeeps(c: Config, w: World, p: Pid, outcome: Outcome, clock: int, after: World)
    requires Inv(c, w) && ReturnStep(w, p, outcome, clock) == Some(after)
    ensures Inv(c, after)
  {
    assert ProcessOk(c, w, p, w.procs[p]);
    ReturnFrame(w, p, outcome, clock, after);
    ReturnTables(w, p, outcome, clock, after);
    ReturnMoves(c, w, p, outcome, clock, after);
    Settle(c, w, w.(results := after.results), p, after.procs[p]);
  }

  // ---- the finishing write ----

  /** The finishing UPDATE always finds the open row of its own execution. */
  lemma FinishShape(c: Config, w: World, p: Pid, at: int, ack: bool, after: World)
    requires CommitFinishStep(c, w, p, at, ack) == Some(after) && OwnsExecution(BooksOf(w), p, w.procs[p])
    ensures var e := w.procs[p].execution;
      && e.id in w.store.executions && Open(w.store.executions[e.id])
      && after.store == w.store.(executions := w.store.executions[e.id := FinishedExecution(Session(c.dialect,
          w.procs[p].run.actor, at), w.store.executions[e.id], e)])
    ensures after == w.(store := after.store).Set(p, after.procs[p])
    ensures after.procs[p].Releasing? && !after.procs[p].reply.Created? && !after.procs[p].reply.Updated?
        && !after.procs[p].reply.Deleted?
  {
  }

  lemma FinishRow(tx: Session, row: Execution, e: Execution)
    requires Open(row) && e.Terminal() && e.finishedAt.Some?
    ensures var next := FinishedExecution(tx, row, e);
      Finished(next) && SameOwner(next, row) && next.outcome == e.outcome && next.finishedAt == e.finishedAt
  {
  }

  /** A row owned by p changed, from open to finished. */
  ghost predicate Closed(w: World, p: Pid, id: string, after: Store)
  {
    && id in w.issued && w.issued[id] == p && id in w.store.executions && Open(w.store.executions[id])
    && id in after.executions && after == w.store.(executions := w.store.executions[id := after.executions[id]])
    && Finished(after.executions[id]) && SameOwner(after.executions[id], w.store.executions[id])
    && id in w.results && w.results[id] == after.executions[id].outcome
  }

  lemma FinishFrame(w: World, p: Pid, id: string, store: Store, proc: Process)
    requires Closed(w, p, id, store)
    ensures var after := w.(store := store).Set(p, proc); Frame(w, after, p) && Remembers(BooksOf(w), BooksOf(after))
  {
  }

  lemma FinishRows(w: World, p: Pid, id: string, store: Store)
    requires Closed(w, p, id, store) && Rows(w.store, w.issued, w.results)
    ensures Rows(store, w.issued, w.results)
  {
    assert RowOk(id, w.store.executions[id], w.store.jobs, w.results);
    forall e | e in store.executions ensures RowOk(e, store.executions[e], store.jobs, w.results) {
      if e != id { assert RowOk(e, w.store.executions[e], w.store.jobs, w.results); }
    }
  }

  lemma FinishBatches(w: World, p: Pid, id: string, store: Store)
    requires Closed(w, p, id, store) && Batches(w.store.executions, w.batches)
    ensures Batches(store.executions, w.batches)
  {
    BatchesGrow(w.store.executions, store.executions, w.batches);
  }

  lemma FinishLedger(w: World, p: Pid, id: string, store: Store)
    requires Closed(w, p, id, store) && Ledger(w.history, BooksOf(w), w.invocations)
    ensures Ledger(w.history, BooksOf(w.(store := store)), w.invocations)
  {
    FinishFrame(w, p, id, store, Ended(Refused));
    LedgerStays(w.history, BooksOf(w), BooksOf(w.(store := store)), w.invocations);
  }

  lemma FinishTables(w: World, p: Pid, id: string, store: Store)
    requires Closed(w, p, id, store) && Tables(w)
    ensures Tables(w.(store := store))
  {
    FinishRows(w, p, id, store);
    FinishLedger(w, p, id, store);
    FinishBatches(w, p, id, store);
  }

  lemma FinishCloses(c: Config, w: World, p: Pid, at: int, ack: bool, after: World)
    requires CommitFinishStep(c, w, p, at, ack) == Some(after) && OwnsExecution(BooksOf(w), p, w.procs[p])
    ensures Closed(w, p, w.procs[p].execution.id, after.store)
  {
    FinishShape(c, w, p, at, ack, after);
    var e := w.procs[p].execution;
    FinishRow(Session(c.dialect, w.procs[p].run.actor, at), w.store.executions[e.id], e);
  }

  lemma FinishMoves(c: Config, w: World, p: Pid, at: int, ack: bool, after: World)
    requires CommitFinishStep(c, w, p, at, ack) == Some(after) && OwnsExecution(BooksOf(w), p, w.procs[p])
    ensures ProcessOk(c, w.(store := after.store), p, after.procs[p])
  {
    FinishShape(c, w, p, at, ack, after);
    IdleIsOk(c, w.(store := after.store), p, after.procs[p]);
  }

  lemma FinishKeeps(c: Config, w: World, p: Pid, at: int, ack: bool, after: World)
    requires Inv(c, w) && CommitFinishStep(c, w, p, at, ack) == Some(after)
    ensures Inv(c, after)
  {
    assert ProcessOk(c, w, p, w.procs[p]);
    var id := w.procs[p].execution.id;
    FinishShape(c, w, p, at, ack, after);
    FinishCloses(c, w, p, at, ack, after);
    FinishMoves(c, w, p, at, ack, after);
    FinishTables(w, p, id, after.store);
    FinishFrame(w, p, id, after.store, after.procs[p]);
    Settle(c, w, w.(store := after.store), p, after.procs[p]);
  }

  // ---- cleaning ----

  ghost predicate RetiredRow(e: Execution, next: Execution, before: int)
  {
    && Finished(e) && Retired(next) && SameOwner(next, e) && next.outcome == e.outcome
    && next.finishedAt == e.finishedAt && e.finishedAt.value < before
  }

  /** Exactly the rows of `hit` moved, from finished to retired. */
  ghost predicate RetiredRows(executions: map<string, Execution>, after: map<string, Execution>, hit: set<string>,
      before: int)
  {
    && after.Keys == executions.Keys && hit <= executions.Keys
    && (forall id :: id in hit ==> RetiredRow(executions[id], after[id], before))
    && (forall id :: id in executions && id !in hit ==> after[id] == executions[id])
  }

  lemma SweepRetires(tx: Session, store: Store, issued: map<string, Pid>, results: map<string, Outcome>,
      ids: set<string>, before: int, at: int, who: string)
    requires Rows(store, issued, results)
    ensures RetiredRows(store.executions, Sweep(tx, store.executions, ids, before, at, who),
        ids * Expired(store.executions, before), before)
  {
    var after := Sweep(tx, store.executions, ids, before, at, who);
    forall id | id in ids * Expired(store.executions, before)
      ensures RetiredRow(store.executions[id], after[id], before)
    {
      assert RowOk(id, store.executions[id], store.jobs, results);
    }
  }

  lemma SweepBooks(b: Books, hit: set<string>, before: int, swept: map<string, Execution>, p: Pid)
    requires RetiredRows(b.executions, swept, hit, before)
    ensures KeepsBooks(b, b.(executions := swept), p) && Remembers(b, b.(executions := swept))
  {
  }

  lemma SweepFrame(w: World, p: Pid, hit: set<string>, before: int, swept: map<string, Execution>, proc: Process)
    requires RetiredRows(w.store.executions, swept, hit, before)
    ensures var after := w.(store := w.store.(executions := swept), batches := w.batches + [Batch(p, before, hit)]);
      Frame(w, after.Set(p, proc), p) && Remembers(BooksOf(w), BooksOf(after))
  {
    SweepBooks(BooksOf(w), hit, before, swept, p);
  }

  lemma SweepRows(w: World, hit: set<string>, before: int, swept: map<string, Execution>)
    requires RetiredRows(w.store.executions, swept, hit, before) && Rows(w.store, w.issued, w.results)
    ensures Rows(w.store.(executions := swept), w.issued, w.results)
  {
    forall e | e in swept ensures RowOk(e, swept[e], w.store.jobs, w.results) {
      assert RowOk(e, w.store.executions[e], w.store.jobs, w.results);
    }
  }

  /** A row in an earlier batch is already retired, so the new batch is disjoint from all of them. */
  lemma SweepBatches(executions: map<string, Execution>, batches: seq<Batch>, b: Batch, swept: map<string, Execution>)
    requires RetiredRows(executions, swept, b.ids, b.before) && Batches(executions, batches)
    ensures Batches(swept, batches + [b])
  {
    var longer := batches + [b];
    forall i | 0 <= i < |batches| ensures BatchOk(swept, batches[i]) && batches[i].ids !! b.ids {
      assert BatchOk(executions, batches[i]);
    }
    forall id | id in swept && !swept[id].Live() ensures exists i :: 0 <= i < |longer| && id in longer[i].ids {
      if id in b.ids {
        assert longer[|batches|] == b;
      } else {
        var i :| 0 <= i < |batches| && id in batches[i].ids;
        assert longer[i] == batches[i];
      }
    }
  }

  lemma SweepTables(w: World, p: Pid, hit: set<string>, before: int, swept: map<string, Execution>)
    requires Tables(w) && RetiredRows(w.store.executions, swept, hit, before)
    ensures Tables(w.(store := w.store.(executions := swept), batches := w.batches + [Batch(p, before, hit)]))
  {
    var after := w.(store := w.store.(executions := swept), batches := w.batches + [Batch(p, before, hit)]);
    SweepRows(w, hit, before, swept);
    SweepFrame(w, p, hit, before, swept, Ended(Refused));
    LedgerStays(w.history, BooksOf(w), BooksOf(after), w.invocations);
    SweepBatches(w.store.executions, w.batches, Batch(p, before, hit), swept);
  }

  lemma SweepShape(c: Config, w: World, p: Pid, clock: int, at: int, ack: bool, after: World)
    requires SweepStep(c, w, p, clock, at, ack) == Some(after)
    ensures p in w.procs && w.procs[p].Selected? && after.procs[p].Ended?
    ensures var Selected(ids, before) := w.procs[p];
      var hit := ids * Expired(w.store.executions, before);
      && after.store.executions == Sweep(Session(c.dialect, SYSTEM_ACTOR, at), w.store.executions, ids, before, clock,
          SYSTEM_ACTOR)
      && after == w.(store := w.store.(executions := after.store.executions),
          batches := w.batches + [Batch(p, before, hit)]).Set(p, after.procs[p])
      && SnapshotOk(after.history, after.procs[p]) && ClientOk(after.history, after.writers, p, after.procs[p])
      && !after.procs[p].HasRun()
  {
    hide Sweep;
  }

  lemma SweepKeeps(c: Config, w: World, p: Pid, clock: int, at: int, ack: bool, after: World)
    requires Inv(c, w) && SweepStep(c, w, p, clock, at, ack) == Some(after)
    ensures Inv(c, after)
  {
    SweepShape(c, w, p, clock, at, ack, after);
    hide SweepStep, Rows, Sweep, RetiredRows, ProcessOk, Frame;
    var Selected(ids, before) := w.procs[p];
    var hit := ids * Expired(w.store.executions, before);
    var swept := after.store.executions;
    SweepRetires(Session(c.dialect, SYSTEM_ACTOR, at), w.store, w.issued, w.results, ids, before, clock, SYSTEM_ACTOR);
    SweepTables(w, p, hit, before, swept);
    SweepFrame(w, p, hit, before, swept, after.procs[p]);
    var tables := w.(store := w.store.(executions := swept), batches := w.batches + [Batch(p, before, hit)]);
    hide Tables;
    IdleIsOk(c, tables, p, after.procs[p]);
    Settle(c, w, tables, p, after.procs[p]);
  }

  // ---- one direction ----

  /** One action leaves a row alone, finishes an open row, or retires a finished one. */
  ghost predicate MovesForward(e: Execution, next: Execution)
  {
    next == e || (SameOwner(next, e) && ((Open(e) && Finished(next))
        || (Finished(e) && Retired(next) && next.outcome == e.outcome)))
  }

  lemma SweepMovesForward(c: Config, w: World, p: Pid, clock: int, at: int, ack: bool, after: World, id: string)
    requires SweepStep(c, w, p, clock, at, ack) == Some(after) && Rows(w.store, w.issued, w.results)
        && id in w.store.executions
    ensures id in after.store.executions && MovesForward(w.store.executions[id], after.store.executions[id])
  {
    var Selected(ids, before) := w.procs[p];
    SweepRetires(Session(c.dialect, SYSTEM_ACTOR, at), w.store, w.issued, w.results, ids, before, clock, SYSTEM_ACTOR);
  }

  lemma FinishMovesForward(c: Config, w: World, p: Pid, at: int, ack: bool, after: World, id: string)
    requires CommitFinishStep(c, w, p, at, ack) == Some(after) && OwnsExecution(BooksOf(w), p, w.procs[p])
        && id in w.store.executions
    ensures id in after.store.executions && MovesForward(w.store.executions[id], after.store.executions[id])
  {
    FinishCloses(c, w, p, at, ack, after);
  }

  lemma InsertKeepsRows(c: Config, w: World, p: Pid, at: int, ack: bool, after: World, id: string)
    requires CommitInsertStep(c, w, p, at, ack) == Some(after) && id in w.store.executions
    ensures id in after.store.executions && after.store.executions[id] == w.store.executions[id]
  {
  }

  lemma ClientsKeepRows(c: Config, w: World, a: Action, after: World)
    requires Step(c, w, a) == Some(after)
    requires a.Create? || a.BeginUpdate? || a.CommitUpdate? || a.BeginDelete? || a.CommitDelete? || a.BeginTrigger?
        || a.Reload?
    ensures after.store.executions == w.store.executions
  {
  }

  lemma LocalsKeepStore(c: Config, w: World, a: Action, after: World)
    requires Step(c, w, a) == Some(after)
    requires !a.Create? && !a.BeginUpdate? && !a.CommitUpdate? && !a.BeginDelete? && !a.CommitDelete?
        && !a.BeginTrigger? && !a.Reload?
    requires !a.SweepSelected? && !a.CommitFinish? && !a.CommitInsert?
    ensures after.store == w.store
  {
  }
}
