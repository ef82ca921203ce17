/**
 MySQL, whose audit columns the repository writes itself, and PostgreSQL or Kingbase, whose trigger
 writes them, are the same store: after any sequence of service and cleaner calls the two agree on
 every answer and on every column but the audit timestamps.
 */
module Dialects {
  import opened Records
  import opened AuditTrail
  import opened Ordering
  import opened Statements
  import opened Repository
  import Protocol

  ghost predicate Matches(a: Store, b: Store)
  {
    && a.jobs.Keys == b.jobs.Keys && (forall id :: id in a.jobs ==> SameJob(a.jobs[id], b.jobs[id]))
    && a.executions.Keys == b.executions.Keys
    && (forall id :: id in a.executions ==> SameExecution(a.executions[id], b.executions[id]))
  }

  /** A new row's audit columns, written by `who`. */
  predicate Initial(audit: Audit, who: string)
  {
    audit.version == 1 && audit.createdBy == who && audit.updatedBy == who && audit.deletedAt == None
        && audit.deletedBy == None
  }

  /** The statement names the same actor as the transaction's principal. */
  predicate Faithful(who: string, w: Write)
  {
    match w
    case CreateJob(job) => Initial(job.audit, who)
    case UpdateJob(job, _) => job.audit.updatedBy == who
    case DeleteJob(_, _, _, by_) => by_ == who
    case CreateExecution(e) => Initial(e.audit, who)
    case CreateManualExecution(e, _) => Initial(e.audit, who)
    case FinishExecution(e) => e.audit.updatedBy == who
    case SweepExecutions(_, _, _, by_) => by_ == who
  }

  ghost predicate SameAnswer(x: Result<Applied, WriteError>, y: Result<Applied, WriteError>)
  {
    if x.Ok? then y.Ok? && Matches(x.value.store, y.value.store) && x.value.rows == y.value.rows
    else y.Err? && x.error == y.error
  }

  lemma PutJobMatches(a: Store, b: Store, id: string, x: Job, y: Job)
    requires Matches(a, b) && SameJob(x, y)
    ensures Matches(a.(jobs := a.jobs[id := x]), b.(jobs := b.jobs[id := y]))
  {
  }

  lemma PutExecutionMatches(a: Store, b: Store, id: string, x: Execution, y: Execution)
    requires Matches(a, b) && SameExecution(x, y)
    ensures Matches(a.(executions := a.executions[id := x]), b.(executions := b.executions[id := y]))
  {
  }

  /** A transaction of the trigger dialect and its twin without a trigger. */
  predicate Acting(tx: Session) { tx.dialect == Triggered && tx.actor != "" }

  function Plain(tx: Session): Session { tx.(dialect := Explicit) }

  lemma JobRowsMatch(tx: Session, x: Job, y: Job, w: Write)
    requires Acting(tx) && Faithful(tx.actor, w)
    ensures w.CreateJob? ==> SameJob(InsertedJob(Plain(tx), w.job), InsertedJob(tx, w.job))
    ensures w.UpdateJob? && SameJob(x, y) ==> SameJob(UpdatedJob(Plain(tx), x, w.job), UpdatedJob(tx, y, w.job))
    ensures w.DeleteJob? && SameJob(x, y) && x.Live() ==> SameJob(DeletedJob(Plain(tx), x, w.at, w.who),
        DeletedJob(tx, y, w.at, w.who))
  {
  }

  lemma ExecutionRowsMatch(tx: Session, x: Execution, y: Execution, w: Write)
    requires Acting(tx) && Faithful(tx.actor, w)
    ensures w.CreateExecution? || w.CreateManualExecution? ==>
      SameExecution(InsertedExecution(Plain(tx), w.execution), InsertedExecution(tx, w.execution))
    ensures w.FinishExecution? && SameExecution(x, y) ==>
      SameExecution(FinishedExecution(Plain(tx), x, w.execution), FinishedExecution(tx, y, w.execution))
    ensures w.SweepExecutions? && SameExecution(x, y) && x.Live() ==>
      SameExecution(SweptExecution(Plain(tx), x, w.at, w.who), SweptExecution(tx, y, w.at, w.who))
  {
  }

  lemma CreateJobMatches(a: Store, b: Store, tx: Session, w: Write)
    requires Matches(a, b) && Acting(tx) && Faithful(tx.actor, w) && w.CreateJob?
    ensures SameAnswer(Apply(Plain(tx), a, w), Apply(tx, b, w))
  {
    JobRowsMatch(tx, w.job, w.job, w);
    PutJobMatches(a, b, w.job.id, InsertedJob(Plain(tx), w.job), InsertedJob(tx, w.job));
  }

  lemma ChangeJobMatches(a: Store, b: Store, tx: Session, w: Write)
    requires Matches(a, b) && Acting(tx) && Faithful(tx.actor, w) && (w.UpdateJob? || w.DeleteJob?)
    ensures SameAnswer(Apply(Plain(tx), a, w), Apply(tx, b, w))
  {
    var id := if w.UpdateJob? then w.job.id else w.id;
    if AtVersion(a, id, w.expected) {
      var x, y := a.jobs[id], b.jobs[id];
      JobRowsMatch(tx, x, y, w);
      if w.UpdateJob? {
        PutJobMatches(a, b, id, UpdatedJob(Plain(tx), x, w.job), UpdatedJob(tx, y, w.job));
      } else {
        PutJobMatches(a, b, id, DeletedJob(Plain(tx), x, w.at, w.who), DeletedJob(tx, y, w.at, w.who));
      }
    }
  }

  lemma InsertExecutionMatches(a: Store, b: Store, tx: Session, w: Write)
    requires Matches(a, b) && Acting(tx) && Faithful(tx.actor, w) && (w.CreateExecution? || w.CreateManualExecution?)
    ensures SameAnswer(Apply(Plain(tx), a, w), Apply(tx, b, w))
  {
    ExecutionRowsMatch(tx, w.execution, w.execution, w);
    PutExecutionMatches(a, b, w.execution.id, InsertedExecution(Plain(tx), w.execution),
        InsertedExecution(tx, w.execution));
  }

  lemma FinishMatches(a: Store, b: Store, tx: Session, w: Write)
    requires Matches(a, b) && Acting(tx) && Faithful(tx.actor, w) && w.FinishExecution?
    ensures SameAnswer(Apply(Plain(tx), a, w), Apply(tx, b, w))
  {
    var e := w.execution;
    if e.id in a.executions {
      var x, y := a.executions[e.id], b.executions[e.id];
      ExecutionRowsMatch(tx, x, y, w);
      PutExecutionMatches(a, b, e.id, FinishedExecution(Plain(tx), x, e), FinishedExecution(tx, y, e));
    }
  }

  lemma {:induction false} OldestMatch(x: map<string, Execution>, y: map<string, Execution>, ids: set<string>,
      limit: nat)
    requires forall id :: id in ids ==>
      id in x && id in y && x[id].finishedAt.Some?
      && x[id].finishedAt == y[id].finishedAt
    ensures TakeOldest(x, ids, limit) == TakeOldest(y, ids, limit)
    decreases limit
  {
    if limit != 0 && ids != {} {
      assert FinishKeys(x, ids) == FinishKeys(y, ids);
      SomeKey(x, ids);
      FirstIsUnique(FinishKeys(x, ids));
      var oldest :| IsFirst(oldest, FinishKeys(x, ids));
      OldestMatch(x, y, ids - {oldest.id}, limit - 1);
    }
  }

  /** finished_at is a business column, so both stores select the same rows. */
  lemma SelectionsMatch(a: Store, b: Store, before: int, limit: nat)
    requires Matches(a, b)
    ensures SelectExpired(a.executions, before, limit) == SelectExpired(b.executions, before, limit)
  {
    forall id | id in a.executions ensures a.executions[id].Expired(before) <==> b.executions[id].Expired(before) {
      assert SameExecution(a.executions[id], b.executions[id]);
    }
    assert Expired(a.executions, before) == Expired(b.executions, before);
    OldestMatch(a.executions, b.executions, Expired(a.executions, before), limit);
  }

  lemma SweptTablesMatch(a: Store, b: Store, tx: Session, w: Write, ids: set<string>)
    requires Matches(a, b) && Acting(tx) && Faithful(tx.actor, w) && w.SweepExecutions?
    ensures var x := Sweep(Plain(tx), a.executions, ids, w.before, w.at, w.who);
            var y := Sweep(tx, b.executions, ids, w.before, w.at, w.who);
            Matches(a.(executions := x), b.(executions := y))
  {
    var x := Sweep(Plain(tx), a.executions, ids, w.before, w.at, w.who);
    var y := Sweep(tx, b.executions, ids, w.before, w.at, w.who);
    forall id | id in x ensures SameExecution(x[id], y[id]) {
      ExecutionRowsMatch(tx, a.executions[id], b.executions[id], w);
    }
  }

  lemma SweepsMatch(a: Store, b: Store, tx: Session, w: Write)
    requires Matches(a, b) && Acting(tx) && Faithful(tx.actor, w) && w.SweepExecutions?
    ensures SameAnswer(Apply(Plain(tx), a, w), Apply(tx, b, w))
  {
    SelectionsMatch(a, b, w.before, w.limit);
    SweptTablesMatch(a, b, tx, w, SelectExpired(a.executions, w.before, w.limit));
  }

  lemma WritesMatch(a: Store, b: Store, tx: Session, w: Write)
    requires Matches(a, b) && Acting(tx) && Faithful(tx.actor, w)
    ensures SameAnswer(Apply(Plain(tx), a, w), Apply(tx, b, w))
  {
    match w
    case CreateJob(_) => CreateJobMatches(a, b, tx, w);
    case UpdateJob(_, _) => ChangeJobMatches(a, b, tx, w);
    case DeleteJob(_, _, _, _) => ChangeJobMatches(a, b, tx, w);
    case CreateExecution(_) => InsertExecutionMatches(a, b, tx, w);
    case CreateManualExecution(_, _) => InsertExecutionMatches(a, b, tx, w);
    case FinishExecution(_) => FinishMatches(a, b, tx, w);
    case SweepExecutions(_, _, _, _) => SweepsMatch(a, b, tx, w);
  }

  /** A call the service or the cleaner makes: its body names its own principal. Only one dialect sets an actor. */
  predicate ServiceCall(call: Call)
  {
    call.fault != ActorFails && (call.principal.Some? ==> Faithful(call.principal.value, call.write))
  }

  /** The calls of the protocol's seven kinds of writes, each with the principal of its transaction. */
  function ProtocolCalls(
      run: Protocol.Run, uuid: string, outcome: Outcome, snapshot: Job, input: Definition, expected: int,
      id: string, scope: Scope, actor: string, clock: int, at: int, before: int, limit: nat): seq<Call>
  {
    var e := Protocol.NewExecution(run, uuid, clock);
    var system := Protocol.SYSTEM_ACTOR;
    [ Call(Some(actor), at, CreateJob(Protocol.NewJob(id, scope, input, actor, clock)), NoFault),
      Call(Some(actor), at, UpdateJob(Protocol.Revised(snapshot, input, actor, clock), expected), NoFault),
      Call(Some(actor), at, DeleteJob(id, expected, clock, actor), NoFault),
      Call(Some(run.actor), at, CreateExecution(e), NoFault),
      Call(Some(run.actor), at, CreateManualExecution(e, expected), NoFault),
      Call(Some(run.actor), at, FinishExecution(Protocol.Completed(e, outcome, clock)), NoFault),
      Call(Some(system), at, SweepExecutions(before, limit, clock, system), NoFault) ]
  }

  /** Every write of the execution protocol, whatever fails around it, names the actor of its own transaction. */
  lemma ProtocolWritesAreFaithful(
      run: Protocol.Run, uuid: string, outcome: Outcome, snapshot: Job, input: Definition, expected: int,
      id: string, scope: Scope, actor: string, clock: int, at: int, before: int, limit: nat, k: nat, fault: Fault)
    requires fault != ActorFails
    ensures var calls := ProtocolCalls(run, uuid, outcome, snapshot, input, expected, id, scope, actor, clock, at,
        before, limit);
      k < |calls| ==> ServiceCall(calls[k].(fault := fault))
  {
  }

  lemma HasActorIsNotEmpty(actor: string)
    requires HasActor(actor)
    ensures actor != ""
  {
  }

  lemma ConclusionsMatch(a: Store, b: Store, x: Result<Applied, WriteError>, y: Result<Applied, WriteError>,
      fault: Fault)
    requires Matches(a, b) && SameAnswer(x, y)
    ensures Matches(Conclude(a, x, fault).0, Conclude(b, y, fault).0)
        && Conclude(a, x, fault).1 == Conclude(b, y, fault).1
  {
  }

  lemma CallsMatch(a: Store, b: Store, call: Call)
    requires Matches(a, b) && ServiceCall(call)
    ensures Matches(Transact(Explicit, a, call).0, Transact(Triggered, b, call).0)
    ensures Transact(Explicit, a, call).1 == Transact(Triggered, b, call).1
  {
    if Refusal(Explicit, call).None? {
      var tx := Session(Triggered, call.principal.value, call.at);
      HasActorIsNotEmpty(tx.actor);
      WritesMatch(a, b, tx, call.write);
      ConclusionsMatch(a, b, Apply(Plain(tx), a, call.write), Apply(tx, b, call.write), call.fault);
    }
  }

  function RunCalls(dialect: Dialect, s: Store, calls: seq<Call>): (Store, seq<Result<nat, WriteError>>)
    decreases |calls|
  {
    if calls == [] then (s, []) else
    var (next, answer) := Transact(dialect, s, calls[0]);
    var (last, answers) := RunCalls(dialect, next, calls[1..]);
    (last, [answer] + answers)
  }

  lemma {:induction false} DialectsAgree(a: Store, b: Store, calls: seq<Call>)
    requires Matches(a, b) && forall i :: 0 <= i < |calls| ==> ServiceCall(calls[i])
    ensures Matches(RunCalls(Explicit, a, calls).0, RunCalls(Triggered, b, calls).0)
    ensures RunCalls(Explicit, a, calls).1 == RunCalls(Triggered, b, calls).1
    decreases |calls|
  {
    if calls != [] {
      CallsMatch(a, b, calls[0]);
      DialectsAgree(Transact(Explicit, a, calls[0]).0, Transact(Triggered, b, calls[0]).0, calls[1..]);
    }
  }

  /** The trigger's missing-actor exception is out of reach: a blank principal never gets past `setAuditActor`. */
  lemma CallNeverRaises(dialect: Dialect, s: Store, call: Call)
    ensures Transact(dialect, s, call).1 != Err(Raised)
  {
    if Refusal(dialect, call).None? {
      HasActorIsNotEmpty(call.principal.value);
    }
  }

  /** No call of any sequence, with whatever principals and faults, is answered with that exception. */
  lemma {:induction false} TriggerNeverMissesItsActor(dialect: Dialect, s: Store, calls: seq<Call>)
    ensures var answers := RunCalls(dialect, s, calls).1;
      |answers| == |calls| && forall i :: 0 <= i < |answers| ==> answers[i] != Err(Raised)
    decreases |calls|
  {
    hide Transact;
    if calls != [] {
      CallNeverRaises(dialect, s, calls[0]);
      TriggerNeverMissesItsActor(dialect, Transact(dialect, s, calls[0]).0, calls[1..]);
    }
  }

  /** An answer other than success leaves the tables alone, unless the commit itself was not confirmed. */
  lemma FailureIsAtomic(dialect: Dialect, s: Store, call: Call)
    requires Transact(dialect, s, call).1.Err? && call.fault != CommitUnknown
    ensures Transact(dialect, s, call).0 == s
  {
  }

  /** Deleting is decided by the statement and stamped once: the trigger never moves an existing deletion. */
  lemma DeletionIsStampedOnce(tx: Session, prior: Audit, given: Audit)
    ensures var row := TriggerUpdate(tx, prior, given);
      && (row.deletedAt.Some? <==> given.deletedAt.Some?)
      && (prior.deletedAt.Some? && given.deletedAt.Some?
          ==> row.deletedAt == prior.deletedAt && row.deletedBy == prior.deletedBy)
      && (prior.deletedAt.None? && given.deletedAt.Some?
          ==> row.deletedAt == Some(tx.at) && row.deletedBy == Some(tx.actor))
      && row.version == prior.version + 1 && row.createdBy == prior.createdBy && row.updatedBy == tx.actor
  {
  }

  /** What two matching stores have in common, column by column. */
  lemma MatchingStoresOnColumns(a: Store, b: Store, id: string)
    requires Matches(a, b)
    ensures id in a.jobs <==> id in b.jobs
    ensures id in a.jobs ==>
      var x, y := a.jobs[id], b.jobs[id];
      && x.id == y.id && x.scope == y.scope && x.definition == y.definition
      && x.audit.version == y.audit.version && x.audit.createdBy == y.audit.createdBy
      && x.audit.updatedBy == y.audit.updatedBy && x.audit.deletedBy == y.audit.deletedBy
      && (x.audit.deletedAt == None <==> y.audit.deletedAt == None)
    ensures id in a.executions <==> id in b.executions
    ensures id in a.executions ==>
      var x, y := a.executions[id], b.executions[id];
      && x == y.(audit := x.audit)
      && x.audit.version == y.audit.version && x.audit.createdBy == y.audit.createdBy
      && x.audit.updatedBy == y.audit.updatedBy && x.audit.deletedBy == y.audit.deletedBy
      && (x.audit.deletedAt == None <==> y.audit.deletedAt == None)
  {
  }
}
