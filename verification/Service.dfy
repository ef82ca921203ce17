/**
 The service's own writes, call by call: what Create, Update, Delete and one leased execution do to
 the tables, the change channel and the upstream. What others do in between is the business of
 `Protocol`, whose steps use the same rows; here it shows only in `read`, which may be out of date.
 */
module Service {
  import opened Records
  import opened Text
  import opened AuditTrail
  import opened Statements
  import opened Repository
  import Protocol

  datatype ServiceError =
    | BadVersion | NoCaller | NoSuchJob | Denied | BadInput | InvocationFailed
    | NotWritten(error: WriteError)
    | NotRecorded
    | NotEnabled | AlreadyRunning | LockDown

  /** What the lock service answers to one try. */
  datatype Lock = Granted | Busy | Down

  /** The operation log: switched off, or what it says to an entry. */
  datatype Recorder = Off | Accepts | Rejects

  /** One transaction: the service's clock, the statement's time, and what fails. */
  datatype Turn = Turn(clock: int, at: int, fault: Fault)

  /** The caller of an operation, the answer of the authorisation, its transaction, and the operation log. */
  datatype Ambient = Ambient(actor: Option<string>, allowed: bool, turn: Turn, recorder: Recorder)

  /** The write reached the tables: it was not refused, its statement applies, and its commit was carried out. */
  predicate TakesEffect(dialect: Dialect, ambient: Ambient, refusal: Option<ServiceError>, applies: bool)
  {
    && refusal.None? && ambient.actor.Some? && HasActor(ambient.actor.value) && applies
    && (ambient.turn.fault == NoFault || ambient.turn.fault == CommitUnknown
        || (ambient.turn.fault == ActorFails && dialect == Explicit))
  }

  /** ... and the service was told so. */
  predicate IsConfirmed(dialect: Dialect, ambient: Ambient, refusal: Option<ServiceError>, applies: bool)
  {
    TakesEffect(dialect, ambient, refusal, applies) && ambient.turn.fault != CommitUnknown
  }

  /** What the caller is told: the first failing check, a stale version, a lost entry of the log, or success. */
  ghost predicate Reports(dialect: Dialect, ambient: Ambient, refusal: Option<ServiceError>, applies: bool,
      error: Option<ServiceError>)
  {
    var confirmed := IsConfirmed(dialect, ambient, refusal, applies);
    && (error.None? <==> confirmed && !ambient.recorder.Rejects?)
    && (error == Some(NotRecorded) <==> confirmed && ambient.recorder.Rejects?)
    && (refusal.Some? ==> error == refusal)
    && (IsConfirmed(dialect, ambient, refusal, true) && !applies ==> error == Some(NotWritten(Stale)))
  }

  /** The deferred step of an operation: the entry must be recorded for a success to be reported. */
  function Finished(recorder: Recorder, error: Option<ServiceError>): Option<ServiceError>
  {
    if error.None? && recorder.Rejects? then Some(NotRecorded) else error
  }

  /** Two versions of one job, as far as no update changes them. */
  ghost predicate SameLineage(a: Job, b: Job)
  {
    && a.id == b.id && a.scope == b.scope && a.Live() && b.Live()
    && a.audit.createdBy == b.audit.createdBy && a.audit.deletedBy == b.audit.deletedBy
  }

  datatype UpstreamCall = UpstreamCall(key: string, definition: Definition)

  datatype Answer = Reply(response: string) | Failure(code: string, message: string)

  function OutcomeOf(answer: Answer): Outcome
  {
    match answer
    case Reply(response) => Outcome(Succeeded, response, "", "")
    case Failure(code, message) => Outcome(Failed, "", code, message)
  }

  /** The upstream: it may be called only for a row that is committed and open. */
  class Invoker {
    const answers: nat -> Answer
    var calls: seq<UpstreamCall>

    constructor (answers: nat -> Answer)
      ensures this.answers == answers && calls == []
    {
      this.answers := answers;
      calls := [];
    }

    method Invoke(tables: SqlRepository, key: string, definition: Definition) returns (answer: Answer)
      requires key in tables.executions && tables.executions[key].outcome.status == Running
          && tables.executions[key].Live()
      requires forall i :: 0 <= i < |calls| ==> calls[i].key != key
      modifies this
      ensures calls == old(calls) + [UpstreamCall(key, definition)] && answer == answers(|old(calls)|)
    {
      answer := answers(|calls|);
      calls := calls + [UpstreamCall(key, definition)];
    }
  }

  /** The first check of an operation that fails, before its transaction. */
  function FirstRefusal(expected: int, ambient: Ambient, found: bool, valid: bool): Option<ServiceError>
  {
    if expected < 1 then Some(BadVersion)
    else if ambient.actor.None? then Some(NoCaller)
    else if !found then Some(NoSuchJob)
    else if !ambient.allowed then Some(Denied)
    else if !valid then Some(BadInput)
    else None
  }

  ghost predicate UpdatedOne(before: map<string, Job>, after: map<string, Job>, id: string, input: Definition,
      actor: string)
  {
    && id in before && OnlyRow(before, after, id)
    && after[id].definition == input && after[id].scope == before[id].scope && after[id].Live()
    && after[id].audit.version == before[id].audit.version + 1 && after[id].audit.updatedBy == actor
  }

  ghost predicate CreatedOne(before: map<string, Job>, after: map<string, Job>, id: string, scope: Scope,
      input: Definition, actor: string)
  {
    && id !in before && OnlyRow(before, after, id)
    && after[id].id == id && after[id].scope == scope && after[id].definition == input && after[id].Live()
    && after[id].audit.version == 1 && after[id].audit.createdBy == actor
  }

  ghost predicate DeletedOne(before: map<string, Job>, after: map<string, Job>, id: string, actor: string)
  {
    && id in before && OnlyRow(before, after, id)
    && after[id].definition == before[id].definition && after[id].scope == before[id].scope && !after[id].Live()
    && after[id].audit.version == before[id].audit.version + 1 && after[id].audit.deletedBy == Some(actor)
  }

  /** What Update returns is the row it wrote, also when the job was read at an older version. */
  ghost predicate Returned(read: Job, before: map<string, Job>, after: map<string, Job>, result: Job)
  {
    && read.id in before && read.id in after && result.audit.version == after[read.id].audit.version
    && (SameLineage(read, before[read.id]) ==> SameJob(result, after[read.id]))
  }

  ghost predicate RecordsRun(e: Execution, run: Protocol.Run)
  {
    e.jobId == run.job.id && e.scope == run.job.scope && e.trigger == run.trigger && e.Live()
  }

  /** What the caller learns, and what the row says, once the upstream has answered. */
  ghost predicate Answered(execution: Option<Execution>, error: Option<ServiceError>, row: Execution,
      outcome: Outcome, fault: Fault)
  {
    && (execution.Some? ==> SameExecution(execution.value, row) && row.outcome == outcome && row.audit.version == 2
                            && error == if outcome.status == Failed then Some(InvocationFailed) else None)
    && (execution.None? ==> error.Some? && error.value.NotWritten? && fault != NoFault
                            && (fault != CommitUnknown ==> row.outcome.status == Running && row.audit.version == 1))
  }

  /** A manual call may reach the upstream: its snapshot passed every check, and so does the row of this instant. */
  ghost predicate MayRun(read: Option<Job>, expected: int, ambient: Ambient, lock: Lock, tables: Store)
  {
    && FirstRefusal(expected, ambient, read.Some?, true).None? && lock == Granted
    && read.value.audit.version == expected
    && AtVersion(tables, read.value.id, expected) && tables.jobs[read.value.id].Runnable()
  }

  /** The caller holds the row of an execution that succeeded with this outcome. */
  ghost predicate Succeeds(
      execution: Option<Execution>, executions: map<string, Execution>, uuid: string, outcome: Outcome)
  {
    && execution.Some? && uuid in executions && SameExecution(execution.value, executions[uuid])
    && executions[uuid].outcome == outcome && outcome.status == Succeeded
  }

  ghost predicate KeepsRows(before: map<string, Execution>, after: map<string, Execution>)
  {
    forall id :: id in before ==> id in after && after[id] == before[id]
  }

  lemma OneNewRowKeepsRows(first: map<string, Execution>, after: map<string, Execution>, uuid: string)
    requires uuid !in first && (after == first || (uuid in after && after == first[uuid := after[uuid]]))
    ensures KeepsRows(first, after)
  {
  }

  lemma SameRowKeepsRows(
      first: map<string, Execution>, middle: map<string, Execution>, last: map<string, Execution>, uuid: string)
    requires uuid !in first && KeepsRows(first, middle) && uuid in last && last == middle[uuid := last[uuid]]
    ensures KeepsRows(first, last)
  {
  }

  /** The insert commits: an actor, the job's row, and for a manual run that row live, enabled and at its version. */
  ghost predicate MayBegin(dialect: Dialect, jobs: map<string, Job>, run: Protocol.Run, fault: Fault)
  {
    && Trim(run.actor) != "" && run.job.id in jobs
    && (fault == NoFault || (fault == ActorFails && dialect == Explicit))
    && (run.trigger == Manual ==>
          && jobs[run.job.id].audit.deletedAt == None && jobs[run.job.id].definition.status == Enabled
          && jobs[run.job.id].audit.version == run.expected)
  }

  /** The row and the error of an answered execution, column by column. */
  ghost predicate StoresAnswer(
      row: Execution, run: Protocol.Run, first: Turn, second: Turn, answer: Answer, error: Option<ServiceError>)
  {
    && row.startedAt == first.clock && row.finishedAt == Some(second.clock)
    && row.duration == second.clock - first.clock && row.audit.createdBy == run.actor
    && match answer
       case Reply(x) =>
         && error == None && row.outcome.status == Succeeded && row.outcome.response == x
         && row.outcome.errorCode == "" && row.outcome.errorMessage == ""
       case Failure(code, message) =>
         && error == Some(InvocationFailed) && row.outcome.status == Failed && row.outcome.response == ""
         && row.outcome.errorCode == code && row.outcome.errorMessage == message
  }

  // ---- the two transactions of an execution ----

  function Insertion(run: Protocol.Run, uuid: string, turn: Turn): Call
  {
    var e := Protocol.NewExecution(run, uuid, turn.clock);
    Call(Some(run.actor), turn.at,
      if run.trigger == Manual then CreateManualExecution(e, run.expected) else CreateExecution(e), turn.fault)
  }

  function Finish(run: Protocol.Run, uuid: string, first: Turn, second: Turn, outcome: Outcome): Call
  {
    var e := Protocol.Completed(Protocol.NewExecution(run, uuid, first.clock), outcome, second.clock);
    Call(Some(run.actor), second.at, FinishExecution(e), second.fault)
  }

  /** The row of an execution that has begun. */
  ghost predicate Begun(row: Execution, run: Protocol.Run, uuid: string, clock: int)
  {
    && row.id == uuid && RecordsRun(row, run) && row.outcome == NoOutcome && row.startedAt == clock
    && row.finishedAt == None && row.duration == 0
    && row.audit.version == 1 && row.audit.createdBy == run.actor && row.audit.updatedBy == run.actor
    && row.audit.deletedBy == None
  }

  /** ... and has ended. */
  ghost predicate Over(row: Execution, run: Protocol.Run, uuid: string, first: int, second: int, outcome: Outcome)
  {
    && row.id == uuid && RecordsRun(row, run) && row.outcome == outcome && row.startedAt == first
    && row.finishedAt == Some(second) && row.duration == second - first
    && row.audit.version == 2 && row.audit.createdBy == run.actor && row.audit.updatedBy == run.actor
    && row.audit.deletedBy == None
  }

  lemma InsertionEffect(dialect: Dialect, s: Store, run: Protocol.Run, uuid: string, turn: Turn)
    requires uuid !in s.executions
    ensures var (after, r) := Transact(dialect, s, Insertion(run, uuid, turn));
      && after.jobs == s.jobs && (r.Err? ==> after == s || turn.fault == CommitUnknown)
      && (r.Ok? <==>
            MayBegin(dialect, s.jobs, run, turn.fault))
      && (after == s || (uuid in after.executions && after.executions == s.executions[uuid := after.executions[uuid]]))
      && (r.Ok? ==> uuid in after.executions && Begun(after.executions[uuid], run, uuid, turn.clock))
  {
    ActorsAreNotBlank(run.actor);
    hide Trim;
  }

  lemma BegunIsOpen(row: Execution, run: Protocol.Run, uuid: string, clock: int)
    requires Begun(row, run, uuid, clock)
    ensures row.outcome.status == Running && row.Live() && RecordsRun(row, run) && row.audit.version == 1
  {
  }

  lemma FinishEffect(
      dialect: Dialect, s: Store, run: Protocol.Run, uuid: string, first: Turn, second: Turn, outcome: Outcome)
    requires uuid in s.executions && Begun(s.executions[uuid], run, uuid, first.clock) && HasActor(run.actor)
    ensures var (after, r) := Transact(dialect, s, Finish(run, uuid, first, second, outcome));
      && after.jobs == s.jobs
      && (r.Ok? <==> second.fault == NoFault || (second.fault == ActorFails && dialect == Explicit))
      && uuid in after.executions && after.executions == s.executions[uuid := after.executions[uuid]]
      && (r.Ok? ==> Over(after.executions[uuid], run, uuid, first.clock, second.clock, outcome))
      && (r.Ok? ==>
            var e := Protocol.Completed(Protocol.NewExecution(run, uuid, first.clock), outcome, second.clock);
            SameExecution(e.(audit := e.audit.(version := e.audit.version + 1)), after.executions[uuid]))
      && (r.Err? && second.fault != CommitUnknown ==> after == s)
      && (r.Err? ==> RecordsRun(after.executions[uuid], run))
  {
    if Transact(dialect, s, Finish(run, uuid, first, second, outcome)).0 == s {
      assert s.executions == s.executions[uuid := s.executions[uuid]];
    }
  }

  /** An answer as the columns of its row. */
  lemma AnswerOnColumns(row: Execution, run: Protocol.Run, uuid: string, first: Turn, second: Turn, answer: Answer)
    requires Over(row, run, uuid, first.clock, second.clock, OutcomeOf(answer))
    ensures StoresAnswer(row, run, first, second, answer, if answer.Failure? then Some(InvocationFailed) else None)
    ensures row.audit.version == 2 && RecordsRun(row, run) && row.outcome == OutcomeOf(answer)
    ensures answer.Failure? <==> row.outcome.status == Failed
  {
  }

  class JobService {
    const repository: SqlRepository
    const invoker: Invoker
    var changed: bool

    constructor (repository: SqlRepository, invoker: Invoker)
      ensures this.repository == repository && this.invoker == invoker && !changed
    {
      this.repository, this.invoker := repository, invoker;
      changed := false;
    }

    /** A send into the one-slot channel that does nothing when the slot is taken. */
    method SignalChanged()
      modifies this`changed
      ensures changed
    {
      if !changed {
        changed := true;
      }
    }

    /** The channel and the tables after an operation, given whether its write took effect and was confirmed. */
    twostate predicate Did(effect: bool, confirmed: bool)
      reads this, repository
    {
      && changed == (old(changed) || confirmed)
      && (!effect ==> repository.Contents() == old(repository.Contents()))
      && (effect ==>
        repository.Contents() != old(repository.Contents())
        && repository.executions == old(repository.executions))
    }

    method TryUpdate(read: Option<Job>, input: Option<Definition>, expected: int, ambient: Ambient)
      returns (result: Option<Job>, error: Option<ServiceError>)
      modifies this`changed, repository
      ensures var refusal := FirstRefusal(expected, ambient, read.Some?, input.Some?);
        var applies := read.Some? && AtVersion(old(repository.Contents()), read.value.id, expected);
        && Did(TakesEffect(repository.dialect, ambient, refusal, applies),
            IsConfirmed(repository.dialect, ambient, refusal, applies))
        && Reports(repository.dialect, ambient.(recorder := Off), refusal, applies, error)
        && (result.Some? <==> error.None?)
        && (TakesEffect(repository.dialect, ambient, refusal, applies) ==>
              UpdatedOne(old(repository.jobs), repository.jobs, read.value.id, input.value, ambient.actor.value))
        && (result.Some? ==> Returned(read.value, old(repository.jobs), repository.jobs, result.value))
      ensures result.Some? ==>
        && result.value.(audit := read.value.audit) == read.value.(definition := input.value)
        && result.value.audit == read.value.audit.(
             version := expected + 1, updatedAt := ambient.turn.clock, updatedBy := ambient.actor.value)
    {
      if expected < 1 { return None, Some(BadVersion); }
      if ambient.actor.None? { return None, Some(NoCaller); }
      if read.None? { return None, Some(NoSuchJob); }
      if !ambient.allowed { return None, Some(Denied); }
      if input.None? { return None, Some(BadInput); }
      var current := Protocol.Revised(read.value, input.value, ambient.actor.value, ambient.turn.clock);
      var written := repository.Within(Call(ambient.actor, ambient.turn.at, UpdateJob(current, expected),
          ambient.turn.fault));
      if written.Err? { return None, Some(NotWritten(written.error)); }
      current := current.(audit := current.audit.(version := expected + 1));
      SignalChanged();
      return Some(current), None;
    }

    /** `read` is what GetJob found, perhaps long ago; `input` is none when validation refuses it. */
    method Update(read: Option<Job>, input: Option<Definition>, expected: int, ambient: Ambient)
      returns (result: Option<Job>, error: Option<ServiceError>)
      modifies this`changed, repository
      ensures var refusal := FirstRefusal(expected, ambient, read.Some?, input.Some?);
        var applies := read.Some? && AtVersion(old(repository.Contents()), read.value.id, expected);
        var effect := TakesEffect(repository.dialect, ambient, refusal, applies);
        var confirmed := IsConfirmed(repository.dialect, ambient, refusal, applies);
        && Did(effect, confirmed) && Reports(repository.dialect, ambient, refusal, applies, error)
        && (!effect <==> repository.Contents() == old(repository.Contents()) && changed == old(changed))
        && (effect ==> UpdatedOne(old(repository.jobs), repository.jobs, read.value.id, input.value,
            ambient.actor.value))
        && (result.Some? <==> confirmed)
        && (result.Some? ==> Returned(read.value, old(repository.jobs), repository.jobs, result.value))
      // each check on the inputs, in order
      ensures expected < 1 ==> error == Some(BadVersion)
      ensures expected >= 1 && ambient.actor == None ==> error == Some(NoCaller)
      ensures expected >= 1 && ambient.actor != None && read == None ==> error == Some(NoSuchJob)
      ensures expected >= 1 && ambient.actor != None && read != None && !ambient.allowed ==> error == Some(Denied)
      ensures expected >= 1 && ambient.actor != None && read != None && ambient.allowed && input == None ==>
        error == Some(BadInput)
      ensures expected < 1 || ambient.actor == None || read == None || !ambient.allowed || input == None ==>
        result == None && repository.Contents() == old(repository.Contents()) && changed == old(changed)
      ensures error == None <==>
        && expected >= 1 && ambient.actor != None && Trim(ambient.actor.value) != "" && read != None
        && ambient.allowed && input != None && !ambient.recorder.Rejects?
        && (ambient.turn.fault == NoFault || (ambient.turn.fault == ActorFails && repository.dialect == Explicit))
        && read.value.id in old(repository.jobs) && old(repository.jobs)[read.value.id].audit.deletedAt == None
        && old(repository.jobs)[read.value.id].audit.version == expected
      ensures result != None ==>
        && result.value.(audit := read.value.audit) == read.value.(definition := input.value)
        && result.value.audit == read.value.audit.(
             version := expected + 1, updatedAt := ambient.turn.clock, updatedBy := ambient.actor.value)
    {
      if ambient.actor.Some? { ActorsAreNotBlank(ambient.actor.value); }
      result, error := TryUpdate(read, input, expected, ambient);
      error := Finished(ambient.recorder, error);
    }

    method TryCreate(id: string, scope: Scope, input: Option<Definition>, ambient: Ambient)
      returns (result: Option<Job>, error: Option<ServiceError>)
      requires id !in repository.jobs
      modifies this`changed, repository
      ensures var refusal := FirstRefusal(1, ambient, true, input.Some?);
        && Did(TakesEffect(repository.dialect, ambient, refusal, true),
            IsConfirmed(repository.dialect, ambient, refusal, true))
        && Reports(repository.dialect, ambient.(recorder := Off), refusal, true, error)
        && (result.Some? <==> error.None?)
        && (TakesEffect(repository.dialect, ambient, refusal, true) ==>
              CreatedOne(old(repository.jobs), repository.jobs, id, scope, input.value, ambient.actor.value))
        && (result.Some? ==> id in repository.jobs && SameJob(result.value, repository.jobs[id]))
      ensures result.Some? ==>
        var who, now := ambient.actor.value, ambient.turn.clock;
        result.value == Job(id, scope, input.value, Audit(1, now, who, now, who, None, None))
    {
      if ambient.actor.None? { return None, Some(NoCaller); }
      if !ambient.allowed { return None, Some(Denied); }
      if input.None? { return None, Some(BadInput); }
      var value := Protocol.NewJob(id, scope, input.value, ambient.actor.value, ambient.turn.clock);
      var written := repository.Within(Call(ambient.actor, ambient.turn.at, CreateJob(value), ambient.turn.fault));
      if written.Err? { return None, Some(NotWritten(written.error)); }
      SignalChanged();
      return Some(value), None;
    }

    method Create(id: string, scope: Scope, input: Option<Definition>, ambient: Ambient)
      returns (result: Option<Job>, error: Option<ServiceError>)
      requires id !in repository.jobs
      modifies this`changed, repository
      ensures var refusal := FirstRefusal(1, ambient, true, input.Some?);
        var effect := TakesEffect(repository.dialect, ambient, refusal, true);
        var confirmed := IsConfirmed(repository.dialect, ambient, refusal, true);
        && Did(effect, confirmed) && Reports(repository.dialect, ambient, refusal, true, error)
        && (!effect <==> repository.Contents() == old(repository.Contents()) && changed == old(changed))
        && (effect ==> CreatedOne(old(repository.jobs), repository.jobs, id, scope, input.value, ambient.actor.value))
        && (result.Some? <==> confirmed)
        && (result.Some? ==> id in repository.jobs && SameJob(result.value, repository.jobs[id]))
      // each check on the inputs, in order
      ensures ambient.actor == None ==> error == Some(NoCaller)
      ensures ambient.actor != None && !ambient.allowed ==> error == Some(Denied)
      ensures ambient.actor != None && ambient.allowed && input == None ==> error == Some(BadInput)
      ensures ambient.actor == None || !ambient.allowed || input == None ==>
        result == None && repository.Contents() == old(repository.Contents()) && changed == old(changed)
      ensures error == None <==>
        && ambient.actor != None && Trim(ambient.actor.value) != "" && ambient.allowed && input != None
        && !ambient.recorder.Rejects?
        && (ambient.turn.fault == NoFault || (ambient.turn.fault == ActorFails && repository.dialect == Explicit))
      ensures result != None ==>
        var who, now := ambient.actor.value, ambient.turn.clock;
        result.value == Job(id, scope, input.value, Audit(1, now, who, now, who, None, None))
    {
      if ambient.actor.Some? { ActorsAreNotBlank(ambient.actor.value); }
      result, error := TryCreate(id, scope, input, ambient);
      error := Finished(ambient.recorder, error);
    }

    method TryDelete(read: Option<Job>, expected: int, ambient: Ambient) returns (error: Option<ServiceError>)
      modifies this`changed, repository
      ensures var refusal := FirstRefusal(expected, ambient, read.Some?, true);
        var applies := read.Some? && AtVersion(old(repository.Contents()), read.value.id, expected);
        && Did(TakesEffect(repository.dialect, ambient, refusal, applies),
            IsConfirmed(repository.dialect, ambient, refusal, applies))
        && Reports(repository.dialect, ambient.(recorder := Off), refusal, applies, error)
        && (TakesEffect(repository.dialect, ambient, refusal, applies) ==>
              DeletedOne(old(repository.jobs), repository.jobs, read.value.id, ambient.actor.value))
    {
      if expected < 1 { return Some(BadVersion); }
      if ambient.actor.None? { return Some(NoCaller); }
      if read.None? { return Some(NoSuchJob); }
      if !ambient.allowed { return Some(Denied); }
      var who := ambient.actor.value;
      var written := repository.Within(Call(ambient.actor, ambient.turn.at,
          DeleteJob(read.value.id, expected, ambient.turn.clock, who), ambient.turn.fault));
      if written.Err? { return Some(NotWritten(written.error)); }
      SignalChanged();
      return None;
    }

    method Delete(read: Option<Job>, expected: int, ambient: Ambient) returns (error: Option<ServiceError>)
      modifies this`changed, repository
      ensures var refusal := FirstRefusal(expected, ambient, read.Some?, true);
        var applies := read.Some? && AtVersion(old(repository.Contents()), read.value.id, expected);
        var effect := TakesEffect(repository.dialect, ambient, refusal, applies);
        var confirmed := IsConfirmed(repository.dialect, ambient, refusal, applies);
        && Did(effect, confirmed) && Reports(repository.dialect, ambient, refusal, applies, error)
        && (!effect <==> repository.Contents() == old(repository.Contents()) && changed == old(changed))
        && (effect ==> DeletedOne(old(repository.jobs), repository.jobs, read.value.id, ambient.actor.value))
      // each check on the inputs, in order
      ensures expected < 1 ==> error == Some(BadVersion)
      ensures expected >= 1 && ambient.actor == None ==> error == Some(NoCaller)
      ensures expected >= 1 && ambient.actor != None && read == None ==> error == Some(NoSuchJob)
      ensures expected >= 1 && ambient.actor != None && read != None && !ambient.allowed ==> error == Some(Denied)
      ensures expected < 1 || ambient.actor == None || read == None || !ambient.allowed ==>
        repository.Contents() == old(repository.Contents()) && changed == old(changed)
      ensures error == None <==>
        && expected >= 1 && ambient.actor != None && Trim(ambient.actor.value) != "" && read != None
        && ambient.allowed && !ambient.recorder.Rejects?
        && (ambient.turn.fault == NoFault || (ambient.turn.fault == ActorFails && repository.dialect == Explicit))
        && read.value.id in old(repository.jobs) && old(repository.jobs)[read.value.id].audit.deletedAt == None
        && old(repository.jobs)[read.value.id].audit.version == expected
    {
      if ambient.actor.Some? { ActorsAreNotBlank(ambient.actor.value); }
      error := TryDelete(read, expected, ambient);
      error := Finished(ambient.recorder, error);
    }

    /**
     One execution under its lease. The upstream is called exactly when the running row was committed and
     confirmed; the row then ends terminal with the answer of that very call, unless the finishing write fails,
     which leaves it running.
     */
    method ExecuteWithLease(run: Protocol.Run, uuid: string, first: Turn, second: Turn)
      returns (execution: Option<Execution>, error: Option<ServiceError>)
      requires uuid !in repository.executions && forall i :: 0 <= i < |invoker.calls| ==> invoker.calls[i].key != uuid
      modifies repository, invoker
      ensures repository.jobs == old(repository.jobs)
      ensures KeepsRows(old(repository.executions), repository.executions)
      ensures invoker.calls == old(invoker.calls) || invoker.calls
          == old(invoker.calls) + [UpstreamCall(uuid, run.job.definition)]
      ensures invoker.calls == old(invoker.calls) ==>
        execution.None? && error.Some? && error.value.NotWritten?
        && (repository.executions == old(repository.executions) || first.fault == CommitUnknown)
      ensures invoker.calls != old(invoker.calls) ==>
        && uuid in repository.executions && RecordsRun(repository.executions[uuid], run)
        && Answered(execution, error, repository.executions[uuid], OutcomeOf(invoker.answers(|old(invoker.calls)|)),
            second.fault)
      ensures invoker.calls != old(invoker.calls) <==>
        MayBegin(repository.dialect, old(repository.jobs), run, first.fault)
      ensures execution != None <==>
        && invoker.calls != old(invoker.calls)
        && (second.fault == NoFault || (second.fault == ActorFails && repository.dialect == Explicit))
      ensures execution != None ==>
        StoresAnswer(repository.executions[uuid], run, first, second, invoker.answers(|old(invoker.calls)|), error)
    {
      hide MayBegin, StoresAnswer, KeepsRows, Begun, RecordsRun, OutcomeOf, Answered, HasActor;
      error := InsertRow(run, uuid, first);
      if error.Some? { return None, error; }
      BegunIsOpen(repository.executions[uuid], run, uuid, first.clock);
      ghost var middle := repository.executions;
      var answer := invoker.Invoke(repository, uuid, run.job.definition);
      execution, error := FinishRow(run, uuid, first, second, answer);
      SameRowKeepsRows(old(repository.executions), middle, repository.executions, uuid);
    }

    /** The first transaction: the running row. */
    method InsertRow(run: Protocol.Run, uuid: string, turn: Turn) returns (error: Option<ServiceError>)
      requires uuid !in repository.executions
      modifies repository
      ensures repository.jobs == old(repository.jobs)
      ensures KeepsRows(old(repository.executions), repository.executions)
      ensures error.None? <==> MayBegin(repository.dialect, old(repository.jobs), run, turn.fault)
      ensures error.None? ==>
        && HasActor(run.actor) && uuid in repository.executions
        && Begun(repository.executions[uuid], run, uuid, turn.clock)
      ensures error.Some? ==>
        error.value.NotWritten? && (repository.executions == old(repository.executions) || turn.fault == CommitUnknown)
    {
      ActorsAreNotBlank(run.actor);
      InsertionEffect(repository.dialect, repository.Contents(), run, uuid, turn);
      hide Transact, KeepsRows, Begun, HasActor, Trim;
      var e := Protocol.NewExecution(run, uuid, turn.clock);
      var insert := if run.trigger == Manual then CreateManualExecution(e, run.expected) else CreateExecution(e);
      var inserted := repository.Within(Call(Some(run.actor), turn.at, insert, turn.fault));
      OneNewRowKeepsRows(old(repository.executions), repository.executions, uuid);
      error := if inserted.Err? then Some(NotWritten(inserted.error)) else None;
    }

    /** The second transaction: the outcome, and what the caller gets. */
    method FinishRow(run: Protocol.Run, uuid: string, first: Turn, second: Turn, answer: Answer)
        returns (execution: Option<Execution>, error: Option<ServiceError>)
      requires HasActor(run.actor) && uuid in repository.executions
      requires Begun(repository.executions[uuid], run, uuid, first.clock)
      modifies repository
      ensures repository.jobs == old(repository.jobs) && uuid in repository.executions
      ensures repository.executions == old(repository.executions)[uuid := repository.executions[uuid]]
      ensures RecordsRun(repository.executions[uuid], run)
      ensures Answered(execution, error, repository.executions[uuid], OutcomeOf(answer), second.fault)
      ensures execution != None <==>
        second.fault == NoFault || (second.fault == ActorFails && repository.dialect == Explicit)
      ensures execution != None ==> StoresAnswer(repository.executions[uuid], run, first, second, answer, error)
    {
      BegunIsOpen(repository.executions[uuid], run, uuid, first.clock);
      FinishEffect(repository.dialect, repository.Contents(), run, uuid, first, second, OutcomeOf(answer));
      hide Transact, Begun, Over, RecordsRun, OutcomeOf, SameExecution, HasActor, StoresAnswer;
      var e := Protocol.NewExecution(run, uuid, first.clock);
      e := Protocol.Completed(e, OutcomeOf(answer), second.clock);
      var finished := repository.Within(Call(Some(run.actor), second.at, FinishExecution(e), second.fault));
      if finished.Err? { return None, Some(NotWritten(finished.error)); }
      AnswerOnColumns(repository.executions[uuid], run, uuid, first, second, answer);
      e := e.(audit := e.audit.(version := e.audit.version + 1));
      return Some(e), if answer.Failure? then Some(InvocationFailed) else None;
    }

    /** A manual execution: the checks of the snapshot, the lease, the execution, and the log entry. */
    method Trigger(read: Option<Job>, expected: int, ambient: Ambient, lock: Lock, uuid: string, second: Turn)
        returns (execution: Option<Execution>, error: Option<ServiceError>)
      requires uuid !in repository.executions && forall i :: 0 <= i < |invoker.calls| ==> invoker.calls[i].key != uuid
      modifies repository, invoker
      ensures repository.jobs == old(repository.jobs)
      ensures invoker.calls == old(invoker.calls) ==>
        execution.None? && error.Some? && error != Some(NotRecorded)
        && (repository.executions == old(repository.executions) || ambient.turn.fault == CommitUnknown)
      ensures invoker.calls != old(invoker.calls) ==>
        && MayRun(read, expected, ambient, lock, old(repository.Contents()))
        && invoker.calls == old(invoker.calls) + [UpstreamCall(uuid, read.value.definition)]
        && uuid in repository.executions && repository.executions[uuid].jobId == read.value.id
      ensures error.None? || error == Some(NotRecorded) ==>
        && invoker.calls != old(invoker.calls) && (error.None? <==> !ambient.recorder.Rejects?)
        && Succeeds(execution, repository.executions, uuid, OutcomeOf(invoker.answers(|old(invoker.calls)|)))
      ensures var refusal := FirstRefusal(expected, ambient, read.Some?, true); refusal.Some? ==> error == refusal
      // each check on the inputs, in order
      ensures expected < 1 ==> error == Some(BadVersion)
      ensures expected >= 1 && ambient.actor == None ==> error == Some(NoCaller)
      ensures expected >= 1 && ambient.actor != None && read == None ==> error == Some(NoSuchJob)
      ensures expected >= 1 && ambient.actor != None && read != None && !ambient.allowed ==> error == Some(Denied)
      ensures expected >= 1 && ambient.actor != None && read != None && ambient.allowed ==>
        && (read.value.audit.version != expected ==> error == Some(NotWritten(Stale)))
        && (read.value.audit.version == expected && read.value.definition.status != Enabled ==>
              error == Some(NotEnabled))
        && (read.value.audit.version == expected && read.value.definition.status == Enabled && lock == Down ==>
              error == Some(LockDown))
        && (read.value.audit.version == expected && read.value.definition.status == Enabled && lock == Busy ==>
              error == Some(AlreadyRunning))
      ensures invoker.calls != old(invoker.calls) <==>
        && expected >= 1 && ambient.actor != None && Trim(ambient.actor.value) != "" && read != None
        && ambient.allowed && lock == Granted
        && read.value.audit.version == expected && read.value.definition.status == Enabled
        && (ambient.turn.fault == NoFault || (ambient.turn.fault == ActorFails && repository.dialect == Explicit))
        && read.value.id in old(repository.jobs)
        && old(repository.jobs)[read.value.id].audit.deletedAt == None
        && old(repository.jobs)[read.value.id].definition.status == Enabled
        && old(repository.jobs)[read.value.id].audit.version == expected
      ensures error == None || error == Some(NotRecorded) ==>
        var answer, row := invoker.answers(|old(invoker.calls)|), repository.executions[uuid];
        && answer.Reply? && row.outcome == Outcome(Succeeded, answer.response, "", "")
        && row.trigger == Manual && row.scope == read.value.scope && row.audit.createdBy == ambient.actor.value
    {
      execution, error := TryTrigger(read, expected, ambient, lock, uuid, second);
      error := Finished(ambient.recorder, error);
    }

    method TryTrigger(read: Option<Job>, expected: int, ambient: Ambient, lock: Lock, uuid: string, second: Turn)
        returns (execution: Option<Execution>, error: Option<ServiceError>)
      requires uuid !in repository.executions && forall i :: 0 <= i < |invoker.calls| ==> invoker.calls[i].key != uuid
      modifies repository, invoker
      ensures repository.jobs == old(repository.jobs)
      ensures invoker.calls == old(invoker.calls) ==>
        execution.None? && error.Some?
        && (repository.executions == old(repository.executions) || ambient.turn.fault == CommitUnknown)
      ensures invoker.calls != old(invoker.calls) ==>
        && MayRun(read, expected, ambient, lock, old(repository.Contents()))
        && invoker.calls == old(invoker.calls) + [UpstreamCall(uuid, read.value.definition)]
        && uuid in repository.executions && repository.executions[uuid].jobId == read.value.id
      ensures error != Some(NotRecorded)
      ensures error.None? ==>
        && invoker.calls != old(invoker.calls)
        && Succeeds(execution, repository.executions, uuid, OutcomeOf(invoker.answers(|old(invoker.calls)|)))
      ensures var refusal := FirstRefusal(expected, ambient, read.Some?, true); refusal.Some? ==> error == refusal
      ensures expected < 1 ==> error == Some(BadVersion)
      ensures expected >= 1 && ambient.actor == None ==> error == Some(NoCaller)
      ensures expected >= 1 && ambient.actor != None && read == None ==> error == Some(NoSuchJob)
      ensures expected >= 1 && ambient.actor != None && read != None && !ambient.allowed ==> error == Some(Denied)
      ensures expected >= 1 && ambient.actor != None && read != None && ambient.allowed ==>
        && (read.value.audit.version != expected ==> error == Some(NotWritten(Stale)))
        && (read.value.audit.version == expected && read.value.definition.status != Enabled ==>
              error == Some(NotEnabled))
        && (read.value.audit.version == expected && read.value.definition.status == Enabled && lock == Down ==>
              error == Some(LockDown))
        && (read.value.audit.version == expected && read.value.definition.status == Enabled && lock == Busy ==>
              error == Some(AlreadyRunning))
      ensures invoker.calls != old(invoker.calls) <==>
        && expected >= 1 && ambient.actor != None && Trim(ambient.actor.value) != "" && read != None
        && ambient.allowed && lock == Granted
        && read.value.audit.version == expected && read.value.definition.status == Enabled
        && (ambient.turn.fault == NoFault || (ambient.turn.fault == ActorFails && repository.dialect == Explicit))
        && read.value.id in old(repository.jobs)
        && old(repository.jobs)[read.value.id].audit.deletedAt == None
        && old(repository.jobs)[read.value.id].definition.status == Enabled
        && old(repository.jobs)[read.value.id].audit.version == expected
      ensures error == None ==>
        var answer, row := invoker.answers(|old(invoker.calls)|), repository.executions[uuid];
        && answer.Reply? && row.outcome == Outcome(Succeeded, answer.response, "", "")
        && row.trigger == Manual && row.scope == read.value.scope && row.audit.createdBy == ambient.actor.value
    {
      if expected < 1 { return None, Some(BadVersion); }
      if ambient.actor.None? { return None, Some(NoCaller); }
      if read.None? { return None, Some(NoSuchJob); }
      if !ambient.allowed { return None, Some(Denied); }
      if read.value.audit.version != expected { return None, Some(NotWritten(Stale)); }
      if read.value.definition.status != Enabled { return None, Some(NotEnabled); }
      if lock == Down { return None, Some(LockDown); }
      if lock == Busy { return None, Some(AlreadyRunning); }
      var run := Protocol.Run(read.value, read.value, Manual, ambient.actor.value, expected, 0);
      execution, error := ExecuteWithLease(run, uuid, ambient.turn, second);
    }
  }

  /** With a rejecting operation log the caller gets an error for a job that exists and was signalled. */
  method CommittedButRefused(dialect: Dialect, answers: nat -> Answer, input: Definition)
    returns (service: JobService, error: Option<ServiceError>)
    ensures error == Some(NotRecorded) && service.changed && service.repository.jobs.Keys == {"j"}
  {
    var repository := new SqlRepository(dialect);
    var invoker := new Invoker(answers);
    service := new JobService(repository, invoker);
    var ambient := Ambient(Some("x"), true, Turn(0, 0, NoFault), Rejects);
    assert HasActor("x") by { assert "x"[0] == 'x'; }
    var result;
    result, error := service.Create("j", Scope("t", "a"), Some(input), ambient);
  }
}
