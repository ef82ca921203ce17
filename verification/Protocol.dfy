/**
 The execution protocol: clients, cron entries and cleaners of any number of replicas, over the two
 tables, the per-job lease and the row lock of a manual trigger.

 Every action is one database transaction, one call of the lock service, one upstream event or one
 local move of a single process. A process is one service call or one cleaning batch; it keeps its
 final reply, so runs remember every call. Replica clocks (`clock`) and statement times (`at`) are
 arbitrary; only `now`, which the deadlines and the leases are measured against, is global.

 A commit can succeed without its caller learning of it (`ack` false), a call can fail at any point
 (`Abort`, which is also what remains when the code refuses a step), a replica can die at any point (`Crash`),
     and a lease may or may not be renewed. The
 refusal of a blank audit actor and the authorisation checks only remove behaviours, so they are
 not repeated here.
 */
module Protocol {
  import opened Records
  import opened AuditTrail
  import opened Statements

  /** The lease outlives the job's timeout by this much (milliseconds). */
  const LEASE_MARGIN := 30000

  /** The context of the finishing transaction. */
  const FINISH_LIMIT := 5000

  const SYSTEM_ACTOR := "scheduler-service"

  type Pid = nat

  /**
   `pause` bounds what a deadline does not bound: the time one execution spends between its calls,
   from the creation of its context to the creation of the finishing context.
   */
  datatype Config = Config(dialect: Dialect, pause: nat)

  datatype Lease = Lease(owner: Pid, expiry: int)

  /** One call of `execute`. `loaded` is the cron entry's copy of the job, or `job` for a manual call. */
  datatype Run = Run(job: Job, loaded: Job, trigger: Trigger, actor: string, expected: int, deadline: int)

  datatype Reply =
    | Created(job: Job)
    | Updated(job: Job)
    | Deleted(id: string, expected: int)
    | Executed(execution: Execution)
    | Swept(rows: nat)
    | Refused
    | Crashed

  datatype Process =
    | Updating(snapshot: Job, input: Definition, expected: int, actor: string)
    | Deleting(id: string, expected: int, actor: string)
    | Fired(loaded: Job)
    | Accepted(run: Run)
    | Waiting(run: Run)
    | Leased(run: Run)
    | Locked(run: Run)
    | Inserting(run: Run, execution: Execution)
    | Recorded(run: Run, execution: Execution)
    | Invoking(run: Run, execution: Execution)
    | Returned(run: Run, execution: Execution)
    | Finishing(run: Run, execution: Execution, limit: int)
    | Releasing(jobId: string, reply: Reply)
    | Selected(ids: set<string>, before: int)
    | Ended(reply: Reply)
  {
    predicate HasRun()
    {
      Accepted? || Waiting? || InSection()
    }

    /** From holding the lease to the end of the finishing write. */
    predicate InSection()
    {
      Leased? || Locked? || HasExecution()
    }

    predicate HasExecution()
    {
      Inserting? || HasRow()
    }

    /** The running row is committed and not yet finished by this process. */
    predicate HasRow()
    {
      Recorded? || Invoking? || HasResult()
    }

    predicate HasResult()
    {
      Returned? || Finishing?
    }

    predicate HoldsRowLock()
    {
      Locked? || (Inserting? && run.trigger == Manual)
    }

    /** The latest instant at which the process can still be in this state. */
    function Limit(c: Config): int
      requires InSection()
    {
      if Finishing? then limit else run.deadline + c.pause
    }
  }

  datatype Invocation = Invocation(pid: Pid, key: string, run: Run)

  datatype Batch = Batch(pid: Pid, before: int, ids: set<string>)

  /**
   The tables and what the protocol's theorems speak about: `history` and `writers` hold every
   committed version of a job and who wrote it, `against` the job row at the commit of an
   execution's insert, `invocations` and `results` the upstream calls, `batches` the cleaned rows.
   */
  datatype World = World(
    now: int,
    store: Store,
    history: map<string, seq<Job>>,
    writers: map<string, seq<Pid>>,
    entries: map<nat, map<string, Job>>,
    leases: map<string, Lease>,
    rowLocks: map<string, Pid>,
    procs: map<Pid, Process>,
    issued: map<string, Pid>,
    against: map<string, Job>,
    invocations: seq<Invocation>,
    results: map<string, Outcome>,
    batches: seq<Batch>)
  {
    function Set(p: Pid, proc: Process): World { this.(procs := procs[p := proc]) }

    /** The row lock dies with the transaction of the process that holds it. */
    function Unlock(p: Pid): World
    {
      this.(rowLocks := map id | id in rowLocks && rowLocks[id] != p :: rowLocks[id])
    }
  }

  const Start := World(0, Store(map[], map[]), map[], map[], map[], map[], map[], map[], map[], map[], [], map[], [])

  datatype Action =
    | Tick(delay: nat)
    | Create(p: Pid, job: Job, actor: string, at: int, ack: bool)
    | BeginUpdate(p: Pid, id: string, input: Definition, expected: int, actor: string)
    | CommitUpdate(p: Pid, clock: int, at: int, ack: bool)
    | BeginDelete(p: Pid, id: string, expected: int, actor: string)
    | CommitDelete(p: Pid, clock: int, at: int, ack: bool)
    | Reload(replica: nat)
    | Fire(p: Pid, replica: nat, id: string)
    | ReRead(p: Pid)
    | BeginTrigger(p: Pid, id: string, expected: int, actor: string)
    | Execute(p: Pid)
    | Acquire(p: Pid, ack: bool)
    | Renew(p: Pid, expiry: int)
    | LockRow(p: Pid)
    | Insert(p: Pid, uuid: string, clock: int)
    | CommitInsert(p: Pid, at: int, ack: bool)
    | Invoke(p: Pid)
    | Return(p: Pid, outcome: Outcome, clock: int)
    | BeginFinish(p: Pid)
    | CommitFinish(p: Pid, at: int, ack: bool)
    | Abort(p: Pid)
    | Release(p: Pid, done: bool)
    | Crash(p: Pid)
    | Select(p: Pid, before: int, ids: set<string>)
    | SweepSelected(p: Pid, clock: int, at: int, ack: bool)

  /** The state after an action, or None when the action is not possible. */
  function Step(c: Config, w: World, a: Action): Option<World>
  {
    match a
    case Tick(delay) => TickStep(c, w, delay)
    case Create(p, job, actor, at, ack) => CreateStep(c, w, p, job, actor, at, ack)
    case BeginUpdate(p, id, input, expected, actor) => BeginUpdateStep(w, p, id, input, expected, actor)
    case CommitUpdate(p, clock, at, ack) => CommitUpdateStep(c, w, p, clock, at, ack)
    case BeginDelete(p, id, expected, actor) => BeginDeleteStep(w, p, id, expected, actor)
    case CommitDelete(p, clock, at, ack) => CommitDeleteStep(c, w, p, clock, at, ack)
    case Reload(replica) => Some(w.(entries := w.entries[replica := ListEnabled(w.store.jobs)]))
    case Fire(p, replica, id) => FireStep(w, p, replica, id)
    case ReRead(p) => ReReadStep(w, p)
    case BeginTrigger(p, id, expected, actor) => BeginTriggerStep(w, p, id, expected, actor)
    case Execute(p) => ExecuteStep(w, p)
    case Acquire(p, ack) => AcquireStep(w, p, ack)
    case Renew(p, expiry) => RenewStep(w, p, expiry)
    case LockRow(p) => LockRowStep(w, p)
    case Insert(p, uuid, clock) => InsertStep(w, p, uuid, clock)
    case CommitInsert(p, at, ack) => CommitInsertStep(c, w, p, at, ack)
    case Invoke(p) => InvokeStep(w, p)
    case Return(p, outcome, clock) => ReturnStep(w, p, outcome, clock)
    case BeginFinish(p) => BeginFinishStep(w, p)
    case CommitFinish(p, at, ack) => CommitFinishStep(c, w, p, at, ack)
    case Abort(p) => AbortStep(w, p)
    case Release(p, done) => ReleaseStep(w, p, done)
    case Crash(p) => CrashStep(w, p)
    case Select(p, before, ids) => SelectStep(w, p, before, ids)
    case SweepSelected(p, clock, at, ack) => SweepStep(c, w, p, clock, at, ack)
  }

  /** Calls end by their deadlines, so time cannot pass the limit of a process in its section. */
  function TickStep(c: Config, w: World, delay: nat): Option<World>
  {
    if forall p :: p in w.procs && w.procs[p].InSection() ==> w.now + delay <= w.procs[p].Limit(c)
    then Some(w.(now := w.now + delay)) else None
  }

  // ---- clients ----

  /** What Create builds: version 1, both audit actors the caller. */
  function NewJob(id: string, scope: Scope, input: Definition, actor: string, clock: int): Job
  {
    Job(id, scope, input, Audit(1, clock, actor, clock, actor, None, None))
  }

  function CreateStep(c: Config, w: World, p: Pid, job: Job, actor: string, at: int, ack: bool): Option<World>
  {
    var built := NewJob(job.id, job.scope, job.definition, actor, job.audit.createdAt);
    if p in w.procs || actor == "" || job != built then None else
    var applied := Apply(Session(c.dialect, actor, at), w.store, CreateJob(job));
    if applied.Err? then None
    else Some(Append(w, p, applied.value.store, job.id).Set(p, Ended(if ack then Created(job) else Refused)))
  }

  function BeginUpdateStep(w: World, p: Pid, id: string, input: Definition, expected: int, actor: string): Option<World>
  {
    var current := GetJob(w.store, id);
    if p in w.procs || expected < 1 || actor == "" || current.None? then None
    else Some(w.Set(p, Updating(current.value, input, expected, actor)))
  }

  /** The row Update hands to the repository and, at the next version, to its caller. */
  function Revised(snapshot: Job, input: Definition, actor: string, clock: int): Job
  {
    snapshot.(definition := input, audit := snapshot.audit.(updatedAt := clock, updatedBy := actor))
  }

  function CommitUpdateStep(c: Config, w: World, p: Pid, clock: int, at: int, ack: bool): Option<World>
  {
    if p !in w.procs || !w.procs[p].Updating? || w.procs[p].snapshot.id in w.rowLocks then None else
    var Updating(snapshot, input, expected, actor) := w.procs[p];
    var value := Revised(snapshot, input, actor, clock);
    var applied := Apply(Session(c.dialect, actor, at), w.store, UpdateJob(value, expected));
    if applied.Err? then None else
    var answer := if ack then Updated(value.(audit := value.audit.(version := expected + 1))) else Refused;
    Some(Append(w, p, applied.value.store, snapshot.id).Set(p, Ended(answer)))
  }

  /** A new version of the job `id` reaches the table. */
  function Append(w: World, p: Pid, store: Store, id: string): World
    requires id in store.jobs
  {
    var past := if id in w.history then w.history[id] else [];
    var authors := if id in w.writers then w.writers[id] else [];
    w.(store := store, history := w.history[id := past + [store.jobs[id]]], writers := w.writers[id := authors + [p]])
  }

  function BeginDeleteStep(w: World, p: Pid, id: string, expected: int, actor: string): Option<World>
  {
    if p in w.procs || expected < 1 || actor == "" || GetJob(w.store, id).None? then None
    else Some(w.Set(p, Deleting(id, expected, actor)))
  }

  function CommitDeleteStep(c: Config, w: World, p: Pid, clock: int, at: int, ack: bool): Option<World>
  {
    if p !in w.procs || !w.procs[p].Deleting? || w.procs[p].id in w.rowLocks then None else
    var Deleting(id, expected, actor) := w.procs[p];
    var applied := Apply(Session(c.dialect, actor, at), w.store, DeleteJob(id, expected, clock, actor));
    if applied.Err? then None
    else Some(Append(w, p, applied.value.store, id).Set(p, Ended(if ack then Deleted(id, expected) else Refused)))
  }

  // ---- the two ways to an execution ----

  function FireStep(w: World, p: Pid, replica: nat, id: string): Option<World>
  {
    if p in w.procs || replica !in w.entries || id !in w.entries[replica] then None
    else Some(w.Set(p, Fired(w.entries[replica][id])))
  }

  function ReReadStep(w: World, p: Pid): Option<World>
  {
    if p !in w.procs || !w.procs[p].Fired? then None else
    var loaded := w.procs[p].loaded;
    var current := GetJob(w.store, loaded.id);
    if current.None? || current.value.audit.version != loaded.audit.version
        || current.value.definition.status != Enabled
    then None
    else Some(w.Set(p, Accepted(Run(current.value, loaded, Scheduled, SYSTEM_ACTOR, 0, 0))))
  }

  function BeginTriggerStep(w: World, p: Pid, id: string, expected: int, actor: string): Option<World>
  {
    var current := GetJob(w.store, id);
    if p in w.procs || expected < 1 || actor == "" || current.None? then None
    else if current.value.audit.version != expected || current.value.definition.status != Enabled then None
    else Some(w.Set(p, Accepted(Run(current.value, current.value, Manual, actor, expected, 0))))
  }

  /** `context.WithTimeout(parent, timeout)` */
  function ExecuteStep(w: World, p: Pid): Option<World>
  {
    if p !in w.procs || !w.procs[p].Accepted? then None else
    var run := w.procs[p].run;
    Some(w.Set(p, Waiting(run.(deadline := w.now + run.job.definition.timeout))))
  }

  // ---- the lease ----

  predicate Free(leases: map<string, Lease>, id: string, now: int)
  {
    id in leases ==> leases[id].expiry <= now
  }

  function AcquireStep(w: World, p: Pid, ack: bool): Option<World>
  {
    if p !in w.procs || !w.procs[p].Waiting? then None else
    var run := w.procs[p].run;
    if !Free(w.leases, run.job.id, w.now) || run.deadline < w.now then None else
    var lease := Lease(p, w.now + run.job.definition.timeout + LEASE_MARGIN);
    Some(w.(leases := w.leases[run.job.id := lease]).Set(p, if ack then Leased(run) else Ended(Refused)))
  }

  function RenewStep(w: World, p: Pid, expiry: int): Option<World>
  {
    if p !in w.procs || !w.procs[p].InSection() then None else
    var id := w.procs[p].run.job.id;
    if id !in w.leases || w.leases[id].owner != p || expiry < w.leases[id].expiry then None
    else Some(w.(leases := w.leases[id := Lease(p, expiry)]))
  }

  /** Unlocking removes only a lease the process still owns, and can itself fail. */
  function ReleaseStep(w: World, p: Pid, done: bool): Option<World>
  {
    if p !in w.procs || !w.procs[p].Releasing? then None else
    var Releasing(id, reply) := w.procs[p];
    var owned := id in w.leases && w.leases[id].owner == p;
    Some(w.(leases := if done && owned then w.leases - {id} else w.leases).Set(p, Ended(reply)))
  }

  // ---- the section ----

  /** SELECT version, status ... FOR UPDATE, which waits for the row's lock. */
  function LockRowStep(w: World, p: Pid): Option<World>
  {
    if p !in w.procs || !w.procs[p].Leased? || w.procs[p].run.trigger != Manual then None else
    var id := w.procs[p].run.job.id;
    if id in w.rowLocks || GetJob(w.store, id).None? then None
    else Some(w.(rowLocks := w.rowLocks[id := p]).Set(p, Locked(w.procs[p].run)))
  }

  function NewExecution(run: Run, uuid: string, clock: int): Execution
  {
    Execution(uuid, run.job.id, run.job.scope, run.trigger, NoOutcome, clock, None, 0,
              Audit(1, clock, run.actor, clock, run.actor, None, None))
  }

  /** The row is inserted but its transaction is still open. */
  function InsertStep(w: World, p: Pid, uuid: string, clock: int): Option<World>
  {
    if p !in w.procs || uuid in w.issued then None else
    var proc := w.procs[p];
    if (proc.Leased? && proc.run.trigger == Scheduled)
       || (proc.Locked? && AtVersion(w.store, proc.run.job.id, proc.run.expected)
           && w.store.jobs[proc.run.job.id].definition.status == Enabled)
    then Some(w.(issued := w.issued[uuid := p]).Set(p, Inserting(proc.run, NewExecution(proc.run, uuid, clock))))
    else None
  }

  function CommitInsertStep(c: Config, w: World, p: Pid, at: int, ack: bool): Option<World>
  {
    if p !in w.procs || !w.procs[p].Inserting? then None else
    var Inserting(run, e) := w.procs[p];
    var applied := Apply(Session(c.dialect, run.actor, at), w.store, CreateExecution(e));
    if applied.Err? then None
    else Some(w.(store := applied.value.store, against := w.against[e.id := w.store.jobs[e.jobId]])
               .Unlock(p).Set(p, if ack then Recorded(run, e) else Releasing(run.job.id, Refused)))
  }

  function InvokeStep(w: World, p: Pid): Option<World>
  {
    if p !in w.procs || !w.procs[p].Recorded? then None else
    var Recorded(run, e) := w.procs[p];
    Some(w.(invocations := w.invocations + [Invocation(p, e.id, run)]).Set(p, Invoking(run, e)))
  }

  function Completed(e: Execution, outcome: Outcome, clock: int): Execution
  {
    e.(outcome := outcome, finishedAt := Some(clock), duration := clock - e.startedAt,
        audit := e.audit.(updatedAt := clock))
  }

  function ReturnStep(w: World, p: Pid, outcome: Outcome, clock: int): Option<World>
  {
    if p !in w.procs || !w.procs[p].Invoking? || outcome.status == Running then None else
    var Invoking(run, e) := w.procs[p];
    Some(w.(results := w.results[e.id := outcome]).Set(p, Returned(run, Completed(e, outcome, clock))))
  }

  function BeginFinishStep(w: World, p: Pid): Option<World>
  {
    if p !in w.procs || !w.procs[p].Returned? then None
    else Some(w.Set(p, Finishing(w.procs[p].run, w.procs[p].execution, w.now + FINISH_LIMIT)))
  }

  /** UPDATE ... WHERE id=? AND version=?, with no test of deleted_at. */
  function CommitFinishStep(c: Config, w: World, p: Pid, at: int, ack: bool): Option<World>
  {
    if p !in w.procs || !w.procs[p].Finishing? then None else
    var Finishing(run, e, _) := w.procs[p];
    var applied := Apply(Session(c.dialect, run.actor, at), w.store, FinishExecution(e));
    if applied.Err? then None else
    var answer := if ack then Executed(e.(audit := e.audit.(version := e.audit.version + 1))) else Refused;
    Some(w.(store := applied.value.store).Set(p, Releasing(run.job.id, answer)))
  }

  /** A refusal or a failing call: the open transaction rolls back and the locked function returns. */
  function AbortStep(w: World, p: Pid): Option<World>
  {
    if p !in w.procs || w.procs[p].Releasing? || w.procs[p].Ended? then None else
    var proc := w.procs[p];
    if proc.Recorded? || proc.Invoking? || proc.Returned? then None
    else Some(w.Unlock(p).Set(p, if proc.InSection() then Releasing(proc.run.job.id, Refused) else Ended(Refused)))
  }

  function CrashStep(w: World, p: Pid): Option<World>
  {
    if p !in w.procs || w.procs[p].Ended? then None else Some(w.Unlock(p).Set(p, Ended(Crashed)))
  }

  // ---- cleaners ----

  /** The ids of some expired rows; which ones, and how many, is up to ORDER BY and LIMIT. */
  function SelectStep(w: World, p: Pid, before: int, ids: set<string>): Option<World>
  {
    if p in w.procs || !(ids <= Expired(w.store.executions, before)) then None
    else Some(w.Set(p, Selected(ids, before)))
  }

  function SweepStep(c: Config, w: World, p: Pid, clock: int, at: int, ack: bool): Option<World>
  {
    if p !in w.procs || !w.procs[p].Selected? then None else
    var Selected(ids, before) := w.procs[p];
    var hit := ids * Expired(w.store.executions, before);
    var tx := Session(c.dialect, SYSTEM_ACTOR, at);
    Some(w.(store := w.store.(executions := Sweep(tx, w.store.executions, ids, before, clock, SYSTEM_ACTOR)),
            batches := w.batches + [Batch(p, before, hit)])
          .Set(p, Ended(if ack then Swept(|hit|) else Refused)))
  }

  // ---- runs ----

  /** The state after a sequence of actions from the empty tables, if every action is possible. */
  function RunFrom(c: Config, w: World, actions: seq<Action>): Option<World>
    decreases |actions|
  {
    if actions == [] then Some(w) else
    var next := Step(c, w, actions[0]);
    if next.None? then None else RunFrom(c, next.value, actions[1..])
  }
}
