/** The retention cleaner: a loop of bounded transactions that amounts to one bulk deletion. */
module Cleaner {
  import opened Records
  import opened AuditTrail
  import opened Statements
  import opened Repository

  const CLEANER := "scheduler-service"

  /** What differs between two batches: the wall clock, the statement time, what fails. */
  datatype Round = Round(now: int, at: int, fault: Fault)

  /** One batch; `who` is both the transaction's principal and the audit actor of its statement. */
  function Batch(who: string, round: Round, retention: nat, size: nat): Call
  {
    Call(Some(who), round.at, SweepExecutions(round.now - retention, size, round.now, who), round.fault)
  }

  /** `swept` is `executions` with exactly the rows of `gone` deleted by the cleaner, whenever that was. */
  ghost predicate SweptOf(dialect: Dialect, who: string, executions: map<string, Execution>, swept: map<string,
      Execution>, gone: set<string>)
  {
    && swept.Keys == executions.Keys && gone <= executions.Keys
    && (forall id :: id in executions && id !in gone ==> swept[id] == executions[id])
    && (forall id :: id in gone ==> executions[id].Live() && SweptRow(dialect, who, executions[id], swept[id]))
  }

  ghost predicate SweptRow(dialect: Dialect, who: string, e: Execution, swept: Execution)
  {
    SameExecution(swept, SweptExecution(Session(dialect, who, 0), e, 0, who)) && !swept.Live()
  }

  lemma CleanerIsAnActor()
    ensures HasActor(CLEANER)
  {
    assert CLEANER[0] == 's';
  }

  lemma SweptTwiceTheSame(tx: Session, e: Execution, at: int)
    requires e.Live()
    ensures SweptRow(tx.dialect, tx.actor, e, SweptExecution(tx, e, at, tx.actor))
  {
  }

  lemma SweepIsSwept(tx: Session, executions: map<string, Execution>, ids: set<string>, before: int, at: int)
    requires tx.actor != "" && ids <= Expired(executions, before)
    ensures SweptOf(tx.dialect, tx.actor, executions, Sweep(tx, executions, ids, before, at, tx.actor), ids)
  {
    forall id | id in ids
      ensures SweptRow(tx.dialect, tx.actor, executions[id], SweptExecution(tx, executions[id], at, tx.actor))
    {
      SweptTwiceTheSame(tx, executions[id], at);
    }
  }

  lemma StatementEffect(tx: Session, s: Store, ids: set<string>, before: int, at: int)
    requires tx.actor != "" && ids <= Expired(s.executions, before)
    ensures var applied := SweepIds(tx, s, ids, before, at, tx.actor);
      && applied.Ok? && applied.value.rows == |ids| && applied.value.store.jobs == s.jobs
      && SweptOf(tx.dialect, tx.actor, s.executions, applied.value.store.executions, ids)
  {
    SweepIsSwept(tx, s.executions, ids, before, at);
  }

  /** A batch either deletes all of `ids` or, when something fails, possibly nothing. */
  ghost predicate BatchResult(dialect: Dialect, who: string, s: Store, after: Store, answer: Result<nat, WriteError>,
      ids: set<string>, fault: Fault)
  {
    && after.jobs == s.jobs && (answer.Ok? ==> answer.value == |ids|) && (answer.Err? ==> fault != NoFault)
    && (SweptOf(dialect, who, s.executions, after.executions, ids) || (answer.Err? && after == s))
  }

  lemma ConclusionEffect(dialect: Dialect, who: string, s: Store, applied: Result<Applied, WriteError>,
      ids: set<string>, fault: Fault)
    requires applied.Ok? && applied.value.rows == |ids| && applied.value.store.jobs == s.jobs
    requires SweptOf(dialect, who, s.executions, applied.value.store.executions, ids)
    ensures BatchResult(dialect, who, s, Conclude(s, applied, fault).0, Conclude(s, applied, fault).1, ids, fault)
  {
  }

  lemma BatchStatements(dialect: Dialect, who: string, s: Store, round: Round, retention: nat, size: nat,
      ids: set<string>)
    requires HasActor(who) && ids == SelectExpired(s.executions, round.now - retention, size)
    ensures var call := Batch(who, round, retention, size);
            var swept := SweepIds(Session(dialect, who, round.at), s, ids, round.now - retention, round.now, who);
      && (Refusal(dialect, call).None? ==> Transact(dialect, s, call) == Conclude(s, swept, round.fault))
      && (Refusal(dialect, call).Some? ==>
        Transact(dialect, s, call).0 == s && Transact(dialect, s, call).1.Err?
        && round.fault != NoFault)
  {
    assert Apply(Session(dialect, who, round.at), s, Batch(who, round, retention, size).write)
        == SweepIds(Session(dialect, who, round.at), s, ids, round.now - retention, round.now, who);
  }

  lemma BatchEffect(dialect: Dialect, who: string, s: Store, round: Round, retention: nat, size: nat, ids: set<string>)
    requires HasActor(who) && who != "" && ids == SelectExpired(s.executions, round.now - retention, size)
    ensures var (after, answer) := Transact(dialect, s, Batch(who, round, retention, size));
      BatchResult(dialect, who, s, after, answer, ids, round.fault)
  {
    var tx := Session(dialect, who, round.at);
    var before := round.now - retention;
    SelectionIsExpired(s.executions, before, size);
    StatementEffect(tx, s, ids, before, round.now);
    BatchStatements(dialect, who, s, round, retention, size, ids);
    ConclusionEffect(dialect, who, s, SweepIds(tx, s, ids, before, round.now, who), ids, round.fault);
  }

  /** A batch deletes `hit`: as many expired rows as fit, or none when its transaction fails. */
  ghost predicate Hits(dialect: Dialect, who: string, s: Store, after: Store, answer: Result<nat, WriteError>,
      round: Round, before: int, size: nat, hit: set<string>)
  {
    && hit <= Expired(s.executions, before) && after.jobs == s.jobs
    && SweptOf(dialect, who, s.executions, after.executions, hit)
    && (answer.Ok? ==> answer.value == |hit| == AtMost(|Expired(s.executions, before)|, size))
    && (answer.Err? ==> round.fault != NoFault)
  }

  lemma ResultHits(dialect: Dialect, who: string, s: Store, after: Store, answer: Result<nat, WriteError>,
      round: Round, before: int, size: nat, ids: set<string>) returns (hit: set<string>)
    requires BatchResult(dialect, who, s, after, answer, ids, round.fault)
    requires ids <= Expired(s.executions, before) && |ids| == AtMost(|Expired(s.executions, before)|, size)
    ensures Hits(dialect, who, s, after, answer, round, before, size, hit)
  {
    hit := if SweptOf(dialect, who, s.executions, after.executions, ids) then ids else {};
  }

  lemma BatchHits(dialect: Dialect, who: string, s: Store, after: Store, answer: Result<nat, WriteError>,
      round: Round, retention: nat, size: nat) returns (hit: set<string>)
    requires HasActor(who) && who != ""
    requires (after, answer) == Transact(dialect, s, Batch(who, round, retention, size))
    ensures Hits(dialect, who, s, after, answer, round, round.now - retention, size, hit)
  {
    hide *;
    var ids := SelectExpired(s.executions, round.now - retention, size);
    BatchEffect(dialect, who, s, round, retention, size, ids);
    SelectionIsExpired(s.executions, round.now - retention, size);
    hit := ResultHits(dialect, who, s, after, answer, round, round.now - retention, size, ids);
  }

  /** Later batches add to what earlier ones deleted. */
  lemma SweptAdds(dialect: Dialect, who: string, first: map<string, Execution>, middle: map<string, Execution>,
      last: map<string, Execution>, gone: set<string>, more: set<string>)
    requires SweptOf(dialect, who, first, middle, gone) && SweptOf(dialect, who, middle, last, more)
    ensures SweptOf(dialect, who, first, last, gone + more) && gone !! more
  {
  }

  /** What is still expired is what was expired and has not been deleted. */
  lemma ExpiredShrinks(dialect: Dialect, who: string, first: map<string, Execution>, middle: map<string, Execution>,
      gone: set<string>, before: int)
    requires SweptOf(dialect, who, first, middle, gone)
    ensures Expired(middle, before) == Expired(first, before) - gone
  {
  }

  function LiveIds(executions: map<string, Execution>): set<string>
  {
    set id | id in executions && executions[id].Live()
  }

  lemma LiveShrinks(dialect: Dialect, who: string, executions: map<string, Execution>, swept: map<string, Execution>,
      gone: set<string>)
    requires SweptOf(dialect, who, executions, swept, gone)
    ensures LiveIds(swept) == LiveIds(executions) - gone && |LiveIds(swept)| == |LiveIds(executions)| - |gone|
  {
    assert gone <= LiveIds(executions);
    assert LiveIds(swept) == LiveIds(executions) - gone;
  }

  lemma ExpiredIsMonotone(executions: map<string, Execution>, earlier: int, later: int)
    requires earlier <= later
    ensures Expired(executions, earlier) <= Expired(executions, later)
  {
  }

  /** `batches` full batches have been deleted, all of them rows that the cutoff covers. */
  ghost predicate Progress(dialect: Dialect, first: map<string, Execution>, current: map<string, Execution>,
      gone: set<string>, cutoff: int, batches: nat, size: nat)
  {
    SweptOf(dialect, CLEANER, first, current, gone) && gone <= Expired(first, cutoff) && |gone| == batches * size
  }

  lemma NothingYet(dialect: Dialect, first: map<string, Execution>, cutoff: int, size: nat)
    ensures Progress(dialect, first, first, {}, cutoff, 0, size)
  {
  }

  lemma LaterCutoff(dialect: Dialect, first: map<string, Execution>, current: map<string, Execution>,
      gone: set<string>, cutoff: int, later: int, batches: nat, size: nat)
    requires Progress(dialect, first, current, gone, cutoff, batches, size) && cutoff <= later
    ensures Progress(dialect, first, current, gone, later, batches, size)
  {
    ExpiredIsMonotone(first, cutoff, later);
  }

  lemma SmallBatchIsAll(hit: set<string>, all: set<string>)
    requires hit <= all && |hit| >= |all|
    ensures hit == all
  {
    assert |all - hit| == |all| - |hit|;
  }

  lemma BatchAdds(dialect: Dialect, first: map<string, Execution>, s: Store, after: Store, gone: set<string>,
      hit: set<string>, cutoff: int)
    requires SweptOf(dialect, CLEANER, first, s.executions, gone) && gone <= Expired(first, cutoff)
    requires SweptOf(dialect, CLEANER, s.executions, after.executions, hit) && hit <= Expired(s.executions, cutoff)
    ensures SweptOf(dialect, CLEANER, first, after.executions, gone + hit) && gone + hit <= Expired(first, cutoff)
    ensures |gone + hit| == |gone| + |hit| && |LiveIds(after.executions)| == |LiveIds(s.executions)| - |hit|
    ensures |hit| >= |Expired(s.executions, cutoff)| ==> gone + hit == Expired(first, cutoff)
  {
    SweptAdds(dialect, CLEANER, first, s.executions, after.executions, gone, hit);
    ExpiredShrinks(dialect, CLEANER, first, s.executions, gone, cutoff);
    LiveShrinks(dialect, CLEANER, s.executions, after.executions, hit);
    if |hit| >= |Expired(s.executions, cutoff)| {
      SmallBatchIsAll(hit, Expired(s.executions, cutoff));
    }
  }

  lemma AfterBatch(dialect: Dialect, first: map<string, Execution>, s: Store, after: Store, answer: Result<nat,
      WriteError>, round: Round, cutoff: int, batches: nat, size: nat, gone: set<string>, hit: set<string>)
    requires Progress(dialect, first, s.executions, gone, cutoff, batches, size)
    requires Hits(dialect, CLEANER, s, after, answer, round, cutoff, size, hit)
    ensures after.jobs == s.jobs && SweptOf(dialect, CLEANER, first, after.executions, gone + hit)
        && gone + hit <= Expired(first, cutoff)
    ensures |LiveIds(after.executions)| == |LiveIds(s.executions)| - |hit| && |gone + hit| == batches * size + |hit|
    ensures answer.Err? ==> round.fault != NoFault
    ensures answer.Ok? ==> answer.value == |hit| <= size && (|hit| < size ==> gone + hit == Expired(first, cutoff))
    ensures answer.Ok? && |hit| == size ==> Progress(dialect, first, after.executions, gone + hit, cutoff,
        batches + 1, size)
  {
    BatchAdds(dialect, first, s, after, gone, hit, cutoff);
    hide SweptOf;
    hide Expired;
    hide LiveIds;
    assert (batches + 1) * size == batches * size + size;
  }

  /** Batches amount to one bulk deletion at the last cutoff, up to the times they stamped. */
  lemma BatchesAmountToOne(tx: Session, first: map<string, Execution>, current: map<string, Execution>, cutoff: int,
      now: int)
    requires tx.actor == CLEANER && SweptOf(tx.dialect, CLEANER, first, current, Expired(first, cutoff))
    ensures var bulk := Sweep(tx, first, Expired(first, cutoff), cutoff, now, CLEANER);
      && bulk.Keys == current.Keys
      && forall id :: id in current ==>
        SameExecution(current[id], bulk[id])
        && (id !in Expired(first, cutoff) ==> current[id] == first[id])
  {
    SweepIsSwept(tx, first, Expired(first, cutoff), cutoff, now);
    var bulk := Sweep(tx, first, Expired(first, cutoff), cutoff, now, CLEANER);
    forall id | id in current ensures SameExecution(current[id], bulk[id]) {
      if id in Expired(first, cutoff) {
        assert SweptRow(tx.dialect, CLEANER, first[id], current[id])
            && SweptRow(tx.dialect, CLEANER, first[id], bulk[id]);
      }
    }
  }

  lemma ProductGrows(a: nat, b: nat, size: nat)
    requires a < b
    ensures a * size + size <= b * size
  {
    assert (b - a - 1) * size >= 0;
  }

  lemma QuotientIsUnique(n: nat, size: nat, q: nat)
    requires size > 0 && q * size <= n < q * size + size
    ensures n / size == q
  {
    var d := n / size;
    assert d * size <= n < d * size + size;
    if d < q { ProductGrows(d, q, size); }
    if q < d { ProductGrows(q, d, size); }
  }

  // ---- on the columns ----

  /** A row the cleaner may delete at a cutoff. */
  ghost predicate IsDue(e: Execution, cutoff: int)
  {
    && (e.outcome.status == Succeeded || e.outcome.status == Failed)
    && e.finishedAt != None && e.finishedAt.value < cutoff && e.audit.deletedAt == None
  }

  /** The same row, deleted once and by the cleaner. */
  ghost predicate IsDeleted(e: Execution, row: Execution)
  {
    && row == e.(audit := row.audit) && row.audit.deletedAt != None
    && row.audit.deletedBy == Some("scheduler-service") && row.audit.updatedBy == "scheduler-service"
    && row.audit.version == e.audit.version + 1 && row.audit.createdBy == e.audit.createdBy
  }

  /** The rows of `gone` were due and are deleted, all others are as they were; a complete run left no due row. */
  ghost predicate DeletedExactly(
      first: map<string, Execution>, last: map<string, Execution>, gone: set<string>, cutoff: int, complete: bool)
  {
    && last.Keys == first.Keys && gone <= first.Keys
    && (forall id :: id in gone ==> IsDue(first[id], cutoff) && IsDeleted(first[id], last[id]))
    && (forall id :: id in first && id !in gone ==> last[id] == first[id])
    && (complete ==> forall id :: id in first ==> (id in gone <==> IsDue(first[id], cutoff)))
  }

  lemma GoneOnColumns(
      dialect: Dialect, first: map<string, Execution>, current: map<string, Execution>, gone: set<string>, cutoff: int)
    requires SweptOf(dialect, CLEANER, first, current, gone) && gone <= Expired(first, cutoff)
    ensures DeletedExactly(first, current, gone, cutoff, false)
    ensures gone == Expired(first, cutoff) ==> DeletedExactly(first, current, gone, cutoff, true)
  {
    forall id | id in gone ensures IsDeleted(first[id], current[id]) {
      assert SweptRow(dialect, CLEANER, first[id], current[id]);
    }
  }

  /** Each batch deletes at the clock it read, by the retention before it, as many rows as its size. */
  lemma BatchOnFields(round: Round, retention: nat, size: nat)
    ensures Batch(CLEANER, round, retention, size) == Call(
      Some("scheduler-service"), round.at,
      SweepExecutions(round.now - retention, size, round.now, "scheduler-service"), round.fault)
  {
  }

  class ExecutionCleaner {
    const repository: SqlRepository
    const retention: nat
    const batchSize: nat

    /** Non-positive settings fall back to 90 days and 500 rows. */
    constructor (repository: SqlRepository, retention: int, batchSize: int)
      ensures this.repository == repository && this.batchSize > 0
      ensures this.retention == if retention <= 0 then 7776000000 else retention
      ensures this.batchSize == if batchSize <= 0 then 500 else batchSize
    {
      this.repository := repository;
      this.retention := if retention <= 0 then 7776000000 else retention;
      this.batchSize := if batchSize <= 0 then 500 else batchSize;
    }

    /** One transaction of the loop. */
    method DeleteBatch(round: Round) returns (deleted: Result<nat, WriteError>, ghost hit: set<string>)
      modifies repository
      ensures Hits(repository.dialect, CLEANER, old(repository.Contents()), repository.Contents(), deleted, round,
                   round.now - retention, batchSize, hit)
    {
      hide *;
      CleanerIsAnActor();
      deleted := repository.Within(Batch(CLEANER, round, retention, batchSize));
      hit := BatchHits(repository.dialect, CLEANER, old(repository.Contents()), repository.Contents(), deleted, round,
          retention, batchSize);
    }

    /**
     One cleaning run on tables nobody else writes. `rounds(i)` is the i-th batch's clock and luck;
     `last` is the index of the last batch tried and `gone` what was deleted.
     */
    method Clean(rounds: nat -> Round) returns (error: Option<WriteError>, last: nat, ghost gone: set<string>)
      requires batchSize > 0 && forall i: nat, j: nat :: i <= j ==> rounds(i).now <= rounds(j).now
      modifies repository
      ensures repository.jobs == old(repository.jobs)
      ensures SweptOf(repository.dialect, CLEANER, old(repository.executions), repository.executions, gone)
      ensures gone <= Expired(old(repository.executions), rounds(last).now - retention)
      ensures error.None? ==> gone == Expired(old(repository.executions), rounds(last).now - retention)
      ensures error.None? ==> last == |gone| / batchSize
      ensures error.Some? ==> rounds(last).fault != NoFault
      ensures DeletedExactly(old(repository.executions), repository.executions, gone,
                rounds(last).now - retention, error == None)
    {
      hide DeletedExactly, IsDue, IsDeleted, SweptRow;
      hide Progress;
      hide Hits;
      hide SweptOf;
      hide LiveIds;
      hide Expired;
      last, gone := 0, {};
      NothingYet(repository.dialect, repository.executions, rounds(0).now - retention, batchSize);
      while true
        invariant repository.jobs == old(repository.jobs)
        invariant Progress(repository.dialect, old(repository.executions), repository.executions, gone,
            rounds(last).now - retention, last, batchSize)
        decreases |LiveIds(repository.executions)|
      {
        ghost var before := repository.Contents();
        ghost var cutoff := rounds(last).now - retention;
        var deleted, hit := DeleteBatch(rounds(last));
        AfterBatch(repository.dialect, old(repository.executions), before, repository.Contents(), deleted,
            rounds(last), cutoff, last, batchSize, gone, hit);
        gone := gone + hit;
        if deleted.Err? {
          GoneOnColumns(repository.dialect, old(repository.executions), repository.executions, gone,
            rounds(last).now - retention);
          return Some(deleted.error), last, gone;
        }
        if deleted.value < batchSize {
          QuotientIsUnique(|gone|, batchSize, last);
          GoneOnColumns(repository.dialect, old(repository.executions), repository.executions, gone,
            rounds(last).now - retention);
          return None, last, gone;
        }
        last := last + 1;
        LaterCutoff(repository.dialect, old(repository.executions), repository.executions, gone, cutoff,
            rounds(last).now - retention, last, batchSize);
      }
    }
  }
}
