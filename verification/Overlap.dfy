/**
 How far mutual exclusion goes. The lease outlives the timeout by 30 s and the finishing context
 takes up to 5 s, so an execution may lose 25 s between its calls and no more: with longer pauses
 a second execution can start while the first is still finishing.
 */
module Overlap {
  import opened Records
  import opened AuditTrail
  import opened Statements
  import opened Protocol
  import opened ProtocolInvariant
  import opened ProtocolTheorems

  const REPORT := Job("j", Scope("t", "a"), Definition("n", "c", "z", "u", "m", "{}", 100, Enabled),
      Audit(1, 0, "x", 0, "x", None, None))

  const FIRST := Run(REPORT, REPORT, Manual, "x", 1, 100)
  const ROW := NewExecution(FIRST, "e", 0)
  const SUCCESS := Outcome(Succeeded, "{}", "", "")

  /** One job exists, untouched since its creation, and its first execution is where `proc` says. */
  ghost predicate Shows(w: World, now: int, proc: Process)
  {
    && w.now == now && w.procs == map[0 := Ended(Created(REPORT)), 1 := proc]
    && "j" in w.store.jobs && w.store.jobs["j"] == REPORT
  }

  /** Nothing has been inserted, locked or issued yet. */
  ghost predicate Untouched(w: World)
  {
    "e" !in w.store.executions && "j" !in w.rowLocks && "e" !in w.issued
  }

  lemma CreateReport(c: Config) returns (w: World)
    ensures Reachable(c, w) && w.now == 0 && w.procs == map[0 := Ended(Created(REPORT))]
    ensures "j" in w.store.jobs && w.store.jobs["j"] == REPORT && Untouched(w) && w.leases == map[]
    ensures w.invocations == []
  {
    StartIsReachable(c);
    assert InsertedJob(Session(c.dialect, "x", 0), REPORT) == REPORT;
    w := CreateStep(c, Start, 0, REPORT, "x", 0, true).value;
    ReachableExtends(c, Start, Create(0, REPORT, "x", 0, true), w);
  }

  lemma TriggerFirst(c: Config) returns (w: World)
    ensures Reachable(c, w) && Shows(w, 0, Accepted(FIRST.(deadline := 0))) && Untouched(w) && w.leases == map[]
  {
    var start := CreateReport(c);
    w := start.Set(1, Accepted(FIRST.(deadline := 0)));
    assert BeginTriggerStep(start, 1, "j", 1, "x") == Some(w);
    ReachableExtends(c, start, BeginTrigger(1, "j", 1, "x"), w);
  }

  lemma LeaseFirst(c: Config) returns (w: World)
    ensures Reachable(c, w) && Shows(w, 0, Leased(FIRST)) && Untouched(w) && "j" in w.leases
        && w.leases["j"].expiry == 30100
  {
    var start := TriggerFirst(c);
    var waiting := start.Set(1, Waiting(FIRST));
    ReachableExtends(c, start, Execute(1), waiting);
    w := AcquireStep(waiting, 1, true).value;
    ReachableExtends(c, waiting, Acquire(1, true), w);
  }

  lemma LockFirst(c: Config) returns (w: World)
    ensures Reachable(c, w) && Shows(w, 0, Locked(FIRST)) && "e" !in w.store.executions && "e" !in w.issued
    ensures "j" in w.leases && w.leases["j"].expiry == 30100
  {
    var start := LeaseFirst(c);
    w := LockRowStep(start, 1).value;
    ReachableExtends(c, start, LockRow(1), w);
  }

  lemma InsertFirst(c: Config) returns (w: World)
    ensures Reachable(c, w) && Shows(w, 0, Inserting(FIRST, ROW)) && "e" !in w.store.executions
    ensures "j" in w.leases && w.leases["j"].expiry == 30100
  {
    var start := LockFirst(c);
    w := InsertStep(start, 1, "e", 0).value;
    ReachableExtends(c, start, Action.Insert(1, "e", 0), w);
  }

  lemma RecordFirst(c: Config) returns (w: World)
    ensures Reachable(c, w) && Shows(w, 0, Recorded(FIRST, ROW)) && "j" in w.leases && w.leases["j"].expiry == 30100
  {
    var start := InsertFirst(c);
    w := CommitInsertStep(c, start, 1, 0, true).value;
    ReachableExtends(c, start, CommitInsert(1, 0, true), w);
  }

  lemma InvokeFirst(c: Config) returns (w: World)
    ensures Reachable(c, w) && Shows(w, 0, Invoking(FIRST, ROW)) && "j" in w.leases && w.leases["j"].expiry == 30100
  {
    var start := RecordFirst(c);
    w := InvokeStep(start, 1).value;
    ReachableExtends(c, start, Invoke(1), w);
  }

  lemma ReturnFirst(c: Config) returns (w: World)
    ensures Reachable(c, w) && w.procs.Keys == {0, 1} && w.procs[1].Returned? && w.procs[1].run == FIRST
    ensures !w.procs[0].InSection() && w.now == 0 && "j" in w.store.jobs && w.store.jobs["j"] == REPORT
    ensures "j" in w.leases && w.leases["j"].expiry == 30100
  {
    var start := InvokeFirst(c);
    w := ReturnStep(start, 1, SUCCESS, 0).value;
    ReachableExtends(c, start, Return(1, SUCCESS, 0), w);
  }

  lemma Wait(c: Config, w: World, delay: nat) returns (after: World)
    requires Reachable(c, w) && w.procs.Keys == {0, 1} && !w.procs[0].InSection()
    requires w.procs[1].InSection() && w.now + delay <= w.procs[1].Limit(c)
    ensures Reachable(c, after) && after == w.(now := w.now + delay)
  {
    after := w.(now := w.now + delay);
    assert TickStep(c, w, delay) == Some(after);
    ReachableExtends(c, w, Tick(delay), after);
  }

  ghost predicate FinishesUntil(w: World, now: int, limit: int)
  {
    && w.procs.Keys == {0, 1} && w.procs[1].Finishing? && w.procs[1].run == FIRST && w.procs[1].limit == limit
    && !w.procs[0].InSection() && w.now == now && "j" in w.store.jobs && w.store.jobs["j"] == REPORT
  }

  /** The first execution uses up its pause and starts its finishing write at the last moment. */
  lemma FinishLate(c: Config) returns (w: World)
    ensures Reachable(c, w) && FinishesUntil(w, 100 + c.pause, c.pause + 5100)
    ensures "j" in w.leases && w.leases["j"].expiry == 30100
  {
    var start := ReturnFirst(c);
    var late := Wait(c, start, 100 + c.pause);
    w := BeginFinishStep(late, 1).value;
    ReachableExtends(c, late, BeginFinish(1), w);
  }

  /** The first is still finishing; the second is at `proc`. */
  ghost predicate Both(c: Config, w: World, proc: Process)
  {
    && w.now == c.pause + 5100 && 1 in w.procs && 2 in w.procs && w.procs[2] == proc
    && w.procs[1].Finishing? && w.procs[1].run == FIRST
    && "j" in w.leases && w.leases["j"].expiry == 30100
  }

  lemma BeginSecond(c: Config, late: World) returns (w: World)
    requires Reachable(c, late) && FinishesUntil(late, c.pause + 5100, c.pause + 5100)
    requires "j" in late.leases && late.leases["j"].expiry == 30100
    ensures Reachable(c, w) && Both(c, w, Accepted(FIRST.(deadline := 0)))
  {
    w := BeginTriggerStep(late, 2, "j", 1, "x").value;
    ReachableExtends(c, late, BeginTrigger(2, "j", 1, "x"), w);
  }

  lemma TriggerSecond(c: Config) returns (w: World)
    ensures Reachable(c, w) && Both(c, w, Accepted(FIRST.(deadline := 0)))
  {
    var start := FinishLate(c);
    var late := Wait(c, start, 5000);
    w := BeginSecond(c, late);
  }

  lemma ExecuteSecond(c: Config) returns (w: World)
    ensures Reachable(c, w) && Both(c, w, Waiting(FIRST.(deadline := c.pause + 5200)))
  {
    var start := TriggerSecond(c);
    w := ExecuteStep(start, 2).value;
    ReachableExtends(c, start, Execute(2), w);
  }

  /** Two processes are inside the section of the same job. */
  ghost predicate Together(w: World, p: Pid, q: Pid)
  {
    && p in w.procs && w.procs[p].InSection() && q in w.procs && w.procs[q].InSection()
    && w.procs[p].run.job.id == w.procs[q].run.job.id
  }

  /** The run that breaks exclusion: the second caller takes the expired lease of a first that still finishes. */
  lemma LongPausesOverlap(c: Config) returns (w: World)
    requires !Punctual(c)
    ensures Reachable(c, w) && Together(w, 1, 2)
  {
    var start := ExecuteSecond(c);
    w := AcquireStep(start, 2, true).value;
    ReachableExtends(c, start, Acquire(2, true), w);
  }

  ghost predicate Excludes(c: Config)
  {
    forall w, p, q :: Reachable(c, w) && Together(w, p, q) ==> p == q
  }

  /** Executions of one job exclude each other in every run exactly when pauses stay below 25 seconds. */
  lemma ExclusionIsExactlyPunctuality(c: Config)
    ensures Excludes(c) <==> c.pause < 25000
  {
    if Punctual(c) {
      forall w, p, q | Reachable(c, w) && Together(w, p, q) ensures p == q {
        MutualExclusion(c, w, p, q);
      }
    } else {
      var w := LongPausesOverlap(c);
    }
  }
}
