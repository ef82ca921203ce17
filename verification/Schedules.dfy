/** Where a scheduled call comes from: the cron entry that fired, and the live row it was checked against. */
module Schedules {
  import opened Records
  import opened Statements
  import opened Protocol
  import opened ProtocolTheorems

  /** The state of a run before its action number `k`. */
  function StateAt(c: Config, actions: seq<Action>, k: nat): Option<World>
    requires k <= |actions|
  {
    RunFrom(c, Start, actions[..k])
  }

  /** Action `k` fires an entry of some replica that holds `job`. */
  ghost predicate FiredAt(c: Config, actions: seq<Action>, k: nat, p: Pid, job: Job)
  {
    && k < |actions| && StateAt(c, actions, k).Some? && actions[k].Fire? && actions[k].p == p
    && var entries, replica, id := StateAt(c, actions, k).value.entries, actions[k].replica, actions[k].id;
       replica in entries && id in entries[replica] && entries[replica][id] == job
  }

  /** Action `k` is the re-read of `p`, and at that instant `job` is the live, enabled row. */
  ghost predicate ReReadAt(c: Config, actions: seq<Action>, k: nat, p: Pid, job: Job)
  {
    && k < |actions| && StateAt(c, actions, k).Some? && actions[k] == ReRead(p)
    && GetJob(StateAt(c, actions, k).value.store, job.id) == Some(job) && job.Runnable()
  }

  ghost predicate HasFired(c: Config, actions: seq<Action>, p: Pid, job: Job)
  {
    exists k: nat :: FiredAt(c, actions, k, p, job)
  }

  ghost predicate FiredAndReRead(c: Config, actions: seq<Action>, fired: nat, read: nat, p: Pid, job: Job)
  {
    fired < read && FiredAt(c, actions, fired, p, job) && ReReadAt(c, actions, read, p, job)
  }

  ghost predicate HasReRead(c: Config, actions: seq<Action>, p: Pid, job: Job)
  {
    exists fired: nat, read: nat :: FiredAndReRead(c, actions, fired, read, p, job)
  }

  // ---- longer runs ----

  lemma FiredStays(c: Config, actions: seq<Action>, a: Action, k: nat, p: Pid, job: Job)
    requires FiredAt(c, actions, k, p, job)
    ensures FiredAt(c, actions + [a], k, p, job)
  {
    assert (actions + [a])[..k] == actions[..k];
  }

  lemma ReReadStays(c: Config, actions: seq<Action>, a: Action, k: nat, p: Pid, job: Job)
    requires ReReadAt(c, actions, k, p, job)
    ensures ReReadAt(c, actions + [a], k, p, job)
  {
    assert (actions + [a])[..k] == actions[..k];
  }

  lemma HasFiredStays(c: Config, actions: seq<Action>, a: Action, p: Pid, job: Job)
    requires HasFired(c, actions, p, job)
    ensures HasFired(c, actions + [a], p, job)
  {
    hide FiredAt;
    var k: nat :| FiredAt(c, actions, k, p, job);
    FiredStays(c, actions, a, k, p, job);
  }

  lemma HasReReadStays(c: Config, actions: seq<Action>, a: Action, p: Pid, job: Job)
    requires HasReRead(c, actions, p, job)
    ensures HasReRead(c, actions + [a], p, job)
  {
    hide FiredAt, ReReadAt;
    var fired: nat, read: nat :| FiredAndReRead(c, actions, fired, read, p, job);
    FiredStays(c, actions, a, fired, p, job);
    ReReadStays(c, actions, a, read, p, job);
    assert FiredAndReRead(c, actions + [a], fired, read, p, job);
  }

  // ---- one step ----

  /** Only a tick starts a fired process, and only a re-read or a trigger starts a run. */
  ghost predicate KeepsOrigins(w: World, a: Action, after: World)
  {
    && (forall p :: p in after.procs && after.procs[p].Fired? ==>
          (p in w.procs && w.procs[p] == after.procs[p]) || (a.Fire? && a.p == p))
    && (forall p :: p in after.procs && after.procs[p].HasRun() && after.procs[p].run.trigger == Scheduled ==>
          (p in w.procs && w.procs[p].HasRun() && w.procs[p].run.trigger == Scheduled
              && w.procs[p].run.job == after.procs[p].run.job)
          || a == ReRead(p))
    && (after.invocations == w.invocations || Calls(w, a, after))
  }

  ghost predicate Calls(w: World, a: Action, after: World)
  {
    && a.Invoke? && a.p in w.procs && w.procs[a.p].Recorded?
    && after.invocations == w.invocations + [Invocation(a.p, w.procs[a.p].execution.id, w.procs[a.p].run)]
  }

  lemma WritersKeepOrigins(c: Config, w: World, a: Action, after: World)
    requires Step(c, w, a) == Some(after)
    requires a.Create? || a.CommitUpdate? || a.CommitDelete?
    ensures KeepsOrigins(w, a, after)
  {
    hide Apply;
  }

  lemma ClientsKeepOrigins(c: Config, w: World, a: Action, after: World)
    requires Step(c, w, a) == Some(after)
    requires a.BeginUpdate? || a.BeginDelete? || a.BeginTrigger? || a.Reload?
    ensures KeepsOrigins(w, a, after)
  {
    hide ListEnabled;
  }

  lemma TimersKeepOrigins(c: Config, w: World, a: Action, after: World)
    requires Step(c, w, a) == Some(after)
    requires a.Tick? || a.Fire? || a.ReRead? || a.Execute?
    ensures KeepsOrigins(w, a, after)
  {
  }

  lemma FailuresKeepOrigins(c: Config, w: World, a: Action, after: World)
    requires Step(c, w, a) == Some(after)
    requires a.Abort? || a.Crash?
    ensures KeepsOrigins(w, a, after)
  {
  }

  lemma LeasesKeepOrigins(c: Config, w: World, a: Action, after: World)
    requires Step(c, w, a) == Some(after)
    requires a.Acquire? || a.Renew? || a.Release?
    ensures KeepsOrigins(w, a, after)
  {
    hide Free;
  }

  lemma CallsKeepOrigins(c: Config, w: World, a: Action, after: World)
    requires Step(c, w, a) == Some(after)
    requires a.LockRow? || a.Insert? || a.CommitInsert? || a.Invoke? || a.Return?
    ensures KeepsOrigins(w, a, after)
  {
    hide Apply;
  }

  lemma FinishersKeepOrigins(c: Config, w: World, a: Action, after: World)
    requires Step(c, w, a) == Some(after)
    requires a.BeginFinish? || a.CommitFinish?
    ensures KeepsOrigins(w, a, after)
  {
    hide Apply;
  }

  lemma CleanersKeepOrigins(c: Config, w: World, a: Action, after: World)
    requires Step(c, w, a) == Some(after)
    requires a.Select? || a.SweepSelected?
    ensures KeepsOrigins(w, a, after)
  {
    hide Expired, Sweep;
  }

  lemma StepKeepsOrigins(c: Config, w: World, a: Action, after: World)
    requires Step(c, w, a) == Some(after)
    ensures KeepsOrigins(w, a, after)
  {
    hide Step, KeepsOrigins;
    if a.Create? || a.CommitUpdate? || a.CommitDelete? {
      WritersKeepOrigins(c, w, a, after);
    } else if a.BeginUpdate? || a.BeginDelete? || a.BeginTrigger? || a.Reload? {
      ClientsKeepOrigins(c, w, a, after);
    } else if a.Tick? || a.Fire? || a.ReRead? || a.Execute? {
      TimersKeepOrigins(c, w, a, after);
    } else if a.Acquire? || a.Renew? || a.Release? {
      LeasesKeepOrigins(c, w, a, after);
    } else if a.Abort? || a.Crash? {
      FailuresKeepOrigins(c, w, a, after);
    } else if a.LockRow? || a.Insert? || a.CommitInsert? || a.Invoke? || a.Return? {
      CallsKeepOrigins(c, w, a, after);
    } else if a.BeginFinish? || a.CommitFinish? {
      FinishersKeepOrigins(c, w, a, after);
    } else {
      CleanersKeepOrigins(c, w, a, after);
    }
  }

  // ---- whole runs ----

  /** Every fired process, every scheduled run and every scheduled call goes back to its entry and its re-read. */
  ghost predicate Traced(c: Config, actions: seq<Action>, w: World)
  {
    && (forall p :: p in w.procs && w.procs[p].Fired? ==> HasFired(c, actions, p, w.procs[p].loaded))
    && (forall p :: p in w.procs && w.procs[p].HasRun() && w.procs[p].run.trigger == Scheduled ==>
          HasReRead(c, actions, p, w.procs[p].run.job))
    && (forall i :: 0 <= i < |w.invocations| && w.invocations[i].run.trigger == Scheduled ==>
          HasReRead(c, actions, w.invocations[i].pid, w.invocations[i].run.job))
  }

  lemma FireIsTraced(c: Config, actions: seq<Action>, w: World, a: Action, after: World)
    requires RunFrom(c, Start, actions) == Some(w) && Step(c, w, a) == Some(after) && a.Fire?
    ensures a.p in after.procs && after.procs[a.p].Fired? && HasFired(c, actions + [a], a.p, after.procs[a.p].loaded)
  {
    var longer := actions + [a];
    assert longer[..|actions|] == actions;
    assert FiredAt(c, longer, |actions|, a.p, after.procs[a.p].loaded);
  }

  lemma ReReadIsTraced(c: Config, actions: seq<Action>, w: World, p: Pid, after: World)
    requires RunFrom(c, Start, actions) == Some(w) && Step(c, w, ReRead(p)) == Some(after) && Traced(c, actions, w)
    ensures p in after.procs && after.procs[p].Accepted?
        && HasReRead(c, actions + [ReRead(p)], p, after.procs[p].run.job)
  {
    ReReadSeesTheLiveRow(c, w, p, after);
    hide Step, RunFrom, Reachable;
    var loaded, longer := w.procs[p].loaded, actions + [ReRead(p)];
    var fired: nat :| FiredAt(c, actions, fired, p, loaded);
    FiredStays(c, actions, ReRead(p), fired, p, loaded);
    assert longer[..|actions|] == actions;
    assert FiredAndReRead(c, longer, fired, |actions|, p, loaded);
  }

  lemma StepTraces(c: Config, actions: seq<Action>, w: World, a: Action, after: World)
    requires RunFrom(c, Start, actions) == Some(w) && Step(c, w, a) == Some(after) && Traced(c, actions, w)
    ensures Traced(c, actions + [a], after)
  {
    hide Step, RunFrom, HasFired, HasReRead;
    StepKeepsOrigins(c, w, a, after);
    forall p | p in after.procs && after.procs[p].Fired? ensures HasFired(c, actions + [a], p, after.procs[p].loaded) {
      if a.Fire? && a.p == p {
        FireIsTraced(c, actions, w, a, after);
      } else {
        HasFiredStays(c, actions, a, p, after.procs[p].loaded);
      }
    }
    forall p | p in after.procs && after.procs[p].HasRun() && after.procs[p].run.trigger == Scheduled
      ensures HasReRead(c, actions + [a], p, after.procs[p].run.job)
    {
      if a == ReRead(p) {
        ReReadIsTraced(c, actions, w, p, after);
      } else {
        HasReReadStays(c, actions, a, p, after.procs[p].run.job);
      }
    }
    forall i | 0 <= i < |after.invocations| && after.invocations[i].run.trigger == Scheduled
      ensures HasReRead(c, actions + [a], after.invocations[i].pid, after.invocations[i].run.job)
    {
      HasReReadStays(c, actions, a, after.invocations[i].pid, after.invocations[i].run.job);
    }
  }

  /** A run is a shorter run and one more step. */
  lemma {:induction false} RunSplits(c: Config, start: World, actions: seq<Action>, after: World)
    requires actions != [] && RunFrom(c, start, actions) == Some(after)
    ensures var before := RunFrom(c, start, actions[..|actions| - 1]);
      before.Some? && Step(c, before.value, actions[|actions| - 1]) == Some(after)
    decreases |actions|
  {
    hide Step;
    var next, rest, short := Step(c, start, actions[0]).value, actions[1..], actions[..|actions| - 1];
    if rest == [] {
      assert short == [] && RunFrom(c, next, rest) == Some(next);
    } else {
      RunSplits(c, next, rest, after);
      assert short[0] == actions[0] && short[1..] == rest[..|rest| - 1];
    }
  }

  lemma {:induction false} RunsAreTraced(c: Config, actions: seq<Action>, w: World)
    requires RunFrom(c, Start, actions) == Some(w)
    ensures Traced(c, actions, w)
    decreases |actions|
  {
    if actions != [] {
      RunSplits(c, Start, actions, w);
      hide Step, RunFrom, Traced;
      var short, last := actions[..|actions| - 1], actions[|actions| - 1];
      RunsAreTraced(c, short, RunFrom(c, Start, short).value);
      StepTraces(c, short, RunFrom(c, Start, short).value, last, w);
      assert short + [last] == actions;
    }
  }

  /**
   In every run, the job a scheduled call invokes was the content of the cron entry that fired for it, and after
   that the live, enabled row at the instant of its re-read, however old the entry was.
   */
  lemma ScheduledCallsRunLiveEntries(c: Config, actions: seq<Action>, w: World, i: nat)
    requires RunFrom(c, Start, actions) == Some(w) && i < |w.invocations| && w.invocations[i].run.trigger == Scheduled
    ensures exists fired: nat, read: nat ::
      FiredAndReRead(c, actions, fired, read, w.invocations[i].pid, w.invocations[i].run.job)
  {
    hide Step, RunFrom;
    RunsAreTraced(c, actions, w);
  }
}
