/** What the cleaners of all replicas return, against what they deleted. */
module Cleaners {
  import opened Records
  import opened AuditTrail
  import opened Statements
  import opened Protocol
  import opened ProtocolInvariant
  import opened ProtocolTheorems
  import Overlap

  /** The process reports a number of deleted rows to its caller. */
  predicate Claims(proc: Process) { (proc.Ended? || proc.Releasing?) && proc.reply.Swept? }

  function Claim(proc: Process): nat { if Claims(proc) then proc.reply.rows else 0 }

  /** The cleaner of a batch returned its size, or an error although the batch is deleted. */
  ghost predicate Answered(procs: map<Pid, Process>, b: Batch)
  {
    && b.pid in procs && procs[b.pid].Ended?
    && (procs[b.pid].reply == Swept(|b.ids|) || procs[b.pid].reply == Refused)
  }

  ghost predicate Owns(batches: seq<Batch>, p: Pid)
  {
    exists i :: 0 <= i < |batches| && batches[i].pid == p
  }

  /** Every batch has its own cleaner, and every count returned is the size of its cleaner's batch. */
  ghost predicate Accounted(procs: map<Pid, Process>, batches: seq<Batch>)
  {
    && (forall i :: 0 <= i < |batches| ==> Answered(procs, batches[i]))
    && (forall i, j :: 0 <= i < j < |batches| ==> batches[i].pid != batches[j].pid)
    && (forall p :: p in procs && Claims(procs[p]) ==> procs[p].Ended? && Owns(batches, p))
  }

  // ---- over all runs ----

  /** Finished processes stay as they are, and nobody newly reports deleted rows. */
  ghost predicate KeepsReplies(w: World, after: World)
  {
    && after.batches == w.batches
    && (forall p :: p in w.procs && w.procs[p].Ended? ==> p in after.procs && after.procs[p] == w.procs[p])
    && (forall p :: p in after.procs && Claims(after.procs[p]) ==> p in w.procs && Claims(w.procs[p]))
  }

  lemma ClientsKeepReplies(c: Config, w: World, a: Action, after: World)
    requires Step(c, w, a) == Some(after)
    requires a.Create? || a.BeginUpdate? || a.CommitUpdate? || a.BeginDelete? || a.CommitDelete? || a.BeginTrigger?
        || a.Reload?
    ensures KeepsReplies(w, after)
  {
    hide Apply, ListEnabled;
  }

  lemma TimersKeepReplies(c: Config, w: World, a: Action, after: World)
    requires Step(c, w, a) == Some(after)
    requires a.Tick? || a.Fire? || a.ReRead? || a.Execute?
    ensures KeepsReplies(w, after)
  {
  }

  lemma LeasesKeepReplies(c: Config, w: World, a: Action, after: World)
    requires Step(c, w, a) == Some(after)
    requires a.Acquire? || a.Renew? || a.Release? || a.Abort? || a.Crash?
    ensures KeepsReplies(w, after)
  {
    hide Free;
  }

  lemma InsertsKeepReplies(c: Config, w: World, a: Action, after: World)
    requires Step(c, w, a) == Some(after)
    requires a.LockRow? || a.Insert? || a.CommitInsert? || a.Invoke?
    ensures KeepsReplies(w, after)
  {
    hide Apply;
  }

  lemma ResultsKeepReplies(c: Config, w: World, a: Action, after: World)
    requires Step(c, w, a) == Some(after)
    requires a.Return? || a.BeginFinish? || a.CommitFinish? || a.Select?
    ensures KeepsReplies(w, after)
  {
    hide Apply, Expired;
  }

  lemma OthersKeepReplies(c: Config, w: World, a: Action, after: World)
    requires Step(c, w, a) == Some(after) && !a.SweepSelected?
    ensures KeepsReplies(w, after)
  {
    hide Step, KeepsReplies;
    if a.Create? || a.BeginUpdate? || a.CommitUpdate? || a.BeginDelete? || a.CommitDelete? || a.BeginTrigger?
        || a.Reload? {
      ClientsKeepReplies(c, w, a, after);
    } else if a.Tick? || a.Fire? || a.ReRead? || a.Execute? {
      TimersKeepReplies(c, w, a, after);
    } else if a.Acquire? || a.Renew? || a.Release? || a.Abort? || a.Crash? {
      LeasesKeepReplies(c, w, a, after);
    } else if a.LockRow? || a.Insert? || a.CommitInsert? || a.Invoke? {
      InsertsKeepReplies(c, w, a, after);
    } else {
      ResultsKeepReplies(c, w, a, after);
    }
  }

  lemma KeptRepliesAreAccounted(w: World, after: World)
    requires Accounted(w.procs, w.batches) && KeepsReplies(w, after)
    ensures Accounted(after.procs, after.batches)
  {
    forall i | 0 <= i < |w.batches| ensures Answered(after.procs, after.batches[i]) {
      assert Answered(w.procs, w.batches[i]);
    }
  }

  lemma SweepAnswers(c: Config, w: World, p: Pid, clock: int, at: int, ack: bool, after: World)
    requires SweepStep(c, w, p, clock, at, ack) == Some(after)
    ensures p in w.procs && w.procs[p].Selected?
    ensures exists b :: after.batches == w.batches + [b] && b.pid == p
                        && after.procs == w.procs[p := Ended(if ack then Swept(|b.ids|) else Refused)]
  {
    hide Sweep, Expired;
    var b := Batch(p, w.procs[p].before, w.procs[p].ids * Expired(w.store.executions, w.procs[p].before));
    assert after.batches == w.batches + [b];
  }

  lemma NewBatchIsAccounted(procs: map<Pid, Process>, batches: seq<Batch>, b: Batch, reply: Reply)
    requires Accounted(procs, batches) && b.pid in procs && procs[b.pid].Selected?
    requires reply == Swept(|b.ids|) || reply == Refused
    ensures Accounted(procs[b.pid := Ended(reply)], batches + [b])
  {
    var after, longer := procs[b.pid := Ended(reply)], batches + [b];
    forall i | 0 <= i < |batches| ensures Answered(after, longer[i]) && longer[i].pid != b.pid {
      assert Answered(procs, batches[i]);
    }
    forall p | p in after && Claims(after[p]) ensures after[p].Ended? && Owns(longer, p) {
      if p == b.pid {
        assert longer[|batches|].pid == p;
      } else {
        var i :| 0 <= i < |batches| && batches[i].pid == p;
        assert longer[i].pid == p;
      }
    }
  }

  lemma StepAccounts(c: Config, w: World, a: Action, after: World)
    requires Accounted(w.procs, w.batches) && Step(c, w, a) == Some(after)
    ensures Accounted(after.procs, after.batches)
  {
    hide Accounted, KeepsReplies, SweepStep;
    if a.SweepSelected? {
      SweepAnswers(c, w, a.p, a.clock, a.at, a.ack, after);
      var b :| after.batches == w.batches + [b] && b.pid == a.p
               && after.procs == w.procs[a.p := Ended(if a.ack then Swept(|b.ids|) else Refused)];
      NewBatchIsAccounted(w.procs, w.batches, b, if a.ack then Swept(|b.ids|) else Refused);
    } else {
      OthersKeepReplies(c, w, a, after);
      KeptRepliesAreAccounted(w, after);
    }
  }

  lemma {:induction false} RunAccounts(c: Config, w: World, actions: seq<Action>, after: World)
    requires Accounted(w.procs, w.batches) && RunFrom(c, w, actions) == Some(after)
    ensures Accounted(after.procs, after.batches)
    decreases |actions|
  {
    hide Step, Accounted;
    if actions != [] {
      var next := Step(c, w, actions[0]).value;
      StepAccounts(c, w, actions[0], next);
      RunAccounts(c, next, actions[1..], after);
    }
  }

  /** Over all runs, each count a cleaner returned is the size of the one batch it deleted. */
  lemma EveryCountIsABatch(c: Config, w: World)
    requires Reachable(c, w)
    ensures Accounted(w.procs, w.batches)
  {
    var actions :| RunFrom(c, Start, actions) == Some(w);
    RunAccounts(c, Start, actions, w);
  }

  // ---- sums ----

  /** All the rows the cleaners' callers were told of. */
  ghost function ReturnedTotal(procs: map<Pid, Process>): nat
    decreases |procs|
  {
    if procs == map[] then 0 else
      var p :| p in procs;
      assert |procs - {p}| < |procs| by { SmallerMap(procs, p); }
      Claim(procs[p]) + ReturnedTotal(procs - {p})
  }

  lemma SmallerMap(procs: map<Pid, Process>, p: Pid)
    requires p in procs
    ensures |procs - {p}| < |procs| && (procs - {p}).Keys == procs.Keys - {p}
  {
    assert (procs - {p}).Keys == procs.Keys - {p};
    assert |(procs - {p}).Keys| == |procs.Keys| - 1;
    assert |procs - {p}| == |(procs - {p}).Keys| && |procs| == |procs.Keys|;
  }

  lemma {:induction false} ReturnedWithout(procs: map<Pid, Process>, p: Pid)
    requires p in procs
    ensures ReturnedTotal(procs) == Claim(procs[p]) + ReturnedTotal(procs - {p})
    decreases |procs|
  {
    var q :| q in procs && ReturnedTotal(procs) == Claim(procs[q]) + ReturnedTotal(procs - {q});
    if q != p {
      SmallerMap(procs, q);
      ReturnedWithout(procs - {q}, p);
      SmallerMap(procs, p);
      ReturnedWithout(procs - {p}, q);
      assert procs - {q} - {p} == procs - {p} - {q};
    }
  }

  lemma {:induction false} NoClaims(procs: map<Pid, Process>)
    requires forall p :: p in procs ==> !Claims(procs[p])
    ensures ReturnedTotal(procs) == 0
    decreases |procs|
  {
    if procs != map[] {
      var p :| p in procs;
      ReturnedWithout(procs, p);
      SmallerMap(procs, p);
      NoClaims(procs - {p});
    }
  }

  predicate Confirmed(procs: map<Pid, Process>, b: Batch)
  {
    b.pid in procs && Claims(procs[b.pid])
  }

  /** The rows of batches whose commit was never confirmed to their cleaner. */
  function UnconfirmedTotal(procs: map<Pid, Process>, batches: seq<Batch>): nat
  {
    if batches == [] then 0
    else
      var last := batches[|batches| - 1];
      UnconfirmedTotal(procs, batches[..|batches| - 1]) + if Confirmed(procs, last) then 0 else |last.ids|
  }

  lemma {:induction false} UnconfirmedIgnores(procs: map<Pid, Process>, batches: seq<Batch>, p: Pid)
    requires forall i :: 0 <= i < |batches| ==> batches[i].pid != p
    ensures UnconfirmedTotal(procs - {p}, batches) == UnconfirmedTotal(procs, batches)
  {
    if batches != [] {
      UnconfirmedIgnores(procs, batches[..|batches| - 1], p);
    }
  }

  lemma AccountedWithout(procs: map<Pid, Process>, batches: seq<Batch>)
    requires Accounted(procs, batches) && batches != []
    ensures Accounted(procs - {batches[|batches| - 1].pid}, batches[..|batches| - 1])
  {
    var rest, last := batches[..|batches| - 1], batches[|batches| - 1];
    forall i | 0 <= i < |rest| ensures Answered(procs - {last.pid}, rest[i]) {
      assert Answered(procs, batches[i]);
    }
    forall p | p in procs && p != last.pid && Claims(procs[p]) ensures Owns(rest, p) {
      var i :| 0 <= i < |batches| && batches[i].pid == p;
      assert rest[i].pid == p;
    }
  }

  lemma {:induction false} ClaimsAddUp(procs: map<Pid, Process>, batches: seq<Batch>)
    requires Accounted(procs, batches)
    ensures ReturnedTotal(procs) + UnconfirmedTotal(procs, batches) == Counted(batches)
    decreases |batches|
  {
    if batches == [] {
      NoClaims(procs);
    } else {
      var rest, last := batches[..|batches| - 1], batches[|batches| - 1];
      assert Answered(procs, last);
      AccountedWithout(procs, batches);
      ClaimsAddUp(procs - {last.pid}, rest);
      UnconfirmedIgnores(procs, rest, last.pid);
      ReturnedWithout(procs, last.pid);
    }
  }

  ghost predicate AllConfirmed(procs: map<Pid, Process>, batches: seq<Batch>)
  {
    forall i :: 0 <= i < |batches| && !Confirmed(procs, batches[i]) ==> batches[i].ids == {}
  }

  lemma {:induction false} NothingUnconfirmed(procs: map<Pid, Process>, batches: seq<Batch>)
    ensures UnconfirmedTotal(procs, batches) == 0 <==> AllConfirmed(procs, batches)
  {
    if batches != [] {
      var rest, last := batches[..|batches| - 1], batches[|batches| - 1];
      NothingUnconfirmed(procs, rest);
      assert batches == rest + [last];
      assert |last.ids| == 0 <==> last.ids == {};
    }
  }

  /**
   However cleaners of all replicas interleave, the counts they returned and the rows whose deletion was not
   confirmed to its cleaner add up to the deleted rows. So the returned counts are exactly the deletions iff
   every unconfirmed batch is empty.
   */
  lemma ReturnedCountsAddUp(c: Config, w: World)
    requires Reachable(c, w)
    ensures ReturnedTotal(w.procs) + UnconfirmedTotal(w.procs, w.batches) == |DeletedIds(w.store.executions)|
    ensures ReturnedTotal(w.procs) == |DeletedIds(w.store.executions)| <==> AllConfirmed(w.procs, w.batches)
  {
    hide *;
    EveryCountIsABatch(c, w);
    ClaimsAddUp(w.procs, w.batches);
    BatchesAddUp(c, w);
    NothingUnconfirmed(w.procs, w.batches);
  }

  // ---- a run where they differ ----

  /** An execution has finished and is due for a cleaner with this cutoff. */
  ghost predicate Due(w: World, id: string, before: int)
  {
    id in Expired(w.store.executions, before)
  }

  /** The row a process is about to finish, and what finishing makes of it. */
  lemma FinishingMakesDue(c: Config, w: World, p: Pid) returns (after: World, id: string, before: int)
    requires Inv(c, w) && p in w.procs && w.procs[p].Finishing? && w.procs[p].run.actor != ""
    ensures CommitFinishStep(c, w, p, 0, true) == Some(after) && after.procs.Keys == w.procs.Keys
        && Due(after, id, before)
  {
    hide Tables;
    assert ProcessOk(c, w, p, w.procs[p]);
    hide ProcessOk;
    var e := w.procs[p].execution;
    id, before := e.id, e.finishedAt.value + 1;
    OpenRowAcceptsFinish(w.store, e, Session(c.dialect, w.procs[p].run.actor, 0));
    after := CommitFinishStep(c, w, p, 0, true).value;
  }

  lemma FinishFirst(c: Config) returns (w: World, id: string, before: int)
    ensures Reachable(c, w) && w.procs.Keys == {0, 1} && Due(w, id, before)
  {
    hide Inv, Due, CommitFinishStep;
    var start := Overlap.ReturnFirst(c);
    var finishing := BeginFinishStep(start, 1).value;
    ReachableExtends(c, start, BeginFinish(1), finishing);
    ReachableIsSound(c, finishing);
    w, id, before := FinishingMakesDue(c, finishing, 1);
    ReachableExtends(c, finishing, CommitFinish(1, 0, true), w);
  }

  lemma SweepOfOne(c: Config, w: World, p: Pid, id: string, before: int) returns (after: World)
    requires p in w.procs && w.procs[p] == Selected({id}, before) && Due(w, id, before)
    ensures SweepStep(c, w, p, 0, 0, false) == Some(after)
    ensures after.batches == w.batches + [Batch(p, before, {id})] && after.procs[p] == Ended(Refused)
  {
    hide Sweep, Expired;
    assert {id} * Expired(w.store.executions, before) == {id};
    after := SweepStep(c, w, p, 0, 0, false).value;
  }

  lemma SweepUnconfirmed(c: Config, start: World, id: string, before: int) returns (w: World)
    requires Reachable(c, start) && 2 !in start.procs && Due(start, id, before)
    ensures Reachable(c, w) && w.batches != [] && w.batches[|w.batches| - 1] == Batch(2, before, {id})
    ensures !Confirmed(w.procs, w.batches[|w.batches| - 1])
  {
    hide Expired, SweepStep, Reachable;
    var selected := start.Set(2, Selected({id}, before));
    assert SelectStep(start, 2, before, {id}) == Some(selected);
    ReachableExtends(c, start, Select(2, before, {id}), selected);
    w := SweepOfOne(c, selected, 2, id, before);
    ReachableExtends(c, selected, SweepSelected(2, 0, 0, false), w);
  }

  /** A commit that is carried out and not confirmed deletes a row that no cleaner ever counts. */
  lemma UnconfirmedCommitIsNotCounted(c: Config) returns (w: World)
    ensures Reachable(c, w) && ReturnedTotal(w.procs) < |DeletedIds(w.store.executions)|
  {
    hide Reachable, ReturnedTotal, Due;
    var start, id, before := FinishFirst(c);
    w := SweepUnconfirmed(c, start, id, before);
    var last := w.batches[|w.batches| - 1];
    assert !AllConfirmed(w.procs, w.batches) by { assert last.ids == {id}; }
    ReturnedCountsAddUp(c, w);
  }
}
