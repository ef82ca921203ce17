/**
 The one-slot change channel between the writers of a replica and the watcher that reloads its
 schedule: no confirmed local change is missed, unless a reload could not read the table.

 The table is a log of committed contents. A change is local when its writer will signal it; the
 changes of other replicas, and local ones whose commit was never confirmed, are not.
 */
module WakeUp {
  import opened Records
  import opened Statements
  import opened Runtime

  datatype Commit = Commit(local: bool, jobs: map<string, Job>)

  datatype Watcher = Waiting | Woken | Loaded(jobs: map<string, Job>)

  /** `seen` is how much of the log the last successful ListEnabled saw; `failed` that the last one failed. */
  datatype State = State(
    log: seq<Commit>, signalling: set<nat>, token: bool, watcher: Watcher, seen: nat, failed: bool,
    schedule: map<string, Job>)
  {
    function Current(): map<string, Job>
      requires log != []
    {
      log[|log| - 1].jobs
    }
  }

  datatype Action =
    | Write(commit: Commit)
    | Signal(change: nat)
    | Take
    | Tick
    | Read
    | ReadFails
    | Register

  /** The schedules the runner accepts, and whether reading the table can fail. */
  datatype Config = Config(accepts: Definition -> bool, readsFail: bool)

  /** The start-up reload is about to read a table with some contents. */
  predicate Initial(s: State)
  {
    && |s.log| == 1 && !s.log[0].local && s.signalling == {} && !s.token && s.watcher == Woken
    && s.seen == 0 && !s.failed && s.schedule == map[]
  }

  function Step(c: Config, s: State, a: Action): Option<State>
  {
    match a
    case Write(commit) =>
      Some(s.(log := s.log + [commit], signalling := s.signalling + if commit.local then {|s.log|} else {}))
    case Signal(change) =>
      // The send of signalChanged, which drops the token when the slot is full.
      if change in s.signalling then Some(s.(token := true, signalling := s.signalling - {change})) else None
    case Take =>
      if s.watcher == Waiting && s.token then Some(s.(token := false, watcher := Woken)) else None
    case Tick =>
      if s.watcher == Waiting then Some(s.(watcher := Woken)) else None
    case Read =>
      if s.watcher == Woken && s.log != [] then Some(s.(seen := |s.log|, failed := false,
          watcher := Loaded(s.Current()))) else None
    case ReadFails =>
      if s.watcher == Woken && c.readsFail then Some(s.(failed := true, watcher := Waiting)) else None
    case Register =>
      if s.watcher.Loaded? then Some(s.(schedule := Registration(c.accepts, s.watcher.jobs), watcher := Waiting))
          else None
  }

  /** A confirmed local change that the last ListEnabled did not see. */
  ghost predicate Missing(s: State)
  {
    exists i :: s.seen <= i < |s.log| && s.log[i].local
  }

  /** Somebody will still cause a read: a token, a writer before its signal, or the woken watcher. */
  ghost predicate Awaited(s: State)
  {
    s.token || s.watcher == Woken || exists i :: i in s.signalling && s.seen <= i
  }

  ghost predicate Inv(c: Config, s: State)
  {
    && |s.log| >= 1 && s.seen <= |s.log|
    && (forall i :: i in s.signalling ==> i < |s.log|)
    && (Missing(s) ==> Awaited(s) || s.failed) && (s.failed ==> c.readsFail)
    && (s.seen == 0 ==> s.watcher == Woken || s.failed)
    && (s.watcher.Loaded? ==> !s.failed && s.seen >= 1 && s.watcher.jobs == s.log[s.seen - 1].jobs)
    && (s.watcher == Waiting && !s.failed ==>
      s.seen >= 1
      && s.schedule == Registration(c.accepts, s.log[s.seen - 1].jobs))
    && (s.watcher == Woken && !s.failed && s.seen >= 1 ==>
      s.schedule
      == Registration(c.accepts, s.log[s.seen - 1].jobs))
  }

  lemma WriteKeeps(c: Config, s: State, commit: Commit, after: State)
    requires Inv(c, s) && Step(c, s, Write(commit)) == Some(after)
    ensures Inv(c, after)
  {
    hide Registration;
    if commit.local {
      assert |s.log| in after.signalling;
    } else if Missing(after) {
      var i :| after.seen <= i < |after.log| && after.log[i].local;
      assert i < |s.log| && s.log[i].local;
    }
  }

  lemma StepKeeps(c: Config, s: State, a: Action, after: State)
    requires Inv(c, s) && Step(c, s, a) == Some(after)
    ensures Inv(c, after)
  {
    hide Registration;
    if a.Write? {
      WriteKeeps(c, s, a.commit, after);
    } else if Missing(after) && !a.Read? {
      var i :| after.seen <= i < |after.log| && after.log[i].local;
      assert s.seen <= i < |s.log| && s.log[i].local;
    }
  }

  /** `s` is a state of some run that starts with the start-up reload. */
  function RunFrom(c: Config, s: State, actions: seq<Action>): Option<State>
    decreases |actions|
  {
    if actions == [] then Some(s) else
    var next := Step(c, s, actions[0]);
    if next.None? then None else RunFrom(c, next.value, actions[1..])
  }

  ghost predicate Reachable(c: Config, s: State)
  {
    exists first, actions :: Initial(first) && RunFrom(c, first, actions) == Some(s)
  }

  lemma {:induction false} RunKeeps(c: Config, s: State, actions: seq<Action>)
    requires Inv(c, s) && RunFrom(c, s, actions).Some?
    ensures Inv(c, RunFrom(c, s, actions).value)
    decreases |actions|
  {
    if actions != [] {
      StepKeeps(c, s, actions[0], Step(c, s, actions[0]).value);
      RunKeeps(c, Step(c, s, actions[0]).value, actions[1..]);
    }
  }

  lemma ReachableIsSound(c: Config, s: State)
    requires Reachable(c, s)
    ensures Inv(c, s)
  {
    var first, actions :| Initial(first) && RunFrom(c, first, actions) == Some(s);
    RunKeeps(c, first, actions);
  }

  /** No wake-up is lost: a missing local change is awaited, or the last reload could not read the table. */
  lemma NoLostWakeUp(c: Config, s: State)
    requires Reachable(c, s) && Missing(s) && !s.failed
    ensures Awaited(s)
  {
    ReachableIsSound(c, s);
  }

  /** Nothing is in flight on this replica. */
  ghost predicate Quiet(s: State)
  {
    s.watcher == Waiting && !s.token && s.signalling == {} && !s.failed
  }

  lemma UnseenLocalIsMissing(s: State)
    requires forall i :: s.seen <= i < |s.log| ==> s.log[i].local
    ensures s.seen < |s.log| ==> Missing(s)
  {
    if s.seen < |s.log| { assert s.log[s.seen].local; }
  }

  lemma QuietHasReadEverything(c: Config, s: State)
    requires Inv(c, s) && Quiet(s)
    requires forall i :: s.seen <= i < |s.log| ==> s.log[i].local
    ensures s.log != [] && s.schedule == Registration(c.accepts, s.Current())
  {
    hide Registration;
    UnseenLocalIsMissing(s);
    assert !Awaited(s);
    assert s.seen == |s.log|;
  }

  /** When everything is quiet and nobody else wrote since, the schedule is the registration of the current table. */
  lemma QuietMeansCurrent(c: Config, s: State)
    requires Reachable(c, s) && Quiet(s)
    requires forall i :: s.seen <= i < |s.log| ==> s.log[i].local
    ensures s.log != [] && s.schedule == Registration(c.accepts, s.Current())
  {
    hide *;
    ReachableIsSound(c, s);
    QuietHasReadEverything(c, s);
  }

  /** With schedules the runner accepts, that is every live, enabled, scoped job and nothing else. */
  lemma QuietMeansComplete(c: Config, s: State)
    requires Reachable(c, s) && Quiet(s)
    requires forall i :: s.seen <= i < |s.log| ==> s.log[i].local
    requires s.log != [] && forall id :: id in ListEnabled(s.Current()) ==> c.accepts(s.Current()[id].definition)
    ensures s.schedule == ListEnabled(s.Current())
    ensures forall id :: id in s.schedule <==>
      && id in s.Current() && s.Current()[id].audit.deletedAt == None && s.Current()[id].definition.status == Enabled
      && s.Current()[id].scope.tenant != "" && s.Current()[id].scope.application != ""
    ensures forall id :: id in s.schedule ==> s.schedule[id] == s.Current()[id]
  {
    hide *;
    QuietMeansCurrent(c, s);
    AcceptedReloadIsComplete(c.accepts, s.Current());
  }

  /** One confirmed local change of the empty table to `jobs`, whose only reload fails. */
  lemma MissedChange(c: Config, jobs: map<string, Job>) returns (s: State)
    requires c.readsFail
    ensures Reachable(c, s) && Missing(s) && !Awaited(s) && s.watcher == Waiting
    ensures s.log != [] && s.Current() == jobs && s.schedule == Registration(c.accepts, map[])
  {
    hide Registration;
    var first := State([Commit(false, map[])], {}, false, Woken, 0, false, map[]);
    var actions := [Read, Register, Write(Commit(true, jobs)), Signal(1), Take, ReadFails];
    var s1 := Step(c, first, Read).value;
    var s2 := Step(c, s1, Register).value;
    var s3 := Step(c, s2, Write(Commit(true, jobs))).value;
    var s4 := Step(c, s3, Signal(1)).value;
    var s5 := Step(c, s4, Take).value;
    s := Step(c, s5, ReadFails).value;
    assert s.log[1].local;
    assert RunFrom(c, s, []) == Some(s);
    assert RunFrom(c, s5, actions[5..]) == Some(s);
    assert RunFrom(c, s4, actions[4..]) == Some(s) by { assert actions[4..][1..] == actions[5..]; }
    assert RunFrom(c, s3, actions[3..]) == Some(s) by { assert actions[3..][1..] == actions[4..]; }
    assert RunFrom(c, s2, actions[2..]) == Some(s) by { assert actions[2..][1..] == actions[3..]; }
    assert RunFrom(c, s1, actions[1..]) == Some(s) by { assert actions[1..][1..] == actions[2..]; }
    assert RunFrom(c, first, actions) == Some(s);
  }

  ghost predicate AlwaysAwaited(c: Config)
  {
    forall s :: Reachable(c, s) && Missing(s) ==> Awaited(s)
  }

  /** In all runs every missing local change is awaited iff reading the table cannot fail. */
  lemma WakeUpsAreExactlyKept(c: Config)
    ensures AlwaysAwaited(c) <==> !c.readsFail
  {
    hide Reachable, Missing, Awaited;
    if c.readsFail {
      var s := MissedChange(c, map[]);
    } else {
      forall s | Reachable(c, s) && Missing(s) ensures Awaited(s) {
        ReadsThatWorkNeverFail(c, s);
        NoLostWakeUp(c, s);
      }
    }
  }

  lemma ReadsThatWorkNeverFail(c: Config, s: State)
    requires Reachable(c, s) && !c.readsFail
    ensures !s.failed
  {
    hide Reachable;
    ReachableIsSound(c, s);
  }

  /** One enabled job of a scope. */
  function OneJob(d: Definition): map<string, Job>
  {
    map["j" := Job("j", Scope("t", "a"), d, Audit(1, 0, "x", 0, "x", None, None))]
  }

  lemma OneJobIsScheduled(accepts: Definition -> bool, d: Definition)
    requires accepts(d) && d.status == Enabled
    ensures Registration(accepts, OneJob(d)) != Registration(accepts, map[])
  {
    hide Registration;
    AcceptedReloadIsComplete(accepts, map[]);
    AcceptedReloadIsComplete(accepts, OneJob(d));
    assert "j" in ListEnabled(OneJob(d)) && "j" !in ListEnabled(map[]);
  }

  /** A failed read does lose a wake-up: a new job is neither scheduled nor awaited any more. */
  lemma FailedReadLosesTheWakeUp(c: Config, d: Definition) returns (s: State)
    requires c.readsFail && c.accepts(d) && d.status == Enabled
    ensures Reachable(c, s) && Missing(s) && !Awaited(s)
    ensures s.log != [] && s.schedule != Registration(c.accepts, s.Current())
  {
    hide *;
    s := MissedChange(c, OneJob(d));
    OneJobIsScheduled(c.accepts, d);
  }

  /** Whatever was missed, the next tick whose read succeeds makes the schedule current. */
  lemma TickCatchesUp(c: Config, s: State)
    requires s.watcher == Waiting && s.log != []
    ensures var next := RunFrom(c, s, [Tick, Read, Register]);
      && next.Some? && next.value.log == s.log && !Missing(next.value)
      && next.value.schedule == Registration(c.accepts, s.Current())
  {
    hide Registration;
    var s1 := Step(c, s, Tick).value;
    var s2 := Step(c, s1, Read).value;
    var s3 := Step(c, s2, Register).value;
    assert [Tick, Read, Register][1..] == [Read, Register] && [Read, Register][1..] == [Register]
        && [Register][1..] == [];
    assert RunFrom(c, s2, [Register]) == Some(s3) by { assert RunFrom(c, s3, []) == Some(s3); }
    assert RunFrom(c, s1, [Read, Register]) == Some(s3);
  }

  /** Which steps are possible: a writer may always commit and signal, and the watcher is never stuck. */
  lemma StepsArePossible(c: Config, s: State, commit: Commit, change: nat)
    ensures Step(c, s, Write(commit)).Some?
    ensures Step(c, s, Signal(change)).Some? <==> change in s.signalling
    ensures Step(c, s, Signal(change)).Some? ==> Step(c, s, Signal(change)).value.token
    ensures Step(c, s, Take).Some? <==> s.watcher == Waiting && s.token
    ensures Step(c, s, Tick).Some? <==> s.watcher == Waiting
    ensures Step(c, s, Read).Some? <==> s.watcher == Woken && s.log != []
    ensures Step(c, s, ReadFails).Some? <==> s.watcher == Woken && c.readsFail
    ensures Step(c, s, Register).Some? <==> s.watcher.Loaded?
  {
    hide Registration;
  }
}
