/** The cron runner of one replica and the reload that rebuilds its entries from the job table. */
module Runtime {
  import opened Records
  import opened Ordering
  import opened Statements

  // ---- what a reload is for ----

  function IdKeys(ids: set<string>): set<Key> { set id | id in ids :: Key(0, id) }

  /** The rows of ListEnabled in the order of their ids. */
  function EnabledInOrder(jobs: map<string, Job>): seq<string>
  {
    var rows := Sorted(IdKeys(ListEnabled(jobs).Keys));
    seq(|rows|, i requires 0 <= i < |rows| => rows[i].id)
  }

  /** How many of the first rows the runner accepts before it rejects one. */
  function AcceptedPrefix(accepts: Definition -> bool, jobs: map<string, Job>, ids: seq<string>): (k: nat)
    requires forall id :: id in ids ==> id in jobs
    ensures k <= |ids|
    ensures forall i :: 0 <= i < k ==> accepts(jobs[ids[i]].definition)
    ensures k < |ids| ==> !accepts(jobs[ids[k]].definition)
  {
    if ids != [] && accepts(jobs[ids[0]].definition) then 1 + AcceptedPrefix(accepts, jobs, ids[1..]) else 0
  }

  function Only(jobs: map<string, Job>, ids: seq<string>): map<string, Job>
  {
    map id | id in jobs && id in ids :: jobs[id]
  }

  /** The schedule a reload leaves: the enabled jobs, up to the first one the runner rejects. */
  function Registration(accepts: Definition -> bool, jobs: map<string, Job>): map<string, Job>
  {
    EnabledIdsAreRows(jobs);
    var ids := EnabledInOrder(jobs);
    Only(jobs, ids[..AcceptedPrefix(accepts, jobs, ids)])
  }

  lemma EnabledIdsAreRows(jobs: map<string, Job>)
    ensures var ids := EnabledInOrder(jobs);
      && (forall id :: id in ids <==> id in ListEnabled(jobs))
      && (forall i, j :: 0 <= i < j < |ids| ==> StringLess(ids[i], ids[j]) && ids[i] != ids[j])
      && (forall id :: id in ids ==> id in jobs)
  {
    var keys := IdKeys(ListEnabled(jobs).Keys);
    SortedLists(keys);
    var rows, ids := Sorted(keys), EnabledInOrder(jobs);
    forall i | 0 <= i < |rows| ensures rows[i] == Key(0, ids[i]) && ids[i] in ListEnabled(jobs) {
      assert rows[i] in rows && rows[i] in keys;
    }
    forall id | id in ListEnabled(jobs) ensures id in ids {
      assert Key(0, id) in keys && Key(0, id) in rows;
      var i :| 0 <= i < |rows| && rows[i] == Key(0, id);
      assert ids[i] == id;
    }
    forall i, j | 0 <= i < j < |ids| ensures StringLess(ids[i], ids[j]) && ids[i] != ids[j] {
      assert Before(rows[i], rows[j]);
      StringLessIsStrict(ids[i], ids[j]);
    }
  }

  /** A reload that meets no rejection schedules exactly the live, enabled, scoped jobs it read. */
  lemma AcceptedReloadIsComplete(accepts: Definition -> bool, jobs: map<string, Job>)
    requires forall id :: id in ListEnabled(jobs) ==> accepts(jobs[id].definition)
    ensures Registration(accepts, jobs) == ListEnabled(jobs)
    ensures forall id :: id in Registration(accepts, jobs) <==>
      && id in jobs && jobs[id].audit.deletedAt == None && jobs[id].definition.status == Enabled
      && jobs[id].scope.tenant != "" && jobs[id].scope.application != ""
    ensures forall id :: id in Registration(accepts, jobs) ==> Registration(accepts, jobs)[id] == jobs[id]
  {
    EnabledIdsAreRows(jobs);
    var ids := EnabledInOrder(jobs);
    assert forall i :: 0 <= i < |ids| ==> ids[i] in ids;
    assert ids[..AcceptedPrefix(accepts, jobs, ids)] == ids;
  }

  /** Distinct ids in ascending order. */
  ghost predicate InIdOrder(ids: seq<string>)
  {
    forall i, j :: 0 <= i < j < |ids| ==> StringLess(ids[i], ids[j]) && ids[i] != ids[j]
  }

  lemma PrefixEndsAtRejection(accepts: Definition -> bool, jobs: map<string, Job>, ids: seq<string>, rejected: string)
    requires InIdOrder(ids) && rejected in ids && forall id :: id in ids ==> id in jobs
    requires !accepts(jobs[rejected].definition)
    requires forall id :: id in ids && StringLess(id, rejected) ==> accepts(jobs[id].definition)
    ensures var k := AcceptedPrefix(accepts, jobs, ids); k < |ids| && ids[k] == rejected
  {
    var k := AcceptedPrefix(accepts, jobs, ids);
    var r :| 0 <= r < |ids| && ids[r] == rejected;
    assert k <= r && ids[k] in ids;
  }

  lemma PrefixIsBelow(ids: seq<string>, k: nat, id: string)
    requires InIdOrder(ids) && k < |ids|
    ensures id in ids[..k] <==> id in ids && StringLess(id, ids[k])
  {
    if id in ids[..k] {
      var i :| 0 <= i < k && ids[..k][i] == id;
      assert ids[i] == id;
    }
    if id in ids && StringLess(id, ids[k]) {
      var i :| 0 <= i < |ids| && ids[i] == id;
      StringLessIsStrict(id, ids[k]);
      assert ids[..k][i] == id;
    }
  }

  /** After a rejection the schedule is the prefix, in id order, before the rejected job. */
  lemma RejectionLeavesThePrefix(accepts: Definition -> bool, jobs: map<string, Job>, rejected: string)
    requires rejected in ListEnabled(jobs) && !accepts(jobs[rejected].definition)
    requires forall id :: id in ListEnabled(jobs) && StringLess(id, rejected) ==> accepts(jobs[id].definition)
    ensures forall id :: id in Registration(accepts, jobs) <==> id in ListEnabled(jobs) && StringLess(id, rejected)
    ensures forall id :: id in Registration(accepts, jobs) <==>
      && id in jobs && jobs[id].audit.deletedAt == None && jobs[id].definition.status == Enabled
      && jobs[id].scope.tenant != "" && jobs[id].scope.application != "" && StringLess(id, rejected)
    ensures forall id :: id in Registration(accepts, jobs) ==> Registration(accepts, jobs)[id] == jobs[id]
  {
    hide EnabledInOrder;
    EnabledIdsAreRows(jobs);
    var ids := EnabledInOrder(jobs);
    PrefixEndsAtRejection(accepts, jobs, ids, rejected);
    forall id ensures id in Registration(accepts, jobs) <==> id in ListEnabled(jobs) && StringLess(id, rejected) {
      PrefixIsBelow(ids, AcceptedPrefix(accepts, jobs, ids), id);
    }
  }

  /** Some schedulable job is rejected, and the schedule is the schedulable jobs with smaller ids. */
  ghost predicate StopsAtRejection(accepts: Definition -> bool, jobs: map<string, Job>, schedule: map<string, Job>)
  {
    exists rejected ::
      && rejected in jobs && jobs[rejected].audit.deletedAt == None && jobs[rejected].definition.status == Enabled
      && jobs[rejected].scope.tenant != "" && jobs[rejected].scope.application != ""
      && !accepts(jobs[rejected].definition)
      && (forall id :: id in schedule <==>
            && id in jobs && jobs[id].audit.deletedAt == None && jobs[id].definition.status == Enabled
            && jobs[id].scope.tenant != "" && jobs[id].scope.application != "" && StringLess(id, rejected))
      && (forall id :: id in schedule ==> schedule[id] == jobs[id] && accepts(jobs[id].definition))
  }

  /** The first job, in the order of ids, that the runner rejects. */
  lemma FirstRejection(accepts: Definition -> bool, jobs: map<string, Job>) returns (rejected: string)
    requires exists id :: id in ListEnabled(jobs) && !accepts(jobs[id].definition)
    ensures rejected in ListEnabled(jobs) && !accepts(jobs[rejected].definition)
    ensures forall id :: id in ListEnabled(jobs) && StringLess(id, rejected) ==> accepts(jobs[id].definition)
  {
    hide ListEnabled, EnabledInOrder;
    EnabledIdsAreRows(jobs);
    var ids := EnabledInOrder(jobs);
    var k := AcceptedPrefix(accepts, jobs, ids);
    assert k < |ids| by {
      var bad :| bad in ListEnabled(jobs) && !accepts(jobs[bad].definition);
      var i :| 0 <= i < |ids| && ids[i] == bad;
    }
    rejected := ids[k];
    assert ids[k] in ids;
    forall id | id in ListEnabled(jobs) && StringLess(id, rejected) ensures accepts(jobs[id].definition) {
      PrefixIsBelow(ids, k, id);
      var i :| 0 <= i < k && ids[..k][i] == id;
      assert accepts(jobs[ids[i]].definition);
    }
  }

  lemma SchedulableOnColumns(accepts: Definition -> bool, jobs: map<string, Job>)
    ensures (forall id :: id in ListEnabled(jobs) ==> accepts(jobs[id].definition)) <==>
      forall id ::
        && id in jobs && jobs[id].audit.deletedAt == None && jobs[id].definition.status == Enabled
        && jobs[id].scope.tenant != "" && jobs[id].scope.application != ""
        ==> accepts(jobs[id].definition)
  {
  }

  lemma RejectedReloadStops(accepts: Definition -> bool, jobs: map<string, Job>)
    requires exists id :: id in ListEnabled(jobs) && !accepts(jobs[id].definition)
    ensures StopsAtRejection(accepts, jobs, Registration(accepts, jobs))
  {
    var rejected := FirstRejection(accepts, jobs);
    RejectionLeavesThePrefix(accepts, jobs, rejected);
    assert rejected in ListEnabled(jobs);
    forall id | id in Registration(accepts, jobs) ensures accepts(jobs[id].definition) {
      assert id in ListEnabled(jobs);
    }
  }

  lemma OnlyNothing(jobs: map<string, Job>)
    ensures Only(jobs, []) == map[]
  {
  }

  lemma OnlyGrows(jobs: map<string, Job>, ids: seq<string>, i: nat)
    requires i < |ids| && ids[i] in jobs && InIdOrder(ids)
    ensures Only(jobs, ids[..i + 1]) == Only(jobs, ids[..i])[ids[i] := jobs[ids[i]]] && ids[i] !in Only(jobs, ids[..i])
  {
    assert ids[..i + 1] == ids[..i] + [ids[i]];
  }

  // ---- the code ----

  class CronRunner {
    /** Whether the runner can parse a definition's schedule; validation does not guarantee it. */
    const accepts: Definition -> bool
    var entries: map<nat, Job>
    var next: nat

    constructor (accepts: Definition -> bool)
      ensures this.accepts == accepts && entries == map[]
    {
      this.accepts := accepts;
      entries, next := map[], 0;
    }

    ghost predicate Valid()
      reads this
    {
      forall id :: id in entries ==> id < next
    }

    method AddFunc(job: Job) returns (entry: Option<nat>)
      requires Valid()
      modifies this
      ensures Valid()
      ensures entry.Some? <==> accepts(job.definition)
      ensures entry.Some? ==> entry.value !in old(entries) && entries == old(entries)[entry.value := job]
      ensures entry.None? ==> entries == old(entries)
    {
      if !accepts(job.definition) { return None; }
      entries := entries[next := job];
      next := next + 1;
      return Some(next - 1);
    }

    method Remove(entry: nat)
      requires Valid()
      modifies this
      ensures Valid() && entries == old(entries) - {entry}
    {
      entries := entries - {entry};
    }
  }

  /** What a select of the watcher can receive; `read` is the table ListEnabled sees, None if it fails. */
  datatype Event = Changed(read: Option<map<string, Job>>) | Ticked(read: Option<map<string, Job>>) | Stopped

  /** The schedule after one reload attempt. */
  function AfterReload(accepts: Definition -> bool, before: map<string, Job>, read: Option<map<string,
      Job>>): map<string, Job>
  {
    if read.Some? then Registration(accepts, read.value) else before
  }

  /** The schedule after the events up to a stop. */
  function AfterEvents(accepts: Definition -> bool, before: map<string, Job>, events: seq<Event>): map<string, Job>
    decreases |events|
  {
    if events == [] || events[0].Stopped? then before
    else AfterEvents(accepts, AfterReload(accepts, before, events[0].read), events[1..])
  }

  /** The events before the first stop. */
  function BeforeStop(events: seq<Event>): seq<Event>
  {
    if events == [] || events[0].Stopped? then [] else [events[0]] + BeforeStop(events[1..])
  }

  ghost predicate AreUnreadable(events: seq<Event>)
  {
    forall i :: 0 <= i < |events| ==> !events[i].Stopped? && events[i].read.None?
  }

  /** The event `k` is the last one before the stop whose read succeeded. */
  ghost predicate IsLastRead(events: seq<Event>, k: nat)
  {
    var seen := BeforeStop(events);
    k < |seen| && !seen[k].Stopped? && seen[k].read.Some? && AreUnreadable(seen[k + 1..])
  }

  lemma {:induction false} UnreadableEventsKeep(accepts: Definition -> bool, before: map<string, Job>,
      events: seq<Event>)
    requires AreUnreadable(BeforeStop(events))
    ensures AfterEvents(accepts, before, events) == before
    decreases |events|
  {
    hide Registration;
    if events != [] && !events[0].Stopped? {
      var rest := BeforeStop(events[1..]);
      assert BeforeStop(events)[0] == events[0];
      assert forall i :: 0 <= i < |rest| ==> rest[i] == BeforeStop(events)[i + 1];
      UnreadableEventsKeep(accepts, before, events[1..]);
    }
  }

  /** The schedule is the registration of the last table that could be read before the stop, or the old one. */
  lemma {:induction false} LastReadDecides(accepts: Definition -> bool, before: map<string, Job>, events: seq<Event>,
      k: nat)
    requires IsLastRead(events, k)
    ensures AfterEvents(accepts, before, events) == Registration(accepts, BeforeStop(events)[k].read.value)
    decreases k
  {
    hide Registration;
    var seen, rest := BeforeStop(events), BeforeStop(events[1..]);
    assert seen[1..] == rest;
    if k == 0 {
      UnreadableEventsKeep(accepts, Registration(accepts, events[0].read.value), events[1..]);
    } else {
      assert seen[k] == rest[k - 1] && seen[k + 1..] == rest[k..];
      LastReadDecides(accepts, AfterReload(accepts, before, events[0].read), events[1..], k - 1);
    }
  }

  class Runtime {
    const runner: CronRunner
    var entries: map<string, nat>

    constructor (runner: CronRunner)
      requires runner.Valid() && runner.entries == map[]
      ensures this.runner == runner && Valid() && Schedule() == map[]
    {
      this.runner := runner;
      entries := map[];
    }

    /** The runner's entries are exactly the values of `entries`, one per job id. */
    ghost predicate Valid()
      reads this, runner
    {
      && runner.Valid()
      && (forall id :: id in entries ==> entries[id] in runner.entries && runner.entries[entries[id]].id == id)
      && (forall e :: e in runner.entries ==> runner.entries[e].id in entries && entries[runner.entries[e].id] == e)
    }

    /** The jobs that will fire, by id. */
    ghost function Schedule(): map<string, Job>
      requires Valid()
      reads this, runner
    {
      map id | id in entries :: runner.entries[entries[id]]
    }

    /** Removes every entry, in the arbitrary order of a map iteration. */
    method RemoveAll()
      requires Valid()
      modifies this, runner
      ensures Valid() && entries == map[] && runner.entries == map[]
    {
      var left := entries.Keys;
      while left != {}
        invariant runner.Valid() && entries == old(entries) && left <= entries.Keys
        invariant forall e :: e in runner.entries ==>
          e in old(runner.entries)
          && runner.entries[e] == old(runner.entries)[e]
        invariant forall e :: e in runner.entries ==> runner.entries[e].id in left
        decreases |left|
      {
        var id :| id in left;
        runner.Remove(entries[id]);
        left := left - {id};
      }
      entries := map[];
      assert runner.entries == map[];
    }

    method AddOne(job: Job) returns (ok: bool)
      requires Valid() && job.id !in entries
      modifies this, runner
      ensures Valid() && (ok <==> runner.accepts(job.definition))
      ensures Schedule() == if ok then old(Schedule())[job.id := job] else old(Schedule())
    {
      var entry := runner.AddFunc(job);
      if entry.None? {
        return false;
      }
      entries := entries[job.id := entry.value];
      return true;
    }

    /** Adds the rows one by one and stops at the first the runner rejects. */
    method AddAll(jobs: map<string, Job>, values: seq<string>) returns (ok: bool)
      requires Valid() && Schedule() == map[]
      requires forall id :: id in values ==> id in jobs && jobs[id].id == id
      requires InIdOrder(values)
      modifies this, runner
      ensures Valid() && Schedule() == Only(jobs, values[..AcceptedPrefix(runner.accepts, jobs, values)])
      ensures ok <==> AcceptedPrefix(runner.accepts, jobs, values) == |values|
    {
      hide Only;
      hide InIdOrder;
      hide AcceptedPrefix;
      ghost var k := AcceptedPrefix(runner.accepts, jobs, values);
      OnlyNothing(jobs);
      var i := 0;
      while i < |values|
        invariant 0 <= i <= k <= |values| && Valid()
        invariant Schedule() == Only(jobs, values[..i])
      {
        assert values[i] in values;
        OnlyGrows(jobs, values, i);
        assert values[i] !in Schedule() && Schedule().Keys == entries.Keys;
        ok := AddOne(jobs[values[i]]);
        if !ok { return; }
        i := i + 1;
      }
      return true;
    }

    method Register(jobs: map<string, Job>) returns (ok: bool)
      requires Valid() && Schedule() == map[]
      requires forall id :: id in jobs ==> jobs[id].id == id
      modifies this, runner
      ensures Valid() && Schedule() == Registration(runner.accepts, jobs)
      ensures ok <==> forall id :: id in ListEnabled(jobs) ==> runner.accepts(jobs[id].definition)
    {
      hide EnabledInOrder;
      EnabledIdsAreRows(jobs);
      var values := EnabledInOrder(jobs);
      ok := AddAll(jobs, values);
      assert forall i :: 0 <= i < |values| ==> values[i] in values;
    }

    /** `read` is None when listing the enabled jobs fails. */
    method Reload(read: Option<map<string, Job>>) returns (ok: bool)
      requires Valid() && (read.Some? ==> forall id :: id in read.value ==> read.value[id].id == id)
      modifies this, runner
      ensures Valid() && Schedule() == AfterReload(runner.accepts, old(Schedule()), read)
      ensures ok ==> read.Some? && Schedule() == ListEnabled(read.value)
      ensures read == None ==> !ok && Schedule() == old(Schedule())
      ensures read != None ==> (ok <==>
        forall id ::
          && id in read.value && read.value[id].audit.deletedAt == None && read.value[id].definition.status == Enabled
          && read.value[id].scope.tenant != "" && read.value[id].scope.application != ""
          ==> runner.accepts(read.value[id].definition))
      ensures ok ==> forall id :: id in Schedule() <==>
        && id in read.value && read.value[id].audit.deletedAt == None && read.value[id].definition.status == Enabled
        && read.value[id].scope.tenant != "" && read.value[id].scope.application != ""
      ensures ok ==> forall id :: id in Schedule() ==> Schedule()[id] == read.value[id]
      ensures read != None && !ok ==> StopsAtRejection(runner.accepts, read.value, Schedule())
    {
      if read.None? { return false; }
      RemoveAll();
      assert Schedule() == map[];
      hide ListEnabled, Registration, StopsAtRejection;
      ok := Register(read.value);
      SchedulableOnColumns(runner.accepts, read.value);
      if ok {
        AcceptedReloadIsComplete(runner.accepts, read.value);
      } else {
        RejectedReloadStops(runner.accepts, read.value);
      }
    }

    /** The event loop: every change and every tick reloads, and a failed reload only gets logged. */
    method Watch(events: seq<Event>)
      requires Valid()
      requires forall e :: e in events && !e.Stopped? && e.read.Some? ==>
        forall id :: id in e.read.value ==> e.read.value[id].id == id
      modifies this, runner
      ensures Valid() && Schedule() == AfterEvents(runner.accepts, old(Schedule()), events)
      ensures forall k: nat :: IsLastRead(events, k) ==>
        Schedule() == Registration(runner.accepts, BeforeStop(events)[k].read.value)
      ensures AreUnreadable(BeforeStop(events)) ==> Schedule() == old(Schedule())
    {
      var i := 0;
      while i < |events| && !events[i].Stopped?
        invariant 0 <= i <= |events| && Valid()
        invariant AfterEvents(runner.accepts, old(Schedule()), events)
            == AfterEvents(runner.accepts, Schedule(), events[i..])
      {
        assert events[i] in events;
        assert events[i..][0] == events[i] && events[i..][1..] == events[i + 1..];
        var _ := Reload(events[i].read);
        i := i + 1;
      }
      forall k: nat | IsLastRead(events, k)
        ensures Schedule() == Registration(runner.accepts, BeforeStop(events)[k].read.value)
      {
        LastReadDecides(runner.accepts, old(Schedule()), events, k);
      }
      if AreUnreadable(BeforeStop(events)) {
        UnreadableEventsKeep(runner.accepts, old(Schedule()), events);
      }
    }
  }
}
