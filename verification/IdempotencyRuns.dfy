/** Many requests against one record manager: interleaved steps, crashes, lost writes and expiry. */
module IdempotencyRuns {
  import opened Records
  import opened Idempotency

  datatype Config = Config(codec: Codec, lifetimes: Lifetimes)

  datatype Written = Written(status: int, text: string)

  datatype Output = FromHandler(owner: nat) | Answered(decision: Decision)

  datatype Phase = Waiting | Handling(owner: nat) | Recording(owner: nat) | Served(output: Output) | Lost

  datatype Request = Request(key: string, fingerprint: string, id: string, phase: Phase)

  /** One acquisition of a key: `until` is when its record ends, as far as it is known. */
  datatype Run = Run(key: string, fingerprint: string, at: int, until: int, written: Option<Written>)

  /** The owner token of an acquisition is its position in `runs`. */
  datatype World = World(now: int, records: map<string, Record>, requests: map<nat, Request>, runs: seq<Run>)

  const Start := World(0, map[], map[], [])

  datatype Action =
    | Arrive(p: nat, key: string, fingerprint: string, id: string)
    | Begin(p: nat, reachable: bool)
    | Handle(p: nat, written: Written)
    | Record(p: nat, reachable: bool)
    | Crash(p: nat)
    | Tick(now: int)

  // ---- steps ----

  function InPhase(w: World, p: nat, phase: Phase): map<nat, Request>
    requires p in w.requests
  {
    w.requests[p := w.requests[p].(phase := phase)]
  }

  function ArriveStep(w: World, p: nat, key: string, fingerprint: string, id: string): Option<World>
  {
    if p in w.requests then None else Some(w.(requests := w.requests[p := Request(key, fingerprint, id, Waiting)]))
  }

  function DecisionAt(w: World, p: nat, reachable: bool): Decision
    requires p in w.requests
  {
    if reachable then Decide(w.records, w.now, w.requests[p].key, w.requests[p].fingerprint, |w.runs|) else ManagerDown
  }

  function PhaseAfter(d: Decision): Phase { if d.Acquired? then Handling(d.owner) else Served(Answered(d)) }

  function BeginStep(c: Config, w: World, p: nat, reachable: bool): Option<World>
  {
    if p !in w.requests || !w.requests[p].phase.Waiting? then None
    else
      var r, d := w.requests[p], DecisionAt(w, p, reachable);
      var taken := d.Acquired?;
      Some(World(w.now,
        if reachable then Begun(w.records, w.now, r.key, r.fingerprint, |w.runs|, c.lifetimes.processing)
            else w.records,
        InPhase(w, p, PhaseAfter(d)),
        if taken then w.runs + [Run(r.key, r.fingerprint, w.now, w.now + c.lifetimes.processing, None)] else w.runs))
  }

  function HandleStep(w: World, p: nat, written: Written): Option<World>
  {
    if p !in w.requests || !w.requests[p].phase.Handling? || w.requests[p].phase.owner >= |w.runs| then None
    else
      var o := w.requests[p].phase.owner;
      Some(w.(requests := InPhase(w, p, Recording(o)), runs := w.runs[o := w.runs[o].(written := Some(written))]))
  }

  function StateOfRun(c: Config, run: Run): Option<RecordState>
  {
    if run.written.None? then None else StateOf(c.codec, run.written.value.status, run.written.value.text)
  }

  function RecordedBy(c: Config, w: World, p: nat, o: nat, reachable: bool): map<string, Idempotency.Record>
    requires p in w.requests && o < |w.runs|
  {
    if reachable then Recorded(w.records, w.now, w.requests[p].key, o, StateOfRun(c, w.runs[o]), c.lifetimes)
        else w.records
  }

  function EndOf(records: map<string, Idempotency.Record>, run: Run, o: nat): int
  {
    if run.key in records && records[run.key].owner == o then records[run.key].until else run.until
  }

  function RecordStep(c: Config, w: World, p: nat, reachable: bool): Option<World>
  {
    if p !in w.requests || !w.requests[p].phase.Recording? || w.requests[p].phase.owner >= |w.runs| then None
    else
      var o := w.requests[p].phase.owner;
      var records := RecordedBy(c, w, p, o, reachable);
      Some(w.(records := records, requests := InPhase(w, p, Served(FromHandler(o))),
              runs := w.runs[o := w.runs[o].(until := EndOf(records, w.runs[o], o))]))
  }

  function CrashStep(w: World, p: nat): Option<World>
  {
    if p !in w.requests || w.requests[p].phase.Served? then None else Some(w.(requests := InPhase(w, p, Lost)))
  }

  function TickStep(w: World, now: int): Option<World>
  {
    if now < w.now then None else Some(w.(now := now))
  }

  function Step(c: Config, w: World, a: Action): Option<World>
  {
    match a
    case Arrive(p, key, fingerprint, id) => ArriveStep(w, p, key, fingerprint, id)
    case Begin(p, reachable) => BeginStep(c, w, p, reachable)
    case Handle(p, written) => HandleStep(w, p, written)
    case Record(p, reachable) => RecordStep(c, w, p, reachable)
    case Crash(p) => CrashStep(w, p)
    case Tick(now) => TickStep(w, now)
  }

  function RunFrom(c: Config, w: World, actions: seq<Action>): Option<World>
    decreases |actions|
  {
    if actions == [] then Some(w) else
    var next := Step(c, w, actions[0]);
    if next.None? then None else RunFrom(c, next.value, actions[1..])
  }

  // ---- the invariant ----

  /** A record is the one of the last acquisition of its key, and decided only by what its handler wrote. */
  ghost predicate RecordOk(c: Config, runs: seq<Run>, key: string, r: Idempotency.Record)
  {
    && r.owner < |runs| && runs[r.owner].key == key && runs[r.owner].fingerprint == r.fingerprint
    && runs[r.owner].until == r.until
    && (forall j :: r.owner < j < |runs| ==> runs[j].key != key)
    && (r.state.Processing? || Some(r.state) == StateOfRun(c, runs[r.owner]))
  }

  ghost predicate RecordsOk(c: Config, w: World)
  {
    && (forall key :: key in w.records ==> RecordOk(c, w.runs, key, w.records[key]))
    && (forall j :: 0 <= j < |w.runs| ==> w.runs[j].key in w.records && w.runs[j].at <= w.now)
  }

  /** Acquisitions of one key follow one another: the record of the earlier one has ended by then. */
  ghost predicate Separated(runs: seq<Run>)
  {
    forall i, j :: 0 <= i < j < |runs| && runs[i].key == runs[j].key ==> runs[i].until <= runs[j].at
  }

  ghost predicate OwnsRun(r: Request, runs: seq<Run>, o: nat)
  {
    o < |runs| && runs[o].key == r.key && runs[o].fingerprint == r.fingerprint
  }

  /** The owner a request acts for, from acquisition to its answer. */
  function OwnerOf(phase: Phase): Option<nat>
  {
    match phase
    case Handling(o) => Some(o)
    case Recording(o) => Some(o)
    case Served(FromHandler(o)) => Some(o)
    case _ => None
  }

  /** The replay of a request is the recorded result of a run of its own key and fingerprint. */
  ghost predicate AnswerOk(c: Config, runs: seq<Run>, r: Request, d: Decision)
  {
    !d.Acquired? && ((d.Replay? || d.ReplayFailure?) ==> exists o: nat :: Grounds(c, runs, r, d, o))
  }

  ghost predicate Grounds(c: Config, runs: seq<Run>, r: Request, d: Decision, o: nat)
    requires d.Replay? || d.ReplayFailure?
  {
    OwnsRun(r, runs, o) && StateOfRun(c, runs[o]) == Some(if d.Replay? then Completed(d.stored)
        else RecordState.Failed(d.failure))
  }

  ghost predicate RequestOk(c: Config, runs: seq<Run>, r: Request)
  {
    && (OwnerOf(r.phase).Some? ==> OwnsRun(r, runs, OwnerOf(r.phase).value)
                                   && (runs[OwnerOf(r.phase).value].written.None? <==> r.phase.Handling?))
    && (r.phase.Served? && r.phase.output.Answered? ==> AnswerOk(c, runs, r, r.phase.output.decision))
  }

  ghost predicate RequestsOk(c: Config, w: World)
  {
    && (forall p :: p in w.requests ==> RequestOk(c, w.runs, w.requests[p]))
    && (forall p, q :: p in w.requests && q in w.requests && p != q && OwnerOf(w.requests[p].phase).Some?
                       ==> OwnerOf(w.requests[p].phase) != OwnerOf(w.requests[q].phase))
  }

  ghost predicate Inv(c: Config, w: World)
  {
    RecordsOk(c, w) && Separated(w.runs) && RequestsOk(c, w)
  }

  // ---- preservation ----

  /** Runs only gain: later ones, a handler's text where there was none, and a new end. */
  ghost predicate Grown(runs: seq<Run>, after: seq<Run>)
  {
    |runs| <= |after| && forall i :: 0 <= i < |runs| ==>
      && after[i].key == runs[i].key && after[i].fingerprint == runs[i].fingerprint && after[i].at == runs[i].at
      && (runs[i].written.Some? ==> after[i].written == runs[i].written)
  }

  lemma AnswerStays(c: Config, runs: seq<Run>, after: seq<Run>, r: Request, d: Decision)
    requires AnswerOk(c, runs, r, d) && Grown(runs, after)
    ensures AnswerOk(c, after, r, d)
  {
    hide StateOf;
    if d.Replay? || d.ReplayFailure? {
      var o: nat :| Grounds(c, runs, r, d, o);
      assert Grounds(c, after, r, d, o);
    }
  }

  lemma OthersStay(c: Config, w: World, p: nat, runs: seq<Run>)
    requires RequestsOk(c, w) && p in w.requests && Grown(w.runs, runs)
    requires forall o ::
      0 <= o < |w.runs| && OwnerOf(w.requests[p].phase) != Some(o)
      ==> runs[o].written == w.runs[o].written
    ensures forall q :: q in w.requests && q != p ==> RequestOk(c, runs, w.requests[q])
  {
    hide StateOf, AnswerOk;
    forall q | q in w.requests && q != p ensures RequestOk(c, runs, w.requests[q]) {
      var r := w.requests[q];
      assert RequestOk(c, w.runs, r);
      if r.phase.Served? && r.phase.output.Answered? {
        AnswerStays(c, w.runs, runs, r, r.phase.output.decision);
      }
    }
  }

  lemma ArriveKeeps(c: Config, w: World, p: nat, key: string, fingerprint: string, id: string)
    requires Inv(c, w) && p !in w.requests
    ensures Inv(c, ArriveStep(w, p, key, fingerprint, id).value)
  {
    hide StateOf, AnswerOk;
  }

  /** What the answer of a living record rests on. */
  lemma DecisionIsGrounded(c: Config, w: World, p: nat, reachable: bool)
    requires RecordsOk(c, w) && p in w.requests && !DecisionAt(w, p, reachable).Acquired?
    ensures var d := DecisionAt(w, p, reachable); AnswerOk(c, w.runs, w.requests[p].(phase := Served(Answered(d))), d)
  {
    hide StateOf;
    var d := DecisionAt(w, p, reachable);
    var r := w.requests[p].(phase := Served(Answered(d)));
    if d.Replay? || d.ReplayFailure? {
      assert RecordOk(c, w.runs, r.key, w.records[r.key]);
      var o: nat := w.records[r.key].owner;
      assert Grounds(c, w.runs, r, d, o);
    }
  }

  lemma RefusedBeginKeeps(c: Config, w: World, p: nat, reachable: bool, after: World)
    requires Inv(c, w) && BeginStep(c, w, p, reachable) == Some(after) && !DecisionAt(w, p, reachable).Acquired?
    ensures Inv(c, after)
  {
    hide StateOf, AnswerOk, RecordOk, Separated, Decide;
    DecisionIsGrounded(c, w, p, reachable);
    OthersStay(c, w, p, w.runs);
    BegunKeeps(w.records, w.now, w.requests[p].key, w.requests[p].fingerprint, |w.runs|, c.lifetimes.processing);
    hide Begun;
    assert after.records == w.records && after.runs == w.runs;
  }

  /** All earlier records of a key have ended when nothing of it lives. */
  lemma DeadKeyHasEnded(c: Config, w: World, key: string)
    requires RecordsOk(c, w) && Separated(w.runs) && !Alive(w.records, key, w.now)
    ensures forall i :: 0 <= i < |w.runs| && w.runs[i].key == key ==> w.runs[i].until <= w.now
  {
    hide StateOfRun;
    forall i | 0 <= i < |w.runs| && w.runs[i].key == key ensures w.runs[i].until <= w.now {
      assert RecordOk(c, w.runs, key, w.records[key]);
      var last := w.records[key].owner;
      if i != last { assert i < last && w.runs[i].until <= w.runs[last].at; }
    }
  }

  lemma NewestIsSeparated(runs: seq<Run>, run: Run)
    requires Separated(runs) && forall i :: 0 <= i < |runs| && runs[i].key == run.key ==> runs[i].until <= run.at
    ensures Separated(runs + [run])
  {
  }

  lemma NewestIsRecorded(c: Config, w: World, run: Run)
    requires RecordsOk(c, w) && run.at == w.now && run.written.None?
    ensures var record := Idempotency.Record(|w.runs|, run.fingerprint, Processing, run.until);
      RecordsOk(c, w.(records := w.records[run.key := record], runs := w.runs + [run]))
  {
    hide StateOf;
    var record := Idempotency.Record(|w.runs|, run.fingerprint, Processing, run.until);
    var after := w.(records := w.records[run.key := record], runs := w.runs + [run]);
    forall key | key in after.records ensures RecordOk(c, after.runs, key, after.records[key]) {
      if key != run.key {
        assert RecordOk(c, w.runs, key, w.records[key]);
        assert forall i :: 0 <= i < |w.runs| ==> after.runs[i] == w.runs[i];
      }
    }
  }

  lemma AcquisitionKeepsRecords(c: Config, w: World, p: nat, after: World)
    requires Inv(c, w) && BeginStep(c, w, p, true) == Some(after) && DecisionAt(w, p, true).Acquired?
    ensures RecordsOk(c, after) && Separated(after.runs) && Grown(w.runs, after.runs)
  {
    hide RequestsOk, Separated, RecordOk;
    var r := w.requests[p];
    var run := Run(r.key, r.fingerprint, w.now, w.now + c.lifetimes.processing, None);
    assert after.runs == w.runs + [run];
    DeadKeyHasEnded(c, w, r.key);
    NewestIsSeparated(w.runs, run);
    NewestIsRecorded(c, w, run);
  }

  lemma AcquisitionKeeps(c: Config, w: World, p: nat, after: World)
    requires Inv(c, w) && BeginStep(c, w, p, true) == Some(after) && DecisionAt(w, p, true).Acquired?
    ensures Inv(c, after)
  {
    hide StateOf, AnswerOk, RecordsOk, Separated, RecordOk;
    AcquisitionKeepsRecords(c, w, p, after);
    OthersStay(c, w, p, after.runs);
    assert after.requests == InPhase(w, p, Handling(|w.runs|));
    forall q | q in w.requests ensures OwnerOf(w.requests[q].phase) != Some(|w.runs|) {
      assert RequestOk(c, w.runs, w.requests[q]);
    }
  }

  lemma HandleKeepsRecords(c: Config, w: World, p: nat, written: Written, after: World)
    requires Inv(c, w) && HandleStep(w, p, written) == Some(after)
    ensures RecordsOk(c, after) && Separated(after.runs)
  {
    hide StateOf, AnswerOk;
    assert RequestOk(c, w.runs, w.requests[p]);
    hide RequestOk, RequestsOk;
    forall key | key in after.records ensures RecordOk(c, after.runs, key, after.records[key]) {
      assert RecordOk(c, w.runs, key, w.records[key]);
    }
  }

  lemma HandleKeeps(c: Config, w: World, p: nat, written: Written, after: World)
    requires Inv(c, w) && HandleStep(w, p, written) == Some(after)
    ensures Inv(c, after)
  {
    hide StateOf, AnswerOk, RecordsOk, Separated, RecordOk;
    HandleKeepsRecords(c, w, p, written, after);
    assert RequestOk(c, w.runs, w.requests[p]);
    OthersStay(c, w, p, after.runs);
  }

  /** A record changes only for its own owner, who is the last to have acquired the key. */
  lemma RecordingTouchesOne(c: Config, w: World, p: nat, reachable: bool, after: World)
    requires Inv(c, w) && RecordStep(c, w, p, reachable) == Some(after)
    ensures var o, key := w.requests[p].phase.owner, w.requests[p].key;
      && w.runs[o].key == key && key in w.records && after.records.Keys == w.records.Keys
      && (forall k :: k in w.records && k != key ==> after.records[k] == w.records[k])
      && (w.records[key].owner != o ==> after.records == w.records && after.runs == w.runs)
      && (w.records[key].owner == o ==>
      && after.runs == w.runs[o := w.runs[o].(until := after.records[key].until)]
      && (after.records[key] == w.records[key]
              || exists state, until :: after.records[key] == w.records[key].(state := state, until := until)
                  && Some(state) == StateOfRun(c, w.runs[o])))
  {
    hide StateOf, AnswerOk, Separated;
    assert RequestOk(c, w.runs, w.requests[p]);
    hide RequestOk, RequestsOk;
    var key := w.requests[p].key;
    assert RecordOk(c, w.runs, key, w.records[key]);
    var o := w.requests[p].phase.owner;
    if w.records[key].owner != o { assert w.runs[o := w.runs[o]] == w.runs; }
  }

  /** Moving the end of the last acquisition of a key keeps acquisitions apart. */
  lemma LastMayMove(runs: seq<Run>, o: nat, until: int)
    requires o < |runs| && Separated(runs) && forall j :: o < j < |runs| ==> runs[j].key != runs[o].key
    ensures Separated(runs[o := runs[o].(until := until)])
  {
  }

  /** The record of the last acquisition may be decided as its handler wrote, and may end at another time. */
  lemma LastMayBeDecided(c: Config, w: World, o: nat, key: string, state: RecordState, until: int)
    requires RecordsOk(c, w) && key in w.records && w.records[key].owner == o && o < |w.runs|
    requires state == w.records[key].state || Some(state) == StateOfRun(c, w.runs[o])
    ensures RecordsOk(c, w.(records := w.records[key := w.records[key].(state := state, until := until)],
        runs := w.runs[o := w.runs[o].(until := until)]))
  {
    hide StateOf;
    var after := w.(records := w.records[key := w.records[key].(state := state, until := until)],
        runs := w.runs[o := w.runs[o].(until := until)]);
    assert RecordOk(c, w.runs, key, w.records[key]);
    forall other | other in after.records ensures RecordOk(c, after.runs, other, after.records[other]) {
      assert RecordOk(c, w.runs, other, w.records[other]);
    }
  }

  lemma RecordKeepsRecords(c: Config, w: World, p: nat, reachable: bool, after: World)
    requires Inv(c, w) && RecordStep(c, w, p, reachable) == Some(after)
    ensures RecordsOk(c, after) && Separated(after.runs)
  {
    RecordingTouchesOne(c, w, p, reachable, after);
    NowStays(c, w, p, reachable, after);
    hide StateOf, RequestsOk, RecordStep, Separated, StateOfRun;
    var key, o := w.requests[p].key, w.requests[p].phase.owner;
    if w.records[key].owner == o {
      var now := after.records[key];
      assert RecordOk(c, w.runs, key, w.records[key]);
      LastMayBeDecided(c, w, o, key, now.state, now.until);
      LastMayMove(w.runs, o, now.until);
      assert after.records == w.records[key := w.records[key].(state := now.state, until := now.until)];
      hide RecordOk;
      SameTables(c, w.(records := after.records, runs := after.runs), after);
    }
  }

  lemma SameTables(c: Config, w: World, after: World)
    requires RecordsOk(c, w) && after.records == w.records && after.runs == w.runs && after.now == w.now
    ensures RecordsOk(c, after)
  {
    hide RecordOk;
  }

  lemma NowStays(c: Config, w: World, p: nat, reachable: bool, after: World)
    requires RecordStep(c, w, p, reachable) == Some(after)
    ensures after.now == w.now
  {
  }

  lemma RecordKeeps(c: Config, w: World, p: nat, reachable: bool, after: World)
    requires Inv(c, w) && RecordStep(c, w, p, reachable) == Some(after)
    ensures Inv(c, after)
  {
    hide StateOf, AnswerOk, RecordsOk, Separated, RecordOk, Recorded;
    RecordKeepsRecords(c, w, p, reachable, after);
    assert RequestOk(c, w.runs, w.requests[p]);
    OthersStay(c, w, p, after.runs);
  }

  lemma CrashKeeps(c: Config, w: World, p: nat, after: World)
    requires Inv(c, w) && CrashStep(w, p) == Some(after)
    ensures Inv(c, after)
  {
    hide StateOf, AnswerOk, RecordOk;
    OthersStay(c, w, p, w.runs);
  }

  lemma StepKeeps(c: Config, w: World, a: Action, after: World)
    requires Inv(c, w) && Step(c, w, a) == Some(after)
    ensures Inv(c, after)
  {
    hide Inv, BeginStep, HandleStep, RecordStep, CrashStep;
    match a
    case Arrive(p, key, fingerprint, id) => ArriveKeeps(c, w, p, key, fingerprint, id);
    case Begin(p, reachable) => BeginKeeps(c, w, p, reachable, after);
    case Handle(p, written) => HandleKeeps(c, w, p, written, after);
    case Record(p, reachable) => RecordKeeps(c, w, p, reachable, after);
    case Crash(p) => CrashKeeps(c, w, p, after);
    case Tick(now) => TickKeeps(c, w, now);
  }

  lemma TickKeeps(c: Config, w: World, now: int)
    requires Inv(c, w) && w.now <= now
    ensures Inv(c, w.(now := now))
  {
    hide StateOf, AnswerOk, RecordOk, RequestOk;
  }

  lemma BeginKeeps(c: Config, w: World, p: nat, reachable: bool, after: World)
    requires Inv(c, w) && BeginStep(c, w, p, reachable) == Some(after)
    ensures Inv(c, after)
  {
    hide Inv, Begun;
    if DecisionAt(w, p, reachable).Acquired? {
      AcquisitionKeeps(c, w, p, after);
    } else {
      RefusedBeginKeeps(c, w, p, reachable, after);
    }
  }

  lemma {:induction false} RunKeeps(c: Config, w: World, actions: seq<Action>, after: World)
    requires Inv(c, w) && RunFrom(c, w, actions) == Some(after)
    ensures Inv(c, after)
    decreases |actions|
  {
    hide Inv, Step;
    if actions != [] {
      var next := Step(c, w, actions[0]).value;
      StepKeeps(c, w, actions[0], next);
      RunKeeps(c, next, actions[1..], after);
    }
  }

  ghost predicate Reachable(c: Config, w: World)
  {
    exists actions :: RunFrom(c, Start, actions) == Some(w)
  }

  lemma ReachableIsSound(c: Config, w: World)
    requires Reachable(c, w)
    ensures Inv(c, w)
  {
    var actions :| RunFrom(c, Start, actions) == Some(w);
    RunKeeps(c, Start, actions, w);
  }

  // ---- what every run keeps ----

  /**
   * Requests reach the handler of a key one after another: never a second one before the record of the first has
   * ended.
   */
  lemma OneAcquisitionPerRecord(c: Config, w: World, i: nat, j: nat)
    requires Reachable(c, w) && i < j < |w.runs| && w.runs[i].key == w.runs[j].key
    ensures w.runs[i].until <= w.runs[j].at
  {
    ReachableIsSound(c, w);
  }

  /** One request at most acts for an acquisition, and its handler runs at most once. */
  lemma OneHandlerPerAcquisition(c: Config, w: World, p: nat, written: Written, after: World)
    requires Reachable(c, w) && Step(c, w, Handle(p, written)) == Some(after)
    ensures var o := w.requests[p].phase.owner;
      && w.runs[o].written.None? && after.runs[o].written == Some(written)
      && (forall q :: q in after.requests && q != p ==> OwnerOf(after.requests[q].phase) != Some(o))
  {
    hide StateOf, AnswerOk, RecordsOk, Separated;
    ReachableIsSound(c, w);
    assert RequestOk(c, w.runs, w.requests[p]);
  }

  /**
   * A replayed answer is what the handler of an earlier request with the same key and the same fingerprint
   * wrote, with only the request id replaced, when that was a plain 200 or an error without a body.
   */
  lemma ReplaysAreOriginals(c: Config, w: World, p: nat)
    requires c.codec.Faithful() && Reachable(c, w) && p in w.requests && w.requests[p].phase.Served?
        && w.requests[p].phase.output.Answered?
    requires var d := w.requests[p].phase.output.decision; d.Replay? || d.ReplayFailure?
    ensures exists o: nat ::
      OwnsRun(w.requests[p], w.runs, o) && w.runs[o].written.Some?
      && Replays(c, w.requests[p], w.runs[o].written.value)
  {
    hide StateOf;
    ReachableIsSound(c, w);
    var r := w.requests[p];
    var d := r.phase.output.decision;
    assert RequestOk(c, w.runs, r);
    var o: nat :| Grounds(c, w.runs, r, d, o);
    var original := w.runs[o].written.value;
    DecodesWhenRecorded(c.codec, original.status, original.text);
    ReplayIsExactly(c.codec, original.status, original.text, r.id);
    assert Replays(c, r, original);
  }

  /**
   * At the instant it is given, a replay is the recorded result of the owner of the key's living record, the last
   * to acquire it.
   */
  lemma ReplaysComeFromTheLivingRecord(c: Config, w: World, p: nat, reachable: bool, after: World)
    requires Reachable(c, w) && Step(c, w, Begin(p, reachable)) == Some(after)
    requires DecisionAt(w, p, reachable).Replay? || DecisionAt(w, p, reachable).ReplayFailure?
    ensures var r, d := w.requests[p], DecisionAt(w, p, reachable);
      && after.requests[p].phase == Served(Answered(d)) && Alive(w.records, r.key, w.now)
      && Grounds(c, w.runs, r, d, w.records[r.key].owner)
      && forall j :: w.records[r.key].owner < j < |w.runs| ==> w.runs[j].key != r.key
  {
    hide StateOf, RequestsOk, Separated;
    ReachableIsSound(c, w);
    assert RecordOk(c, w.runs, w.requests[p].key, w.records[w.requests[p].key]);
  }

  ghost predicate Replays(c: Config, r: Request, original: Written)
    requires r.phase.Served? && r.phase.output.Answered?
  {
    var first := c.codec.decode(original.text);
    && first.Some?
    && (Answer(c.codec, r.phase.output.decision, r.id) == Some(Delivery(original.status,
        first.value.(requestId := r.id)))
        <==> original.status == 200 || (original.status >= 400 && first.value.body == Null))
  }

  lemma DecodesWhenRecorded(codec: Codec, status: int, text: string)
    ensures StateOf(codec, status, text).Some? <==> codec.decode(text).Some?
  {
  }

  // ---- which steps are possible ----

  /** A waiting request may always begin, an acquired one handle and record, and any unanswered one crash. */
  lemma StepsArePossible(
      c: Config, w: World, p: nat, key: string, fingerprint: string, id: string, up: bool, text: Written, now: int)
    requires Reachable(c, w)
    ensures Step(c, w, Arrive(p, key, fingerprint, id)).Some? <==> p !in w.requests
    ensures Step(c, w, Begin(p, up)).Some? <==> p in w.requests && w.requests[p].phase == Waiting
    ensures Step(c, w, Handle(p, text)).Some? <==> p in w.requests && w.requests[p].phase.Handling?
    ensures Step(c, w, Action.Record(p, up)).Some? <==> p in w.requests && w.requests[p].phase.Recording?
    ensures Step(c, w, Crash(p)).Some? <==> p in w.requests && !w.requests[p].phase.Served?
    ensures Step(c, w, Tick(now)).Some? <==> w.now <= now
  {
    hide StateOf, AnswerOk, RecordsOk, Separated, Begun, Decide, Recorded;
    ReachableIsSound(c, w);
    if p in w.requests { assert RequestOk(c, w.runs, w.requests[p]); }
  }

  /** A request that begins is handled exactly when its key has no living record and the manager answers. */
  lemma BeginningOnRecord(c: Config, w: World, p: nat, up: bool)
    requires p in w.requests && w.requests[p].phase == Waiting
    ensures var r, after := w.requests[p], Step(c, w, Begin(p, up)).value;
      && after.now == w.now
      && (up && (r.key !in w.records || w.records[r.key].until <= w.now) ==>
            && after.requests[p].phase == Handling(|w.runs|) && |after.runs| == |w.runs| + 1
            && r.key in after.records && after.records[r.key].until == w.now + c.lifetimes.processing)
      && (!(up && (r.key !in w.records || w.records[r.key].until <= w.now)) ==>
            after.requests[p].phase.Served? && after.runs == w.runs && after.records == w.records)
  {
  }
}
