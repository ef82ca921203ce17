/** The idempotency middleware over the contract of its record manager. */
module Idempotency {
  import opened Records

  datatype Json = Null | Value(text: string)

  datatype Response = Response(code: int, message: string, body: Json, requestId: string)

  datatype FailureRecord = FailureRecord(code: int, message: string, status: int)

  datatype RecordState = Processing | Completed(stored: string) | Failed(failure: FailureRecord)

  datatype Record = Record(owner: nat, fingerprint: string, state: RecordState, until: int)

  datatype Decision =
    | Acquired(owner: nat) | InProgress | Mismatch | ManagerDown
    | Replay(stored: string) | ReplayFailure(failure: FailureRecord)

  datatype Lifetimes = Lifetimes(processing: nat, result: nat, failure: nat)

  // ---- the manager's contract ----

  predicate Alive(records: map<string, Record>, key: string, now: int)
  {
    key in records && now < records[key].until
  }

  /** What Begin answers: a key without a living record is taken by the caller. */
  function Decide(records: map<string, Record>, now: int, key: string, fingerprint: string, owner: nat): Decision
  {
    if !Alive(records, key, now) then Acquired(owner)
    else if records[key].fingerprint != fingerprint then Mismatch
    else match records[key].state
      case Processing => InProgress
      case Completed(stored) => Replay(stored)
      case Failed(failure) => ReplayFailure(failure)
  }

  function Begun(records: map<string, Record>, now: int, key: string, fingerprint: string, owner: nat,
      lifetime: nat): map<string, Record>
  {
    if Alive(records, key, now) then records else records[key := Record(owner, fingerprint, Processing, now + lifetime)]
  }

  /** Complete and Fail: only the owner of a living, undecided record decides it. */
  predicate MaySettle(records: map<string, Record>, now: int, key: string, owner: nat)
  {
    Alive(records, key, now) && records[key].owner == owner && records[key].state.Processing?
  }

  function Settled(records: map<string, Record>, now: int, key: string, owner: nat, state: RecordState,
      lifetime: nat): map<string, Record>
  {
    if MaySettle(records, now, key, owner) then records[key := records[key].(state := state, until := now + lifetime)]
        else records
  }

  class Manager {
    const lifetimes: Lifetimes
    var now: int
    var owners: nat
    var records: map<string, Record>

    constructor (lifetimes: Lifetimes)
      ensures this.lifetimes == lifetimes && records == map[]
    {
      this.lifetimes := lifetimes;
      records := map[];
    }

    method Begin(key: string, fingerprint: string, reachable: bool) returns (decision: Decision)
      modifies this`records, this`owners
      ensures !reachable ==> decision == ManagerDown && records == old(records) && owners == old(owners)
      ensures reachable ==> decision == Decide(old(records), now, key, fingerprint, old(owners))
                            && records == Begun(old(records), now, key, fingerprint, old(owners),
                                lifetimes.processing) && owners == old(owners) + 1
    {
      if !reachable { return ManagerDown; }
      decision := Decide(records, now, key, fingerprint, owners);
      records := Begun(records, now, key, fingerprint, owners, lifetimes.processing);
      owners := owners + 1;
    }

    method Settle(key: string, owner: nat, state: RecordState, reachable: bool) returns (ok: bool)
      modifies this`records
      ensures ok == (reachable && MaySettle(old(records), now, key, owner))
      ensures records == if reachable then Settled(old(records), now, key, owner, state, LifetimeOf(lifetimes, state))
          else old(records)
    {
      ok := reachable && MaySettle(records, now, key, owner);
      if ok {
        records := Settled(records, now, key, owner, state, LifetimeOf(lifetimes, state));
      }
    }
  }

  function LifetimeOf(lifetimes: Lifetimes, state: RecordState): nat
  {
    match state
    case Processing => lifetimes.processing
    case Completed(_) => lifetimes.result
    case Failed(_) => lifetimes.failure
  }

  // ---- the middleware ----

  datatype Codec = Codec(decode: string -> Option<Response>, encode: Response -> string)
  {
    /** Encoding a decoded response, under another request id, loses nothing. */
    ghost predicate Faithful()
    {
      forall text, id :: decode(text).Some? ==> Same(decode(text).value.(requestId := id))
    }

    ghost predicate Same(r: Response) { decode(encode(r)) == Some(r) }
  }

  /** What the client sees. */
  class Client {
    var status: int
    var body: string

    constructor ()
      ensures status == 200 && body == ""
    {
      status, body := 200, "";
    }
  }

  /** The writer a handler is given: it keeps a copy of what it passes on. */
  class ResponseCapture {
    const client: Client
    var body: string

    constructor (client: Client)
      ensures this.client == client && body == ""
    {
      this.client := client;
      body := "";
    }

    method Write(chunk: string)
      modifies this, client
      ensures body == old(body) + chunk && client.body == old(client.body) + chunk
          && client.status == old(client.status)
    {
      body := body + chunk;
      client.body := client.body + chunk;
    }
  }

  datatype Handler = Handler(status: int, chunks: seq<string>)
  {
    function Text(): string { Joined(chunks) }
  }

  function Joined(chunks: seq<string>): string
  {
    if chunks == [] then "" else Joined(chunks[..|chunks| - 1]) + chunks[|chunks| - 1]
  }

  method RunHandler(handler: Handler, capture: ResponseCapture)
    requires capture.body == "" && capture.client.body == ""
    modifies capture, capture.client
    ensures capture.body == handler.Text() == capture.client.body && capture.client.status == handler.status
  {
    capture.client.status := handler.status;
    for i := 0 to |handler.chunks|
      invariant capture.body == Joined(handler.chunks[..i]) == capture.client.body
      invariant capture.client.status == handler.status
    {
      assert handler.chunks[..i + 1][..i] == handler.chunks[..i];
      capture.Write(handler.chunks[i]);
    }
    assert handler.chunks[..|handler.chunks|] == handler.chunks;
  }

  /** The state a handled request is recorded with; none when its text is no response. A result is stored as bytes. */
  function StateOf(codec: Codec, status: int, text: string): Option<RecordState>
  {
    match codec.decode(text)
    case None => None
    case Some(r) => Some(if status >= 400 then RecordState.Failed(FailureRecord(r.code, r.message, status))
        else Completed(codec.encode(r.(requestId := ""))))
  }

  datatype Delivery = Delivery(status: int, response: Response)

  /** What a recorded result is answered with: stored bytes are decoded again. */
  function Replayed(codec: Codec, state: RecordState, id: string): Option<Delivery>
  {
    match state
    case Processing => None
    case Completed(stored) =>
      var r := codec.decode(stored);
      Some(if r.Some? then Delivery(200, r.value.(requestId := id)) else Refusal(UNREADABLE, id))
    case Failed(f) => Some(Delivery(f.status, Response(f.code, f.message, Null, id)))
  }

  function Refusal(d: Delivery, id: string): Delivery { d.(response := d.response.(requestId := id)) }

  const IN_PROGRESS := Delivery(409, Response(30010, "request is already processing", Null, ""))
  const MISMATCH := Delivery(409, Response(30009, "idempotency key belongs to a different request", Null, ""))
  const UNREADABLE := Delivery(503, Response(50003, "idempotency response is unavailable", Null, ""))
  const DOWN := Delivery(503, Response(50003, "idempotency is unavailable", Null, ""))

  /** The answer to a request that does not reach the handler. */
  function Answer(codec: Codec, decision: Decision, id: string): Option<Delivery>
  {
    match decision
    case Acquired(_) => None
    case InProgress => Some(Refusal(IN_PROGRESS, id))
    case Mismatch => Some(Refusal(MISMATCH, id))
    case ManagerDown => Some(Refusal(DOWN, id))
    case Replay(stored) => Replayed(codec, Completed(stored), id)
    case ReplayFailure(f) => Replayed(codec, RecordState.Failed(f), id)
  }

  /** What the manager holds after the handler of an acquired key has run. */
  function Recorded(records: map<string, Record>, now: int, key: string, owner: nat, state: Option<RecordState>,
      lifetimes: Lifetimes): map<string, Record>
  {
    if state.None? then records else Settled(records, now, key, owner, state.value, LifetimeOf(lifetimes, state.value))
  }

  method Deliver(client: Client, codec: Codec, d: Delivery)
    modifies client
    ensures client.status == d.status && client.body == codec.encode(d.response)
  {
    client.status := d.status;
    client.body := codec.encode(d.response);
  }

  /** One guarded request, from Begin to the record of its result. */
  method Serve(manager: Manager, client: Client, codec: Codec, key: string, fingerprint: string, id: string,
      handler: Handler, begins: bool, persists: bool)
    returns (ran: bool)
    requires client.body == ""
    modifies manager`records, manager`owners, client
    ensures var decision := if begins then Decide(old(manager.records), manager.now, key, fingerprint,
        old(manager.owners)) else ManagerDown;
      && ran == decision.Acquired?
      && (ran ==>
          var begun := Begun(old(manager.records), manager.now, key, fingerprint, old(manager.owners),
              manager.lifetimes.processing);
          var state := StateOf(codec, handler.status, handler.Text());
          && client.status == handler.status && client.body == handler.Text()
          && manager.records == if persists then Recorded(begun, manager.now, key, old(manager.owners), state,
              manager.lifetimes) else begun)
      && (!ran ==>
      && manager.records == old(manager.records)
      && client.status == Answer(codec, decision, id).value.status
              && client.body == codec.encode(Answer(codec, decision, id).value.response))
  {
    hide Alive, Settled, MaySettle;
    var decision := manager.Begin(key, fingerprint, begins);
    ran := decision.Acquired?;
    if !ran {
      BegunKeeps(manager.records, manager.now, key, fingerprint, manager.owners, manager.lifetimes.processing);
      Deliver(client, codec, Answer(codec, decision, id).value);
      return;
    }
    var capture := new ResponseCapture(client);
    RunHandler(handler, capture);
    var state := StateOf(codec, client.status, capture.body);
    if state.Some? {
      var ok := manager.Settle(key, decision.owner, state.value, persists);
    }
  }

  lemma BegunKeeps(records: map<string, Record>, now: int, key: string, fingerprint: string, owner: nat, lifetime: nat)
    ensures !Decide(records, now, key, fingerprint, owner).Acquired?
        ==> Begun(records, now, key, fingerprint, owner, lifetime) == records
  {
  }

  // ---- replays ----

  /** A later request for the same key and the same fingerprint, while the record lives. */
  lemma ReplayFollowsTheRecord(
      codec: Codec, records: map<string, Record>, now: int, key: string, fingerprint: string, owner: nat,
          state: RecordState,
      lifetimes: Lifetimes, later: int, next: nat, id: string)
    requires MaySettle(records, now, key, owner) && records[key].fingerprint == fingerprint && !state.Processing?
    requires now <= later < now + LifetimeOf(lifetimes, state)
    ensures var settled := Recorded(records, now, key, owner, Some(state), lifetimes);
      && Answer(codec, Decide(settled, later, key, fingerprint, next), id) == Replayed(codec, state, id)
      && (forall other :: other != fingerprint ==> Decide(settled, later, key, other, next) == Mismatch)
      && Begun(settled, later, key, fingerprint, next, lifetimes.processing) == settled
  {
    hide Replayed;
  }

  /** Storing a decoded response and reading it again loses nothing but its request id. */
  lemma StoredResponseIsRead(codec: Codec, text: string)
    requires codec.Faithful() && codec.decode(text).Some?
    ensures codec.decode(codec.encode(codec.decode(text).value.(requestId := "")))
        == Some(codec.decode(text).value.(requestId := ""))
  {
    assert codec.Same(codec.decode(text).value.(requestId := ""));
  }

  /**
   * The replay is what the first client got, with only the request id replaced, iff the first answer was
   * a plain 200 or an error without a body.
   */
  lemma ReplayIsExactly(codec: Codec, status: int, text: string, id: string)
    requires codec.Faithful() && codec.decode(text).Some?
    ensures var first := codec.decode(text).value;
      Replayed(codec, StateOf(codec, status, text).value, id) == Some(Delivery(status, first.(requestId := id)))
      <==> status == 200 || (status >= 400 && first.body == Null)
  {
    StoredResponseIsRead(codec, text);
  }

  /**
   * The bytes of such a replay: the response was encoded into the record without its request id, decoded from
   * there and encoded for the second client, who decodes what the first one decoded.
   */
  lemma ReplayDecodes(codec: Codec, status: int, text: string, id: string)
    requires codec.Faithful() && codec.decode(text).Some?
    requires status == 200 || (status >= 400 && codec.decode(text).value.body == Null)
    ensures var d := Replayed(codec, StateOf(codec, status, text).value, id).value;
      d.status == status && codec.decode(codec.encode(d.response)) == Some(codec.decode(text).value.(requestId := id))
  {
    ReplayIsExactly(codec, status, text, id);
    assert codec.Same(codec.decode(text).value.(requestId := id));
  }

  // ---- the contract of the manager and the answers, case by case ----

  lemma DecideOnRecord(records: map<string, Record>, now: int, key: string, fingerprint: string, owner: nat)
    ensures var d := Decide(records, now, key, fingerprint, owner);
      && (key !in records || records[key].until <= now ==> d == Acquired(owner))
      && (key in records && now < records[key].until ==>
            var r := records[key];
            && (r.fingerprint != fingerprint ==> d == Mismatch)
            && (r.fingerprint == fingerprint ==>
                  && (r.state == Processing ==> d == InProgress)
                  && (r.state.Completed? ==> d == Replay(r.state.stored))
                  && (r.state.Failed? ==> d == ReplayFailure(r.state.failure))))
  {
  }

  lemma BegunOnRecord(
      records: map<string, Record>, now: int, key: string, fingerprint: string, owner: nat, lifetime: nat)
    ensures var after := Begun(records, now, key, fingerprint, owner, lifetime);
      && (key in records && now < records[key].until ==> after == records)
      && (key !in records || records[key].until <= now ==>
            after == records[key := Record(owner, fingerprint, Processing, now + lifetime)])
  {
  }

  lemma SettledOnRecord(
      records: map<string, Record>, now: int, key: string, owner: nat, state: RecordState, lifetime: nat)
    ensures var after := Settled(records, now, key, owner, state, lifetime);
      var mine := key in records && now < records[key].until && records[key].owner == owner
                  && records[key].state == Processing;
      && (mine ==> after == records[key := Record(owner, records[key].fingerprint, state, now + lifetime)])
      && (!mine ==> after == records)
  {
  }

  lemma RecordedOnText(codec: Codec, status: int, text: string, lifetimes: Lifetimes)
    ensures codec.decode(text) == None ==> StateOf(codec, status, text) == None
    ensures codec.decode(text) != None && status >= 400 ==>
      var r := codec.decode(text).value;
      StateOf(codec, status, text) == Some(RecordState.Failed(FailureRecord(r.code, r.message, status)))
    ensures codec.decode(text) != None && status < 400 ==>
      StateOf(codec, status, text) == Some(Completed(codec.encode(codec.decode(text).value.(requestId := ""))))
    ensures LifetimeOf(lifetimes, Processing) == lifetimes.processing
    ensures LifetimeOf(lifetimes, Completed(text)) == lifetimes.result
    ensures forall f :: LifetimeOf(lifetimes, RecordState.Failed(f)) == lifetimes.failure
  {
  }

  /** Every answer without the handler, with its status and its code. */
  lemma AnswersOnDecisions(codec: Codec, stored: string, f: FailureRecord, owner: nat, id: string)
    ensures Answer(codec, Acquired(owner), id) == None
    ensures Answer(codec, InProgress, id)
         == Some(Delivery(409, Response(30010, "request is already processing", Null, id)))
    ensures Answer(codec, Mismatch, id)
         == Some(Delivery(409, Response(30009, "idempotency key belongs to a different request", Null, id)))
    ensures Answer(codec, ManagerDown, id)
         == Some(Delivery(503, Response(50003, "idempotency is unavailable", Null, id)))
    ensures Answer(codec, ReplayFailure(f), id) == Some(Delivery(f.status, Response(f.code, f.message, Null, id)))
    ensures codec.decode(stored) != None ==>
      Answer(codec, Replay(stored), id) == Some(Delivery(200, codec.decode(stored).value.(requestId := id)))
    ensures codec.decode(stored) == None ==>
      Answer(codec, Replay(stored), id)
      == Some(Delivery(503, Response(50003, "idempotency response is unavailable", Null, id)))
  {
  }
}
