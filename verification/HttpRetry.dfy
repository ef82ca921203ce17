/** The outbound HTTP client: the attempt loop, the bodies it closes, and the circuit breaker around it. */
module HttpRetry {
  import opened Records

  datatype Policy = Policy(maxAttempts: int, initialBackoff: int, maxBackoff: int)
  {
    /** What the configuration is validated for. */
    predicate Valid() { 1 <= maxAttempts <= 5 && initialBackoff > 0 && maxBackoff >= initialBackoff }
  }

  datatype Request = Request(verb: string, target: string, key: Option<string>, body: seq<bv8>)

  datatype Reply = Answered(status: int) | NoResponse | Broken(canceled: bool)

  datatype Failure =
    | BadPath | BadRequest | Exhausted | BreakerOpen
    | CallFailed(canceled: bool) | Interrupted(canceled: bool)

  /** A response is known by the number of the request it answers. */
  datatype Answer = Answer(id: nat, status: int)

  type Outcome = Result<Option<Answer>, Failure>

  predicate RetryableStatus(status: int) { status == 429 || status == 502 || status == 503 || status == 504 }

  /** The verbs RFC 9110 calls idempotent (section 9.2.2), the safe ones included. */
  predicate IdempotentVerb(verb: string)
  {
    verb == "GET" || verb == "HEAD" || verb == "OPTIONS" || verb == "TRACE" || verb == "PUT" || verb == "DELETE"
  }

  predicate RetryableRequest(request: Request)
  {
    || request.verb == "GET" || request.verb == "HEAD" || request.verb == "OPTIONS" || request.verb == "PUT"
    || request.verb == "DELETE"
    || request.key.Some?
  }

  predicate AsksForRetry(reply: Reply) { reply.Broken? || (reply.Answered? && RetryableStatus(reply.status)) }

  // ---- what surrounds the client ----

  /** The far side: what it answers to each request, and the response bodies still open. */
  class Upstream {
    const replies: nat -> Reply
    var sent: seq<Request>
    var bodies: set<nat>

    constructor (replies: nat -> Reply)
      ensures this.replies == replies && sent == [] && bodies == {}
    {
      this.replies := replies;
      sent, bodies := [], {};
    }

    method Send(request: Request) returns (id: nat, reply: Reply)
      modifies this
      ensures sent == old(sent) + [request] && id == |old(sent)| && reply == replies(id)
      ensures bodies == if reply.Answered? then old(bodies) + {id} else old(bodies)
    {
      id := |sent|;
      reply := replies(id);
      sent := sent + [request];
      if reply.Answered? {
        bodies := bodies + {id};
      }
    }

    method Close(id: nat)
      modifies this`bodies
      ensures bodies == old(bodies) - {id}
    {
      bodies := bodies - {id};
    }
  }

  datatype Report = Success | FailureReport | Excluded

  /** The contract of the breaker: it admits a call or refuses it, and is told how an admitted one went. */
  class Breaker {
    const admits: bool
    var reports: seq<Report>

    constructor (admits: bool)
      ensures this.admits == admits && reports == []
    {
      this.admits := admits;
      reports := [];
    }

    method Tell(report: Report)
      modifies this
      ensures reports == old(reports) + [report]
    {
      reports := reports + [report];
    }
  }

  /** Everything outside the client that decides a call. */
  datatype Setting = Setting(pathOk: bool, requestOk: bool, interrupts: nat -> Option<bool>)

  // ---- what a call amounts to ----

  /** The number of attempts a request may take. */
  function Allowance(policy: Policy, request: Request): int
  {
    if RetryableRequest(request) then policy.maxAttempts else 1
  }

  /** The outcome after the attempts from `attempt` on, and how many requests those sent. */
  function Attempts(replies: nat -> Reply, setting: Setting, first: nat, allowance: int,
      attempt: nat): (r: (Outcome, nat))
    requires 1 <= attempt
    decreases allowance - attempt
  {
    if attempt > allowance then (Err(Exhausted), 0)
    else if !setting.requestOk then (Err(BadRequest), 0)
    else
      var reply := replies(first + attempt - 1);
      if reply.NoResponse? then (Ok(None), 1)
      else if reply.Answered? && (!RetryableStatus(reply.status) || attempt == allowance)
          then (Ok(Some(Answer(first + attempt - 1, reply.status))), 1)
      else if reply.Broken? && attempt == allowance then (Err(CallFailed(reply.canceled)), 1)
      else if setting.interrupts(attempt).Some? then (Err(Interrupted(setting.interrupts(attempt).value)), 1)
      else
        var later := Attempts(replies, setting, first, allowance, attempt + 1);
        (later.0, 1 + later.1)
  }

  function Call(replies: nat -> Reply, setting: Setting, first: nat, policy: Policy, request: Request): (Outcome, nat)
  {
    if !setting.pathOk then (Err(BadPath), 0) else Attempts(replies, setting, first, Allowance(policy, request), 1)
  }

  function Repeated(request: Request, n: nat): (r: seq<Request>)
    ensures |r| == n && forall i :: 0 <= i < n ==> r[i] == request
  {
    seq(n, i requires 0 <= i < n => request)
  }

  function OpenedBy(outcome: Outcome): set<nat>
  {
    if outcome.Ok? && outcome.value.Some? then {outcome.value.value.id} else {}
  }

  // ---- the client ----

  method DoWithRetry(up: Upstream, policy: Policy, setting: Setting, request: Request) returns (outcome: Outcome)
    requires forall id :: id in up.bodies ==> id < |up.sent|
    modifies up
    ensures var (result, n) := Call(up.replies, setting, |old(up.sent)|, policy, request);
      && outcome == result && up.sent == old(up.sent) + Repeated(request, n)
      && up.bodies == old(up.bodies) + OpenedBy(outcome)
    ensures outcome.Ok? && outcome.value != None ==> up.bodies == old(up.bodies) + {outcome.value.value.id}
    ensures outcome.Err? || outcome.value == None ==> up.bodies == old(up.bodies)
  {
    hide RetryableRequest, RetryableStatus, Attempts, Repeated;
    RepeatedOnceMore(request, 0);
    if !setting.pathOk {
      return Err(BadPath);
    }
    var maxAttempts := 1;
    if RetryableRequest(request) {
      maxAttempts := policy.maxAttempts;
    }
    ghost var first := |up.sent|;
    var attempt := 1;
    while attempt <= maxAttempts
      invariant 1 <= attempt
      invariant up.sent == old(up.sent) + Repeated(request, attempt - 1)
      invariant up.bodies == old(up.bodies)
      invariant Attempts(up.replies, setting, first, maxAttempts, 1)
          == After(attempt - 1, Attempts(up.replies, setting, first, maxAttempts, attempt))
      decreases maxAttempts - attempt
    {
      AttemptEnds(up.replies, setting, first, maxAttempts, attempt);
      RepeatedOnceMore(request, attempt - 1);
      if !setting.requestOk {
        return Err(BadRequest);
      }
      var id, reply := up.Send(request);
      if reply.NoResponse? {
        return Ok(None);
      }
      if reply.Answered? && (!RetryableStatus(reply.status) || attempt == maxAttempts) {
        return Ok(Some(Answer(id, reply.status)));
      }
      if reply.Broken? && attempt == maxAttempts {
        return Err(CallFailed(reply.canceled));
      }
      if reply.Answered? {
        up.Close(id);
      }
      if attempt < maxAttempts {
        var interrupt := setting.interrupts(attempt);
        if interrupt.Some? {
          return Err(Interrupted(interrupt.value));
        }
      }
      attempt := attempt + 1;
    }
    NoAttemptIsLeft(up.replies, setting, first, maxAttempts, attempt);
    outcome := Err(Exhausted);
  }

  function After(k: nat, r: (Outcome, nat)): (Outcome, nat) { (r.0, k + r.1) }

  lemma AttemptEnds(replies: nat -> Reply, setting: Setting, first: nat, allowance: int, attempt: nat)
    requires 1 <= attempt <= allowance
    ensures var r, reply := Attempts(replies, setting, first, allowance, attempt), replies(first + attempt - 1);
      && (!setting.requestOk ==> r == (Err(BadRequest), 0))
      && (setting.requestOk && reply.NoResponse? ==> r == (Ok(None), 1))
      && (setting.requestOk && reply.Answered? && (!RetryableStatus(reply.status) || attempt == allowance)
          ==> r == (Ok(Some(Answer(first + attempt - 1, reply.status))), 1))
      && (setting.requestOk && reply.Broken? && attempt == allowance ==> r == (Err(CallFailed(reply.canceled)), 1))
      && (setting.requestOk && AsksForRetry(reply) && attempt < allowance
          ==> r == if setting.interrupts(attempt).Some? then (Err(Interrupted(setting.interrupts(attempt).value)), 1)
                   else After(1, Attempts(replies, setting, first, allowance, attempt + 1)))
  {
    hide RetryableStatus;
  }

  lemma NoAttemptIsLeft(replies: nat -> Reply, setting: Setting, first: nat, allowance: int, attempt: nat)
    requires 1 <= attempt && allowance < attempt
    ensures Attempts(replies, setting, first, allowance, attempt) == (Err(Exhausted), 0)
  {
  }

  lemma RepeatedOnceMore(request: Request, n: nat)
    ensures Repeated(request, 0) == [] && Repeated(request, n + 1) == Repeated(request, n) + [request]
  {
  }

  /** What the breaker is told: a retryable status is a failure although the caller gets the response. */
  function ReportOf(outcome: Outcome): Report
  {
    match outcome
    case Ok(answer) => if answer.Some? && RetryableStatus(answer.value.status) then FailureReport else Success
    case Err(failure) => if (failure.CallFailed? || failure.Interrupted?)
        && failure.canceled then Excluded else FailureReport
  }

  /** A context that ended by cancellation is no failure of the upstream. */
  lemma ReportOnValues(outcome: Outcome)
    ensures outcome.Ok? ==>
      ReportOf(outcome)
      == if outcome.value != None && outcome.value.value.status in {429, 502, 503, 504} then FailureReport else Success
    ensures outcome.Err? ==>
      ReportOf(outcome)
      == if outcome.error == CallFailed(true) || outcome.error == Interrupted(true) then Excluded else FailureReport
  {
  }

  /** A breaker that admits the call changes nothing the caller sees; one that refuses sends nothing. */
  method Execute(up: Upstream, breaker: Breaker?, policy: Policy, setting: Setting, request: Request)
      returns (outcome: Outcome)
    requires forall id :: id in up.bodies ==> id < |up.sent|
    modifies up, breaker
    ensures breaker == null || breaker.admits ==>
      var (result, n) := Call(up.replies, setting, |old(up.sent)|, policy, request);
      && outcome == result && up.sent == old(up.sent) + Repeated(request, n)
      && up.bodies == old(up.bodies) + OpenedBy(outcome)
    ensures breaker != null && !breaker.admits ==>
      outcome == Err(BreakerOpen) && up.sent == old(up.sent) && up.bodies == old(up.bodies)
          && breaker.reports == old(breaker.reports)
    ensures breaker != null && breaker.admits ==> breaker.reports == old(breaker.reports) + [ReportOf(outcome)]
  {
    hide RetryableStatus, Call;
    if breaker == null {
      outcome := DoWithRetry(up, policy, setting, request);
      return;
    }
    if !breaker.admits {
      return Err(BreakerOpen);
    }
    outcome := DoWithRetry(up, policy, setting, request);
    if outcome.Ok? && outcome.value.Some? && RetryableStatus(outcome.value.value.status) {
      // The call reports an error that carries the response; the response is taken out again.
      breaker.Tell(FailureReport);
    } else if outcome.Ok? {
      breaker.Tell(Success);
    } else if (outcome.error.CallFailed? || outcome.error.Interrupted?) && outcome.error.canceled {
      breaker.Tell(Excluded);
    } else {
      breaker.Tell(FailureReport);
    }
  }

  // ---- what the loop promises ----

  /** Attempt `k` asks for another one, and the wait after it is not cut short. */
  predicate Repeats(replies: nat -> Reply, setting: Setting, first: nat, k: nat)
    requires k >= 1
  {
    AsksForRetry(replies(first + k - 1)) && setting.interrupts(k).None?
  }

  ghost predicate EndsRightly(replies: nat -> Reply, setting: Setting, first: nat, allowance: int, attempt: nat,
      outcome: Outcome, sent: nat)
    requires attempt >= 1
  {
    var last := attempt + sent - 1;
    && 1 <= sent && last <= allowance
    && (forall k :: attempt <= k < last ==> Repeats(replies, setting, first, k))
    && match outcome
       case Ok(None) => replies(first + last - 1).NoResponse?
       case Ok(Some(answer)) => answer.id == first + last - 1 && replies(answer.id) == Answered(answer.status)
           && (RetryableStatus(answer.status) ==> last == allowance)
       case Err(CallFailed(canceled)) => replies(first + last - 1) == Broken(canceled) && last == allowance
       case Err(Interrupted(canceled)) => AsksForRetry(replies(first + last - 1)) && last < allowance
           && setting.interrupts(last) == Some(canceled)
       case Err(_) => false
  }

  lemma {:induction false} AttemptsEndRightly(replies: nat -> Reply, setting: Setting, first: nat, allowance: int,
      attempt: nat)
    requires 1 <= attempt <= allowance && setting.requestOk
    ensures var (outcome, sent) := Attempts(replies, setting, first, allowance, attempt);
      EndsRightly(replies, setting, first, allowance, attempt, outcome, sent)
    decreases allowance - attempt
  {
    var reply := replies(first + attempt - 1);
    if AsksForRetry(reply) && attempt < allowance && setting.interrupts(attempt).None? {
      AttemptsEndRightly(replies, setting, first, allowance, attempt + 1);
    }
  }

  /**
   * Under a valid policy the loop never runs out of attempts without an answer. It stops at the first reply
   * that does not ask for another attempt, at the last attempt, or when its context ends while it waits.
   */
  lemma CallsEndRightly(replies: nat -> Reply, setting: Setting, first: nat, policy: Policy, request: Request)
    requires policy.Valid()
    ensures var (outcome, sent) := Call(replies, setting, first, policy, request);
      && outcome != Err(Exhausted)
      && (setting.pathOk && setting.requestOk ==> EndsRightly(replies, setting, first, Allowance(policy, request), 1,
          outcome, sent))
      && (!(setting.pathOk && setting.requestOk) ==>
        sent == 0
        && outcome == Err(if setting.pathOk then BadRequest else BadPath))
  {
    if setting.pathOk && setting.requestOk {
      AttemptsEndRightly(replies, setting, first, Allowance(policy, request), 1);
    }
  }

  /** The fall-through error is exactly a retryable request under a policy without attempts. */
  lemma ExhaustedIsAnInvalidPolicy(replies: nat -> Reply, setting: Setting, first: nat, policy: Policy,
      request: Request)
    ensures Call(replies, setting, first, policy, request).0 == Err(Exhausted)
            <==> setting.pathOk && RetryableRequest(request) && policy.maxAttempts < 1
  {
    if setting.pathOk && setting.requestOk && Allowance(policy, request) >= 1 {
      AttemptsEndRightly(replies, setting, first, Allowance(policy, request), 1);
    }
  }

  /** Only an idempotent verb or a request with an idempotency key is ever sent twice. */
  lemma OnlySafeRequestsAreRepeated(replies: nat -> Reply, setting: Setting, first: nat, policy: Policy,
      request: Request)
    requires policy.Valid()
    ensures var sent := Call(replies, setting, first, policy, request).1;
      && sent <= policy.maxAttempts && (sent > 1 ==> IdempotentVerb(request.verb) || request.key.Some?)
  {
    CallsEndRightly(replies, setting, first, policy, request);
    RetryableIsSafe(request);
    hide RetryableRequest, IdempotentVerb;
  }

  lemma RetryableIsSafe(request: Request)
    ensures RetryableRequest(request) ==> IdempotentVerb(request.verb) || request.key.Some?
  {
  }

  // ---- the classifications ----

  lemma RetriesOnValues(status: int, reply: Reply, request: Request, policy: Policy)
    ensures RetryableStatus(status) <==> status in {429, 502, 503, 504}
    ensures AsksForRetry(reply) <==> reply.Broken? || (reply.Answered? && reply.status in {429, 502, 503, 504})
    ensures RetryableRequest(request) <==>
      request.verb in {"GET", "HEAD", "OPTIONS", "PUT", "DELETE"} || request.key != None
    ensures Allowance(policy, request) ==
      if request.verb in {"GET", "HEAD", "OPTIONS", "PUT", "DELETE"} || request.key != None
      then policy.maxAttempts else 1
    ensures policy.Valid() <==>
      1 <= policy.maxAttempts <= 5 && policy.initialBackoff > 0 && policy.maxBackoff >= policy.initialBackoff
  {
  }
}
