/** The gRPC client an execution is invoked through: the metadata it adds and the attempts it makes. */
module GrpcRetry {
  import opened Records
  import opened Int64

  datatype Policy = Policy(maxAttempts: int, initialBackoff: int, maxBackoff: int, patterns: seq<string>)
  {
    /** What the configuration is validated for. */
    predicate Valid() { 1 <= maxAttempts <= 5 && initialBackoff > 0 && maxBackoff >= initialBackoff
        && maxBackoff <= MAX_INT64 }
  }

  datatype Pair = Pair(name: string, value: string)

  /** What a call carries: its outgoing metadata, and the ids its context holds. */
  datatype Context = Context(outgoing: seq<Pair>, requestId: Option<string>, key: Option<string>)

  datatype Credentials = Credentials(token: string, psk: string)

  datatype Code = OK | Unavailable | ResourceExhausted | OtherCode(number: int)

  datatype Status = Answered(code: Code) | ContextEnded | Refused

  datatype Attempt = Attempt(rpc: string, outgoing: seq<Pair>)

  const KEY := "idempotency-key"
  const REQUEST_ID := "x-request-id"
  const AUTHORIZATION := "authorization"
  const TENANT := "x-tenant-id"
  const APPLICATION := "x-application-id"

  predicate AsksForRetry(code: Code) { code == Unavailable || code == ResourceExhausted }

  /** The wire below the interceptors: what each attempt is answered, and what was sent and waited. */
  class Wire {
    const codes: nat -> Code
    const interrupts: nat -> bool
    var sent: seq<Attempt>
    var waits: seq<int>

    constructor (codes: nat -> Code, interrupts: nat -> bool)
      ensures this.codes == codes && this.interrupts == interrupts && sent == [] && waits == []
    {
      this.codes, this.interrupts := codes, interrupts;
      sent, waits := [], [];
    }

    method Send(attempt: Attempt) returns (code: Code)
      modifies this`sent
      ensures sent == old(sent) + [attempt] && code == codes(|old(sent)|)
    {
      code := codes(|sent|);
      sent := sent + [attempt];
    }

    /** Starts a timer; true when the context ends first. */
    method Wait(delay: int, attempt: nat) returns (ended: bool)
      modifies this`waits
      ensures waits == old(waits) + [delay] && ended == interrupts(attempt)
    {
      waits := waits + [delay];
      ended := interrupts(attempt);
    }
  }

  // ---- metadata ----

  function Credential(c: Credentials): Option<string>
  {
    if c.token != "" then Some("Bearer " + c.token) else if c.psk != "" then Some("PSK " + c.psk) else None
  }

  function Under(name: string, value: Option<string>): seq<Pair>
  {
    if value.Some? then [Pair(name, value.value)] else []
  }

  /** What the metadata interceptor adds to a call. */
  function Added(c: Credentials, ctx: Context): seq<Pair>
  {
    Under(AUTHORIZATION, Credential(c)) + Under(REQUEST_ID, ctx.requestId) + Under(KEY, ctx.key)
  }

  function ListOf(value: Option<string>): seq<string> { if value.Some? then [value.value] else [] }

  /** The values a call gains under each name. */
  function Gained(c: Credentials, ctx: Context, name: string): seq<string>
  {
    if name == AUTHORIZATION then ListOf(Credential(c))
    else if name == REQUEST_ID then ListOf(ctx.requestId)
    else if name == KEY then ListOf(ctx.key)
    else []
  }

  /** The values sent under a name, in order. */
  function ValuesOf(pairs: seq<Pair>, name: string): seq<string>
  {
    if pairs == [] then []
    else (if pairs[0].name == name then [pairs[0].value] else []) + ValuesOf(pairs[1..], name)
  }

  lemma {:induction false} ValuesAdd(a: seq<Pair>, b: seq<Pair>, name: string)
    ensures ValuesOf(a + b, name) == ValuesOf(a, name) + ValuesOf(b, name)
  {
    if a == [] {
      assert a + b == b;
    } else {
      assert (a + b)[1..] == a[1..] + b && (a + b)[0] == a[0];
      ValuesAdd(a[1..], b, name);
      var head := if a[0].name == name then [a[0].value] else [];
      assert ValuesOf(a, name) == head + ValuesOf(a[1..], name);
      assert ValuesOf(a + b, name) == head + ValuesOf(a[1..] + b, name);
    }
  }

  lemma NamesDiffer()
    ensures AUTHORIZATION != KEY && REQUEST_ID != KEY && TENANT != KEY && APPLICATION != KEY
    ensures AUTHORIZATION != TENANT && REQUEST_ID != TENANT && APPLICATION != TENANT
    ensures AUTHORIZATION != APPLICATION && REQUEST_ID != APPLICATION
    ensures AUTHORIZATION != REQUEST_ID && TENANT != REQUEST_ID && APPLICATION != REQUEST_ID
  {
    assert AUTHORIZATION[0] == 'a' && KEY[0] == 'i' && REQUEST_ID[2] == 'r' && TENANT[2] == 't'
        && APPLICATION[2] == 'a';
    assert REQUEST_ID[0] == 'x' && TENANT[0] == 'x' && APPLICATION[0] == 'x';
  }

  lemma OneValue(p: Pair, name: string)
    ensures ValuesOf([p], name) == if p.name == name then [p.value] else []
  {
    assert ValuesOf([p][1..], name) == [];
  }

  lemma UnderValues(under: string, value: Option<string>, name: string)
    ensures ValuesOf(Under(under, value), name) == if name == under then ListOf(value) else []
  {
    if value.Some? { OneValue(Pair(under, value.value), name); }
  }

  /** Each name gains its own value, at most one, and no other name gains any. */
  lemma AddedValues(c: Credentials, ctx: Context, name: string)
    ensures ValuesOf(Added(c, ctx), name) == Gained(c, ctx, name)
  {
    hide ValuesOf, Under, Credential;
    NamesDiffer();
    var credential, request, key := Under(AUTHORIZATION, Credential(c)), Under(REQUEST_ID, ctx.requestId),
        Under(KEY, ctx.key);
    ValuesAdd(credential + request, key, name);
    ValuesAdd(credential, request, name);
    UnderValues(AUTHORIZATION, Credential(c), name);
    UnderValues(REQUEST_ID, ctx.requestId, name);
    UnderValues(KEY, ctx.key, name);
  }

  /** The call keeps what it carried and gains its credential, its request id and its key, once each. */
  method AddMetadata(c: Credentials, ctx: Context) returns (r: Context)
    ensures r.requestId == ctx.requestId && r.key == ctx.key && ctx.outgoing <= r.outgoing
    ensures forall name :: ValuesOf(r.outgoing, name) == ValuesOf(ctx.outgoing, name) + Gained(c, ctx, name)
    ensures r.outgoing == ctx.outgoing + Added(c, ctx)
    ensures ValuesOf(r.outgoing, "idempotency-key") == ValuesOf(ctx.outgoing, "idempotency-key")
      + if ctx.key == None then [] else [ctx.key.value]
    ensures ValuesOf(r.outgoing, "x-request-id") == ValuesOf(ctx.outgoing, "x-request-id")
      + if ctx.requestId == None then [] else [ctx.requestId.value]
    ensures ValuesOf(r.outgoing, "authorization") == ValuesOf(ctx.outgoing, "authorization")
      + if c.token != "" then ["Bearer " + c.token] else if c.psk != "" then ["PSK " + c.psk] else []
  {
    NamesOnTheWire();
    NamesDiffer();
    CredentialOnValues(c);
    assert Gained(c, ctx, KEY) == ListOf(ctx.key) && Gained(c, ctx, REQUEST_ID) == ListOf(ctx.requestId);
    assert Gained(c, ctx, AUTHORIZATION) == ListOf(Credential(c));
    hide ValuesOf, Gained;
    var pairs: seq<Pair> := [];
    if c.token != "" {
      pairs := pairs + [Pair(AUTHORIZATION, "Bearer " + c.token)];
    } else if c.psk != "" {
      pairs := pairs + [Pair(AUTHORIZATION, "PSK " + c.psk)];
    }
    if ctx.requestId.Some? {
      pairs := pairs + [Pair(REQUEST_ID, ctx.requestId.value)];
    }
    if ctx.key.Some? {
      pairs := pairs + [Pair(KEY, ctx.key.value)];
    }
    assert pairs == Added(c, ctx);
    r := ctx;
    if |pairs| > 0 {
      r := ctx.(outgoing := ctx.outgoing + pairs);
    }
    assert r.outgoing == ctx.outgoing + Added(c, ctx);
    forall name ensures ValuesOf(r.outgoing, name) == ValuesOf(ctx.outgoing, name) + Gained(c, ctx, name) {
      ValuesAdd(ctx.outgoing, Added(c, ctx), name);
      AddedValues(c, ctx, name);
    }
  }

  // ---- attempts ----

  type Matcher = (string, string) -> bool

  predicate MayRetry(matches: Matcher, patterns: seq<string>, ctx: Context, rpc: string)
  {
    ctx.key.Some? || exists i :: 0 <= i < |patterns| && matches(patterns[i], rpc)
  }

  method RetryGrpcMethod(matches: Matcher, patterns: seq<string>, ctx: Context, rpc: string) returns (r: bool)
    ensures r == MayRetry(matches, patterns, ctx, rpc)
    ensures r <==> ctx.key != None || exists i :: 0 <= i < |patterns| && matches(patterns[i], rpc)
  {
    if ctx.key.Some? { return true; }
    for i := 0 to |patterns|
      invariant forall k :: 0 <= k < i ==> !matches(patterns[k], rpc)
    {
      if matches(patterns[i], rpc) { return true; }
    }
    r := false;
  }

  function Power(k: nat): (r: nat)
    ensures r >= 1
  {
    if k == 0 then 1 else 2 * Power(k - 1)
  }

  /** The shift of a 64-bit duration, capped. */
  function Delay(policy: Policy, attempt: nat): int
    requires attempt >= 1
  {
    var shifted := Wrap64(policy.initialBackoff * Power(attempt - 1));
    if shifted > policy.maxBackoff then policy.maxBackoff else shifted
  }

  /** What the attempts from `attempt` on end with, and how many they are. */
  function Attempts(codes: nat -> Code, interrupts: nat -> bool, first: nat, max: int, attempt: nat): (Status, nat)
    requires 1 <= attempt <= max
    decreases max - attempt
  {
    var code := codes(first + attempt - 1);
    if !AsksForRetry(code) || attempt == max then (Answered(code), 1)
    else if interrupts(attempt) then (ContextEnded, 1)
    else
      var later := Attempts(codes, interrupts, first, max, attempt + 1);
      (later.0, 1 + later.1)
  }

  function Repeated(attempt: Attempt, n: nat): (r: seq<Attempt>)
    ensures |r| == n && forall i :: 0 <= i < n ==> r[i] == attempt
  {
    seq(n, i requires 0 <= i < n => attempt)
  }

  /** The waits between `n` attempts, and the one after the last when it was cut short. */
  function Delays(policy: Policy, n: nat): (r: seq<int>)
    ensures |r| == n && forall i :: 0 <= i < n ==> r[i] == Delay(policy, i + 1)
  {
    seq(n, i requires 0 <= i < n => Delay(policy, i + 1))
  }

  function WaitsOf(status: Status, n: nat): nat
  {
    if status == ContextEnded || n == 0 then n else n - 1
  }

  /** The interceptor, as it is installed: only for policies of more than one attempt. */
  method RetryInterceptor(wire: Wire, matches: Matcher, policy: Policy, ctx: Context, rpc: string)
      returns (status: Status)
    requires policy.maxAttempts > 1
    modifies wire
    ensures var (result, n) := Attempts(wire.codes, wire.interrupts, |old(wire.sent)|,
        if MayRetry(matches, policy.patterns, ctx, rpc) then policy.maxAttempts else 1, 1);
      && status == result && wire.sent == old(wire.sent) + Repeated(Attempt(rpc, ctx.outgoing), n)
      && wire.waits == old(wire.waits) + Delays(policy, WaitsOf(result, n))
  {
    hide AsksForRetry, MayRetry, Delay, Attempts, Repeated, Delays;
    var retryable := RetryGrpcMethod(matches, policy.patterns, ctx, rpc);
    var max, request := policy.maxAttempts, Attempt(rpc, ctx.outgoing);
    ghost var first := |wire.sent|;
    Extensions(policy, request, 0);
    if !retryable {
      AttemptEnds(wire.codes, wire.interrupts, first, 1, 1);
      var only := wire.Send(request);
      return Answered(only);
    }
    status := Answered(OK);
    ghost var whole := Attempts(wire.codes, wire.interrupts, first, max, 1);
    for attempt := 1 to max + 1
      invariant wire.sent == old(wire.sent) + Repeated(request, attempt - 1)
      invariant attempt <= max ==> wire.waits == old(wire.waits) + Delays(policy, attempt - 1)
      invariant attempt <= max ==> whole == After(attempt - 1,
          Attempts(wire.codes, wire.interrupts, first, max, attempt))
      invariant attempt > max ==>
        whole == (status, max) && status.Answered?
        && wire.waits == old(wire.waits) + Delays(policy, max - 1)
    {
      Extensions(policy, request, attempt - 1);
      AttemptEnds(wire.codes, wire.interrupts, first, max, attempt);
      var code := wire.Send(request);
      status := Answered(code);
      if !AsksForRetry(code) {
        return;
      }
      if attempt < max {
        var ended := wire.Wait(Delay(policy, attempt), attempt);
        if ended {
          return ContextEnded;
        }
      }
    }
  }

  function After(k: nat, r: (Status, nat)): (Status, nat) { (r.0, k + r.1) }

  lemma AttemptEnds(codes: nat -> Code, interrupts: nat -> bool, first: nat, max: int, attempt: nat)
    requires 1 <= attempt <= max
    ensures var r, code := Attempts(codes, interrupts, first, max, attempt), codes(first + attempt - 1);
      && (!AsksForRetry(code) || attempt == max ==> r == (Answered(code), 1))
      && (AsksForRetry(code) && attempt < max && interrupts(attempt) ==> r == (ContextEnded, 1))
      && (AsksForRetry(code) && attempt < max && !interrupts(attempt)
          ==> r == After(1, Attempts(codes, interrupts, first, max, attempt + 1)))
  {
    hide AsksForRetry;
  }

  lemma Extensions(policy: Policy, request: Attempt, n: nat)
    ensures Repeated(request, 0) == [] && Delays(policy, 0) == []
    ensures Repeated(request, n + 1) == Repeated(request, n) + [request]
    ensures Delays(policy, n + 1) == Delays(policy, n) + [Delay(policy, n + 1)]
  {
    hide Delay;
  }

  /** The chain a connection is dialled with: metadata, the breaker's admission, then the attempts. */
  method Invoke(wire: Wire, matches: Matcher, policy: Policy, c: Credentials, admitted: bool, ctx: Context,
      rpc: string) returns (status: Status)
    modifies wire
    ensures !admitted ==> status == Refused && wire.sent == old(wire.sent) && wire.waits == old(wire.waits)
    ensures admitted ==>
      var (result, n) := Attempts(wire.codes, wire.interrupts, |old(wire.sent)|, Allowance(matches, policy, ctx, rpc),
          1);
      && status == result && wire.sent == old(wire.sent) + Repeated(Attempt(rpc, ctx.outgoing + Added(c, ctx)), n)
      && wire.waits == old(wire.waits) + Delays(policy, WaitsOf(result, n))
  {
    hide AsksForRetry, MayRetry, Delay, Added;
    var stamped := AddMetadata(c, ctx);
    if !admitted {
      return Refused;
    }
    MayRetryIgnoresMetadata(matches, policy.patterns, ctx, stamped, rpc);
    if policy.maxAttempts > 1 {
      status := RetryInterceptor(wire, matches, policy, stamped, rpc);
    } else {
      var code := wire.Send(Attempt(rpc, stamped.outgoing));
      status := Answered(code);
    }
  }

  function Allowance(matches: Matcher, policy: Policy, ctx: Context, rpc: string): (r: int)
    ensures r >= 1
  {
    if policy.maxAttempts > 1 && MayRetry(matches, policy.patterns, ctx, rpc) then policy.maxAttempts else 1
  }

  lemma MayRetryIgnoresMetadata(matches: Matcher, patterns: seq<string>, a: Context, b: Context, rpc: string)
    requires a.key == b.key
    ensures MayRetry(matches, patterns, a, rpc) == MayRetry(matches, patterns, b, rpc)
  {
  }

  // ---- what the client promises ----

  /** Attempt `k` asks for another one, and the wait after it is not cut short. */
  predicate Repeats(codes: nat -> Code, interrupts: nat -> bool, first: nat, k: nat)
    requires k >= 1
  {
    AsksForRetry(codes(first + k - 1)) && !interrupts(k)
  }

  /**
   * The attempts stop at the first answer that does not ask for another one, at the last attempt, or when the
   * context ends.
   */
  lemma {:induction false} AttemptsEndRightly(codes: nat -> Code, interrupts: nat -> bool, first: nat, max: int,
      attempt: nat)
    requires 1 <= attempt <= max
    ensures var (status, n) := Attempts(codes, interrupts, first, max, attempt);
      var last := attempt + n - 1;
      && 1 <= n && last <= max
      && (forall k :: attempt <= k < last ==> Repeats(codes, interrupts, first, k))
      && (status.Answered? ==> status.code == codes(first + last - 1) && (AsksForRetry(status.code) ==> last == max))
      && (status.ContextEnded? ==> AsksForRetry(codes(first + last - 1)) && last < max && interrupts(last))
      && !status.Refused?
    decreases max - attempt
  {
    if AsksForRetry(codes(first + attempt - 1)) && attempt < max && !interrupts(attempt) {
      AttemptsEndRightly(codes, interrupts, first, max, attempt + 1);
    }
  }

  /** A call is sent again only when it carries a key or its method is listed, and never more than the policy allows. */
  lemma OnlySafeCallsAreRepeated(wire: Wire, matches: Matcher, policy: Policy, ctx: Context, rpc: string, first: nat)
    requires policy.Valid()
    ensures var n := Attempts(wire.codes, wire.interrupts, first, Allowance(matches, policy, ctx, rpc), 1).1;
      && 1 <= n <= policy.maxAttempts
      && (n > 1 ==> ctx.key.Some? || exists i :: 0 <= i < |policy.patterns| && matches(policy.patterns[i], rpc))
  {
    AttemptsEndRightly(wire.codes, wire.interrupts, first, Allowance(matches, policy, ctx, rpc), 1);
  }

  /** The context of an execution's call: the row's id is its key, and its request id when there is none. */
  function ExecutionContext(parent: Context, e: Execution): Context
  {
    Context(parent.outgoing + [Pair(TENANT, e.scope.tenant), Pair(APPLICATION, e.scope.application)],
      if parent.requestId.Some? then parent.requestId else Some(e.id), Some(e.id))
  }

  /**
   * Every attempt of an execution's call adds to what the caller sent exactly one idempotency key, the id of
   * its row, and exactly one tenant and one application, those of the row.
   */
  lemma AttemptsCarryTheRow(c: Credentials, parent: Context, e: Execution)
    ensures var ctx := ExecutionContext(parent, e);
      var sent := ctx.outgoing + Added(c, ctx);
      && ValuesOf(sent, KEY) == ValuesOf(parent.outgoing, KEY) + [e.id]
      && ValuesOf(sent, TENANT) == ValuesOf(parent.outgoing, TENANT) + [e.scope.tenant]
      && ValuesOf(sent, APPLICATION) == ValuesOf(parent.outgoing, APPLICATION) + [e.scope.application]
      && |ValuesOf(sent, REQUEST_ID)| == |ValuesOf(parent.outgoing, REQUEST_ID)| + 1
  {
    hide Added, ValuesOf;
    NamesDiffer();
    CarriedValues(c, parent, e, KEY);
    CarriedValues(c, parent, e, TENANT);
    CarriedValues(c, parent, e, APPLICATION);
    CarriedValues(c, parent, e, REQUEST_ID);
  }

  lemma CarriedValues(c: Credentials, parent: Context, e: Execution, name: string)
    requires name != AUTHORIZATION
    ensures var ctx := ExecutionContext(parent, e);
      ValuesOf(ctx.outgoing + Added(c, ctx), name) == ValuesOf(parent.outgoing, name)
        + (if name == TENANT then [e.scope.tenant] else []) + (if name == APPLICATION then [e.scope.application]
            else [])
        + (if name == REQUEST_ID then [ctx.requestId.value] else []) + (if name == KEY then [e.id] else [])
  {
    hide Added, ValuesOf;
    NamesDiffer();
    var ctx, tenant, application := ExecutionContext(parent, e), Pair(TENANT, e.scope.tenant),
        Pair(APPLICATION, e.scope.application);
    ValuesAdd(ctx.outgoing, Added(c, ctx), name);
    ValuesAdd(parent.outgoing, [tenant, application], name);
    assert [tenant, application] == [tenant] + [application];
    ValuesAdd([tenant], [application], name);
    OneValue(tenant, name);
    OneValue(application, name);
    AddedValues(c, ctx, name);
  }

  function Doubled(initial: int, attempt: nat): int
    requires attempt >= 1
  {
    initial * Power(attempt - 1)
  }

  function Capped(delay: int, cap: int): int { if delay > cap then cap else delay }

  lemma FittingShiftIsDoubling(policy: Policy, attempt: nat)
    requires policy.Valid() && attempt >= 1 && Doubled(policy.initialBackoff, attempt) <= MAX_INT64
    ensures Delay(policy, attempt) == Capped(Doubled(policy.initialBackoff, attempt), policy.maxBackoff)
  {
    SmallIsKept(Doubled(policy.initialBackoff, attempt));
  }

  lemma DoubledIsEven(initial: int, attempt: nat)
    requires initial <= MAX_INT64 && attempt >= 1 && Doubled(initial, attempt) > MAX_INT64
    ensures Doubled(initial, attempt) % 2 == 0
  {
    assert Power(0) == 1;
    assert attempt != 1;
    var half := initial * Power(attempt - 2);
    assert Doubled(initial, attempt) == 2 * half;
  }

  lemma OverflowMissesTheCap(initial: int, attempt: nat)
    requires 0 < initial <= MAX_INT64 && attempt >= 1 && Doubled(initial, attempt) > MAX_INT64
    ensures Wrap64(Doubled(initial, attempt)) < MAX_INT64
  {
    hide Doubled, Wrap64;
    DoubledIsEven(initial, attempt);
    EvenStaysEven(Doubled(initial, attempt));
    WrapStaysInRange(Doubled(initial, attempt));
  }

  ghost predicate WaitsAreDoubled(initial: int, attempt: nat)
    requires attempt >= 1
  {
    forall policy: Policy :: policy.Valid() && policy.initialBackoff == initial ==>
      Delay(policy, attempt) == Capped(Doubled(initial, attempt), policy.maxBackoff)
  }

  /** The wait is the capped doubling under every policy with this first backoff iff the shift fits 64 bits. */
  lemma BackoffIsExactly(initial: int, attempt: nat)
    requires 0 < initial <= MAX_INT64 && attempt >= 1
    ensures WaitsAreDoubled(initial, attempt) <==> Doubled(initial, attempt) <= MAX_INT64
  {
    hide Wrap64, Doubled;
    if Doubled(initial, attempt) <= MAX_INT64 {
      forall policy: Policy | policy.Valid() && policy.initialBackoff == initial
        ensures Delay(policy, attempt) == Capped(Doubled(initial, attempt), policy.maxBackoff)
      {
        FittingShiftIsDoubling(policy, attempt);
      }
    } else {
      OverflowMissesTheCap(initial, attempt);
      var policy := Policy(5, initial, MAX_INT64, []);
      DelayShifts(policy, attempt);
      assert policy.Valid() && Delay(policy, attempt) != Capped(Doubled(initial, attempt), policy.maxBackoff);
    }
  }

  lemma DelayShifts(policy: Policy, attempt: nat)
    requires attempt >= 1
    ensures Delay(policy, attempt) == Capped(Wrap64(Doubled(policy.initialBackoff, attempt)), policy.maxBackoff)
  {
  }

  /** With a first backoff of 2^61 nanoseconds the third wait is negative: the retry does not wait at all. */
  lemma LongBackoffDoesNotWait(policy: Policy)
    requires policy.Valid() && policy.initialBackoff == 0x2000_0000_0000_0000
    ensures Delay(policy, 3) < 0
  {
    assert Power(2) == 4 by { assert Power(0) == 1 && Power(1) == 2; }
  }

  /** A policy of at most five attempts never overflows a backoff below 2^60 nanoseconds, more than 36 years. */
  lemma WaitsArePositiveAndCapped(policy: Policy, attempt: nat)
    requires policy.Valid() && 1 <= attempt < policy.maxAttempts && policy.initialBackoff < 0x1000_0000_0000_0000
    ensures policy.initialBackoff <= Delay(policy, attempt) <= policy.maxBackoff
  {
    assert Power(0) == 1 && Power(1) == 2 && Power(2) == 4 && Power(3) == 8;
    FittingShiftIsDoubling(policy, attempt);
  }

  // ---- the classifications and the names ----

  lemma RetriesOnValues(code: Code, matches: Matcher, policy: Policy, ctx: Context, rpc: string)
    ensures AsksForRetry(code) <==> code == Unavailable || code == ResourceExhausted
    ensures MayRetry(matches, policy.patterns, ctx, rpc) <==>
      ctx.key != None || exists i :: 0 <= i < |policy.patterns| && matches(policy.patterns[i], rpc)
    ensures Allowance(matches, policy, ctx, rpc) ==
      if policy.maxAttempts > 1 && MayRetry(matches, policy.patterns, ctx, rpc) then policy.maxAttempts else 1
    ensures policy.Valid() <==>
      && 1 <= policy.maxAttempts <= 5 && policy.initialBackoff > 0
      && policy.initialBackoff <= policy.maxBackoff <= MAX_INT64
  {
  }

  lemma DelaysOnValues(policy: Policy, initial: int, cap: int, attempt: nat)
    requires attempt >= 1
    ensures Doubled(initial, 1) == initial && Doubled(initial, attempt + 1) == 2 * Doubled(initial, attempt)
    ensures Capped(initial, cap) <= cap && Capped(initial, cap) <= initial
    ensures Capped(initial, cap) == cap || Capped(initial, cap) == initial
  {
    var power := Power(attempt - 1);
    assert Power(0) == 1 && Power(attempt) == 2 * power;
    assert initial * (2 * power) == 2 * (initial * power);
  }

  lemma NamesOnTheWire()
    ensures KEY == "idempotency-key" && REQUEST_ID == "x-request-id" && AUTHORIZATION == "authorization"
    ensures TENANT == "x-tenant-id" && APPLICATION == "x-application-id"
  {
  }

  /** A token goes first, a pre-shared key only without one. */
  lemma CredentialOnValues(c: Credentials)
    ensures c.token != "" ==> Credential(c) == Some("Bearer " + c.token)
    ensures c.token == "" && c.psk != "" ==> Credential(c) == Some("PSK " + c.psk)
    ensures c.token == "" && c.psk == "" ==> Credential(c) == None
  {
  }
}
