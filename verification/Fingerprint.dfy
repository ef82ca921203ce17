/** What a request is fingerprinted by: the bytes that are hashed, and when they tell requests apart. */
module Fingerprint {
  import opened Records

  const NUL := '\0'

  /** A subject the context does not hold is printed like the nil interface. */
  const NO_SUBJECT := "<nil>"

  datatype Identified = Identified(subject: Option<string>, verb: string, route: string, body: string)

  function Printed(subject: Option<string>): string { if subject.Some? then subject.value else NO_SUBJECT }

  function Preimage(r: Identified): string
  {
    Printed(r.subject) + ([NUL] + (r.verb + ([NUL] + (r.route + ([NUL] + r.body)))))
  }

  predicate NulFree(s: string) { NUL !in s }

  predicate Separable(r: Identified)
  {
    (r.subject.Some? ==> NulFree(r.subject.value)) && NulFree(r.verb) && NulFree(r.route)
  }

  /** A text without NUL ends where the first NUL stands. */
  lemma {:induction false} FieldEndsAtNul(a: string, b: string, restA: string, restB: string)
    requires NulFree(a) && NulFree(b) && a + ([NUL] + restA) == b + ([NUL] + restB)
    ensures a == b && restA == restB
  {
    var left, right := a + ([NUL] + restA), b + ([NUL] + restB);
    if a == [] || b == [] {
      assert left[0] == right[0];
      assert a == b;
      assert left[1..] == restA && right[1..] == restB;
    } else {
      assert left[0] == a[0] && right[0] == b[0];
      assert left[1..] == a[1..] + ([NUL] + restA) && right[1..] == b[1..] + ([NUL] + restB);
      FieldEndsAtNul(a[1..], b[1..], restA, restB);
      assert a == [a[0]] + a[1..] && b == [b[0]] + b[1..];
    }
  }

  /** Two requests hash the same bytes iff they agree on everything, a missing subject counting as `<nil>`. */
  lemma PreimageTellsRequestsApart(a: Identified, b: Identified)
    requires Separable(a) && Separable(b)
    ensures Preimage(a) == Preimage(b) <==>
      Printed(a.subject) == Printed(b.subject) && a.verb == b.verb
      && a.route == b.route && a.body == b.body
    ensures a.subject.Some? == b.subject.Some? ==> (Preimage(a) == Preimage(b) <==> a == b)
  {
    if Preimage(a) == Preimage(b) {
      assert NulFree(NO_SUBJECT);
      var tailA, tailB := a.route + ([NUL] + a.body), b.route + ([NUL] + b.body);
      FieldEndsAtNul(Printed(a.subject), Printed(b.subject), a.verb + ([NUL] + tailA), b.verb + ([NUL] + tailB));
      FieldEndsAtNul(a.verb, b.verb, tailA, tailB);
      FieldEndsAtNul(a.route, b.route, a.body, b.body);
    }
  }

  // ---- the requests that are fingerprinted ----

  const POST := "POST"

  /** What stands between the subject and the route. */
  const BETWEEN := [NUL] + POST + [NUL]

  /** The routes the guard is registered on. */
  predicate Routes(routes: set<string>)
  {
    routes != {} && forall route :: route in routes ==> route != "" && route[0] == '/' && NulFree(route)
  }

  /** Only POST requests of a registered route reach the fingerprint. */
  predicate Guarded(routes: set<string>, r: Identified) { r.verb == POST && r.route in routes }

  function Tail(route: string, body: string): string { BETWEEN + route + [NUL] + body }

  lemma GuardedPreimage(routes: set<string>, r: Identified)
    requires Guarded(routes, r)
    ensures Preimage(r) == Printed(r.subject) + Tail(r.route, r.body)
  {
    assert [NUL] + (POST + ([NUL] + (r.route + ([NUL] + r.body)))) == Tail(r.route, r.body);
  }

  /** Two guarded requests of one subject hash the same bytes only when they are the same request. */
  lemma OneSubjectNeverCollides(routes: set<string>, a: Identified, b: Identified)
    requires Routes(routes) && Guarded(routes, a) && Guarded(routes, b) && Printed(a.subject) == Printed(b.subject)
    ensures Preimage(a) == Preimage(b) <==> a.route == b.route && a.body == b.body
  {
    GuardedPreimage(routes, a);
    GuardedPreimage(routes, b);
    if Preimage(a) == Preimage(b) {
      var n := |Printed(a.subject)|;
      assert Preimage(a)[n..] == Tail(a.route, a.body) && Preimage(b)[n..] == Tail(b.route, b.body);
      TailsAgree(a.route, a.body, b.route, b.body);
    }
  }

  lemma TailsAgree(routeA: string, bodyA: string, routeB: string, bodyB: string)
    requires NulFree(routeA) && NulFree(routeB) && Tail(routeA, bodyA) == Tail(routeB, bodyB)
    ensures routeA == routeB && bodyA == bodyB
  {
    assert Tail(routeA, bodyA)[6..] == routeA + ([NUL] + bodyA);
    assert Tail(routeB, bodyB)[6..] == routeB + ([NUL] + bodyB);
    FieldEndsAtNul(routeA, routeB, bodyA, bodyB);
  }

  /** `long` reads as `short` with the method, a route and possibly the start of a body after it. */
  ghost predicate Prolongs(routes: set<string>, short: string, long: string)
  {
    exists route :: route in routes && (long == short + BETWEEN + route || short + BETWEEN + route + [NUL] <= long)
  }

  ghost predicate MayCollide(routes: set<string>, s: Option<string>, t: Option<string>)
  {
    exists a, b :: Guarded(routes, a) && Guarded(routes, b) && a.subject == s && b.subject == t
        && Preimage(a) == Preimage(b)
  }

  /** What remains of a longer subject begins with the separators and a whole route. */
  lemma ExtensionIsARoute(extra: string, route: string, body: string, routeB: string, bodyB: string)
    requires extra != "" && route != "" && route[0] == '/' && NulFree(route)
    requires extra + Tail(routeB, bodyB) == Tail(route, body)
    ensures extra == BETWEEN + route || BETWEEN + route + [NUL] <= extra
  {
    var whole, n := Tail(route, body), |extra|;
    assert whole == BETWEEN + (route + ([NUL] + body));
    assert whole[n] == NUL && whole[n + 1] == 'P' by { assert Tail(routeB, bodyB)[..2] == [NUL, 'P']; }
    assert whole[1] == 'P' && whole[2] == 'O' && whole[3] == 'S' && whole[4] == 'T' && whole[5] == NUL
        && whole[6] == '/';
    assert extra == whole[..n];
    assert forall k :: 6 <= k < 6 + |route| ==> whole[k] == route[k - 6];
    assert n >= 6 + |route|;
    if n == 6 + |route| {
      assert whole[..n] == BETWEEN + route;
    } else {
      assert whole[..n][..7 + |route|] == BETWEEN + route + [NUL];
    }
  }

  /** Of two texts that go on to the same whole, the longer one starts with the shorter. */
  lemma LongerStartsWithShorter(long: string, tail: string, short: string, rest: string)
    requires long + tail == short + rest && |short| <= |long|
    ensures long == short + long[|short|..] && long[|short|..] + tail == rest
  {
    var whole := long + tail;
    assert whole[..|short|] == short && whole[..|short|] == long[..|short|];
    assert whole[|short|..] == rest && whole[|short|..] == long[|short|..] + tail;
  }

  lemma CollisionExtends(routes: set<string>, a: Identified, b: Identified)
    requires Routes(routes) && Guarded(routes, a) && Guarded(routes, b) && Preimage(a) == Preimage(b)
    requires |Printed(b.subject)| < |Printed(a.subject)|
    ensures Prolongs(routes, Printed(b.subject), Printed(a.subject))
  {
    hide BETWEEN, Tail, Preimage;
    GuardedPreimage(routes, a);
    GuardedPreimage(routes, b);
    var long, short := Printed(a.subject), Printed(b.subject);
    LongerStartsWithShorter(long, Tail(a.route, a.body), short, Tail(b.route, b.body));
    var extra := long[|short|..];
    ExtensionIsARoute(extra, b.route, b.body, a.route, a.body);
    ExtensionOfShort(short, extra, b.route);
  }

  lemma ExtensionOfShort(short: string, extra: string, route: string)
    ensures extra == BETWEEN + route ==> short + extra == short + BETWEEN + route
    ensures BETWEEN + route + [NUL] <= extra ==> short + BETWEEN + route + [NUL] <= short + extra
  {
    if BETWEEN + route + [NUL] <= extra {
      var head := BETWEEN + route + [NUL];
      assert extra == head + extra[|head|..];
      assert short + extra == (short + BETWEEN + route + [NUL]) + extra[|head|..];
    }
  }

  lemma SubjectEndsWithRoute(short: string, between: string, route: string, tail: string)
    requires tail != "" && tail[0] == NUL
    ensures (short + between + route) + tail == short + (between + route + [NUL] + tail[1..])
  {
    assert tail == [NUL] + tail[1..];
  }

  lemma SubjectGoesOn(short: string, between: string, route: string, rest: string, tail: string)
    ensures (short + between + route + [NUL] + rest) + tail == short + (between + route + [NUL] + (rest + tail))
  {
  }

  lemma TailStartsWithNul(route: string, body: string)
    ensures Tail(route, body) != "" && Tail(route, body)[0] == NUL
  {
  }

  /** A subject that ends in the method and a route borrows the rest of its hash from the other's body. */
  lemma EndedSubjectCollides(routes: set<string>, long: Option<string>, short: Option<string>, route: string,
      body: string)
    requires route in routes && Printed(long) == Printed(short) + BETWEEN + route
    ensures Preimage(Identified(long, POST, route, body))
        == Preimage(Identified(short, POST, route, Tail(route, body)[1..]))
  {
    hide BETWEEN;
    TailStartsWithNul(route, body);
    GuardedPreimage(routes, Identified(long, POST, route, body));
    GuardedPreimage(routes, Identified(short, POST, route, Tail(route, body)[1..]));
    SubjectEndsWithRoute(Printed(short), BETWEEN, route, Tail(route, body));
  }

  lemma LongerSubjectCollides(routes: set<string>, long: Option<string>, short: Option<string>, route: string,
      rest: string, body: string)
    requires route in routes && Printed(long) == Printed(short) + BETWEEN + route + [NUL] + rest
    ensures Preimage(Identified(long, POST, route, body))
        == Preimage(Identified(short, POST, route, rest + Tail(route, body)))
  {
    hide BETWEEN;
    GuardedPreimage(routes, Identified(long, POST, route, body));
    GuardedPreimage(routes, Identified(short, POST, route, rest + Tail(route, body)));
    SubjectGoesOn(Printed(short), BETWEEN, route, rest, Tail(route, body));
  }

  /** Every such pair of subjects has requests that collide. */
  lemma ExtensionCollides(routes: set<string>, s: Option<string>, t: Option<string>)
    requires Routes(routes) && Prolongs(routes, Printed(t), Printed(s))
    ensures MayCollide(routes, s, t)
  {
    hide BETWEEN, Preimage, Tail;
    var long, short := Printed(s), Printed(t);
    var route :| route in routes && (long == short + BETWEEN + route || short + BETWEEN + route + [NUL] <= long);
    var a := Identified(s, POST, route, "");
    if long == short + BETWEEN + route {
      TailStartsWithNul(route, "");
      EndedSubjectCollides(routes, s, t, route, "");
      Collide(routes, a, Identified(t, POST, route, Tail(route, "")[1..]));
    } else {
      var rest := long[|short + BETWEEN + route + [NUL]|..];
      LongerSubjectCollides(routes, s, t, route, rest, "");
      Collide(routes, a, Identified(t, POST, route, rest + Tail(route, "")));
    }
  }

  lemma Collide(routes: set<string>, a: Identified, b: Identified)
    requires Guarded(routes, a) && Guarded(routes, b) && Preimage(a) == Preimage(b)
    ensures MayCollide(routes, a.subject, b.subject)
  {
  }

  lemma SameSubjectCollides(routes: set<string>, s: Option<string>, t: Option<string>)
    requires Routes(routes) && Printed(s) == Printed(t)
    ensures MayCollide(routes, s, t)
  {
    var route :| route in routes;
    var a, b := Identified(s, POST, route, ""), Identified(t, POST, route, "");
    assert Guarded(routes, a) && Guarded(routes, b) && Preimage(a) == Preimage(b);
  }

  lemma CollisionIsSymmetric(routes: set<string>, s: Option<string>, t: Option<string>)
    ensures MayCollide(routes, s, t) ==> MayCollide(routes, t, s)
  {
    hide Preimage;
  }

  /**
   Guarded requests of two subjects can hash the same bytes iff the subjects print alike, or one of them is
   the other followed by the method and a registered route, and then nothing or a NUL and anything.
   */
  lemma CollisionsAreExactly(routes: set<string>, s: Option<string>, t: Option<string>)
    requires Routes(routes)
    ensures MayCollide(routes, s, t)
            <==>
              Printed(s) == Printed(t) || Prolongs(routes, Printed(t), Printed(s))
              || Prolongs(routes, Printed(s), Printed(t))
  {
    hide BETWEEN, Prolongs;
    if MayCollide(routes, s, t) {
      var a, b :| Guarded(routes, a) && Guarded(routes, b) && a.subject == s && b.subject == t
          && Preimage(a) == Preimage(b);
      if |Printed(s)| == |Printed(t)| {
        GuardedPreimage(routes, a);
        GuardedPreimage(routes, b);
        assert Preimage(a)[..|Printed(s)|] == Preimage(b)[..|Printed(s)|];
      } else if |Printed(t)| < |Printed(s)| {
        CollisionExtends(routes, a, b);
      } else {
        CollisionExtends(routes, b, a);
      }
    }
    if Printed(s) == Printed(t) { SameSubjectCollides(routes, s, t); }
    if Prolongs(routes, Printed(t), Printed(s)) { ExtensionCollides(routes, s, t); }
    if Prolongs(routes, Printed(s), Printed(t)) {
      ExtensionCollides(routes, t, s);
      CollisionIsSymmetric(routes, t, s);
    }
  }

  /** Two guarded requests with different subjects and bodies, and two with a missing and a `<nil>` subject. */
  lemma NulAndNilCollide()
    ensures exists a, b ::
      Guarded({"/r"}, a) && Guarded({"/r"}, b) && a.subject != b.subject && a.body != b.body
      && Preimage(a) == Preimage(b)
    ensures MayCollide({"/r"}, None, Some(NO_SUBJECT)) && NO_SUBJECT == "<nil>"
  {
    hide Preimage, BETWEEN, Tail;
    var route, subject := "/r", "x" + BETWEEN + "/r" + [NUL] + "b";
    var a, b := Identified(Some(subject), POST, route, "c"), Identified(Some("x"), POST, route, "b" + Tail(route, "c"));
    LongerSubjectCollides({route}, a.subject, b.subject, route, "b", "c");
    assert |subject| > 1 && a.body[0] != b.body[0];
    assert Guarded({route}, a) && Guarded({route}, b);
    SameSubjectCollides({route}, None, Some(NO_SUBJECT));
  }

  // ---- the bytes ----

  lemma PreimageOnFields(r: Identified)
    ensures Preimage(r) == (if r.subject == None then "<nil>" else r.subject.value)
                           + "\0" + r.verb + "\0" + r.route + "\0" + r.body
  {
    assert ['\0'] == "\0";
  }
}
