/** Normalising the list filters of a request. */
module Filters {
  import opened Records
  import opened Text
  import opened Query

  datatype FilterError = TooMany | BadValue | Unsupported | LongKeyword | EmptyRange | BadDuration

  const MAX_VALUES := 100
  const MAX_BYTES := 200

  /** One value of a list: trimmed, and lower-cased when only some values are allowed. */
  function Normal(value: string, allowed: Option<set<string>>): Result<string, FilterError>
  {
    var trimmed := Trim(value);
    if trimmed == "" || ByteLength(trimmed) > MAX_BYTES then Err(BadValue)
    else if allowed.None? then Ok(trimmed)
    else if Lower(trimmed) in allowed.value then Ok(Lower(trimmed))
    else Err(Unsupported)
  }

  lemma LowerKeepsTrimmed(s: string)
    ensures Lower(Lower(s)) == Lower(s)
    ensures Trim(s) == s ==> Trim(Lower(s)) == Lower(s)
  {
    if s != [] && Trim(s) == s {
      var left := TrimLeft(s);
      assert |TrimRight(left)| <= |left| <= |s|;
      assert left == s;
      assert !IsSpace(Lower(s)[0]) && !IsSpace(Lower(s)[|s| - 1]);
      TrimmedIsFixed(Lower(s));
    }
  }

  /** A normalised value is its own normal form. */
  lemma NormalIsFixed(value: string, allowed: Option<set<string>>)
    requires Normal(value, allowed).Ok?
    ensures Normal(Normal(value, allowed).value, allowed) == Normal(value, allowed)
  {
    hide Trim, Lower, ByteLength;
    var trimmed := Trim(value);
    TrimIsIdempotent(value);
    LowerKeepsTrimmed(trimmed);
    LowerKeepsByteLength(trimmed);
    LowerIsEmptyOnEmpty(trimmed);
  }

  lemma LowerIsEmptyOnEmpty(s: string)
    ensures Lower(s) == "" <==> s == ""
  {
  }

  // ---- removing duplicates ----

  /** `s` without the later copies of each value. */
  function Firsts(s: seq<string>): seq<string>
  {
    if s == [] then []
    else
      var before, last := s[..|s| - 1], s[|s| - 1];
      if last in before then Firsts(before) else Firsts(before) + [last]
  }

  function FirstAt(s: seq<string>, value: string): (i: nat)
    requires value in s
    ensures i < |s| && s[i] == value && value !in s[..i]
  {
    if s[0] == value then 0 else 1 + FirstAt(s[1..], value)
  }

  lemma OccursBefore(s: seq<string>, value: string, i: nat, end: nat)
    requires i < |s| && end <= |s| && s[i] == value
    ensures i < end ==> value in s[..end]
  {
    if i < end { assert s[..end][i] == value; }
  }

  lemma FirstAtIsUnique(s: seq<string>, value: string, i: nat)
    requires i < |s| && s[i] == value && value !in s[..i]
    ensures FirstAt(s, value) == i
  {
    var k := FirstAt(s, value);
    OccursBefore(s, value, k, i);
    OccursBefore(s, value, i, k);
  }

  lemma {:induction false} FirstsKeepsTheSet(s: seq<string>)
    ensures forall v :: v in Firsts(s) <==> v in s
    ensures s != [] ==> Firsts(s) != []
    ensures |Firsts(s)| <= |s|
  {
    if s != [] {
      var before, last := s[..|s| - 1], s[|s| - 1];
      FirstsKeepsTheSet(before);
      assert s == before + [last];
    }
  }

  /** The kept values are distinct and stand in the order of their first occurrences. */
  lemma {:induction false} FirstsKeepsTheOrder(s: seq<string>)
    ensures forall v :: v in Firsts(s) ==> v in s
    ensures forall i, j :: 0 <= i < j < |Firsts(s)| ==>
      Firsts(s)[i] != Firsts(s)[j]
      && FirstAt(s, Firsts(s)[i]) < FirstAt(s, Firsts(s)[j])
  {
    FirstsKeepsTheSet(s);
    if s != [] {
      var before, last, r := s[..|s| - 1], s[|s| - 1], Firsts(s);
      FirstsKeepsTheOrder(before);
      FirstsKeepsTheSet(before);
      forall i, j | 0 <= i < j < |r| ensures r[i] != r[j] && FirstAt(s, r[i]) < FirstAt(s, r[j]) {
        FirstAtOfPrefix(before, last, r[i]);
        FirstAtOfPrefix(before, last, r[j]);
      }
    }
  }

  lemma FirstAtOfPrefix(before: seq<string>, last: string, value: string)
    ensures var s := before + [last];
      && (value in before ==> FirstAt(s, value) == FirstAt(before, value) < |before|)
      && (value == last && value !in before ==> FirstAt(s, value) == |before|)
  {
    var s := before + [last];
    if value in before {
      var k := FirstAt(before, value);
      assert s[..k] == before[..k];
      FirstAtIsUnique(s, value, k);
    } else if value == last {
      assert s[..|before|] == before;
      FirstAtIsUnique(s, value, |before|);
    }
  }

  lemma {:induction false} DistinctIsFixed(s: seq<string>)
    requires forall i, j :: 0 <= i < j < |s| ==> s[i] != s[j]
    ensures Firsts(s) == s
  {
    if s != [] {
      var before, last := s[..|s| - 1], s[|s| - 1];
      DistinctIsFixed(before);
      assert s == before + [last];
    }
  }

  // ---- the whole list ----

  /** The error of the first value that has none of its own normal forms. */
  function FirstError(values: seq<string>, allowed: Option<set<string>>): Option<FilterError>
  {
    if values == [] then None
    else
      var earlier := FirstError(values[..|values| - 1], allowed);
      var last := Normal(values[|values| - 1], allowed);
      if earlier.Some? then earlier else if last.Err? then Some(last.error) else None
  }

  function Normals(values: seq<string>, allowed: Option<set<string>>): (r: seq<string>)
    ensures |r| == |values|
    ensures forall i :: 0 <= i < |values| ==> r[i] == Value(Normal(values[i], allowed))
  {
    seq(|values|, i requires 0 <= i < |values| => Value(Normal(values[i], allowed)))
  }

  function Value(r: Result<string, FilterError>): string { if r.Ok? then r.value else "" }

  function NormalSet(values: seq<string>, allowed: Option<set<string>>): Result<seq<string>, FilterError>
  {
    if |values| > MAX_VALUES then Err(TooMany)
    else if FirstError(values, allowed).Some? then Err(FirstError(values, allowed).value)
    else Ok(Firsts(Normals(values, allowed)))
  }

  method NormalizeSet(values: seq<string>, allowed: Option<set<string>>) returns (r: Result<seq<string>, FilterError>)
    ensures r == NormalSet(values, allowed)
  {
    hide Trim, Lower, ByteLength, Normal, Normals, FirstError, Firsts;
    if |values| > MAX_VALUES {
      return Err(TooMany);
    }
    var seen: set<string> := {};
    var result: seq<string> := [];
    NothingYet(values, allowed);
    for i := 0 to |values|
      invariant FirstError(values[..i], allowed).None?
      invariant result == Firsts(Normals(values[..i], allowed))
      invariant forall v :: v in seen <==> v in Normals(values[..i], allowed)
    {
      var value := Trim(values[i]);
      if value == "" || ByteLength(value) > MAX_BYTES {
        NormalRefuses(values[i], allowed);
        Refused(values, allowed, i, BadValue);
        return Err(BadValue);
      }
      if allowed.Some? {
        value := Lower(value);
        if value !in allowed.value {
          NormalRefuses(values[i], allowed);
          Refused(values, allowed, i, Unsupported);
          return Err(Unsupported);
        }
      }
      NormalAccepts(values[i], allowed);
      Accepted(values, allowed, i, value);
      if value !in seen {
        seen := seen + {value};
        result := result + [value];
      }
    }
    assert values[..|values|] == values;
    r := Ok(result);
  }

  lemma NothingYet(values: seq<string>, allowed: Option<set<string>>)
    ensures FirstError(values[..0], allowed).None? && Normals(values[..0], allowed) == [] && Firsts([]) == []
  {
  }

  lemma Refused(values: seq<string>, allowed: Option<set<string>>, i: nat, error: FilterError)
    requires i < |values| && FirstError(values[..i], allowed).None? && Normal(values[i], allowed) == Err(error)
    ensures FirstError(values, allowed) == Some(error)
  {
    hide Normal;
    assert values[..i + 1][..i] == values[..i];
    ErrorsStay(values, allowed, i + 1);
  }

  lemma Accepted(values: seq<string>, allowed: Option<set<string>>, i: nat, value: string)
    requires i < |values| && FirstError(values[..i], allowed).None? && Normal(values[i], allowed) == Ok(value)
    ensures FirstError(values[..i + 1], allowed).None?
    ensures var before, now := Normals(values[..i], allowed), Normals(values[..i + 1], allowed);
      && now == before + [value]
      && Firsts(now) == (if value in before then Firsts(before) else Firsts(before) + [value])
  {
    hide Normal;
    assert values[..i + 1][..i] == values[..i];
    var before, now := Normals(values[..i], allowed), Normals(values[..i + 1], allowed);
    assert now == before + [value];
    assert now[..i] == before;
  }

  lemma NormalRefuses(value: string, allowed: Option<set<string>>)
    ensures var t := Trim(value);
      && (t == "" || ByteLength(t) > MAX_BYTES ==> Normal(value, allowed) == Err(BadValue))
      && (t != "" && ByteLength(t) <= MAX_BYTES && allowed.Some? && Lower(t) !in allowed.value
          ==> Normal(value, allowed) == Err(Unsupported))
  {
    hide Trim, Lower, ByteLength;
  }

  lemma NormalAccepts(value: string, allowed: Option<set<string>>)
    ensures var t := Trim(value); t != "" && ByteLength(t) <= MAX_BYTES ==>
      && (allowed.None? ==> Normal(value, allowed) == Ok(t))
      && (allowed.Some? && Lower(t) in allowed.value ==> Normal(value, allowed) == Ok(Lower(t)))
  {
    hide Trim, Lower, ByteLength;
  }

  /** An error of a prefix is the error of the list. */
  lemma {:induction false} ErrorsStay(values: seq<string>, allowed: Option<set<string>>, n: nat)
    requires n <= |values|
    ensures FirstError(values[..n], allowed).Some? ==> FirstError(values, allowed) == FirstError(values[..n], allowed)
    decreases |values| - n
  {
    hide Normal;
    if n == |values| {
      assert values[..n] == values;
    } else {
      ErrorsStay(values, allowed, n + 1);
      assert values[..n + 1][..n] == values[..n];
    }
  }

  lemma {:induction false} NoErrorIsAllNormal(values: seq<string>, allowed: Option<set<string>>)
    ensures FirstError(values, allowed).None? <==> forall v :: v in values ==> Normal(v, allowed).Ok?
  {
    hide Normal;
    if values != [] {
      var before, last := values[..|values| - 1], values[|values| - 1];
      NoErrorIsAllNormal(before, allowed);
      assert values == before + [last];
    }
  }

  /** A list is accepted exactly when it is short and each of its values has a normal form. */
  lemma AcceptedLists(values: seq<string>, allowed: Option<set<string>>)
    ensures NormalSet(values, allowed).Ok? <==> |values| <= MAX_VALUES && forall v ::
      v in values
      ==> Normal(v, allowed).Ok?
  {
    hide Normal;
    NoErrorIsAllNormal(values, allowed);
  }

  /** The result holds exactly the normal forms, once each; no filter is lost and none appears. */
  lemma NormalSetKeepsTheValues(values: seq<string>, allowed: Option<set<string>>)
    requires NormalSet(values, allowed).Ok?
    ensures var r := NormalSet(values, allowed).value;
      && (r == [] <==> values == [])
      && (forall i, j :: 0 <= i < j < |r| ==> r[i] != r[j])
      && (forall x :: x in r <==> exists v :: v in values && Normal(v, allowed) == Ok(x))
      && (forall x :: Listed(r, x) <==> values == [] || exists v :: v in values && Normal(v, allowed) == Ok(x))
  {
    hide Normal;
    var all := Normals(values, allowed);
    FirstsKeepsTheSet(all);
    FirstsKeepsTheOrder(all);
    NoErrorIsAllNormal(values, allowed);
    forall x ensures x in all <==> exists v :: v in values && Normal(v, allowed) == Ok(x) {
      if x in all {
        var i :| 0 <= i < |all| && all[i] == x;
        assert values[i] in values;
      }
      if v :| v in values && Normal(v, allowed) == Ok(x) {
        var i :| 0 <= i < |values| && values[i] == v;
        assert all[i] == x;
      }
    }
  }

  /** Normalising a normalised list changes nothing. */
  lemma NormalSetIsIdempotent(values: seq<string>, allowed: Option<set<string>>)
    requires NormalSet(values, allowed).Ok?
    ensures NormalSet(NormalSet(values, allowed).value, allowed) == NormalSet(values, allowed)
  {
    hide Normal;
    var r := NormalSet(values, allowed).value;
    NormalSetKeepsTheValues(values, allowed);
    FirstsKeepsTheSet(Normals(values, allowed));
    forall v | v in r ensures Normal(v, allowed) == Ok(v) {
      var w :| w in values && Normal(w, allowed) == Ok(v);
      NormalIsFixed(w, allowed);
    }
    NoErrorIsAllNormal(r, allowed);
    forall i | 0 <= i < |r| ensures Normals(r, allowed)[i] == r[i] {
      assert r[i] in r;
    }
    assert Normals(r, allowed) == r;
    DistinctIsFixed(r);
  }

  // ---- the filters of the two lists ----

  function JobStatuses(): set<string> { {"enabled", "disabled"} }

  function ExecutionStatuses(): set<string> { {"running", "succeeded", "failed"} }

  function Triggers(): set<string> { {"scheduled", "manual"} }

  predicate EmptyRangeOf(from: Option<int>, to: Option<int>)
  {
    from.Some? && to.Some? && from.value >= to.value
  }

  predicate BadDurations(min: Option<int>, max: Option<int>)
  {
    || (min.Some? && min.value < 0) || (max.Some? && max.value < 0)
    || (min.Some? && max.Some? && min.value > max.value)
  }

  method NormalizeJobFilter(f: JobFilter) returns (r: Result<JobFilter, FilterError>)
    ensures r.Ok? <==> JobFilterAccepted(f)
    ensures r.Ok? ==> r.value == NormalJobFilter(f)
  {
    hide NormalSet, Trim, ByteLength, JobStatuses;
    var keyword := Trim(f.keyword);
    if ByteLength(keyword) > MAX_BYTES { return Err(LongKeyword); }
    var ids := NormalizeSet(f.ids, None);
    if ids.Err? { return Err(ids.error); }
    var statuses := NormalizeSet(f.statuses, Some(JobStatuses()));
    if statuses.Err? { return Err(statuses.error); }
    var upstreams := NormalizeSet(f.upstreams, None);
    if upstreams.Err? { return Err(upstreams.error); }
    if EmptyRangeOf(f.createdFrom, f.createdTo) { return Err(EmptyRange); }
    r := Ok(f.(keyword := keyword, ids := ids.value, statuses := statuses.value, upstreams := upstreams.value));
  }

  predicate JobFilterAccepted(f: JobFilter)
  {
    && ByteLength(Trim(f.keyword)) <= MAX_BYTES
    && NormalSet(f.ids, None).Ok? && NormalSet(f.statuses, Some(JobStatuses())).Ok? && NormalSet(f.upstreams, None).Ok?
    && !EmptyRangeOf(f.createdFrom, f.createdTo)
  }

  function NormalJobFilter(f: JobFilter): JobFilter
    requires JobFilterAccepted(f)
  {
    f.(keyword := Trim(f.keyword), ids := NormalSet(f.ids, None).value,
       statuses := NormalSet(f.statuses, Some(JobStatuses())).value, upstreams := NormalSet(f.upstreams, None).value)
  }

  method NormalizeExecutionFilter(f: ExecutionFilter) returns (r: Result<ExecutionFilter, FilterError>)
    ensures r.Ok? <==> ExecutionFilterAccepted(f)
    ensures r.Ok? ==> r.value == NormalExecutionFilter(f)
  {
    hide NormalSet, Trim, ByteLength, ExecutionStatuses, Triggers;
    var keyword := Trim(f.keyword);
    if ByteLength(keyword) > MAX_BYTES { return Err(LongKeyword); }
    var ids := NormalizeSet(f.ids, None);
    if ids.Err? { return Err(ids.error); }
    var statuses := NormalizeSet(f.statuses, Some(ExecutionStatuses()));
    if statuses.Err? { return Err(statuses.error); }
    var triggers := NormalizeSet(f.triggers, Some(Triggers()));
    if triggers.Err? { return Err(triggers.error); }
    if EmptyRangeOf(f.startedFrom, f.startedTo) { return Err(EmptyRange); }
    if BadDurations(f.durationMin, f.durationMax) { return Err(BadDuration); }
    r := Ok(f.(keyword := keyword, ids := ids.value, statuses := statuses.value, triggers := triggers.value));
  }

  predicate ExecutionFilterAccepted(f: ExecutionFilter)
  {
    && ByteLength(Trim(f.keyword)) <= MAX_BYTES
    && NormalSet(f.ids, None).Ok? && NormalSet(f.statuses, Some(ExecutionStatuses())).Ok?
    && NormalSet(f.triggers, Some(Triggers())).Ok?
    && !EmptyRangeOf(f.startedFrom, f.startedTo) && !BadDurations(f.durationMin, f.durationMax)
  }

  function NormalExecutionFilter(f: ExecutionFilter): ExecutionFilter
    requires ExecutionFilterAccepted(f)
  {
    f.(keyword := Trim(f.keyword), ids := NormalSet(f.ids, None).value,
       statuses := NormalSet(f.statuses, Some(ExecutionStatuses())).value,
           triggers := NormalSet(f.triggers, Some(Triggers())).value)
  }

  /** A normalised filter is accepted again, unchanged, and still restricts what the request restricted. */
  lemma NormalJobFilterIsStable(f: JobFilter)
    requires JobFilterAccepted(f)
    ensures var g := NormalJobFilter(f);
      && JobFilterAccepted(g) && NormalJobFilter(g) == g
      && (g.ids == [] <==> f.ids == []) && (g.statuses == [] <==> f.statuses == [])
      && (g.upstreams == [] <==> f.upstreams == [])
  {
    hide NormalSet, Trim, ByteLength, JobStatuses;
    TrimIsIdempotent(f.keyword);
    SetIsStable(f.ids, None);
    SetIsStable(f.statuses, Some(JobStatuses()));
    SetIsStable(f.upstreams, None);
  }

  lemma NormalExecutionFilterIsStable(f: ExecutionFilter)
    requires ExecutionFilterAccepted(f)
    ensures var g := NormalExecutionFilter(f);
      && ExecutionFilterAccepted(g) && NormalExecutionFilter(g) == g
      && (g.ids == [] <==> f.ids == []) && (g.statuses == [] <==> f.statuses == [])
      && (g.triggers == [] <==> f.triggers == [])
  {
    hide NormalSet, Trim, ByteLength, ExecutionStatuses, Triggers;
    TrimIsIdempotent(f.keyword);
    SetIsStable(f.ids, None);
    SetIsStable(f.statuses, Some(ExecutionStatuses()));
    SetIsStable(f.triggers, Some(Triggers()));
  }

  lemma SetIsStable(values: seq<string>, allowed: Option<set<string>>)
    requires NormalSet(values, allowed).Ok?
    ensures NormalSet(NormalSet(values, allowed).value, allowed) == NormalSet(values, allowed)
    ensures NormalSet(values, allowed).value == [] <==> values == []
  {
    hide *;
    NormalSetIsIdempotent(values, allowed);
    NormalSetKeepsTheValues(values, allowed);
  }

  // ---- the same on the inputs ----

  lemma NormalOnInputs(value: string, allowed: Option<set<string>>)
    ensures Normal(value, allowed) == Err(BadValue) <==> Trim(value) == "" || ByteLength(Trim(value)) > 200
    ensures Normal(value, allowed) == Err(Unsupported) <==>
      && Trim(value) != "" && ByteLength(Trim(value)) <= 200
      && allowed != None && Lower(Trim(value)) !in allowed.value
    ensures Normal(value, allowed).Ok? <==>
      && Trim(value) != "" && ByteLength(Trim(value)) <= 200
      && (allowed != None ==> Lower(Trim(value)) in allowed.value)
    ensures Normal(value, allowed).Ok? ==>
      Normal(value, allowed).value == if allowed == None then Trim(value) else Lower(Trim(value))
  {
    hide Trim, Lower, ByteLength;
  }

  ghost predicate FirstFails(values: seq<string>, allowed: Option<set<string>>, i: nat, error: FilterError)
  {
    && i < |values| && Normal(values[i], allowed) == Err(error)
    && forall j :: 0 <= j < i ==> Normal(values[j], allowed).Ok?
  }

  /** The error of a list is the one of its first value without a normal form. */
  lemma {:induction false} FirstErrorIsFirst(values: seq<string>, allowed: Option<set<string>>, error: FilterError)
    ensures FirstError(values, allowed) == Some(error) <==> exists i: nat :: FirstFails(values, allowed, i, error)
  {
    hide Normal;
    if values != [] {
      var before, last := values[..|values| - 1], |values| - 1;
      FirstErrorIsFirst(before, allowed, error);
      NoErrorIsAllNormal(before, allowed);
      if i: nat :| FirstFails(before, allowed, i, error) {
        assert FirstFails(values, allowed, i, error);
      }
      if i: nat :| FirstFails(values, allowed, i, error) {
        if i < last {
          assert FirstFails(before, allowed, i, error);
        } else {
          assert forall v :: v in before ==> Normal(v, allowed).Ok?;
        }
      }
      if FirstError(before, allowed) == None && Normal(values[last], allowed) == Err(error) {
        assert forall j :: 0 <= j < last ==> values[j] == before[j] && before[j] in before;
        assert FirstFails(values, allowed, last, error);
      }
    }
  }

  lemma ListsOnInputs(values: seq<string>, allowed: Option<set<string>>)
    ensures NormalSet(values, allowed).Ok? <==>
      |values| <= 100 && forall v :: v in values ==>
        && Trim(v) != "" && ByteLength(Trim(v)) <= 200 && (allowed != None ==> Lower(Trim(v)) in allowed.value)
    ensures |values| > 100 ==> NormalSet(values, allowed) == Err(TooMany)
  {
    AcceptedLists(values, allowed);
    hide Trim, Lower, ByteLength, Normal;
    forall v | v in values
      ensures Normal(v, allowed).Ok? <==>
        && Trim(v) != "" && ByteLength(Trim(v)) <= 200
        && (allowed != None ==> Lower(Trim(v)) in allowed.value)
    {
      NormalOnInputs(v, allowed);
    }
  }

  /** What a job filter must satisfy, and what becomes of it. */
  lemma JobFilterOnInputs(f: JobFilter)
    ensures JobFilterAccepted(f) <==>
      && ByteLength(Trim(f.keyword)) <= 200
      && NormalSet(f.ids, None).Ok? && NormalSet(f.upstreams, None).Ok?
      && NormalSet(f.statuses, Some({"enabled", "disabled"})).Ok?
      && (f.createdFrom != None && f.createdTo != None ==> f.createdFrom.value < f.createdTo.value)
    ensures JobFilterAccepted(f) ==>
      var g := NormalJobFilter(f);
      && g.scope == f.scope && g.keyword == Trim(f.keyword)
      && g.createdFrom == f.createdFrom && g.createdTo == f.createdTo
      && NormalSet(f.ids, None) == Ok(g.ids) && NormalSet(f.upstreams, None) == Ok(g.upstreams)
      && NormalSet(f.statuses, Some({"enabled", "disabled"})) == Ok(g.statuses)
  {
    hide NormalSet, Trim, ByteLength;
  }

  lemma ExecutionFilterOnInputs(f: ExecutionFilter)
    ensures ExecutionFilterAccepted(f) <==>
      && ByteLength(Trim(f.keyword)) <= 200
      && NormalSet(f.ids, None).Ok? && NormalSet(f.statuses, Some({"running", "succeeded", "failed"})).Ok?
      && NormalSet(f.triggers, Some({"scheduled", "manual"})).Ok?
      && (f.startedFrom != None && f.startedTo != None ==> f.startedFrom.value < f.startedTo.value)
      && (f.durationMin != None ==> f.durationMin.value >= 0) && (f.durationMax != None ==> f.durationMax.value >= 0)
      && (f.durationMin != None && f.durationMax != None ==> f.durationMin.value <= f.durationMax.value)
    ensures ExecutionFilterAccepted(f) ==>
      var g := NormalExecutionFilter(f);
      && g.jobId == f.jobId && g.keyword == Trim(f.keyword)
      && g.startedFrom == f.startedFrom && g.startedTo == f.startedTo
      && g.durationMin == f.durationMin && g.durationMax == f.durationMax
      && NormalSet(f.ids, None) == Ok(g.ids)
      && NormalSet(f.statuses, Some({"running", "succeeded", "failed"})) == Ok(g.statuses)
      && NormalSet(f.triggers, Some({"scheduled", "manual"})) == Ok(g.triggers)
  {
    hide NormalSet, Trim, ByteLength;
  }
}
