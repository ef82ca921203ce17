/** The list filters: what a filter means, and the WHERE clause the repository builds for it. */
module Query {
  import opened Records
  import opened Text
  import opened Pattern
  import opened Sql

  datatype JobFilter = JobFilter(
    scope: Scope, keyword: string, ids: seq<string>, statuses: seq<string>, upstreams: seq<string>,
    createdFrom: Option<int>, createdTo: Option<int>)

  datatype ExecutionFilter = ExecutionFilter(
    jobId: string, keyword: string, ids: seq<string>, statuses: seq<string>, triggers: seq<string>,
    startedFrom: Option<int>, startedTo: Option<int>, durationMin: Option<int>, durationMax: Option<int>)

  // ---- what a filter means ----

  function Wanted(keyword: string): string { "%" + Lower(keyword) + "%" }

  predicate Hit(keyword: string, text: string) { Like(Wanted(keyword), Lower(text)) }

  predicate Listed(values: seq<string>, value: string) { values == [] || value in values }

  predicate InRange(from: Option<int>, to: Option<int>, at: int)
  {
    && (from.Some? ==> from.value <= at)
    && (to.Some? ==> at < to.value)
  }

  predicate InBounds(min: Option<int>, max: Option<int>, length: int)
  {
    && (min.Some? ==> min.value <= length)
    && (max.Some? ==> length <= max.value)
  }

  predicate JobMatches(f: JobFilter, job: Job)
  {
    && job.scope == f.scope && job.Live()
    && (f.keyword == "" || Hit(f.keyword, job.definition.name) || Hit(f.keyword, job.definition.upstream)
        || Hit(f.keyword, job.definition.fullMethod))
    && Listed(f.ids, job.id) && Listed(f.statuses, StatusText(job.definition.status))
    && Listed(f.upstreams, job.definition.upstream)
    && InRange(f.createdFrom, f.createdTo, job.audit.createdAt)
  }

  predicate ExecutionMatches(f: ExecutionFilter, e: Execution)
  {
    && e.jobId == f.jobId && e.Live()
    && (f.keyword == "" || Hit(f.keyword, e.outcome.errorCode) || Hit(f.keyword, e.outcome.errorMessage))
    && Listed(f.ids, e.id) && Listed(f.statuses, OutcomeText(e.outcome.status))
    && Listed(f.triggers, TriggerText(e.trigger))
    && InRange(f.startedFrom, f.startedTo, e.startedAt) && InBounds(f.durationMin, f.durationMax, e.duration)
  }

  // ---- single tests ----

  ghost predicate HasText(row: Row, column: Column, text: string)
  {
    CellOf(row, column) == Some(TextCell(text))
  }

  ghost predicate HasNumber(row: Row, column: Column, number: int)
  {
    CellOf(row, column) == Some(NumberCell(number))
  }

  function LikeTokens(column: Column): seq<Token> { [LowerOf, Open, Word(column), Close, LikeWord, Hole] }

  lemma LikeIsFactor(row: Row, column: Column, text: string, keyword: string)
    requires HasText(row, column, text)
    ensures IsFactor(row, LikeTokens(column), [TextArg(Wanted(keyword))], Hit(keyword, text))
  {
    hide Like, Lower, Wanted, CellOf;
    forall rest, more
      ensures Factor(row, LikeTokens(column) + rest, [TextArg(Wanted(keyword))] + more)
          == Some(Reading(Hit(keyword, text), rest, more))
    {
      var all := LikeTokens(column) + rest;
      assert all[3..6] == [Close, LikeWord, Hole] && all[6..] == rest;
      assert ([TextArg(Wanted(keyword))] + more)[1..] == more;
    }
  }

  lemma ComparisonIsFactor(row: Row, column: Column, op: Comparison, arg: Arg, holds: bool)
    requires Holds(op, CellOf(row, column), arg) == Some(holds)
    ensures IsFactor(row, [Word(column), Op(op), Hole], [arg], holds)
  {
    hide CellOf, Holds;
    forall rest, more
      ensures Factor(row, [Word(column), Op(op), Hole] + rest, [arg] + more) == Some(Reading(holds, rest, more))
    {
      assert ([Word(column), Op(op), Hole] + rest)[3..] == rest && ([arg] + more)[1..] == more;
    }
  }

  lemma NullIsFactor(row: Row, column: Column)
    requires CellOf(row, column).Some?
    ensures IsFactor(row, [Word(column), IsNull], [], CellOf(row, column).value.NullCell?)
  {
    hide CellOf;
    forall rest, more: seq<Arg>
      ensures Factor(row, [Word(column), IsNull] + rest, [] + more)
          == Some(Reading(CellOf(row, column).value.NullCell?, rest, more))
    {
      assert ([Word(column), IsNull] + rest)[2..] == rest && [] + more == more;
    }
  }

  /** The `?, ?, ...` a list parameter is expanded to. */
  function Holes(n: nat): seq<Token>
  {
    if n == 0 then [] else if n == 1 then [Hole] else [Hole, Comma] + Holes(n - 1)
  }

  function TextArgs(values: seq<string>): seq<Arg>
  {
    seq(|values|, i requires 0 <= i < |values| => TextArg(values[i]))
  }

  lemma {:induction false} MembersAreListed(text: string, values: seq<string>, rest: seq<Token>, more: seq<Arg>)
    requires values != []
    ensures Members(Some(TextCell(text)), Holes(|values|) + ([Close] + rest), TextArgs(values) + more)
        == Some(Reading(text in values, rest, more))
    decreases |values|
  {
    var tokens, args := Holes(|values|) + ([Close] + rest), TextArgs(values) + more;
    var others := values[1..];
    assert args[0] == TextArg(values[0]) && args[1..] == TextArgs(others) + more;
    if |values| == 1 {
      assert tokens == [Hole, Close] + rest && tokens[2..] == rest;
      assert args[1..] == more;
    } else {
      assert tokens[2..] == Holes(|others|) + ([Close] + rest);
      MembersAreListed(text, others, rest, more);
      assert values == [values[0]] + others;
    }
  }

  lemma InOpens(row: Row, column: Column, tail: seq<Token>, args: seq<Arg>)
    ensures Factor(row, [Word(column), InWord, Open] + tail, args) == Members(CellOf(row, column), tail, args)
  {
    hide CellOf, Members;
    assert ([Word(column), InWord, Open] + tail)[3..] == tail;
  }

  lemma InIsFactor(row: Row, column: Column, text: string, values: seq<string>)
    requires HasText(row, column, text) && values != []
    ensures IsFactor(row, [Word(column), InWord, Open] + Holes(|values|) + [Close], TextArgs(values), text in values)
  {
    hide Factor, CellOf, Holes, Members, TextArgs;
    forall rest, more
      ensures Factor(row, ([Word(column), InWord, Open] + Holes(|values|) + [Close]) + rest, TextArgs(values) + more)
          == Some(Reading(text in values, rest, more))
    {
      var tail := Holes(|values|) + ([Close] + rest);
      assert ([Word(column), InWord, Open] + Holes(|values|) + [Close]) + rest == [Word(column), InWord, Open] + tail;
      InOpens(row, column, tail, TextArgs(values) + more);
      MembersAreListed(text, values, rest, more);
    }
  }

  // ---- the builder ----

  /** A longer clause asks for what the shorter one asks for, and for one thing more. */
  ghost predicate Adds(row: Row, where: seq<Token>, args: seq<Arg>, longer: seq<Token>, more: seq<Arg>, asked: bool)
  {
    forall truth :: IsChain(row, where, args, truth) ==> IsChain(row, longer, more, truth && asked)
  }

  lemma FactorAdds(row: Row, where: seq<Token>, args: seq<Arg>, factor: seq<Token>, values: seq<Arg>, asked: bool)
    requires IsFactor(row, factor, values, asked)
    ensures Adds(row, where, args, where + [AndWord] + factor, args + values, asked)
  {
    hide IsChain, IsFactor;
    forall truth | IsChain(row, where, args, truth)
      ensures IsChain(row, where + [AndWord] + factor, args + values, truth && asked)
    {
      AndExtends(row, where, args, truth, factor, values, asked);
    }
  }

  ghost predicate HaveTexts(row: Row, columns: seq<Column>, texts: seq<string>)
  {
    |columns| == |texts| && forall i :: 0 <= i < |columns| ==> HasText(row, columns[i], texts[i])
  }

  ghost predicate SomeHit(keyword: string, texts: seq<string>, n: nat)
  {
    exists i :: 0 <= i < n && i < |texts| && Hit(keyword, texts[i])
  }

  lemma AnotherColumn(row: Row, inner: seq<Token>, hits: seq<Arg>, keyword: string, columns: seq<Column>,
      texts: seq<string>, n: nat)
    requires n < |columns| && HaveTexts(row, columns, texts)
    requires n > 0 ==> IsChoice(row, inner, hits, SomeHit(keyword, texts, n))
    requires n == 0 ==> inner == [] && hits == []
    ensures IsChoice(row, (if n > 0 then inner + [OrWord] else inner) + LikeTokens(columns[n]),
        hits + [TextArg(Wanted(keyword))], SomeHit(keyword, texts, n + 1))
  {
    hide LikeTokens, HasText, Hit, IsFactor, IsChoice;
    var test, value := LikeTokens(columns[n]), [TextArg(Wanted(keyword))];
    LikeIsFactor(row, columns[n], texts[n], keyword);
    if n == 0 {
      FactorIsChoice(row, test, value, Hit(keyword, texts[0]));
      assert inner + test == test && hits + value == value;
      assert SomeHit(keyword, texts, 1) == Hit(keyword, texts[0]);
    } else {
      OrExtends(row, inner, hits, SomeHit(keyword, texts, n), test, value, Hit(keyword, texts[n]));
      assert SomeHit(keyword, texts, n + 1) == (SomeHit(keyword, texts, n) || Hit(keyword, texts[n]));
    }
  }

  method AppendLikeFilter(where: seq<Token>, args: seq<Arg>, keyword: string, columns: seq<Column>)
      returns (longer: seq<Token>, more: seq<Arg>)
    requires columns != []
    ensures forall row, texts :: HaveTexts(row, columns, texts) ==>
      Adds(row, where, args, longer, more, keyword == "" || SomeHit(keyword, texts, |columns|))
  {
    hide IsChain, IsChoice, IsFactor, HaveTexts, SomeHit, LikeTokens, Wanted;
    longer, more := where, args;
    if keyword == "" {
      return;
    }
    longer := longer + [AndWord, Open];
    ghost var inner, hits: seq<Arg> := [], [];
    for index := 0 to |columns|
      invariant longer == where + [AndWord, Open] + inner && more == args + hits
      invariant index == 0 ==> inner == [] && hits == []
      invariant forall row, texts ::
        HaveTexts(row, columns, texts) && index > 0
        ==> IsChoice(row, inner, hits, SomeHit(keyword, texts, index))
    {
      forall row, texts | HaveTexts(row, columns, texts)
        ensures IsChoice(row, (if index > 0 then inner + [OrWord] else inner) + LikeTokens(columns[index]),
            hits + [TextArg(Wanted(keyword))], SomeHit(keyword, texts, index + 1))
      {
        AnotherColumn(row, inner, hits, keyword, columns, texts, index);
      }
      if index > 0 {
        longer := longer + [OrWord];
      }
      longer := longer + LikeTokens(columns[index]);
      more := more + [TextArg(Wanted(keyword))];
      inner := (if index > 0 then inner + [OrWord] else inner) + LikeTokens(columns[index]);
      hits := hits + [TextArg(Wanted(keyword))];
    }
    longer := longer + [Close];
    assert longer == where + [AndWord] + ([Open] + inner + [Close]);
    forall row, texts | HaveTexts(row, columns, texts)
      ensures Adds(row, where, args, longer, more, SomeHit(keyword, texts, |columns|))
    {
      ParenthesesEnclose(row, inner, hits, SomeHit(keyword, texts, |columns|));
      FactorAdds(row, where, args, [Open] + inner + [Close], hits, SomeHit(keyword, texts, |columns|));
    }
  }

  method AppendInFilter(where: seq<Token>, args: seq<Arg>, column: Column, values: seq<string>)
      returns (longer: seq<Token>, more: seq<Arg>)
    ensures forall row, text ::
      HasText(row, column, text)
      ==> Adds(row, where, args, longer, more, Listed(values, text))
  {
    hide IsChain, IsFactor, HasText, Holes, TextArgs;
    longer, more := where, args;
    if values == [] {
      return;
    }
    var clause := [Word(column), InWord, Open] + Holes(|values|) + [Close];
    longer, more := longer + [AndWord] + clause, more + TextArgs(values);
    forall row, text | HasText(row, column, text) ensures Adds(row, where, args, longer, more, Listed(values, text)) {
      InIsFactor(row, column, text, values);
      FactorAdds(row, where, args, clause, TextArgs(values), text in values);
    }
  }

  /** One optional numeric bound, as every range test appends it. */
  method AppendBound(where: seq<Token>, args: seq<Arg>, column: Column, op: Comparison, bound: Option<int>)
      returns (longer: seq<Token>, more: seq<Arg>)
    ensures forall row, number :: HasNumber(row, column, number) ==>
      Adds(row, where, args, longer, more, bound.Some? ==> Compares(op, number, bound.value))
  {
    hide IsChain, IsFactor, CellOf;
    longer, more := where, args;
    if bound.Some? {
      longer, more := longer + [AndWord] + [Word(column), Op(op), Hole], more + [NumberArg(bound.value)];
      forall row, number | HasNumber(row, column, number)
        ensures Adds(row, where, args, longer, more, Compares(op, number, bound.value))
      {
        ComparisonIsFactor(row, column, op, NumberArg(bound.value), Compares(op, number, bound.value));
        FactorAdds(row, where, args, [Word(column), Op(op), Hole], [NumberArg(bound.value)],
            Compares(op, number, bound.value));
      }
    }
  }

  lemma AddsBoth(row: Row, where: seq<Token>, args: seq<Arg>, middle: seq<Token>, some: seq<Arg>, longer: seq<Token>,
      more: seq<Arg>, first: bool, second: bool)
    requires Adds(row, where, args, middle, some, first) && Adds(row, middle, some, longer, more, second)
    ensures Adds(row, where, args, longer, more, first && second)
  {
    hide IsChain;
  }

  method AppendTimeRange(where: seq<Token>, args: seq<Arg>, column: Column, from: Option<int>, to: Option<int>)
      returns (longer: seq<Token>, more: seq<Arg>)
    ensures forall row, at :: HasNumber(row, column, at) ==> Adds(row, where, args, longer, more, InRange(from, to, at))
  {
    hide Adds, HasNumber;
    var middle, some := AppendBound(where, args, column, AtLeast, from);
    longer, more := AppendBound(middle, some, column, Less, to);
    forall row, at | HasNumber(row, column, at) ensures Adds(row, where, args, longer, more, InRange(from, to, at)) {
      AddsBoth(row, where, args, middle, some, longer, more,
        from.Some? ==> Compares(AtLeast, at, from.value), to.Some? ==> Compares(Less, at, to.value));
    }
  }

  // ---- the two list queries ----

  predicate InScope(scope: Scope, job: Job) { job.scope == scope && job.Live() }

  lemma JobClauseStarts(scope: Scope, job: Job)
    ensures IsChain(JobRow(job),
      [Word(TenantId), Op(Equal), Hole] + [AndWord] + [Word(ApplicationId), Op(Equal), Hole]
        + [AndWord] + [Word(DeletedAt), IsNull],
      [TextArg(scope.tenant)] + [TextArg(scope.application)] + [], InScope(scope, job))
  {
    hide IsChain, IsFactor;
    var row, tenant, application := JobRow(job), TextArg(scope.tenant), TextArg(scope.application);
    ComparisonIsFactor(row, TenantId, Equal, tenant, job.scope.tenant == scope.tenant);
    ComparisonIsFactor(row, ApplicationId, Equal, application, job.scope.application == scope.application);
    NullIsFactor(row, DeletedAt);
    FactorIsChain(row, [Word(TenantId), Op(Equal), Hole], [tenant], job.scope.tenant == scope.tenant);
    AndExtends(row, [Word(TenantId), Op(Equal), Hole], [tenant], job.scope.tenant == scope.tenant,
      [Word(ApplicationId), Op(Equal), Hole], [application], job.scope.application == scope.application);
    AndExtends(row, [Word(TenantId), Op(Equal), Hole] + [AndWord] + [Word(ApplicationId), Op(Equal), Hole],
      [tenant] + [application], job.scope.tenant == scope.tenant && job.scope.application == scope.application,
      [Word(DeletedAt), IsNull], [], job.Live());
  }

  lemma JobTexts(job: Job)
    ensures var row := JobRow(job);
      && HaveTexts(row, [Name, Upstream, FullMethod], [job.definition.name, job.definition.upstream,
          job.definition.fullMethod])
      && HasText(row, Id, job.id) && HasText(row, Status, StatusText(job.definition.status))
      && HasText(row, Upstream, job.definition.upstream)
      && HasNumber(row, CreatedAt, job.audit.createdAt)
  {
  }

  lemma ThreeHits(keyword: string, a: string, b: string, c: string)
    ensures SomeHit(keyword, [a, b, c], 3) <==> Hit(keyword, a) || Hit(keyword, b) || Hit(keyword, c)
  {
    hide Hit;
    var texts := [a, b, c];
    assert texts[0] == a && texts[1] == b && texts[2] == c;
  }

  lemma TwoHits(keyword: string, a: string, b: string)
    ensures SomeHit(keyword, [a, b], 2) <==> Hit(keyword, a) || Hit(keyword, b)
  {
    hide Hit;
    var texts := [a, b];
    assert texts[0] == a && texts[1] == b;
  }

  /** The clause of ListJobs selects exactly the jobs the filter means. */
  method JobWhere(filter: JobFilter) returns (where: seq<Token>, args: seq<Arg>)
    ensures forall job :: Where(JobRow(job), where, args) == Some(JobMatches(filter, job))
  {
    hide IsChain, Adds, HaveTexts, HasText, HasNumber, SomeHit, Hit, Listed, InRange, Where, StatusText;
    var w0 := [Word(TenantId), Op(Equal), Hole] + [AndWord] + [Word(ApplicationId), Op(Equal), Hole]
      + [AndWord] + [Word(DeletedAt), IsNull];
    var a0 := [TextArg(filter.scope.tenant)] + [TextArg(filter.scope.application)] + [];
    var w1, a1 := AppendLikeFilter(w0, a0, filter.keyword, [Name, Upstream, FullMethod]);
    var w2, a2 := AppendInFilter(w1, a1, Id, filter.ids);
    var w3, a3 := AppendInFilter(w2, a2, Status, filter.statuses);
    var w4, a4 := AppendInFilter(w3, a3, Upstream, filter.upstreams);
    where, args := AppendTimeRange(w4, a4, CreatedAt, filter.createdFrom, filter.createdTo);
    forall job ensures Where(JobRow(job), where, args) == Some(JobMatches(filter, job)) {
      var row, d := JobRow(job), job.definition;
      JobClauseStarts(filter.scope, job);
      JobTexts(job);
      ThreeHits(filter.keyword, d.name, d.upstream, d.fullMethod);
      var searched := filter.keyword == "" || SomeHit(filter.keyword, [d.name, d.upstream, d.fullMethod], 3);
      assert Adds(row, w0, a0, w1, a1, searched);
      AddsBoth(row, w0, a0, w1, a1, w2, a2, searched, Listed(filter.ids, job.id));
      AddsBoth(row, w2, a2, w3, a3, w4, a4, Listed(filter.statuses, StatusText(d.status)),
          Listed(filter.upstreams, d.upstream));
      AddsBoth(row, w0, a0, w2, a2, w4, a4, searched && Listed(filter.ids, job.id),
          Listed(filter.statuses, StatusText(d.status)) && Listed(filter.upstreams, d.upstream));
      AddsBoth(row, w0, a0, w4, a4, where, args,
        searched && Listed(filter.ids, job.id) && Listed(filter.statuses, StatusText(d.status))
            && Listed(filter.upstreams, d.upstream),
        InRange(filter.createdFrom, filter.createdTo, job.audit.createdAt));
      WholeClause(row, w0, a0, where, args, InScope(filter.scope, job), JobMatches(filter, job),
        searched && Listed(filter.ids, job.id) && Listed(filter.statuses, StatusText(d.status))
            && Listed(filter.upstreams, d.upstream)
        && InRange(filter.createdFrom, filter.createdTo, job.audit.createdAt));
    }
  }

  lemma WholeClause(row: Row, start: seq<Token>, first: seq<Arg>, where: seq<Token>, args: seq<Arg>, scoped: bool,
      whole: bool, asked: bool)
    requires IsChain(row, start, first, scoped) && Adds(row, start, first, where, args, asked)
        && whole == (scoped && asked)
    ensures Where(row, where, args) == Some(whole)
  {
    hide IsChain;
    ChainIsRead(row, where, args, whole);
  }

  lemma ExecutionClauseStarts(jobId: string, e: Execution)
    ensures IsChain(ExecutionRow(e), [Word(JobId), Op(Equal), Hole] + [AndWord] + [Word(DeletedAt), IsNull],
        [TextArg(jobId)] + [], e.jobId == jobId && e.Live())
  {
    hide IsChain, IsFactor;
    var row := ExecutionRow(e);
    ComparisonIsFactor(row, JobId, Equal, TextArg(jobId), e.jobId == jobId);
    NullIsFactor(row, DeletedAt);
    FactorIsChain(row, [Word(JobId), Op(Equal), Hole], [TextArg(jobId)], e.jobId == jobId);
    AndExtends(row, [Word(JobId), Op(Equal), Hole], [TextArg(jobId)], e.jobId == jobId, [Word(DeletedAt), IsNull], [],
        e.Live());
  }

  lemma ExecutionTexts(e: Execution)
    ensures var row := ExecutionRow(e);
      && HaveTexts(row, [ErrorCode, ErrorMessage], [e.outcome.errorCode, e.outcome.errorMessage])
      && HasText(row, Id, e.id) && HasText(row, Status, OutcomeText(e.outcome.status))
      && HasText(row, TriggerType, TriggerText(e.trigger))
      && HasNumber(row, StartedAt, e.startedAt) && HasNumber(row, Duration, e.duration)
  {
  }

  /** The clause of ListExecutions selects exactly the executions the filter means. */
  method ExecutionWhere(filter: ExecutionFilter) returns (where: seq<Token>, args: seq<Arg>)
    ensures forall e :: Where(ExecutionRow(e), where, args) == Some(ExecutionMatches(filter, e))
  {
    hide IsChain, Adds, HaveTexts, HasText, HasNumber, SomeHit, Hit, Listed, InRange, Where, OutcomeText, TriggerText;
    var w0, a0 := [Word(JobId), Op(Equal), Hole] + [AndWord] + [Word(DeletedAt), IsNull], [TextArg(filter.jobId)] + [];
    var w1, a1 := AppendLikeFilter(w0, a0, filter.keyword, [ErrorCode, ErrorMessage]);
    var w2, a2 := AppendInFilter(w1, a1, Id, filter.ids);
    var w3, a3 := AppendInFilter(w2, a2, Status, filter.statuses);
    var w4, a4 := AppendInFilter(w3, a3, TriggerType, filter.triggers);
    var w5, a5 := AppendTimeRange(w4, a4, StartedAt, filter.startedFrom, filter.startedTo);
    var w6, a6 := AppendBound(w5, a5, Duration, AtLeast, filter.durationMin);
    where, args := AppendBound(w6, a6, Duration, UpTo, filter.durationMax);
    forall e ensures Where(ExecutionRow(e), where, args) == Some(ExecutionMatches(filter, e)) {
      var row, o := ExecutionRow(e), e.outcome;
      ExecutionClauseStarts(filter.jobId, e);
      ExecutionTexts(e);
      TwoHits(filter.keyword, o.errorCode, o.errorMessage);
      var searched := filter.keyword == "" || SomeHit(filter.keyword, [o.errorCode, o.errorMessage], 2);
      var listed := Listed(filter.statuses, OutcomeText(o.status)) && Listed(filter.triggers, TriggerText(e.trigger));
      var started := InRange(filter.startedFrom, filter.startedTo, e.startedAt);
      var least := filter.durationMin.Some? ==> Compares(AtLeast, e.duration, filter.durationMin.value);
      var most := filter.durationMax.Some? ==> Compares(UpTo, e.duration, filter.durationMax.value);
      assert Adds(row, w0, a0, w1, a1, searched);
      AddsBoth(row, w0, a0, w1, a1, w2, a2, searched, Listed(filter.ids, e.id));
      AddsBoth(row, w2, a2, w3, a3, w4, a4, Listed(filter.statuses, OutcomeText(o.status)),
          Listed(filter.triggers, TriggerText(e.trigger)));
      AddsBoth(row, w0, a0, w2, a2, w4, a4, searched && Listed(filter.ids, e.id), listed);
      AddsBoth(row, w0, a0, w4, a4, w5, a5, searched && Listed(filter.ids, e.id) && listed, started);
      AddsBoth(row, w5, a5, w6, a6, where, args, least, most);
      AddsBoth(row, w0, a0, w5, a5, where, args, searched && Listed(filter.ids, e.id) && listed && started, least
          && most);
      WholeClause(row, w0, a0, where, args, e.jobId == filter.jobId && e.Live(), ExecutionMatches(filter, e),
        (searched && Listed(filter.ids, e.id) && listed && started) && (least && most));
    }
  }

  // ---- what the filters promise ----

  /** Two adjacent creation ranges split the combined range: no job is in both, none is lost. */
  lemma AdjacentJobRangesPartition(f: JobFilter, middle: int, job: Job)
    requires f.createdFrom.Some? ==> f.createdFrom.value <= middle
    requires f.createdTo.Some? ==> middle <= f.createdTo.value
    ensures JobMatches(f, job) <==>
      JobMatches(f.(createdTo := Some(middle)), job)
      || JobMatches(f.(createdFrom := Some(middle)), job)
    ensures !(JobMatches(f.(createdTo := Some(middle)), job) && JobMatches(f.(createdFrom := Some(middle)), job))
  {
    hide Hit, StatusText;
  }

  lemma AdjacentExecutionRangesPartition(f: ExecutionFilter, middle: int, e: Execution)
    requires f.startedFrom.Some? ==> f.startedFrom.value <= middle
    requires f.startedTo.Some? ==> middle <= f.startedTo.value
    ensures ExecutionMatches(f, e) <==>
      ExecutionMatches(f.(startedTo := Some(middle)), e)
      || ExecutionMatches(f.(startedFrom := Some(middle)), e)
    ensures !(ExecutionMatches(f.(startedTo := Some(middle)), e)
        && ExecutionMatches(f.(startedFrom := Some(middle)), e))
  {
    hide Hit, OutcomeText, TriggerText;
  }

  lemma PlainSurvivesLowering(keyword: string)
    ensures Plain(Lower(keyword)) <==> Plain(keyword)
  {
    forall i | 0 <= i < |keyword| ensures IsSpecial(Lower(keyword)[i]) <==> IsSpecial(keyword[i]) {
    }
    if !Plain(keyword) {
      var i :| 0 <= i < |keyword| && IsSpecial(keyword[i]);
      assert IsSpecial(Lower(keyword)[i]);
    }
  }

  lemma {:induction false} SampleIsLower(keyword: string)
    requires Lower(keyword) == keyword
    ensures Lower(Sample(keyword)) == Sample(keyword)
    decreases |keyword|
  {
    if keyword != [] {
      assert Lower(keyword[1..]) == keyword[1..];
      SampleIsLower(keyword[1..]);
      if |keyword| > 1 {
        assert Lower(keyword[2..]) == keyword[2..];
        SampleIsLower(keyword[2..]);
      }
    }
  }

  /** The keyword is found exactly in the texts that contain it, case aside, iff it has no `%`, `_` or `\`. */
  lemma KeywordSearchIsExactlyPlain(keyword: string)
    ensures (forall text :: Hit(keyword, text) <==> Contains(Lower(text), Lower(keyword))) <==> Plain(keyword)
  {
    hide Like, Contains, Plain, Sample;
    var lowered := Lower(keyword);
    PlainSurvivesLowering(keyword);
    if Plain(keyword) {
      forall text ensures Hit(keyword, text) <==> Contains(Lower(text), lowered) {
        PlainLikeIsContains(lowered, Lower(text));
      }
    } else {
      var text := Sample(lowered);
      assert Lower(lowered) == lowered;
      SampleIsLower(lowered);
      SampleMisleads(lowered);
      assert Hit(keyword, text) && !Contains(Lower(text), lowered);
    }
  }

  // ---- the filters, on the columns of a row ----

  lemma JobMatchesOnColumns(f: JobFilter, job: Job)
    ensures JobMatches(f, job) <==>
      && job.scope.tenant == f.scope.tenant && job.scope.application == f.scope.application
      && job.audit.deletedAt == None
      && (f.keyword != "" ==>
            exists text ::
              && text in {job.definition.name, job.definition.upstream, job.definition.fullMethod}
              && Like("%" + Lower(f.keyword) + "%", Lower(text)))
      && (f.ids != [] ==> job.id in f.ids)
      && (f.statuses != [] ==> (if job.definition.status == Enabled then "enabled" else "disabled") in f.statuses)
      && (f.upstreams != [] ==> job.definition.upstream in f.upstreams)
      && (f.createdFrom != None ==> f.createdFrom.value <= job.audit.createdAt)
      && (f.createdTo != None ==> job.audit.createdAt < f.createdTo.value)
  {
    hide Like, Lower;
  }

  lemma ExecutionMatchesOnColumns(f: ExecutionFilter, e: Execution)
    ensures ExecutionMatches(f, e) <==>
      && e.jobId == f.jobId && e.audit.deletedAt == None
      && (f.keyword != "" ==>
            exists text ::
              && text in {e.outcome.errorCode, e.outcome.errorMessage}
              && Like("%" + Lower(f.keyword) + "%", Lower(text)))
      && (f.ids != [] ==> e.id in f.ids)
      && (f.statuses != [] ==>
            (match e.outcome.status case Running => "running" case Succeeded => "succeeded" case Failed => "failed")
              in f.statuses)
      && (f.triggers != [] ==> (if e.trigger == Scheduled then "scheduled" else "manual") in f.triggers)
      && (f.startedFrom != None ==> f.startedFrom.value <= e.startedAt)
      && (f.startedTo != None ==> e.startedAt < f.startedTo.value)
      && (f.durationMin != None ==> f.durationMin.value <= e.duration)
      && (f.durationMax != None ==> e.duration <= f.durationMax.value)
  {
    hide Like, Lower;
  }
}
