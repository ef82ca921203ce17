/** A WHERE clause as the database reads it: words, placeholders and their arguments in order. */
module Sql {
  import opened Records
  import opened Text
  import opened Pattern

  datatype Column =
    | Id | TenantId | ApplicationId | Name | Upstream | FullMethod | Status | CreatedAt | DeletedAt
    | JobId | ErrorCode | ErrorMessage | TriggerType | StartedAt | Duration

  datatype Comparison = Equal | Less | AtLeast | UpTo

  datatype Token =
    | Word(column: Column) | Op(comparison: Comparison) | Hole
    | LowerOf | LikeWord | InWord | IsNull | AndWord | OrWord | Open | Close | Comma

  datatype Arg = TextArg(text: string) | NumberArg(number: int)

  datatype Cell = TextCell(text: string) | NumberCell(number: int) | NullCell

  datatype Row = JobRow(job: Job) | ExecutionRow(execution: Execution)

  const ENABLED := "enabled"
  const DISABLED := "disabled"

  function StatusText(s: JobStatus): string { if s == Enabled then ENABLED else DISABLED }

  function OutcomeText(s: ExecutionStatus): string
  {
    match s case Running => "running" case Succeeded => "succeeded" case Failed => "failed"
  }

  function TriggerText(t: Trigger): string { if t == Scheduled then "scheduled" else "manual" }

  function TimeCell(t: Option<int>): Cell { if t.Some? then NumberCell(t.value) else NullCell }

  /** A column of a row; none when the table has no such column. */
  function CellOf(row: Row, column: Column): Option<Cell>
  {
    match row
    case JobRow(j) => JobCell(j, column)
    case ExecutionRow(e) => ExecutionCell(e, column)
  }

  function JobCell(j: Job, column: Column): Option<Cell>
  {
    match column
    case Id => Some(TextCell(j.id))
    case TenantId => Some(TextCell(j.scope.tenant))
    case ApplicationId => Some(TextCell(j.scope.application))
    case Name => Some(TextCell(j.definition.name))
    case Upstream => Some(TextCell(j.definition.upstream))
    case FullMethod => Some(TextCell(j.definition.fullMethod))
    case Status => Some(TextCell(StatusText(j.definition.status)))
    case CreatedAt => Some(NumberCell(j.audit.createdAt))
    case DeletedAt => Some(TimeCell(j.audit.deletedAt))
    case _ => None
  }

  function ExecutionCell(e: Execution, column: Column): Option<Cell>
  {
    match column
    case Id => Some(TextCell(e.id))
    case JobId => Some(TextCell(e.jobId))
    case TenantId => Some(TextCell(e.scope.tenant))
    case ApplicationId => Some(TextCell(e.scope.application))
    case Status => Some(TextCell(OutcomeText(e.outcome.status)))
    case ErrorCode => Some(TextCell(e.outcome.errorCode))
    case ErrorMessage => Some(TextCell(e.outcome.errorMessage))
    case TriggerType => Some(TextCell(TriggerText(e.trigger)))
    case StartedAt => Some(NumberCell(e.startedAt))
    case Duration => Some(NumberCell(e.duration))
    case CreatedAt => Some(NumberCell(e.audit.createdAt))
    case DeletedAt => Some(TimeCell(e.audit.deletedAt))
    case _ => None
  }

  // ---- reading a clause ----

  /** What a parse found: the truth of what it read, and what it left. */
  datatype Reading = Reading(truth: bool, rest: seq<Token>, args: seq<Arg>)

  function Found(truth: Option<bool>, rest: seq<Token>, args: seq<Arg>): Option<Reading>
  {
    if truth.Some? then Some(Reading(truth.value, rest, args)) else None
  }

  /** A comparison of a column with its argument: an error on a type mismatch, not true on NULL. */
  function Holds(op: Comparison, cell: Option<Cell>, arg: Arg): Option<bool>
  {
    if cell.None? then None
    else if cell.value.NullCell? then Some(false)
    else if cell.value.TextCell? && arg.TextArg? && op.Equal? then Some(cell.value.text == arg.text)
    else if cell.value.NumberCell? && arg.NumberArg? then Some(Compares(op, cell.value.number, arg.number))
    else None
  }

  predicate Compares(op: Comparison, left: int, right: int)
  {
    match op
    case Equal => left == right
    case Less => left < right
    case AtLeast => left >= right
    case UpTo => left <= right
  }

  function Matches(cell: Option<Cell>, arg: Arg): Option<bool>
  {
    if cell.Some? && cell.value.TextCell? && arg.TextArg? then Some(Like(arg.text, Lower(cell.value.text))) else None
  }

  function Absent(cell: Option<Cell>): Option<bool>
  {
    if cell.Some? then Some(cell.value.NullCell?) else None
  }

  /** `?, ?, ...)`: whether the cell is among the arguments. */
  function Members(cell: Option<Cell>, tokens: seq<Token>, args: seq<Arg>): (r: Option<Reading>)
    ensures r.Some? ==> |r.value.rest| < |tokens|
    decreases |tokens|
  {
    if |tokens| < 2 || tokens[0] != Hole || args == [] then None
    else
      var here := Holds(Equal, cell, args[0]);
      if tokens[1] == Close then Found(here, tokens[2..], args[1..])
      else if tokens[1] == Comma then
        var others := Members(cell, tokens[2..], args[1..]);
        if here.Some? && others.Some? then Some(others.value.(truth := here.value || others.value.truth)) else None
      else None
  }

  function Test(row: Row, tokens: seq<Token>, args: seq<Arg>): (r: Option<Reading>)
    ensures r.Some? ==> |r.value.rest| < |tokens|
  {
    if |tokens| >= 6 && tokens[0] == LowerOf && tokens[1] == Open && tokens[2].Word?
        && tokens[3..6] == [Close, LikeWord, Hole] && args != [] then
      Found(Matches(CellOf(row, tokens[2].column), args[0]), tokens[6..], args[1..])
    else if |tokens| >= 2 && tokens[0].Word? && tokens[1] == IsNull then
      Found(Absent(CellOf(row, tokens[0].column)), tokens[2..], args)
    else if |tokens| >= 3 && tokens[0].Word? && tokens[1].Op? && tokens[2] == Hole && args != [] then
      Found(Holds(tokens[1].comparison, CellOf(row, tokens[0].column), args[0]), tokens[3..], args[1..])
    else if |tokens| >= 3 && tokens[0].Word? && tokens[1] == InWord && tokens[2] == Open then
      Members(CellOf(row, tokens[0].column), tokens[3..], args)
    else None
  }

  function Factor(row: Row, tokens: seq<Token>, args: seq<Arg>): (r: Option<Reading>)
    ensures r.Some? ==> |r.value.rest| < |tokens|
    decreases |tokens|, 0
  {
    if tokens != [] && tokens[0] == Open then
      var inner := Disjunction(row, tokens[1..], args);
      if inner.Some? && inner.value.rest != [] && inner.value.rest[0] == Close
      then Some(inner.value.(rest := inner.value.rest[1..])) else None
    else Test(row, tokens, args)
  }

  function MoreAnds(row: Row, truth: bool, rest: seq<Token>, args: seq<Arg>): (r: Option<Reading>)
    ensures r.Some? ==> |r.value.rest| <= |rest|
    decreases |rest|, 3
  {
    if rest != [] && rest[0] == AndWord then
      var others := Conjunction(row, rest[1..], args);
      if others.Some? then Some(others.value.(truth := truth && others.value.truth)) else None
    else Some(Reading(truth, rest, args))
  }

  function Conjunction(row: Row, tokens: seq<Token>, args: seq<Arg>): (r: Option<Reading>)
    ensures r.Some? ==> |r.value.rest| < |tokens|
    decreases |tokens|, 1
  {
    var first := Factor(row, tokens, args);
    if first.Some? then MoreAnds(row, first.value.truth, first.value.rest, first.value.args) else None
  }

  function MoreOrs(row: Row, truth: bool, rest: seq<Token>, args: seq<Arg>): (r: Option<Reading>)
    ensures r.Some? ==> |r.value.rest| <= |rest|
    decreases |rest|, 3
  {
    if rest != [] && rest[0] == OrWord then
      var others := Disjunction(row, rest[1..], args);
      if others.Some? then Some(others.value.(truth := truth || others.value.truth)) else None
    else Some(Reading(truth, rest, args))
  }

  function Disjunction(row: Row, tokens: seq<Token>, args: seq<Arg>): (r: Option<Reading>)
    ensures r.Some? ==> |r.value.rest| < |tokens|
    decreases |tokens|, 2
  {
    var first := Conjunction(row, tokens, args);
    if first.Some? then MoreOrs(row, first.value.truth, first.value.rest, first.value.args) else None
  }

  /** Whether a row meets a clause; none unless every word and every argument is used, in order. */
  function Where(row: Row, tokens: seq<Token>, args: seq<Arg>): Option<bool>
  {
    var whole := Disjunction(row, tokens, args);
    if whole.Some? && whole.value.rest == [] && whole.value.args == [] then Some(whole.value.truth) else None
  }

  // ---- meanings that survive what follows ----

  /** A self-contained test, whatever follows it. */
  ghost predicate IsFactor(row: Row, tokens: seq<Token>, args: seq<Arg>, truth: bool)
  {
    forall rest, more :: Factor(row, tokens + rest, args + more) == Some(Reading(truth, rest, more))
  }

  /** A chain of AND that more conjuncts may follow. */
  ghost predicate IsChain(row: Row, tokens: seq<Token>, args: seq<Arg>, truth: bool)
  {
    forall rest, more :: Conjunction(row, tokens + rest, args + more) == MoreAnds(row, truth, rest, more)
  }

  predicate EndsAnds(rest: seq<Token>) { rest == [] || rest[0] != AndWord }

  /** A chain of OR that more alternatives may follow. */
  ghost predicate IsChoice(row: Row, tokens: seq<Token>, args: seq<Arg>, truth: bool)
  {
    forall rest, more :: EndsAnds(rest) ==>
      Disjunction(row, tokens + rest, args + more)
      == MoreOrs(row, truth, rest, more)
  }

  lemma FactorIsChain(row: Row, tokens: seq<Token>, args: seq<Arg>, truth: bool)
    requires IsFactor(row, tokens, args, truth)
    ensures IsChain(row, tokens, args, truth)
  {
    forall rest, more ensures Conjunction(row, tokens + rest, args + more) == MoreAnds(row, truth, rest, more) {
      assert Factor(row, tokens + rest, args + more) == Some(Reading(truth, rest, more));
    }
  }

  lemma FactorIsChoice(row: Row, tokens: seq<Token>, args: seq<Arg>, truth: bool)
    requires IsFactor(row, tokens, args, truth)
    ensures IsChoice(row, tokens, args, truth)
  {
    FactorIsChain(row, tokens, args, truth);
    forall rest, more | EndsAnds(rest)
      ensures Disjunction(row, tokens + rest, args + more) == MoreOrs(row, truth, rest, more)
    {
      assert Conjunction(row, tokens + rest, args + more) == MoreAnds(row, truth, rest, more);
    }
  }

  /** `... AND factor`. */
  lemma AndExtends(row: Row, tokens: seq<Token>, args: seq<Arg>, truth: bool, factor: seq<Token>, values: seq<Arg>,
      holds: bool)
    requires IsChain(row, tokens, args, truth) && IsFactor(row, factor, values, holds)
    ensures IsChain(row, tokens + [AndWord] + factor, args + values, truth && holds)
  {
    hide Factor, Conjunction, Disjunction, MoreOrs, Test, IsFactor;
    FactorIsChain(row, factor, values, holds);
    forall rest, more
      ensures Conjunction(row, (tokens + [AndWord] + factor) + rest, (args + values) + more)
          == MoreAnds(row, truth && holds, rest, more)
    {
      var tail, after := [AndWord] + (factor + rest), values + more;
      assert (tokens + [AndWord] + factor) + rest == tokens + tail && (args + values) + more == args + after;
      assert Conjunction(row, tokens + tail, args + after) == MoreAnds(row, truth, tail, after);
      assert tail[1..] == factor + rest;
      assert Conjunction(row, factor + rest, values + more) == MoreAnds(row, holds, rest, more);
    }
  }

  /** `... OR factor`. */
  lemma OrExtends(row: Row, tokens: seq<Token>, args: seq<Arg>, truth: bool, factor: seq<Token>, values: seq<Arg>,
      holds: bool)
    requires IsChoice(row, tokens, args, truth) && IsFactor(row, factor, values, holds)
    ensures IsChoice(row, tokens + [OrWord] + factor, args + values, truth || holds)
  {
    hide Factor, Conjunction, Disjunction, MoreAnds, Test, IsFactor;
    FactorIsChoice(row, factor, values, holds);
    forall rest, more | EndsAnds(rest)
      ensures Disjunction(row, (tokens + [OrWord] + factor) + rest, (args + values) + more)
          == MoreOrs(row, truth || holds, rest, more)
    {
      var tail, after := [OrWord] + (factor + rest), values + more;
      assert (tokens + [OrWord] + factor) + rest == tokens + tail && (args + values) + more == args + after;
      assert Disjunction(row, tokens + tail, args + after) == MoreOrs(row, truth, tail, after);
      assert tail[1..] == factor + rest;
      assert Disjunction(row, factor + rest, values + more) == MoreOrs(row, holds, rest, more);
    }
  }

  lemma OneEnclosure(row: Row, tokens: seq<Token>, args: seq<Arg>, truth: bool, rest: seq<Token>, more: seq<Arg>)
    requires tokens != [] && tokens[0] == Open
    requires Disjunction(row, tokens[1..], args) == Some(Reading(truth, [Close] + rest, more))
    ensures Factor(row, tokens, args) == Some(Reading(truth, rest, more))
  {
    hide Disjunction, Test;
    assert ([Close] + rest)[1..] == rest;
  }

  lemma ChoiceBeforeClose(row: Row, tokens: seq<Token>, args: seq<Arg>, truth: bool, rest: seq<Token>, more: seq<Arg>)
    requires IsChoice(row, tokens, args, truth)
    ensures Disjunction(row, tokens + ([Close] + rest), args + more) == Some(Reading(truth, [Close] + rest, more))
  {
    hide Disjunction;
    var tail := [Close] + rest;
    assert EndsAnds(tail);
    assert Disjunction(row, tokens + tail, args + more) == MoreOrs(row, truth, tail, more);
  }

  lemma Enclosed(tokens: seq<Token>, rest: seq<Token>)
    ensures var all := [Open] + tokens + [Close] + rest;
      all != [] && all[0] == Open
      && all[1..] == tokens + ([Close] + rest)
  {
  }

  /** `( ... )`. */
  lemma ParenthesesEnclose(row: Row, tokens: seq<Token>, args: seq<Arg>, truth: bool)
    requires IsChoice(row, tokens, args, truth)
    ensures IsFactor(row, [Open] + tokens + [Close], args, truth)
  {
    hide Factor, Disjunction, IsChoice;
    forall rest, more
      ensures Factor(row, [Open] + tokens + [Close] + rest, args + more) == Some(Reading(truth, rest, more))
    {
      Enclosed(tokens, rest);
      ChoiceBeforeClose(row, tokens, args, truth, rest, more);
      OneEnclosure(row, [Open] + tokens + [Close] + rest, args + more, truth, rest, more);
    }
  }

  /** A chain that nothing follows is read to its end. */
  lemma ChainIsRead(row: Row, tokens: seq<Token>, args: seq<Arg>, truth: bool)
    requires IsChain(row, tokens, args, truth)
    ensures Where(row, tokens, args) == Some(truth)
  {
    assert tokens + [] == tokens && args + [] == args;
    assert Conjunction(row, tokens + [], args + []) == MoreAnds(row, truth, [], []);
    assert Disjunction(row, tokens, args) == Some(Reading(truth, [], []));
  }
}
