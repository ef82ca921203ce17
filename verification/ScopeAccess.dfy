/** Why ListExecutions may authorise only the job: every row it returns is open to the same caller. */
module ScopeAccess {
  import opened Records
  import opened Text
  import opened Protocol
  import opened ProtocolTheorems
  import Query
  import Listing

  /** The tenant and the application of a job are the same in every later state. */
  lemma {:induction false} ScopesNeverChange(c: Config, w: World, actions: seq<Action>, after: World, id: string)
    requires Reachable(c, w) && RunFrom(c, w, actions) == Some(after) && id in w.store.jobs
    ensures Reachable(c, after) && id in after.store.jobs && after.store.jobs[id].scope == w.store.jobs[id].scope
    decreases |actions|
  {
    hide Step, Reachable;
    if actions != [] {
      var next := Step(c, w, actions[0]).value;
      StepKeepsScopes(c, w, actions[0], next, id);
      ReachableExtends(c, w, actions[0], next);
      ScopesNeverChange(c, next, actions[1..], after, id);
    }
  }

  /**
   * The job is read and authorised in `w`, the page in any later state `after`:
   * GetExecution would give the same caller each row of it.
   */
  lemma ListedExecutionsAreReadable(
      c: Config, w: World, actions: seq<Action>, after: World,
      caller: Option<Listing.Identity>, verify: Listing.Verifier, f: Query.ExecutionFilter,
          page: Listing.Page<Execution>, number: int, size: int, i: nat)
    requires Reachable(c, w) && RunFrom(c, w, actions) == Some(after)
    requires Listing.JobIsOpenTo(caller, verify, w.store.jobs, f.jobId)
    requires Listing.IsPage(page, number, size, Listing.ExecutionKeys(after.store.executions, f),
        after.store.executions)
    requires i < |page.items| && Trim(page.items[i].id) == page.items[i].id
    ensures Listing.GetExecution(caller, verify, after.store.executions, page.items[i].id) == Result.Ok(page.items[i])
  {
    hide Reachable, Step, RunFrom, Trim, Listing.Newest;
    var id := RowOfPage(page, number, size, f, after.store.executions, i);
    ScopesNeverChange(c, w, actions, after, f.jobId);
    ExecutionsShareTheScopeOfTheirJob(c, after, id);
  }

  lemma RowOfPage(page: Listing.Page<Execution>, number: int, size: int, f: Query.ExecutionFilter,
      executions: map<string, Execution>, i: nat) returns (id: string)
    requires Listing.IsPage(page, number, size, Listing.ExecutionKeys(executions, f), executions) && i < |page.items|
    ensures id in executions && executions[id] == page.items[i] && Query.ExecutionMatches(f, executions[id])
  {
    hide Query.ExecutionMatches, Listing.Newest;
    var keys := Listing.ExecutionKeys(executions, f);
    var all := Listing.Newest(keys);
    var rows := Listing.PageKeys(keys, page.page, page.size).value;
    Listing.NewestIsTheList(keys);
    assert rows[i] in rows && rows[i] in all;
    id := rows[i].id;
  }
}
