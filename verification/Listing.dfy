/** The list calls: authorisation, pagination, and the page of rows they return. */
module Listing {
  import opened Records
  import opened Text
  import opened Ordering
  import opened Sql
  import opened Query
  import opened Filters
  import opened Int64

  // ---- authorisation ----

  datatype Identity = Identity(id: string, isUser: bool, tenant: string)

  datatype Grant = Granted | NotGranted | Unreachable

  /** Which applications a tenant may use, as the verifier answers. */
  type Verifier = (string, string) -> Grant

  datatype ListError =
    | NotFound | MissingScope | Unauthorized | Forbidden | Unavailable
    | PageTooLarge | InvalidFilter(error: FilterError) | BadOffset

  /** The reason to refuse a caller access to a scope. */
  function Refusal(caller: Option<Identity>, verify: Verifier, scope: Scope): Option<ListError>
  {
    var tenant, application := Trim(scope.tenant), Trim(scope.application);
    if tenant == "" || application == "" then Some(MissingScope)
    else if caller.None? || caller.value.id == "" then Some(Unauthorized)
    else if caller.value.isUser && (caller.value.tenant == "" || caller.value.tenant != tenant) then Some(Forbidden)
    else match verify(tenant, application)
      case Granted => None
      case NotGranted => Some(Forbidden)
      case Unreachable => Some(Unavailable)
  }

  predicate Allowed(caller: Option<Identity>, verify: Verifier, scope: Scope)
  {
    Refusal(caller, verify, scope).None?
  }

  /**
   * Who may see a scope: it names a tenant and an application, the caller has an id, a user belongs to that
   * tenant, and the verifier grants the tenant the application.
   */
  ghost predicate Admits(caller: Option<Identity>, verify: Verifier, scope: Scope)
  {
    && Trim(scope.tenant) != "" && Trim(scope.application) != ""
    && caller != None && caller.value.id != ""
    && (caller.value.isUser ==> caller.value.tenant == Trim(scope.tenant))
    && verify(Trim(scope.tenant), Trim(scope.application)) == Granted
  }

  /** The first of these conditions that fails decides the error. */
  ghost predicate RefusedWith(caller: Option<Identity>, verify: Verifier, scope: Scope, error: ListError)
  {
    var tenant, application := Trim(scope.tenant), Trim(scope.application);
    var stranger := caller == None || caller.value.id == "";
    var foreign := caller != None && caller.value.isUser && caller.value.tenant != tenant;
    && (tenant == "" || application == "" ==> error == MissingScope)
    && (tenant != "" && application != "" && stranger ==> error == Unauthorized)
    && (tenant != "" && application != "" && !stranger && foreign ==> error == Forbidden)
    && (tenant != "" && application != "" && !stranger && !foreign ==>
          && (verify(tenant, application) == NotGranted ==> error == Forbidden)
          && (verify(tenant, application) == Unreachable ==> error == Unavailable))
  }

  lemma AllowedIsAdmitted(caller: Option<Identity>, verify: Verifier, scope: Scope)
    ensures Allowed(caller, verify, scope) <==> Admits(caller, verify, scope)
    ensures !Allowed(caller, verify, scope) ==>
      RefusedWith(caller, verify, scope, Refusal(caller, verify, scope).value)
  {
    hide Trim;
  }

  /** A user never sees another tenant, and nobody an application its tenant is not granted. */
  lemma RefusalOnInputs(caller: Option<Identity>, verify: Verifier, scope: Scope)
    ensures Refusal(caller, verify, scope) == None <==>
      && Trim(scope.tenant) != "" && Trim(scope.application) != "" && caller != None && caller.value.id != ""
      && (caller.value.isUser ==> caller.value.tenant == Trim(scope.tenant))
      && verify(Trim(scope.tenant), Trim(scope.application)) == Granted
    ensures Trim(scope.tenant) == "" || Trim(scope.application) == "" ==>
      Refusal(caller, verify, scope) == Some(MissingScope)
    ensures Trim(scope.tenant) != "" && Trim(scope.application) != "" ==>
      && (caller == None || caller.value.id == "" ==> Refusal(caller, verify, scope) == Some(Unauthorized))
      && (caller != None && caller.value.id != "" && caller.value.isUser
          && caller.value.tenant != Trim(scope.tenant) ==>
            Refusal(caller, verify, scope) == Some(Forbidden))
  {
    hide Trim;
  }

  lemma AdmissionIsTrimmed(caller: Option<Identity>, verify: Verifier, scope: Scope)
    ensures Admits(caller, verify, TrimmedScope(scope)) <==> Admits(caller, verify, scope)
    ensures forall error ::
      RefusedWith(caller, verify, TrimmedScope(scope), error) <==> RefusedWith(caller, verify, scope, error)
  {
    TrimIsIdempotent(scope.tenant);
    TrimIsIdempotent(scope.application);
    hide Trim;
  }

  function GetExecution(caller: Option<Identity>, verify: Verifier, executions: map<string, Execution>,
      id: string): Result<Execution, ListError>
  {
    var wanted := Trim(id);
    if wanted !in executions || !executions[wanted].Live() then Err(NotFound)
    else
      var refusal := Refusal(caller, verify, executions[wanted].scope);
      if refusal.Some? then Err(refusal.value) else Ok(executions[wanted])
  }

  /** An execution is found under its trimmed id while it is not deleted, and is open to whom its scope is. */
  lemma GetExecutionOnInputs(
      caller: Option<Identity>, verify: Verifier, executions: map<string, Execution>, id: string)
    ensures var wanted, r := Trim(id), GetExecution(caller, verify, executions, id);
      && (!(wanted in executions && executions[wanted].audit.deletedAt == None) ==> r == Err(NotFound))
      && (wanted in executions && executions[wanted].audit.deletedAt == None ==>
            && (r.Ok? <==> Admits(caller, verify, executions[wanted].scope))
            && (r.Ok? ==> r.value == executions[wanted])
            && (r.Err? ==> RefusedWith(caller, verify, executions[wanted].scope, r.error)))
  {
    hide Trim, Admits, RefusedWith;
    if Trim(id) in executions { AllowedIsAdmitted(caller, verify, executions[Trim(id)].scope); }
  }

  // ---- pages of an ordered list ----

  const DEFAULT_SIZE := 20
  const MAX_SIZE := 100

  function Pagination(page: int, size: int): (r: Result<(int, int), ListError>)
    ensures r.Ok? <==> size <= MAX_SIZE
    ensures r.Ok? ==> r.value.0 >= 1 && 1 <= r.value.1 <= MAX_SIZE
    ensures r.Ok? ==> r.value == (if page <= 0 then 1 else page, if size <= 0 then 20 else size)
    ensures size > 100 <==> r == Err(PageTooLarge)
  {
    var p, s := if page <= 0 then 1 else page, if size <= 0 then DEFAULT_SIZE else size;
    if s > MAX_SIZE then Err(PageTooLarge) else Ok((p, s))
  }

  /** Newest first; among equal times the greater id first. */
  function Newest(keys: set<Key>): seq<Key>
  {
    Turned(Sorted(keys))
  }

  ghost predicate Descending(s: seq<Key>)
  {
    forall i, j :: 0 <= i < j < |s| ==> Before(s[j], s[i])
  }

  lemma NewestIsTheList(keys: set<Key>)
    ensures |Newest(keys)| == |keys| && Descending(Newest(keys))
    ensures forall k :: k in Newest(keys) <==> k in keys
  {
    SortedLists(keys);
    var rows, list := Sorted(keys), Newest(keys);
    forall k ensures k in list <==> k in rows {
      if k in rows {
        var i :| 0 <= i < |rows| && rows[i] == k;
        assert list[|rows| - 1 - i] == k;
      }
    }
  }

  function Turned(s: seq<Key>): (r: seq<Key>)
    ensures |r| == |s| && forall i :: 0 <= i < |s| ==> r[i] == s[|s| - 1 - i]
  {
    seq(|s|, i requires 0 <= i < |s| => s[|s| - 1 - i])
  }

  lemma TurnedLists(s: seq<Key>, keys: set<Key>)
    requires Descending(s) && forall k :: k in s <==> k in keys
    ensures Lists(Turned(s), keys)
  {
    hide Before;
    forall k ensures k in Turned(s) <==> k in keys {
      if k in s {
        var i :| 0 <= i < |s| && s[i] == k;
        assert Turned(s)[|s| - 1 - i] == k;
      }
    }
  }

  /** ORDER BY time DESC, id DESC leaves no other list. */
  lemma NewestIsTheOnlyList(keys: set<Key>, s: seq<Key>)
    requires Descending(s) && forall k :: k in s <==> k in keys
    ensures s == Newest(keys)
  {
    hide Sorted, Before, Lists, Descending;
    TurnedLists(s, keys);
    SortedLists(keys);
    ListingIsUnique(Turned(s), Sorted(keys), keys);
    assert Turned(s) == Sorted(keys);
  }

  /** LIMIT and OFFSET. */
  function Slice(rows: seq<Key>, limit: nat, offset: nat): seq<Key>
  {
    if offset >= |rows| then [] else if offset + limit >= |rows| then rows[offset..] else rows[offset..offset + limit]
  }

  /** The rows from the offset on, as many as the limit allows. */
  lemma SliceOnRows(rows: seq<Key>, limit: nat, offset: nat)
    ensures var page := Slice(rows, limit, offset);
      && |page| == (if offset >= |rows| then 0 else if offset + limit <= |rows| then limit else |rows| - offset)
      && forall i :: 0 <= i < |page| ==> page[i] == rows[offset + i]
  {
  }

  /** The keys of one page as the database returns them; none when it refuses a negative offset. */
  function PageKeys(keys: set<Key>, page: int, size: int): Option<seq<Key>>
    requires size >= 0
  {
    var offset := Wrap64((page - 1) * size);
    if offset < 0 then None else Some(Slice(Newest(keys), size, offset))
  }

  function Concatenated(keys: set<Key>, size: nat, pages: nat): seq<Key>
  {
    if pages == 0 then []
    else
      var last := PageKeys(keys, pages, size);
      Concatenated(keys, size, pages - 1) + (if last.Some? then last.value else [])
  }

  function PageCount(total: nat, size: nat): nat
    requires size > 0
  {
    (total + size - 1) / size
  }

  lemma LastPageReaches(total: nat, size: nat)
    requires size > 0
    ensures var n := PageCount(total, size); n * size >= total && (n > 0 ==> (n - 1) * size < total)
  {
    var n := PageCount(total, size);
    assert (total + size - 1) == n * size + (total + size - 1) % size;
    if n > 0 { assert (n - 1) * size == n * size - size; }
  }

  lemma {:induction false} FirstPages(keys: set<Key>, size: nat, pages: nat)
    requires size > 0 && |keys| <= MAX_INT64 && (pages > 0 ==> (pages - 1) * size < |keys|)
    ensures Concatenated(keys, size, pages) == Newest(keys)[..if pages * size <= |Newest(keys)| then pages * size
        else |Newest(keys)|]
  {
    hide Newest, Wrap64;
    NewestIsTheList(keys);
    var rows := Newest(keys);
    if pages > 0 {
      var offset := (pages - 1) * size;
      assert pages * size == offset + size;
      if pages > 1 { assert (pages - 2) * size == offset - size; }
      FirstPages(keys, size, pages - 1);
      SmallIsKept(offset);
      PageStarts(rows, size, offset);
    }
  }

  lemma PageStarts(rows: seq<Key>, size: nat, offset: nat)
    requires offset <= |rows|
    ensures rows[..offset] + Slice(rows, size, offset) == rows[..if offset + size <= |rows| then offset + size
        else |rows|]
  {
  }

  /** The pages of a fixed table partition its filtered list: in order, without gap or duplicate. */
  lemma PagesPartitionTheList(keys: set<Key>, size: nat)
    requires 1 <= size && |keys| <= MAX_INT64
    ensures Concatenated(keys, size, PageCount(|keys|, size)) == Newest(keys)
    ensures forall k :: k in keys <==> k in Concatenated(keys, size, PageCount(|keys|, size))
    ensures |Concatenated(keys, size, PageCount(|keys|, size))| == |keys|
  {
    hide Newest, Concatenated, PageCount;
    NewestIsTheList(keys);
    LastPageReaches(|keys|, size);
    FirstPages(keys, size, PageCount(|keys|, size));
  }

  predicate IsRequestedPage(keys: set<Key>, page: int, size: nat)
    requires page >= 1
  {
    PageKeys(keys, page, size) == Some(Slice(Newest(keys), size, (page - 1) * size))
  }

  /** Keys 0, 1, ..., n - 1: a table of any number of rows. */
  function Numbered(n: nat): set<Key> { set i | 0 <= i < n :: Key(i, "") }

  lemma {:induction false} NumberedHasSize(n: nat)
    ensures |Numbered(n)| == n
  {
    if n > 0 {
      NumberedHasSize(n - 1);
      assert Numbered(n) == Numbered(n - 1) + {Key(n - 1, "")};
    }
  }

  lemma FittingOffsetIsKept(keys: set<Key>, page: int, size: nat)
    requires page >= 1 && (page - 1) * size <= MAX_INT64
    ensures IsRequestedPage(keys, page, size)
  {
    hide Wrap64, Newest, Slice;
    SmallIsKept((page - 1) * size);
  }

  /** A wrapped offset is refused, or starts a page of a table that is long enough to have one. */
  lemma WrappedOffsetMisses(page: int, size: nat) returns (keys: set<Key>)
    requires page >= 1 && size >= 1 && (page - 1) * size > MAX_INT64
    ensures !IsRequestedPage(keys, page, size)
  {
    hide Wrap64, Newest;
    var offset := (page - 1) * size;
    WrapStaysInRange(offset);
    var wrapped := Wrap64(offset);
    var rows := if wrapped < 0 then 0 else wrapped + 1;
    keys := Numbered(rows);
    NumberedHasSize(rows);
    NewestIsTheList(keys);
    MissedPage(Newest(keys), size, offset, wrapped);
  }

  lemma MissedPage(rows: seq<Key>, size: nat, offset: nat, wrapped: int)
    requires size >= 1 && |rows| <= offset && wrapped < |rows|
    ensures wrapped >= 0 ==> Slice(rows, size, wrapped) != Slice(rows, size, offset)
  {
  }

  /** A page is the requested one of every table iff its offset fits 64 bits. */
  lemma PageIsExactly(page: int, size: nat)
    requires page >= 1 && size >= 1
    ensures (forall keys :: IsRequestedPage(keys, page, size)) <==> (page - 1) * size <= MAX_INT64
  {
    hide IsRequestedPage;
    if (page - 1) * size <= MAX_INT64 {
      forall keys ensures IsRequestedPage(keys, page, size) {
        FittingOffsetIsKept(keys, page, size);
      }
    } else {
      var keys := WrappedOffsetMisses(page, size);
    }
  }

  /** With 4 rows a page, page 2^62 + 1 is the first page again. */
  lemma FarPageReturnsTheFirst(keys: set<Key>)
    requires keys != {} && |keys| <= MAX_INT64
    ensures var page := 0x4000_0000_0000_0001;
      PageKeys(keys, page, 4) == PageKeys(keys, 1, 4) && PageKeys(keys, page, 4).value != []
          && Slice(Newest(keys), 4, (page - 1) * 4) == []
  {
    NewestIsTheList(keys);
    hide Newest;
  }

  // ---- the two lists ----

  datatype Page<T> = Page(items: seq<T>, total: nat, page: int, size: int)

  function JobKeys(jobs: map<string, Job>, f: JobFilter): set<Key>
  {
    set id | id in jobs && JobMatches(f, jobs[id]) :: Key(jobs[id].audit.createdAt, id)
  }

  function ExecutionKeys(executions: map<string, Execution>, f: ExecutionFilter): set<Key>
  {
    set id | id in executions && ExecutionMatches(f, executions[id]) :: Key(executions[id].startedAt, id)
  }

  lemma KeysOnRows(jobs: map<string, Job>, executions: map<string, Execution>, f: JobFilter, g: ExecutionFilter, k: Key)
    ensures k in JobKeys(jobs, f) <==> k.id in jobs && JobMatches(f, jobs[k.id]) && k.time == jobs[k.id].audit.createdAt
    ensures k in ExecutionKeys(executions, g) <==>
      k.id in executions && ExecutionMatches(g, executions[k.id]) && k.time == executions[k.id].startedAt
  {
    hide JobMatches, ExecutionMatches;
  }

  /** `items` are the rows the keys name, in the same order. */
  ghost predicate Rows<T>(items: seq<T>, keys: seq<Key>, table: map<string, T>)
  {
    |items| == |keys| && forall i :: 0 <= i < |keys| ==> keys[i].id in table && items[i] == table[keys[i].id]
  }

  method Fetch<T>(keys: set<Key>, table: map<string, T>, limit: nat, offset: int) returns (r: Result<seq<T>, ListError>)
    requires forall k :: k in keys ==> k.id in table
    ensures r.Ok? <==> offset >= 0
    ensures r.Ok? ==> Rows(r.value, Slice(Newest(keys), limit, offset), table)
  {
    if offset < 0 { return Err(BadOffset); }
    NewestIsTheList(keys);
    hide Newest;
    var rows := Slice(Newest(keys), limit, offset);
    assert forall i :: 0 <= i < |rows| ==> rows[i] in Newest(keys);
    r := Ok(seq(|rows|, i requires 0 <= i < |rows| => table[rows[i].id]));
  }

  /** The repository's ListJobs: the same clause counts the rows and selects the page. */
  method ListJobs(jobs: map<string, Job>, filter: JobFilter, limit: nat, offset: int)
      returns (r: Result<(seq<Job>, nat), ListError>)
    ensures r.Ok? <==> offset >= 0
    ensures r.Ok? ==>
      r.value.1 == |JobKeys(jobs, filter)|
      && Rows(r.value.0, Slice(Newest(JobKeys(jobs, filter)), limit, offset), jobs)
  {
    hide JobMatches, Where, Newest, Slice, Rows;
    var where, args := JobWhere(filter);
    var keys := set id | id in jobs && Where(JobRow(jobs[id]), where, args)
        == Some(true) :: Key(jobs[id].audit.createdAt, id);
    assert keys == JobKeys(jobs, filter);
    var rows := Fetch(keys, jobs, limit, offset);
    if rows.Err? { return Err(rows.error); }
    r := Ok((rows.value, |keys|));
  }

  method ListExecutionRows(executions: map<string, Execution>, filter: ExecutionFilter, limit: nat, offset: int)
      returns (r: Result<(seq<Execution>, nat), ListError>)
    ensures r.Ok? <==> offset >= 0
    ensures r.Ok? ==> r.value.1 == |ExecutionKeys(executions, filter)|
                      && Rows(r.value.0, Slice(Newest(ExecutionKeys(executions, filter)), limit, offset), executions)
  {
    hide ExecutionMatches, Where, Newest, Slice, Rows;
    var where, args := ExecutionWhere(filter);
    var keys := set id | id in executions && Where(ExecutionRow(executions[id]), where, args)
        == Some(true) :: Key(executions[id].startedAt, id);
    assert keys == ExecutionKeys(executions, filter);
    var rows := Fetch(keys, executions, limit, offset);
    if rows.Err? { return Err(rows.error); }
    r := Ok((rows.value, |keys|));
  }

  function TrimmedScope(scope: Scope): Scope { Scope(Trim(scope.tenant), Trim(scope.application)) }

  /** The page numbers a request gets: neither too many rows nor an offset that wraps below zero. */
  predicate IsServed(page: int, size: int)
  {
    var paging := Pagination(page, size);
    paging.Ok? && Wrap64((paging.value.0 - 1) * paging.value.1) >= 0
  }

  /** The requested page of the rows with these keys. */
  ghost predicate IsPage<T>(r: Page<T>, page: int, size: int, keys: set<Key>, table: map<string, T>)
  {
    && Pagination(page, size) == Ok((r.page, r.size)) && r.total == |keys|
    && PageKeys(keys, r.page, r.size).Some? && Rows(r.items, PageKeys(keys, r.page, r.size).value, table)
  }

  lemma ServedRowsArePage<T>(items: seq<T>, p: nat, s: nat, page: int, size: int, keys: set<Key>, table: map<string, T>)
    requires Pagination(page, size) == Ok((p, s)) && Wrap64((p - 1) * s) >= 0
    requires Rows(items, Slice(Newest(keys), s, Wrap64((p - 1) * s)), table)
    ensures IsPage(Page(items, |keys|, p, s), page, size, keys, table)
  {
    hide Rows, Newest, Slice, Wrap64;
  }

  /** The service's List. */
  method List(caller: Option<Identity>, verify: Verifier, jobs: map<string, Job>, filter: JobFilter, page: int,
      size: int) returns (r: Result<Page<Job>, ListError>)
    ensures var f := filter.(scope := TrimmedScope(filter.scope));
      && (r.Ok? <==> Allowed(caller, verify, f.scope) && IsServed(page, size) && JobFilterAccepted(f))
      && (!Allowed(caller, verify, f.scope) ==> r == Err(Refusal(caller, verify, f.scope).value))
      && (r.Ok? ==> IsPage(r.value, page, size, JobKeys(jobs, NormalJobFilter(f)), jobs))
    ensures r.Ok? <==>
      && Admits(caller, verify, filter.scope) && IsServed(page, size)
      && JobFilterAccepted(filter.(scope := TrimmedScope(filter.scope)))
    ensures !Admits(caller, verify, filter.scope) ==> r.Err? && RefusedWith(caller, verify, filter.scope, r.error)
    ensures Admits(caller, verify, filter.scope) && size > 100 ==> r == Err(PageTooLarge)
  {
    hide Admits, RefusedWith;
    AdmissionIsTrimmed(caller, verify, filter.scope);
    AllowedIsAdmitted(caller, verify, TrimmedScope(filter.scope));
    hide JobFilterAccepted, NormalJobFilter, Newest, Slice, Rows, JobMatches, JobKeys, Wrap64, Refusal, TrimmedScope,
        IsPage;
    var f := filter.(scope := TrimmedScope(filter.scope));
    var refusal := Refusal(caller, verify, f.scope);
    if refusal.Some? { return Err(refusal.value); }
    var paging := Pagination(page, size);
    if paging.Err? { return Err(paging.error); }
    var (p, s) := paging.value;
    var normal := NormalizeJobFilter(f);
    if normal.Err? { return Err(InvalidFilter(normal.error)); }
    var rows := ListJobs(jobs, normal.value, s, Wrap64((p - 1) * s));
    if rows.Err? { return Err(rows.error); }
    ServedRowsArePage(rows.value.0, p, s, page, size, JobKeys(jobs, normal.value), jobs);
    r := Ok(Page(rows.value.0, rows.value.1, p, s));
  }

  predicate JobIsOpenTo(caller: Option<Identity>, verify: Verifier, jobs: map<string, Job>, id: string)
  {
    id in jobs && jobs[id].Live() && Allowed(caller, verify, jobs[id].scope)
  }

  /** The service's ListExecutions: it reads the job, and later the executions. */
  method ListExecutions(caller: Option<Identity>, verify: Verifier, jobs: map<string, Job>, executions: map<string,
      Execution>, filter: ExecutionFilter, page: int, size: int)
    returns (r: Result<Page<Execution>, ListError>)
    ensures var f := filter.(jobId := Trim(filter.jobId));
      && (r.Ok? <==> JobIsOpenTo(caller, verify, jobs, f.jobId) && IsServed(page, size) && ExecutionFilterAccepted(f))
      && (!(f.jobId in jobs && jobs[f.jobId].Live()) ==> r == Err(NotFound))
      && (f.jobId in jobs && jobs[f.jobId].Live() && !Allowed(caller, verify, jobs[f.jobId].scope)
          ==> r == Err(Refusal(caller, verify, jobs[f.jobId].scope).value))
      && (r.Ok? ==> IsPage(r.value, page, size, ExecutionKeys(executions, NormalExecutionFilter(f)), executions))
    ensures var id := Trim(filter.jobId);
      && (!(id in jobs && jobs[id].audit.deletedAt == None) ==> r == Err(NotFound))
      && (id in jobs && jobs[id].audit.deletedAt == None ==>
            && (r.Ok? <==>
                  && Admits(caller, verify, jobs[id].scope) && IsServed(page, size)
                  && ExecutionFilterAccepted(filter.(jobId := id)))
            && (!Admits(caller, verify, jobs[id].scope) ==>
                  r.Err? && RefusedWith(caller, verify, jobs[id].scope, r.error))
            && (Admits(caller, verify, jobs[id].scope) && size > 100 ==> r == Err(PageTooLarge)))
  {
    hide ExecutionFilterAccepted, NormalExecutionFilter, ExecutionMatches, ExecutionKeys, Refusal, Trim, IsPage,
        Admits, RefusedWith, IsServed;
    var f := filter.(jobId := Trim(filter.jobId));
    if f.jobId !in jobs || !jobs[f.jobId].Live() { return Err(NotFound); }
    AllowedIsAdmitted(caller, verify, jobs[f.jobId].scope);
    var refusal := Refusal(caller, verify, jobs[f.jobId].scope);
    if refusal.Some? { return Err(refusal.value); }
    r := ExecutionPage(executions, f, page, size);
  }

  /** Pagination, normalisation and the rows, in that order. */
  method ExecutionPage(executions: map<string, Execution>, f: ExecutionFilter, page: int, size: int)
    returns (r: Result<Page<Execution>, ListError>)
    ensures r.Ok? <==> IsServed(page, size) && ExecutionFilterAccepted(f)
    ensures size > 100 ==> r == Err(PageTooLarge)
    ensures r.Ok? ==> IsPage(r.value, page, size, ExecutionKeys(executions, NormalExecutionFilter(f)), executions)
  {
    hide ExecutionFilterAccepted, NormalExecutionFilter, Newest, Slice, Rows, ExecutionMatches, ExecutionKeys, Wrap64,
        IsPage;
    var paging := Pagination(page, size);
    if paging.Err? { return Err(paging.error); }
    var (p, s) := paging.value;
    var normal := NormalizeExecutionFilter(f);
    if normal.Err? { return Err(InvalidFilter(normal.error)); }
    var rows := ListExecutionRows(executions, normal.value, s, Wrap64((p - 1) * s));
    if rows.Err? { return Err(rows.error); }
    ServedRowsArePage(rows.value.0, p, s, page, size, ExecutionKeys(executions, normal.value), executions);
    r := Ok(Page(rows.value.0, rows.value.1, p, s));
  }
}
