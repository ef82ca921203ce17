# Scheduler service: a verified model

The scheduler service is a cron service that runs on any number of replicas. Jobs live in a database
table, every replica fires cron entries from its own possibly stale copy of that table, clients update,
delete and trigger jobs under optimistic locking, every execution takes a per-job lease and keeps a row
that moves from running to terminal to deleted, and a cleaner on every replica retires old rows.

This project models that core in Dafny and proves what it guarantees.

- **Tables and statements.** `Records`, `Audit` (module `AuditTrail`), `Statements` and `Ordering` hold
  the rows, the audit trigger, every write of the repository as a function of the tables, and ORDER BY.
  `Repository` is the same repository as a class that updates its tables in place inside `Within`;
  `Dialects` proves that MySQL (explicit audit columns) and PostgreSQL/Kingbase (audit trigger) agree.
- **The execution protocol.** `Protocol` is a timed transition system of 25 actions: each transaction,
  lock call, upstream call and local move of each process is one step, and commits may go unacknowledged,
  calls may fail and replicas may die at any point. `ProtocolInvariant` is the inductive invariant,
  `ProtocolPreservation`, `ProtocolWrites` and `ProtocolExecutions` prove it, `ProtocolTheorems` states
  what it gives, `ProtocolSteps` says when each step is possible and what it does, `Cleaners` accounts for the counts cleaners return, `Schedules` traces scheduled calls
  back to their entries, `ScopeAccess` adds the authorisation of lists, and `Overlap` shows how far
  mutual exclusion goes.
- **The drivers.** `Service` (Create, Update, Delete, Trigger and the leased execution, call by call, on the rows
  the protocol's steps use), `Cleaner` (the batch loop), `Runtime` (reload over a cron runner, and the watcher),
  `WakeUp` (the one-slot change channel).
- **Lists.** `Pattern` (LIKE), `Sql` (a reader for WHERE clauses), `Query` (the clause builder),
  `Filters` (normalisation), `Listing` (authorisation, pages), over `Text` and `Int64`.
- **The edges.** `HttpRetry`, `GrpcRetry`, `Idempotency`, `IdempotencyRuns`, `Fingerprint`.

Some results differ from what one might expect of the code:

- `README.md:26` of the service says that a lock keeps replicas from executing a job repeatedly. The code
  gives this: two executions of one job never overlap **iff** an execution spends less than 25 seconds
  outside its own deadlines (`Overlap.ExclusionIsExactlyPunctuality`). A second execution after the
  first has finished is always possible.
- The counts the cleaners return add up to the deleted rows **iff** every commit that was carried out but
  not confirmed deleted nothing (`Cleaners.ReturnedCountsAddUp`).
- Create, Update, Delete and Trigger can return an error after the row is committed and the change signalled, when
  the operation log rejects the entry. An error of the first three leaves everything alone **iff** no
  commit took effect.
- No local change is lost to the watcher **iff** reading the table cannot fail
  (`WakeUp.WakeUpsAreExactlyKept`); a lost one is caught up by the next tick that can read.
- A keyword filter is a substring search **iff** the keyword has no `%`, `_` or backslash, since the
  pattern is not escaped (`Query.KeywordSearchIsExactlyPlain`).
- A page is the requested one of every table **iff** its offset fits 64 bits (`Listing.PageIsExactly`);
  `Listing.FarPageReturnsTheFirst` is an input where it is not.
- Guarded requests of two subjects can share a fingerprint exactly in the cases of
  `Fingerprint.CollisionsAreExactly`.

Libraries are contracts. A lock grants a key only when it is free or expired, for at most its lifetime,
and renewal is not relied on. Ids are fresh. Calls end by their deadlines. The cron runner may reject a
schedule and then adds nothing. The idempotency manager's Begin, Complete and Fail are atomic.

## Model

| member | source | states |
|---|---|---|
| ProtocolTheorems.RunKeeps | internal/job/service.go:85-304 | every action of every process, in any interleaving of clients, replicas and cleaners, keeps the invariant the theorems below rest on |
| ProtocolTheorems.SectionInsideLease | internal/job/service.go:245-295 | with pauses under 25 s, the section from holding the lease to the end of the finishing write ends strictly before the lease expires |
| ProtocolTheorems.MutualExclusion | internal/job/service.go:245-304 | two executions of one job are never in that section together, over all runs with any replicas, triggers, reloads and timeout changes, without lease renewal |
| Overlap.LongPausesOverlap | internal/job/service.go:253-295 | for every longer pause there is a run in which two executions of one job overlap |
| Overlap.ExclusionIsExactlyPunctuality | internal/job/service.go:253-295 | mutual exclusion holds in every run if and only if pauses stay below 25 seconds |
| ProtocolTheorems.ManualRunsWhatItRecorded | internal/job/service.go:186-197 | a manual call invokes the content the job row had when its execution row was inserted, and that row was live, enabled and at the caller's version |
| Schedules.ScheduledCallsRunLiveEntries | internal/job/runtime.go:77-87 | in every run, the job a scheduled call invokes was the content of a cron entry that fired for that very process, however old, and at a later re-read the live, enabled row |
| ProtocolTheorems.ScheduledRunsWhatItLoaded | internal/job/service.go:231-243 | the invoked job equals the loaded copy of its run and was once the committed row |
| ProtocolTheorems.ReReadSeesTheLiveRow | internal/job/service.go:231-244 | when the re-read after a tick lets an execution go on, the loaded definition is the live, enabled row of that instant |
| ProtocolSteps.ReReadIsPossible | internal/job/service.go:233-243 | the re-read lets the execution go on if and only if the loaded job's row is not deleted, enabled and at the loaded version; the run is then that row's |
| ProtocolSteps.UpdatedJobRunsOnSchedule | internal/job/service.go:231-283 | a scheduled invocation of a job at version 2 is reachable |
| ProtocolSteps.FireIsPossible | internal/job/runtime.go:79-82 | a tick fires any entry a replica holds, with the copy it was loaded with |
| ProtocolSteps.ReloadIsPossible | internal/job/repository.go:89-93 | a reload always gives a replica exactly the undeleted, enabled rows with a tenant and an application |
| ProtocolSteps.TriggerIsPossible | internal/job/service.go:179-197 | a trigger goes on if and only if the row is undeleted, enabled and at the caller's version |
| ProtocolSteps.ExecuteIsPossible | internal/job/service.go:249-250 | every accepted execution gets a context that ends after the job's timeout |
| ProtocolSteps.AcquireIsPossible | internal/job/service.go:253 | the lease is granted if and only if the key is free or expired and the context has not ended, for the timeout and 30 seconds |
| ProtocolSteps.InsertIsPossible | internal/job/service.go:268-277 | a scheduled execution always inserts its running row, a manual one if and only if the locked row is undeleted, enabled and at the expected version |
| ProtocolSteps.CommitUpdateIsPossible | internal/job/repository.go:47-50 | an update takes effect if and only if the row is unlocked, undeleted and at the expected version, and answers with the revised snapshot |
| ProtocolSteps.CommitDeleteIsPossible | internal/job/repository.go:51-54 | the same for a delete |
| ProtocolSteps.CommitFinishIsPossible | internal/job/repository.go:127-130 | the finishing write needs only its row at its version, and stores the outcome, the finish time and the duration |
| ProtocolSteps.SweepIsPossible | internal/job/repository.go:219 | of the selected rows the update deletes exactly those still terminal, older than the cutoff and undeleted |
| ProtocolSteps.SectionIsNeverStuck | internal/job/service.go:270-299 | in every reachable state an execution that has inserted its row can take its next step |
| ProtocolTheorems.EveryRowIsOpenFinishedOrRetired | internal/job/repository.go:213-228 | every execution row is exactly one of running at version 1 without a finish time, terminal at version 2, terminal at version 3 and deleted, stated on the columns |
| ProtocolTheorems.RowsMoveForward | internal/job/repository.go:127-130 | no step moves an execution row backwards or changes its identity, and none removes one |
| ProtocolTheorems.FinishMeetsAnOpenRow | internal/job/repository.go:127-130 | the finishing UPDATE, which does not test `deleted_at`, always meets its own open row, never a finished or deleted one |
| ProtocolTheorems.VersionsFormOneChain | internal/job/repository.go:47-54 | the committed versions of a job are 1, 2, 3, ... of one scope and one creator, and only the last can be deleted |
| ProtocolTheorems.OneWinnerPerVersion | internal/job/repository.go:230-239 | of all updates and deletes that expected one version of a job, at most one succeeded |
| ProtocolTheorems.UpdateReturnsTheCommittedRow | internal/job/service.go:97-116 | the job a successful Update returns is the committed row up to audit timestamps, even from an older snapshot |
| ProtocolTheorems.DeletedJobsAreFrozen | internal/job/repository.go:51-54 | no step writes a deleted job |
| ProtocolTheorems.StepKeepsScopes | internal/job/service.go:101-104 | no step removes a job or moves it to another tenant or application |
| ProtocolTheorems.CallsAreWrittenAhead | internal/job/service.go:267-283 | at every upstream call its running row is committed and open, and its key was never used before |
| ProtocolTheorems.KeysAreUnique | internal/job/service.go:269-278 | no two calls of any run carry the same key, and every key names an execution row |
| ProtocolTheorems.TerminalRowsRecordTheirCall | internal/job/service.go:283-295 | a terminal row holds the outcome its own call returned, also after it was cleaned |
| ProtocolTheorems.EveryDeletionIsOneBatch | internal/job/repository.go:213-228 | a deleted row belongs to one batch of one cleaner, and was terminal and older than that batch's cutoff |
| ProtocolTheorems.DisjointBatchesAddUp | internal/job/repository.go:213-228 | the sizes of disjoint batches add up to the size of their union |
| ProtocolTheorems.BatchesAddUp | internal/job/repository.go:213-228 | however the cleaners of all replicas interleave, the sizes of their batches add up to the number of deleted rows |
| Cleaners.EveryCountIsABatch | internal/job/cleanup.go:59-77 | over all runs, every count a cleaner returned is the size of one batch of its own, and every batch was answered with its size or with an error |
| Cleaners.ReturnedCountsAddUp | internal/job/cleanup.go:59-77 | the returned counts plus the rows whose commit was not confirmed equal the deleted rows; the returned counts alone do iff every unconfirmed batch is empty |
| Cleaners.UnconfirmedCommitIsNotCounted | internal/job/cleanup.go:68-70 | a run in which a row is deleted that no cleaner ever counts |
| ProtocolTheorems.ExecutionsShareTheScopeOfTheirJob | internal/job/service.go:269 | every execution carries the tenant and application of its job |
| ScopeAccess.ScopesNeverChange | internal/job/service.go:101-104 | over any later run a job keeps its tenant and application |
| ScopeAccess.ListedExecutionsAreReadable | internal/job/service.go:305-334 | whatever happens between reading the job and reading the page, GetExecution would give the same caller every row of the page |
| AuditTrail.AppAuditRow | migrations/postgres/000004_audit_soft_delete.up.sql:1-40 | each audit column of the row the trigger returns, for inserts, updates, deletions and restorations, and that it raises exactly on a missing actor or a physical delete |
| Repository.SqlRepository.CreateJob | internal/job/repository.go:43-46 | it succeeds exactly for a new id with an actor where one is needed; then that row alone is new, with the given columns at version 1 of the trigger or as named; otherwise nothing changes |
| Repository.SqlRepository.UpdateJob | internal/job/repository.go:47-50 | it succeeds exactly on a live row at the expected version; then that row alone has the new definition and one version more, with its scope, creation and deletion columns kept; otherwise nothing changes and a missed row is stale |
| Repository.SqlRepository.DeleteJob | internal/job/repository.go:51-54 | under the same condition that row alone is deleted, by the recorded actor, with its definition kept and one version more |
| Repository.SqlRepository.CreateExecution | internal/job/repository.go:94-97 | it succeeds exactly for a new id of an existing job; then that row alone is new and equals the given one up to the audit columns a trigger writes |
| Repository.SqlRepository.CreateManualExecution | internal/job/repository.go:99-126 | the row is inserted exactly when the job row is live, enabled and at the expected version; a missing or deleted job is not found, any other mismatch is stale, and neither writes |
| Repository.SqlRepository.FinishExecution | internal/job/repository.go:127-130 | it succeeds exactly on a row at the given version, deleted or not; then that row alone has the outcome, the times and one version more, with its identity and deletion columns kept |
| Repository.SqlRepository.SweepExecutions | internal/job/repository.go:213-228 | the changed rows are the oldest due ones, as many as the limit allows and as many as it returns; each changed only in its audit columns |
| Repository.SqlRepository.Within | internal/database/transaction.go:22-44 | begin, actor, body and commit or rollback have the effect of one atomic call |
| Repository.TransactOnFaults | internal/database/transaction.go:22-44 | what each fault leaves and answers: only a confirmed commit reports success, only an unconfirmed one writes and reports an error, a blank principal never begins |
| Service.JobService.Create | internal/job/service.go:60-84 | each failing check on the inputs has its own error, in order, and leaves tables and channel alone; otherwise the one new row is committed and signalled exactly when the commit passes, and a rejected log entry turns a committed, signalled create into an error |
| Service.JobService.Update | internal/job/service.go:85-117 | the same for the version, the caller, the job, the authorisation and the input in that order, and for a stale version; success means the undeleted row was at the expected version, and the returned job is the committed row up to audit timestamps even if its read was older |
| Service.JobService.Delete | internal/job/service.go:118-146 | the same for the soft delete of exactly that row |
| Service.CommittedButRefused | internal/job/service.go:200-220 | with a rejecting operation log, a create that returns an error has its row in the table and its change signalled |
| Service.JobService.ExecuteWithLease | internal/job/service.go:267-304 | the upstream is called if and only if the running row committed, once and with its id; the row then holds, field by field, the response of a success or the code and message of a failure, or stays running when the finishing write fails |
| Service.JobService.Trigger | internal/job/service.go:173-198 | each failing check has its own error, in order; the upstream is called if and only if all of them, the lease and the row of the insert's instant pass; success means its row holds that response, and a rejected log entry turns exactly such a success into an error |
| Service.JobService.SignalChanged | internal/job/service.go:53-58 | the slot holds a token afterwards, whether or not it held one before |
| Statements.TakesTheOldest | internal/job/repository.go:215 | ORDER BY finished_at, id LIMIT n takes the n least rows: none outside precedes one inside |
| Statements.SelectionIsExpired | internal/job/repository.go:215 | a batch holds only expired rows, as many of them as the limit allows |
| Dialects.CallsMatch | internal/job/repository.go:43-54 | one call on two stores equal up to audit timestamps leaves them so and answers the same |
| Dialects.DialectsAgree | migrations/postgres/000004_audit_soft_delete.up.sql:7-38 | any sequence of service and cleaner calls gives both dialects the same answers and the same tables up to audit timestamps |
| Dialects.SelectionsMatch | internal/job/repository.go:213-218 | both dialects select the same rows for a batch |
| Dialects.ProtocolWritesAreFaithful | internal/job/service.go:60-146 | all seven kinds of writes of the service and the cleaner, whatever fails around them, name the principal of their own transaction as audit actor, which is what the agreement of the dialects needs |
| Dialects.TriggerNeverMissesItsActor | internal/database/transaction.go:46-58 | no call of any sequence, with any principals and faults, is answered with the trigger's missing-actor exception |
| Dialects.FailureIsAtomic | internal/database/transaction.go:34-43 | a call that fails leaves the tables as they were, unless its commit was sent and not confirmed |
| Dialects.DeletionIsStampedOnce | migrations/postgres/000004_audit_soft_delete.up.sql:27-35 | the trigger stamps a deletion when it happens and never moves an existing one |
| Cleaner.ExecutionCleaner.Clean | internal/job/cleanup.go:58-78 | the loop ends; it deletes exactly the succeeded and failed rows that finished before the last cutoff and were undeleted, once and as the cleaner, never another row, in floor(E/B)+1 batches; after a failure, only rows that were due |
| Cleaner.BatchOnFields | internal/job/cleanup.go:60-67 | each batch deletes by the retention before the clock it read, up to the batch size, as the scheduler service |
| Cleaner.BatchesAmountToOne | internal/job/cleanup.go:58-78 | what the batches leave equals one bulk deletion at the last cutoff, up to the stamped times |
| Cleaner.BatchEffect | internal/job/cleanup.go:63-67 | one transaction deletes all rows it selected, or none when something fails |
| Runtime.Runtime.Reload | internal/job/runtime.go:66-94 | the runner holds one entry per job of the map; success leaves exactly the undeleted, enabled rows read with a tenant and an application, a rejection those of them before the rejected id, a failed read the old schedule |
| Runtime.Runtime.AddAll | internal/job/runtime.go:77-92 | adding stops at the first rejected schedule and leaves the accepted prefix |
| Runtime.Runtime.RemoveAll | internal/job/runtime.go:73-76 | removing in any order leaves no entry behind |
| Runtime.Runtime.Watch | internal/job/runtime.go:46-60 | over any sequence of changes, ticks and failures the schedule is the registration of the last table that could be read before the stop, or the old schedule when none could |
| Runtime.LastReadDecides | internal/job/runtime.go:50-64 | what reloads one after another amount to: only the last readable table counts |
| Runtime.AcceptedReloadIsComplete | internal/job/runtime.go:77-93 | without a rejection the schedule is exactly the undeleted, enabled rows with a tenant and an application |
| Runtime.RejectionLeavesThePrefix | internal/job/runtime.go:88-90 | after a rejection it is exactly those of them with ids before the rejected one |
| WakeUp.NoLostWakeUp | internal/job/service.go:53-58 | in every interleaving, a local change the last read missed has a token in the channel, a writer before its signal, or a woken watcher, unless the last read failed |
| WakeUp.QuietMeansCurrent | internal/job/runtime.go:46-70 | with nothing in flight and no unseen foreign write, the schedule is the registration of the current table |
| WakeUp.QuietMeansComplete | internal/job/runtime.go:46-70 | when the runner accepts every schedule that is exactly the undeleted, enabled rows with a tenant and an application, and their contents |
| WakeUp.StepsArePossible | internal/job/runtime.go:50-58 | a writer may always commit and signal, and the watcher may always take a token, tick, read and register |
| WakeUp.WakeUpsAreExactlyKept | internal/job/runtime.go:46-70 | in all runs every missing local change is awaited if and only if reading the table cannot fail |
| WakeUp.FailedReadLosesTheWakeUp | internal/job/runtime.go:61-65 | a run in which a failed read consumes the token of a new enabled job: nothing awaits it any more and the schedule differs from the table's |
| WakeUp.TickCatchesUp | internal/job/runtime.go:56-57 | from any state, the next tick whose read succeeds makes the schedule current and leaves no change missing |
| Ordering.ListingIsUnique | internal/job/repository.go:86 | ORDER BY time, id leaves one possible order of any set of rows |
| Pattern.SampleMisleads | internal/job/repository.go:184-185 | a keyword with a special character matches a text that does not contain it |
| Pattern.PercentTakesAnyPrefix | internal/job/repository.go:184-185 | a leading `%` matches whatever remains after some prefix |
| Query.KeywordSearchIsExactlyPlain | internal/job/repository.go:175-188 | the keyword condition is a case-insensitive substring test if and only if the keyword has no special character |
| Query.AppendLikeFilter | internal/job/repository.go:175-188 | the parenthesised OR the loop appends asks, after any clause, for a hit in one of the columns |
| Query.AppendInFilter | internal/job/repository.go:190-199 | the expanded IN list asks for membership, and an empty list asks for nothing |
| Query.AppendTimeRange | internal/job/repository.go:201-211 | the appended bounds ask for the half-open range |
| Query.MembersAreListed | internal/job/repository.go:194-198 | an expanded list reads exactly its own arguments, in order |
| Query.JobWhere | internal/job/repository.go:63-79 | for every filter and row, the built clause with its arguments is read to the end, placeholder by placeholder, and is true exactly when the row meets the plain conjunction |
| Query.ExecutionWhere | internal/job/repository.go:140-164 | the same for executions, with the duration bounds |
| Query.JobMatchesOnColumns | internal/job/repository.go:64-79 | a job filter means its conjunction on the columns of the row |
| Query.ExecutionMatchesOnColumns | internal/job/repository.go:141-164 | the same for executions |
| Query.AdjacentJobRangesPartition | internal/job/repository.go:201-211 | two adjacent creation ranges share no job and together select what the combined range selects |
| Query.AdjacentExecutionRangesPartition | internal/job/repository.go:201-211 | the same for the start times of executions |
| Sql.AndExtends | internal/job/repository.go:65-79 | a clause followed by AND and a test means the conjunction, whatever follows it |
| Sql.ParenthesesEnclose | internal/job/repository.go:179-187 | parentheses keep OR from leaking into the surrounding AND |
| Filters.NormalizeSet | internal/job/service.go:385-408 | the loop returns the first error in list order, or the distinct normal forms |
| Filters.AcceptedLists | internal/job/service.go:386-400 | a list is accepted exactly when it has at most 100 values and each has a normal form |
| Filters.NormalSetKeepsTheValues | internal/job/service.go:385-408 | the result holds exactly the normal forms, once each, and is empty only for an empty list, so no filter is dropped |
| Filters.FirstsKeepsTheOrder | internal/job/service.go:402-405 | the kept values stand in the order of their first occurrences |
| Filters.NormalSetIsIdempotent | internal/job/service.go:385-408 | normalising a normalised list changes nothing |
| Filters.FirstErrorIsFirst | internal/job/service.go:391-401 | the error of a list is that of its first bad value |
| Filters.JobFilterOnInputs | internal/job/service.go:336-355 | a job filter is accepted exactly for a keyword of at most 200 bytes, good lists, the statuses enabled and disabled, and a non-empty range; only keyword and lists change |
| Filters.ExecutionFilterOnInputs | internal/job/service.go:357-383 | the same for executions, with the duration bounds |
| Filters.NormalizeJobFilter | internal/job/service.go:336-355 | a job filter is accepted exactly when each part is, and becomes its normal form |
| Filters.NormalizeExecutionFilter | internal/job/service.go:357-383 | an execution filter is accepted exactly when each part is, and becomes its normal form |
| Filters.NormalJobFilterIsStable | internal/job/service.go:336-355 | a normalised job filter is accepted again unchanged and restricts the same columns |
| Filters.NormalExecutionFilterIsStable | internal/job/service.go:357-383 | the same for execution filters |
| Listing.RefusalOnInputs | internal/job/service.go:452-476 | access is granted if and only if tenant and application are named, the caller has an id, a user belongs to that tenant and the verifier grants the application; each refusal has its error |
| Listing.List | internal/job/service.go:157-172 | the call succeeds exactly for such a caller, a served page and an accepted filter, and returns the total and the requested page of the rows the filter means; each refusal has its error, in order |
| Listing.ListExecutions | internal/job/service.go:315-334 | the same for the executions of an undeleted job, on the job's own scope |
| Listing.GetExecutionOnInputs | internal/job/service.go:305-314 | an undeleted execution is returned exactly to the callers its scope admits |
| Listing.ListJobs | internal/job/repository.go:63-88 | count and page are taken from the same rows, newest first |
| Listing.NewestIsTheOnlyList | internal/job/repository.go:86 | the descending order by time and id leaves one possible list |
| Listing.PagesPartitionTheList | internal/job/repository.go:84-87 | pages 1 to ceil(total/size) of a fixed table concatenate to the whole list: no gap, no duplicate |
| Listing.PageIsExactly | internal/job/service.go:170 | a page is the requested one of every table if and only if its offset fits 64 bits |
| Listing.FarPageReturnsTheFirst | internal/job/service.go:170 | with 4 rows a page, page 2^62 + 1 is the first page |
| HttpRetry.DoWithRetry | internal/outbound/http.go:92-133 | the loop has the outcome of the attempt function, sends the same request each time, and leaves open only the body it returns |
| HttpRetry.Execute | internal/outbound/http.go:73-90 | a breaker that admits the call gives the result of no breaker and is told of the failure behind a returned retryable status; one that refuses sends nothing |
| HttpRetry.CallsEndRightly | internal/outbound/http.go:102-132 | under a valid policy the fall-through is not reached, and the loop stops at the first reply that needs no retry, at the last attempt, or when the context ends |
| HttpRetry.ExhaustedIsAnInvalidPolicy | internal/config/config.go:643 | the fall-through error occurs exactly for a retryable request under a policy without attempts |
| HttpRetry.OnlySafeRequestsAreRepeated | internal/outbound/http.go:135-141 | attempts never exceed the maximum, and only an idempotent verb (section 9.2.2 of RFC 9110) or a keyed request is sent twice |
| HttpRetry.RetriesOnValues | internal/outbound/http.go:135-144 | the statuses that ask for a retry, the verbs that allow one, and the attempts a request gets |
| HttpRetry.ReportOnValues | internal/outbound/http.go:50-54 | the breaker is told of a failure for an error or a retryable status, and of nothing for a cancellation |
| GrpcRetry.AddMetadata | internal/grpcclient/client.go:167-186 | the call keeps what it carried, and under each name it gains exactly the credential, the request id or the key, once each, and nothing under any other name |
| GrpcRetry.RetriesOnValues | internal/grpcclient/client.go:89-113 | the codes that ask for a retry, the calls that allow one, and the attempts a call gets |
| GrpcRetry.RetryGrpcMethod | internal/grpcclient/client.go:103-113 | a call may be retried exactly when it has a key or a pattern matches |
| GrpcRetry.RetryInterceptor | internal/grpcclient/client.go:81-101 | the loop has the outcome of the attempt function, with the same metadata in every attempt and the stated waits between them |
| GrpcRetry.Invoke | internal/grpcclient/client.go:67-77 | the whole chain sends the same stamped attempt each time, and nothing when the breaker refuses |
| GrpcRetry.AttemptsEndRightly | internal/grpcclient/client.go:87-99 | attempts stop at the first code that needs no retry, at the last one, or when the context ends |
| GrpcRetry.OnlySafeCallsAreRepeated | internal/grpcclient/client.go:103-113 | a call is repeated only with a key or a listed method, and never beyond the policy |
| GrpcRetry.AttemptsCarryTheRow | internal/job/service.go:278-283 | every attempt of an execution adds exactly one idempotency key, the id of its row, and exactly that row's tenant and application |
| GrpcRetry.BackoffIsExactly | internal/grpcclient/client.go:115-119 | the wait is the capped doubling under every policy with this first backoff if and only if the shift fits 64 bits |
| GrpcRetry.LongBackoffDoesNotWait | internal/grpcclient/client.go:115-119 | with a first backoff of 2^61 ns the third wait is negative |
| GrpcRetry.WaitsArePositiveAndCapped | internal/grpcclient/client.go:115-119 | under a valid policy and a backoff below 2^60 ns every wait lies between the first backoff and the cap |
| Idempotency.Serve | internal/transport/http/middleware.go:98-152 | the handler runs exactly when the key was acquired, its bytes reach the client and the record alike, and every other decision answers without it |
| Idempotency.AnswersOnDecisions | internal/transport/http/middleware.go:109-131 | the status, code and message of every answer given without the handler |
| Idempotency.RunHandler | internal/transport/http/middleware.go:79-91 | after all writes the capture holds exactly what the client got |
| Idempotency.ReplayFollowsTheRecord | internal/transport/http/middleware.go:109-127 | while the record lives, the same fingerprint gets the recorded result, any other a conflict, and no request changes the record |
| Idempotency.ReplayIsExactly | internal/transport/http/middleware.go:110-121 | a replay equals the first answer with only the request id replaced if and only if that was a plain 200 or an error without a body |
| Idempotency.ReplayDecodes | internal/transport/http/middleware.go:111-117 | through the stored bytes, their decoding and the second encoding, the second client decodes the first answer under the new request id |
| IdempotencyRuns.RunKeeps | internal/transport/http/middleware.go:92-153 | every interleaving of requests, crashes, failing record writes and expiry keeps the record invariant |
| IdempotencyRuns.BeginningOnRecord | internal/transport/http/middleware.go:104-135 | a request is handled exactly when the manager answers and its key has no living record |
| IdempotencyRuns.OneAcquisitionPerRecord | internal/transport/http/middleware.go:104-128 | a key is acquired again only after the record of its earlier acquisition has ended |
| IdempotencyRuns.OneHandlerPerAcquisition | internal/transport/http/middleware.go:128-135 | each acquisition belongs to one request and its handler runs at most once |
| IdempotencyRuns.ReplaysAreOriginals | internal/transport/http/middleware.go:109-121 | every replay in every run stems from a handler of the same key and fingerprint, and equals its answer exactly in the cases above |
| IdempotencyRuns.ReplaysComeFromTheLivingRecord | internal/transport/http/middleware.go:104-121 | at the instant of a replay its source is the owner of the key's living record, the last to have acquired the key |
| Fingerprint.PreimageTellsRequestsApart | internal/transport/http/middleware.go:160-164 | without NUL in subject, method and route, equal hashed bytes mean equal requests, a missing subject counting as `<nil>` |
| Fingerprint.OneSubjectNeverCollides | internal/transport/http/middleware.go:160-164 | two guarded requests of one subject hash the same bytes only when route and body agree |
| Fingerprint.CollisionsAreExactly | internal/transport/http/middleware.go:95-164 | guarded requests of two subjects can hash the same bytes if and only if the subjects print alike, or one is the other followed by the method and a registered route between NULs, and then nothing or a NUL and anything |
| Fingerprint.NulAndNilCollide | internal/transport/http/middleware.go:160-163 | two guarded requests with different subjects and bodies, and two with a missing and a `<nil>` subject, hash the same bytes |

## Left out

- ProtocolTheorems.MutualExclusion: assumes that one execution spends less than 25 s outside its own deadlines; `Overlap.ExclusionIsExactlyPunctuality` shows that this is exactly what it needs.
- ProtocolTheorems.RunKeeps: starts from empty tables, so rows from before the migrations and the old status `deleted` are not covered; authorisation, validation and blank-actor refusals only refuse calls, and are not steps of the protocol; the operation log changes only what a caller is told and is part of `Service`.
- Service.JobService.ExecuteWithLease: what other processes write between its two transactions is left to `Protocol`; the re-read of a scheduled run is a protocol step.
- Service.JobService.Update: validation and normalisation of the input are one parameter, since they call the cron parser and the upstream.
- ProtocolTheorems.VersionsFormOneChain: versions are unbounded integers; 2^63 updates of one job are not modelled.
- Cleaners.ReturnedCountsAddUp: a protocol batch may be any set of due rows; which rows ORDER BY and LIMIT pick is modelled in `Statements` and `Cleaner`.
- Dialects.DialectsAgree: leaves out a failing `set_config`, which only one dialect can have; timestamps are exact, without the precision a column stores.
- Cleaner.ExecutionCleaner.Clean: one cleaner on tables nobody else writes; concurrent cleaners are in `Cleaners.ReturnedCountsAddUp` and `ProtocolTheorems.EveryDeletionIsOneBatch`.
- Query.JobWhere: a clause is a sequence of words, not characters, so string concatenation and Rebind are not modelled; comparisons follow a case-sensitive collation.
- Query.KeywordSearchIsExactlyPlain: lower-casing covers ASCII letters only; `strings.ToLower` and LOWER agree on those.
- Filters.NormalizeSet: the message and code of an error are not modelled, and lower-casing covers ASCII letters only.
- Listing.List: a page is taken from one state of the table; the count and the page of the code are two reads.
- HttpRetry.DoWithRetry: the length of a wait (a float64 computation), request headers, and the draining of a body before it is closed.
- GrpcRetry.RetryGrpcMethod: `path.Match` is a parameter.
- Idempotency.ReplayDecodes: answers are compared after JSON decoding, where numbers beyond 2^53 are already rounded; a JSON object that is not a response is not distinguished from one.
- Idempotency.Serve: what an encoding of a decoded response loses (nothing, by the codec's contract); the branch that bypasses the guard (no key, another method, an unlisted path), an unreadable request body, and the hash itself, which is taken to be free of collisions.
- Cron parsing, fire times, time zones, SkipIfStillRunning, and stopping the runtime: library behaviour; the protocol lets every loaded entry fire at any time.
- Redis, UUIDs, gRPC reflection and dynamic invocation, breaker internals: contracts only.
- Servers, handlers, metrics, tracing, logging, configuration loading, migrations other than the trigger, rate limiting, tokens: no deep property.
- Text of errors, truncation of responses and messages, and the duration column's arithmetic: they would add easy members only.
