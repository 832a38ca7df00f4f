# DataverseClientProxy connection, modelled in Dafny

This project models `Connection`, the concurrency-guarded wrapper around one
Dataverse client channel, and the `ExecuteMultipleRequestSettings` value object.

A `Connection` holds a .NET `Monitor` that callers take with `TryLock` and give
back with `ReleaseLock`. It also holds a flag that switches the lock check off
for good (`DisableLockingCheck`). The client's `CallerId` and
`BypassPluginExecution` fields carry the call context, and a change-tracking
context holds the records it tracks.

The calls differ in the order of their steps:

- Create, update, delete, execute and upsert follow one order: argument
  guards, then the lock guard, then the call context, then one transport
  round trip.
- `RefreshRecord`, `Retrieve`, `RetrieveMultiple` and the queries apply no
  call context. `Retrieve` also checks the lock before its arguments.
- `QuerySingle` and `QuerySingleOrDefault` clear change tracking, when asked,
  before any guard.
- `RetrieveMultiple` makes one round trip per page.
- `Test` has no guard at all.

The model is functional:

- A connection is an immutable `Connection` value, and every operation is a
  pure function. It returns a `Step`: the result (`Ok` or an `Err` tag) and
  the connection afterwards.
- Thread ids are explicit parameters.
- The remote service is an oracle. Each operation takes the service's answer
  (`Reply`: an answer or a transport fault) as a parameter.
- Every request handed to the transport is appended to the connection's
  `log`, together with the calling thread and the `CallerId` and
  `BypassPluginExecution` values in force at that moment.
- C# references that may be null are `Option` values.
- A Guid is a `nat`, and 0 is `Guid.Empty`.
- Exceptions are tags: `InvalidArgument(parameter)` for every argument
  `Guard` failure and `ArgumentNullException`; `CardinalityViolation` for the
  guard on how many records a single query returned; `LockNotHeld` for the
  lock guard's `ArgumentException`; `LockExitError` for
  `SynchronizationLockException`; `InvalidCast`; and `RemoteFailure` for a
  forwarded transport failure.

Files:

- `types.dfy` holds the value objects.
- `locking.dfy` models the reentrant monitor.
- `connection_state.dfy` holds the connection state, the lock primitives and
  the shared guard, context and send steps.
- `records.dfy` covers create, update, delete, execute, upsert, refresh,
  retrieve and the identity test.
- `queries.dfy` covers the unprotected query constructor and the guarded
  multi, single and single-or-default queries.
- `paging.dfy` covers `RetrieveMultiple`: a closed-form function, and a
  method with the paging loop proved equal to it.
- `operations.dfy` puts every guarded call behind one dispatcher. It proves
  the properties shared by all calls, and properties of arbitrary sequences
  of events by many threads.
- `batch_settings.dfy` covers `ExecuteMultipleRequestSettings`.

Where the code and its evident intent differ, the model follows the code, with one exception (the upsert guard):

- The lock is the reentrant `Monitor`: its holder can take it again.
- `Retrieve` checks the lock before its arguments.
- `QuerySingle` detaches records before checking how many came back.
- `QuerySingle` and `QuerySingleOrDefault` clear change tracking before any
  guard.
- The upsert record guard is inverted. This is recorded under Findings,
  where both versions are modelled. The dispatcher in `operations.dfy`, and
  so every lemma over arbitrary calls, uses the corrected guard. In the code
  as written, a named record is rejected with `InvalidArgument("record")`
  even before the lock guard.

## Model

| member | source | states |
|---|---|---|
| Locking.TryEnter | C485.DataverseClientProxy/Connection.cs:725-729 | TryLock never blocks. It succeeds exactly when the monitor is free or already held by the caller; on success the caller holds it one level deeper, and on failure nothing changes |
| Locking.Exit | C485.DataverseClientProxy/Connection.cs:625-629 | Exiting fails with LockExitError exactly when the caller does not hold the monitor. Otherwise the depth drops by one, and the last exit frees the monitor |
| Locking.TryEnterExcludesOthers | C485.DataverseClientProxy/Connection.cs:725-729 | While one thread holds the lock, TryLock by any other thread returns false and leaves the lock unchanged |
| Locking.BalancedEnterExitFrees | C485.DataverseClientProxy/Connection.cs:625-629 | The monitor is reentrant. n entries followed by n exits free it, after which any thread's TryLock succeeds; after n-1 exits the thread still holds it |
| Locking.EnterTimesDepth | C485.DataverseClientProxy/Connection.cs:725-729 | Repeated TryLock by the holder (or on a free lock) keeps that thread the owner and raises the depth by the number of entries |
| Locking.ExitTimesDepth | C485.DataverseClientProxy/Connection.cs:625-629 | The holder can exit k times for any k up to the depth. It stays the owner until the depth reaches zero, which frees the lock |
| ConnectionState.TryLock | C485.DataverseClientProxy/Connection.cs:725-729 | After a successful TryLock, IsLockedByThisThread holds for the caller, one recursion level deeper than before. A failed TryLock changes nothing, and only the lock ever changes |
| ConnectionState.ReleaseLock | C485.DataverseClientProxy/Connection.cs:625-629 | ReleaseLock by a thread that does not hold the lock is LockExitError and changes nothing. Otherwise it lowers the depth by one. The caller keeps the lock while the depth stays positive, and the last release frees it. Nothing but the lock changes |
| ConnectionState.DisableLockingCheck | C485.DataverseClientProxy/Connection.cs:165-168 | Sets the disable flag, after which the lock guard passes for every thread; nothing else changes |
| ConnectionState.ApplyContext | C485.DataverseClientProxy/Connection.cs:99-103 | CallerId becomes the impersonated user id, or Guid.Empty when none is given. BypassPluginExecution becomes SkipPluginExecution; nothing else changes |
| Records.CreateRecord | C485.DataverseClientProxy/Connection.cs:84-107 | Checks in order: a null or invalid record (needs an empty id and a name), then null settings, each an InvalidArgument, then the lock guard. Any failure leaves the connection unchanged. Otherwise one create is sent under the applied context. The result is the service's id, or its failure as RemoteFailure with the service's message |
| Records.DeleteRecord | C485.DataverseClientProxy/Connection.cs:115-142 | Checks in order: empty name, default id, null settings, then the lock. Each failure changes nothing. Otherwise one delete of that name and id is sent under the applied context. It succeeds exactly when the service answers, and a service failure comes back as RemoteFailure with its message |
| Records.DeleteRecordByReference | C485.DataverseClientProxy/Connection.cs:144-151 | A null reference is InvalidArgument. Otherwise the call equals the delete by the reference's name and id |
| Records.UpdateRecord | C485.DataverseClientProxy/Connection.cs:731-757 | Checks in order: a null or invalid record (needs an id and a name), then null settings, then the lock, each changing nothing. Otherwise one update is sent under the applied context. A success returns exactly the record's own non-empty id, and a service failure comes back as RemoteFailure |
| Records.Execute | C485.DataverseClientProxy/Connection.cs:170-193 | Checks in order: null request, null settings, then the lock, each changing nothing. Otherwise one execute is sent under the applied context. The result is the response (possibly null), or the service's failure as RemoteFailure |
| Records.ExecuteBatch | C485.DataverseClientProxy/Connection.cs:195-207 | A null builder is InvalidArgument. Otherwise the call is Execute of the builder's request, with settings built from its impersonation and plugin-bypass fields |
| Records.UpsertAfterGuards | C485.DataverseClientProxy/Connection.cs:780-796 | After the guards, exactly one UpsertRequest for the record is sent through Execute under the applied context. The result is the Target of an UpsertResponse. Another response type is InvalidCast, a null response is InvalidArgument, and a service failure is RemoteFailure |
| Records.UpsertRecordAsWritten | C485.DataverseClientProxy/Connection.cs:765-797 | The record guard as written rejects every record with a logical name, with InvalidArgument. An unnamed record gets past it, then meets the settings guard and the lock guard, and an UpsertRequest for it is sent under the applied context. The result is exactly as in the corrected version: the Target, InvalidArgument for a null response, InvalidCast for another type, RemoteFailure for a service failure |
| Records.UpsertRecord | C485.DataverseClientProxy/Connection.cs:765-797 | Corrected record guard (non-null, with a logical name; the id is free), then null settings, then the lock, each changing nothing. Otherwise one UpsertRequest is executed under the applied context. The result is the response's Target; a null response is InvalidArgument, another type is InvalidCast and a service failure is RemoteFailure |
| Records.UpsertAsWrittenRejectsNamedRecords | C485.DataverseClientProxy/Connection.cs:767-769 | With the lock check off: a named record is rejected by the guard as written but upserted by the corrected one, and an unnamed record is the reverse |
| Records.UpsertGuardsAreComplementary | C485.DataverseClientProxy/Connection.cs:767-769 | For every non-null record, exactly one of the two guards rejects it as an invalid record |
| Records.RefreshRecord | C485.DataverseClientProxy/Connection.cs:596-617 | Checks the record (id and name), then the lock, each changing nothing. Otherwise one retrieve is sent for the same name and id, asking for exactly the record's attribute-key set. The call context is left as it was. The result is the fetched record or RemoteFailure |
| Records.Retrieve | C485.DataverseClientProxy/Connection.cs:631-652 | The lock guard comes first. Then the guards for an empty name, a default id and a null column set, each changing nothing. Otherwise one retrieve is sent without touching the call context, and the record or RemoteFailure comes back |
| Records.Test | C485.DataverseClientProxy/Connection.cs:710-717 | With no lock guard and no context change, one WhoAmI is sent. A WhoAmI response gives true exactly when it names a non-empty user, and a null response gives false. A response of another type is InvalidCast, and a service failure is forwarded |
| Queries.DetachEach | C485.DataverseClientProxy/Connection.cs:262-266 | Detaching the results one by one leaves tracked exactly the records that were tracked and are not among the results |
| Queries.CreateQueryUnsafe | C485.DataverseClientProxy/Connection.cs:43-82 | No lock guard and no round trip. Only the by-name overload can fail, on an empty name. On success the tracking is empty; on failure it was cleared only if asked |
| Queries.EnumerateUnsafe | C485.DataverseClientProxy/Connection.cs:43-64 | Enumerating the handle the unprotected constructor returns makes one round trip by the enumerating thread, with no lock guard. The records come back and are attached to the tracking; a failure is RemoteFailure and attaches nothing |
| Queries.QueryMultiple | C485.DataverseClientProxy/Connection.cs:227-309 | Name and builder guards, then the lock guard, each changing nothing; only after them the optional ClearChanges. Then exactly one round trip. A failure of it is RemoteFailure, with tracking as cleared and nothing attached. Otherwise the results come back unchanged and in order. With detaching on, none of them stays tracked; otherwise they are added to the tracking |
| Queries.QuerySingle | C485.DataverseClientProxy/Connection.cs:328-441 | ClearChanges (if asked) before any guard. Past the guards, a failing round trip is RemoteFailure with nothing attached. Otherwise it succeeds exactly when one record came back and returns it, else CardinalityViolation. With detaching on, the records are detached even when the count fails |
| Queries.QuerySingleOrDefault | C485.DataverseClientProxy/Connection.cs:460-577 | ClearChanges (if asked) before any guard. Past the guards, a failing round trip is RemoteFailure with nothing attached. Otherwise it succeeds exactly when at most one record came back, with an absent result exactly for zero records. The count is checked before detaching, so a failing count detaches nothing |
| Queries.DetachOrderDiffers | C485.DataverseClientProxy/Connection.cs:372-383 | For two or more results with detaching on, both single queries fail. QuerySingle has detached every result, while QuerySingleOrDefault leaves them all tracked |
| Queries.ClearBeforeGuardOnlyInSingleQueries | C485.DataverseClientProxy/Connection.cs:335-352 | With ClearChangesEveryTime and the lock not held, both single queries fail having cleared the tracking. QueryMultiple fails with the connection untouched |
| Paging.RetrieveMultiple | C485.DataverseClientProxy/Connection.cs:660-702 | A null query is InvalidArgument, then the lock guard, each changing nothing. Otherwise the call makes one round trip per response up to and including the first ending one, and only the log changes. It succeeds exactly when that response is a page, and fails with the forwarded failure otherwise |
| Paging.PageInfoLeft | C485.DataverseClientProxy/Connection.cs:676-699 | When a guard fails, the caller's PageInfo is left alone. Otherwise it is overwritten: afterwards it is the position of the last request sent, whether the call succeeded or failed. That is page k+1, count 5000, and the cookie of the response before the last (none when k is 0) |
| Paging.FlattenLength | C485.DataverseClientProxy/Connection.cs:686-689 | The records collected page by page are exactly as many as the answered pages carry, counted front to back |
| Paging.PagingProtocol | C485.DataverseClientProxy/Connection.cs:676-700 | k+1 requests for k+1 responses, all for the same query with count 5000. The first is page 1 with no cookie; each later one is the next page and carries the previous response's cookie; the last has page number k+1 |
| Paging.RetrievedInPageOrder | C485.DataverseClientProxy/Connection.cs:688-691 | On success, every consumed page's records appear in the output as one block, right after the records of the earlier pages. The output holds exactly as many records as the consumed pages carry. So nothing is dropped, duplicated or reordered |
| Paging.FlattenPrefix | C485.DataverseClientProxy/Connection.cs:683-700 | The records collected over the first j responses are a prefix of those collected over any later number of responses |
| Paging.RetrieveMultipleByPaging | C485.DataverseClientProxy/Connection.cs:674-701 | The page-by-page loop (set page 1, ask, collect, stop on MoreRecords false, otherwise next page with the returned cookie) computes exactly the result and final connection of the closed-form RetrieveMultiple. It also leaves the query's PageInfo exactly as PageInfoLeft states |
| Paging.TwelveThousandRecords | C485.DataverseClientProxy/Connection.cs:676-700 | Pages of 5000, 5000 and 2000 distinct records give all 12000 records in the order served, in 3 round trips, the third for page 3 with the second page's cookie |
| Operations.CallsKeepLockAndGrowLog | C485.DataverseClientProxy/Connection.cs:94-97 | No guarded call changes the lock or the disable flag, and the log only grows. A call adds to the log only when all its guards passed, and every entry it adds carries the caller's thread |
| Operations.ArgumentErrorsComeFirst | C485.DataverseClientProxy/Connection.cs:86-97 | Every call except Retrieve rejects bad arguments with InvalidArgument, whatever the lock state, and sends nothing. Only the single queries have changed anything by then, by clearing tracking when asked |
| Operations.RetrieveChecksLockFirst | C485.DataverseClientProxy/Connection.cs:631-648 | Without the lock, Retrieve with a default id fails with LockNotHeld. UpdateRecord with a default id fails with InvalidArgument instead |
| Operations.LockGuardFailureIsInert | C485.DataverseClientProxy/Connection.cs:94-97 | With checking on and the lock not held, every call with valid arguments (and every Retrieve) fails with LockNotHeld. It sends nothing and leaves CallerId, BypassPluginExecution, the lock and the log unchanged; only the single queries clear tracking, when asked |
| Operations.CallContextEffect | C485.DataverseClientProxy/Connection.cs:134-138 | Past the guards, Create, Delete, Update, Upsert and Execute leave CallerId as the impersonated id (or Guid.Empty) and BypassPluginExecution as SkipPluginExecution, even if the service fails. Refresh, Retrieve, RetrieveMultiple and the queries leave both unchanged |
| Operations.PassingGuardNeverReportsLockNotHeld | C485.DataverseClientProxy/Connection.cs:775-778 | When the lock guard passes, no call reports LockNotHeld, including the second lock check Upsert makes inside Execute |
| Operations.DisabledCheckIsPermanent | C485.DataverseClientProxy/Connection.cs:165-168 | Once checking is disabled, it stays disabled over any sequence of events by any threads, and no call in that sequence fails with LockNotHeld |
| Operations.HolderIsNotInterleaved | C485.DataverseClientProxy/Connection.cs:221-225 | While checking is on and one thread holds the lock without releasing it, over any sequence of events that thread keeps the lock. Every request a guarded method sends is that thread's. Only the unguarded WhoAmI test and the enumeration of unprotected query handles reach the transport from other threads |
| Operations.OthersClearHolderTracking | C485.DataverseClientProxy/Connection.cs:335-352 | The lock does not protect the holder's change tracking. Another thread's QuerySingle with ClearChangesEveryTime fails with LockNotHeld, yet it has already emptied the tracked records. The holder keeps the lock, and nothing is sent |
| BatchSettings.DefaultValues | C485.DataverseClientProxy/Models/ExecuteMultipleRequestSettings.cs:16-49 | The defaults are RequestSize 60, MaxDegreeOfParallelism -1 and ReportProgressInterval one second (10,000,000 ticks). Both default callbacks accept any arguments and change nothing |
| BatchSettings.SetErrorReport | C485.DataverseClientProxy/Models/ExecuteMultipleRequestSettings.cs:16 | Reading ErrorReport back gives the value set, and the other four properties are unchanged |
| BatchSettings.SetMaxDegreeOfParallelism | C485.DataverseClientProxy/Models/ExecuteMultipleRequestSettings.cs:23 | Reading MaxDegreeOfParallelism back gives the value set, and the other four properties are unchanged |
| BatchSettings.SetReportProgress | C485.DataverseClientProxy/Models/ExecuteMultipleRequestSettings.cs:31 | Reading ReportProgress back gives the value set, and the other four properties are unchanged |
| BatchSettings.SetReportProgressInterval | C485.DataverseClientProxy/Models/ExecuteMultipleRequestSettings.cs:39 | Reading ReportProgressInterval back gives the value set, and the other four properties are unchanged |
| BatchSettings.SetRequestSize | C485.DataverseClientProxy/Models/ExecuteMultipleRequestSettings.cs:49 | Reading RequestSize back gives the value set, and the other four properties are unchanged |
| BatchSettings.SettersCommute | C485.DataverseClientProxy/Models/ExecuteMultipleRequestSettings.cs:16-49 | Assignments to two different properties commute, for all ten pairs. Of two assignments to the same property, the later one wins, for all five properties |

## Findings

| source | as written | input that shows it | evidently intended | confidence | as-written member | corrected member |
|---|---|---|---|---|---|---|
| C485.DataverseClientProxy/Connection.cs:767-769 | `Guard.Against.NullOrInvalidInput(record, ..., p => string.IsNullOrEmpty(p.LogicalName))` throws when the predicate is false, so it rejects every record that has a logical name | any non-null record with LogicalName "account", whatever its id, settings or lock state; a record with an empty name passes and is sent | reject null records and records without a logical name (the predicate negated) | high; not executed | Records.UpsertRecordAsWritten (witnessed by Records.UpsertAsWrittenRejectsNamedRecords) | Records.UpsertRecord (complementarity in Records.UpsertGuardsAreComplementary) |

## Left out

- The `*Async` methods are left out: each only runs the synchronous method on a worker thread. `RetrieveAsync` (Connection.cs:654-658) calls itself instead of `Retrieve`, so as written it never reaches the service. It recurses through fresh tasks without end. A `Monitor` belongs to a thread, and `Task.Run` runs the body on a pool thread that generally does not hold the lock. So while checking is on, the guarded `*Async` calls generally fail the lock guard even when their caller holds the lock.
- Real thread interleaving and `Monitor` internals are left out. Threads are explicit ids, and a sequence of events stands for any interleaving of whole calls.
- The constructor is left out: its null guard, and the transport tuning of `DisableCrossThreadSafeties`, `MaxRetryCount` and `RetryPauseTime` (Connection.cs:25-41), which belong to the external client's retry policy. The initial `CallerId` and `BypassPluginExecution` values belong to that client too.
- The transport itself is left out (`CrmServiceClient` Create, Update, Delete, Execute, Retrieve and RetrieveMultiple). Each call is one log entry plus an answer passed in as a parameter.
- LINQ query building and translation are left out. A `queryBuilder` is `None` for null. Otherwise it is what running its query gives: the records in order, or a failure of the round trip. Enumerating the unprotected constructor's handle is one round trip; composing further LINQ operators on it is not modelled.
- Change tracking beyond a set of records is left out: object identity, `Detach`'s recursive detaching of related records, and the exception `Detach` would raise for a record tracked twice in one result. The model attaches every materialised record, which is the tracking context's own behaviour.
- `OrganizationServiceContextSettings`, `RequestSettings`, `ExecuteMultipleRequestBuilder` and `IDataverseConnectionLayer` are not part of this model. The model uses only the fields the connection reads. Callers pass an already-resolved query context, because the values of `OrganizationServiceContextSettings.Default` (used when the argument is null) are not known here.
- Paging.RetrieveMultiple: requires the service's answers to end with a failure or a page whose `MoreRecords` is false. The source keeps asking for as long as the service says there are more records. The model also builds the whole result at once, as `ToArray` does, instead of yielding lazily.
- Paging.RetrieveMultipleByPaging: same restriction to answer sequences that end.
- The criteria of a `QueryExpression` are opaque. The model tracks only the `PageInfo` the call writes into the caller's object, through `Paging.PageInfoLeft`. It does not model the `PageInfo` value the caller had set before, because the call overwrites it.
- The real effects of the `ErrorReport` and `ReportProgress` delegates, and the batch orchestrator that calls them, are left out. A supplied delegate is recorded as an event, and only the defaults' do-nothing behaviour is stated (in `BatchSettings.DefaultValues`).
- Attribute values are reduced to text, numbers, flags and references; the service has many more kinds.
