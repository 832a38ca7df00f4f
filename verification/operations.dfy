/** Every operation of a `Connection` behind one dispatcher, and the
    properties that hold across all of them: argument errors come before the
    lock guard (except in `Retrieve`), a failing lock guard sends nothing and
    leaves the call context as it was, the call context is applied exactly by
    the writing operations, and over any sequence of calls by any threads the
    disable flag never goes back and a lock holder is never interleaved with. */
module Operations {
  import opened Types
  import opened Locking
  import opened ConnectionState
  import Records
  import Queries
  import Paging

  /** One lock-checked call with its arguments and the service's answer. */
  datatype Op =
    | CreateRecord(record: Option<Entity>, settings: Option<RequestSettings>, newId: Reply<Guid>)
    | DeleteRecord(logicalName: NullableString, id: Guid, settings: Option<RequestSettings>, done: Reply<()>)
    | DeleteRecordByReference(target: Option<EntityReference>, settings: Option<RequestSettings>, done: Reply<()>)
    | UpdateRecord(record: Option<Entity>, settings: Option<RequestSettings>, done: Reply<()>)
    | UpsertRecord(record: Option<Entity>, settings: Option<RequestSettings>, response: Reply<Option<OrgResponse>>)
    | Execute(request: Option<OrgRequest>, settings: Option<RequestSettings>, response: Reply<Option<OrgResponse>>)
    | ExecuteBatch(batch: Option<Records.BatchBuilder>, response: Reply<Option<OrgResponse>>)
    | RefreshRecord(record: Option<Entity>, fetched: Reply<Entity>)
    | Retrieve(logicalName: NullableString, id: Guid, columns: Option<ColumnSet>, fetched: Reply<Entity>)
    | RetrieveMultiple(query: Option<QueryExpression>, pages: seq<Reply<Paging.Page>>)
    | QueryMultiple(source: QuerySource, builder: Option<Queries.QueryRun>, context: QueryContext)
    | QuerySingle(source: QuerySource, builder: Option<Queries.QueryRun>, context: QueryContext)
    | QuerySingleOrDefault(source: QuerySource, builder: Option<Queries.QueryRun>, context: QueryContext)

  /** What a call returns, whatever the operation. */
  datatype Response =
    | Done
    | Identifier(id: Guid)
    | Reference(reference: EntityReference)
    | Organisation(response: Option<OrgResponse>)
    | Record(record: Entity)
    | RecordList(records: seq<Entity>)
    | MaybeRecord(found: Option<Entity>)
    | Acquired(acquired: bool)
    | Handle(handle: Queries.QueryHandle)
    | Identified(ok: bool)

  /** The service's answer sequence of a bulk retrieve must end. */
  predicate WellFormed(op: Op) {
    op.RetrieveMultiple? ==> Paging.Ends(op.pages)
  }

  /** The argument guards of the operation all pass. */
  predicate ArgumentsValid(op: Op) {
    match op
    case CreateRecord(record, settings, _) => Records.CreatableRecord(record) && settings.Some?
    case DeleteRecord(name, id, settings, _) => !IsNullOrEmpty(name) && id != EmptyGuid && settings.Some?
    case DeleteRecordByReference(target, settings, _) =>
      target.Some? && !IsNullOrEmpty(target.value.logicalName) && target.value.id != EmptyGuid && settings.Some?
    case UpdateRecord(record, settings, _) => Records.IdentifiedRecord(record) && settings.Some?
    case UpsertRecord(record, settings, _) => record.Some? && !IsNullOrEmpty(record.value.logicalName) && settings.Some?
    case Execute(request, settings, _) => request.Some? && settings.Some?
    case ExecuteBatch(batch, _) => batch.Some? && batch.value.requestWithResults.Some?
    case RefreshRecord(record, _) => Records.IdentifiedRecord(record)
    case Retrieve(name, id, columns, _) => !IsNullOrEmpty(name) && id != EmptyGuid && columns.Some?
    case RetrieveMultiple(query, _) => query.Some?
    case QueryMultiple(source, builder, _) => Queries.QueryArgumentError(source, builder).None?
    case QuerySingle(source, builder, _) => Queries.QueryArgumentError(source, builder).None?
    case QuerySingleOrDefault(source, builder, _) => Queries.QueryArgumentError(source, builder).None?
  }

  /** The operations that assign `CallerId` and `BypassPluginExecution`. */
  predicate AppliesContext(op: Op) {
    op.CreateRecord? || op.DeleteRecord? || op.DeleteRecordByReference? || op.UpdateRecord? || op.UpsertRecord?
    || op.Execute? || op.ExecuteBatch?
  }

  /** The request settings a context-applying call runs under. */
  function ContextOf(op: Op): RequestSettings
    requires AppliesContext(op) && ArgumentsValid(op)
  {
    match op
    case ExecuteBatch(batch, _) =>
      RequestSettings(batch.value.impersonateAsUserId, batch.value.skipPluginExecution)
    case CreateRecord(_, settings, _) => settings.value
    case DeleteRecord(_, _, settings, _) => settings.value
    case DeleteRecordByReference(_, settings, _) => settings.value
    case UpdateRecord(_, settings, _) => settings.value
    case UpsertRecord(_, settings, _) => settings.value
    case Execute(_, settings, _) => settings.value
  }

  /** The single queries clear the change tracking before any guard. */
  predicate ClearsBeforeGuards(op: Op) {
    (op.QuerySingle? || op.QuerySingleOrDefault?) && op.context.clearChangesEveryTime
  }

  function Lift<T>(s: Step<T>, wrap: T -> Response): (r: Step<Response>)
    ensures r.after == s.after
    ensures r.result.Err? <==> s.result.Err?
    ensures r.result.Err? ==> r.result.error == s.result.error
  {
    match s.result
    case Ok(v) => Step(Ok(wrap(v)), s.after)
    case Err(e) => Step(Err(e), s.after)
  }

  /** Thread `t` calls `op` on `c`. */
  function Apply(c: Connection, t: ThreadId, op: Op): Step<Response>
    requires WellFormed(op)
  {
    match op
    case CreateRecord(record, settings, reply) =>
      Lift(Records.CreateRecord(c, t, record, settings, reply), id => Identifier(id))
    case DeleteRecord(name, id, settings, reply) =>
      Lift(Records.DeleteRecord(c, t, name, id, settings, reply), _ => Done)
    case DeleteRecordByReference(target, settings, reply) =>
      Lift(Records.DeleteRecordByReference(c, t, target, settings, reply), _ => Done)
    case UpdateRecord(record, settings, reply) =>
      Lift(Records.UpdateRecord(c, t, record, settings, reply), id => Identifier(id))
    case UpsertRecord(record, settings, reply) =>
      Lift(Records.UpsertRecord(c, t, record, settings, reply), r => Reference(r))
    case Execute(request, settings, reply) =>
      Lift(Records.Execute(c, t, request, settings, reply), r => Organisation(r))
    case ExecuteBatch(batch, reply) =>
      Lift(Records.ExecuteBatch(c, t, batch, reply), r => Organisation(r))
    case RefreshRecord(record, reply) =>
      Lift(Records.RefreshRecord(c, t, record, reply), e => Record(e))
    case Retrieve(name, id, columns, reply) =>
      Lift(Records.Retrieve(c, t, name, id, columns, reply), e => Record(e))
    case RetrieveMultiple(query, pages) =>
      Lift(Paging.RetrieveMultiple(c, t, query, pages), rs => RecordList(rs))
    case QueryMultiple(source, builder, context) =>
      Lift(Queries.QueryMultiple(c, t, source, builder, context), rs => RecordList(rs))
    case QuerySingle(source, builder, context) =>
      Lift(Queries.QuerySingle(c, t, source, builder, context), e => Record(e))
    case QuerySingleOrDefault(source, builder, context) =>
      Lift(Queries.QuerySingleOrDefault(c, t, source, builder, context), e => MaybeRecord(e))
  }

  /** No call but the lock primitives touches the lock or the disable flag,
      and calls only ever add to the transport log, all under the caller's
      thread id, and only once every guard has passed. */
  lemma CallsKeepLockAndGrowLog(c: Connection, t: ThreadId, op: Op)
    requires WellFormed(op)
    ensures Apply(c, t, op).after.monitor == c.monitor
    ensures Apply(c, t, op).after.lockingCheckDisabled == c.lockingCheckDisabled
    ensures c.log <= Apply(c, t, op).after.log
    ensures |Apply(c, t, op).after.log| > |c.log| ==> ArgumentsValid(op) && LockGuardPasses(c, t)
    ensures forall i :: |c.log| <= i < |Apply(c, t, op).after.log| ==> Apply(c, t, op).after.log[i].issuer == t
  {
    if op.UpsertRecord? && ArgumentsValid(op) && LockGuardPasses(c, t) {
      assert SentUnder(c, Apply(c, t, op).after, t, ExecuteCall(UpsertRequest(op.record.value)), op.settings.value);
    }
    if op.RetrieveMultiple? && ArgumentsValid(op) && LockGuardPasses(c, t) {
      Paging.PagingProtocol(c, t, op.query.value, op.pages);
    }
  }

  /** Argument guards run before the lock guard: with a bad argument every
      call except `Retrieve` fails with `InvalidArgument` whether or not the
      lock is held, and sends nothing. Only the single queries have changed
      anything by then: the change tracking, cleared when asked. */
  lemma ArgumentErrorsComeFirst(c: Connection, t: ThreadId, op: Op)
    requires WellFormed(op) && !ArgumentsValid(op) && !op.Retrieve?
    ensures Apply(c, t, op).result.Err? && Apply(c, t, op).result.error.InvalidArgument?
    ensures Apply(c, t, op).after == if ClearsBeforeGuards(op) then Queries.ClearChanges(c) else c
  {
    if op.DeleteRecordByReference? && op.target.Some? {
      var r := op.target.value;
      assert Records.DeleteRecordByReference(c, t, op.target, op.settings, op.done)
          == Records.DeleteRecord(c, t, r.logicalName, r.id, op.settings, op.done);
    }
  }

  /** `Retrieve` checks the lock before its arguments, so without the lock it
      reports `LockNotHeld` even for arguments `UpdateRecord` would reject
      first as `InvalidArgument`. */
  lemma RetrieveChecksLockFirst(c: Connection, t: ThreadId, name: NullableString, columns: Option<ColumnSet>,
                                fetched: Reply<Entity>, settings: Option<RequestSettings>)
    requires !LockGuardPasses(c, t)
    ensures Apply(c, t, Retrieve(name, EmptyGuid, columns, fetched)) == Step(Err(LockNotHeld), c)
    ensures Apply(c, t, UpdateRecord(Some(Entity(name, EmptyGuid, map[])), settings, Answer(())))
         == Step(Err(InvalidArgument("record")), c)
  {
  }

  /** A failing lock guard (checking on, lock not held by the caller) makes
      every call with valid arguments, and every `Retrieve`, fail with
      `LockNotHeld`, sending nothing and leaving the call context and the
      lock as they were; the change tracking is only cleared by the single
      queries, when asked. */
  lemma LockGuardFailureIsInert(c: Connection, t: ThreadId, op: Op)
    requires WellFormed(op) && (ArgumentsValid(op) || op.Retrieve?)
    requires !c.lockingCheckDisabled && !IsLockedByThisThread(c, t)
    ensures Apply(c, t, op).result == Err(LockNotHeld)
    ensures Apply(c, t, op).after == if ClearsBeforeGuards(op) then Queries.ClearChanges(c) else c
  {
  }

  /** Once the guards pass, the writing calls run under the request settings
      they were given (CallerId the impersonated user or Guid.Empty,
      BypassPluginExecution the skip switch), even if the service then fails;
      every other call leaves both fields as they were. */
  lemma CallContextEffect(c: Connection, t: ThreadId, op: Op)
    requires WellFormed(op)
    ensures AppliesContext(op) && ArgumentsValid(op) && LockGuardPasses(c, t) ==>
      && Apply(c, t, op).after.callerId == CallerIdFor(ContextOf(op))
      && Apply(c, t, op).after.bypassPluginExecution == ContextOf(op).skipPluginExecution
    ensures !AppliesContext(op) ==>
      && Apply(c, t, op).after.callerId == c.callerId
      && Apply(c, t, op).after.bypassPluginExecution == c.bypassPluginExecution
  {
    if op.DeleteRecordByReference? && op.target.Some? {
      var r := op.target.value;
      assert Records.DeleteRecordByReference(c, t, op.target, op.settings, op.done)
          == Records.DeleteRecord(c, t, r.logicalName, r.id, op.settings, op.done);
    }
    if op.UpsertRecord? && ArgumentsValid(op) && LockGuardPasses(c, t) {
      assert SentUnder(c, Apply(c, t, op).after, t, ExecuteCall(UpsertRequest(op.record.value)), op.settings.value);
    }
  }

  /** Everything a thread can do to a connection. */
  datatype Action =
    | TryLock
    | ReleaseLock
    | DisableLockingCheck
    | Invoke(op: Op)
    | Test(identity: Reply<Option<OrgResponse>>)
    | CreateQueryUnsafe(source: QuerySource, context: QueryContext)
    | EnumerateUnsafe(handle: Queries.QueryHandle, run: Queries.QueryRun)

  datatype Event = Event(thread: ThreadId, action: Action)

  predicate EventWellFormed(e: Event) {
    e.action.Invoke? ==> WellFormed(e.action.op)
  }

  /** One event applied to the connection. */
  function Perform(c: Connection, e: Event): Step<Response>
    requires EventWellFormed(e)
  {
    match e.action
    case TryLock =>
      var (acquired, c') := ConnectionState.TryLock(c, e.thread);
      Step(Ok(Acquired(acquired)), c')
    case ReleaseLock => Lift(ConnectionState.ReleaseLock(c, e.thread), _ => Done)
    case DisableLockingCheck => Step(Ok(Done), ConnectionState.DisableLockingCheck(c))
    case Invoke(op) => Apply(c, e.thread, op)
    case Test(identity) => Lift(Records.Test(c, e.thread, identity), b => Identified(b))
    case CreateQueryUnsafe(source, context) => Lift(Queries.CreateQueryUnsafe(c, source, context), h => Handle(h))
    case EnumerateUnsafe(handle, run) => Lift(Queries.EnumerateUnsafe(c, e.thread, handle, run), rs => RecordList(rs))
  }

  /** A sequence of events, in order: the result of each, and the final connection. */
  function Run(c: Connection, events: seq<Event>): (r: (seq<Result<Response>>, Connection))
    requires forall i :: 0 <= i < |events| ==> EventWellFormed(events[i])
    ensures |r.0| == |events|
    decreases |events|
  {
    if |events| == 0 then ([], c)
    else
      var s := Perform(c, events[0]);
      var (rest, last) := Run(s.after, events[1..]);
      ([s.result] + rest, last)
  }

  /** Once the locking check is disabled it stays disabled, and no call in
      any later sequence of events fails with `LockNotHeld`. */
  lemma {:induction false} DisabledCheckIsPermanent(c: Connection, events: seq<Event>)
    requires forall i :: 0 <= i < |events| ==> EventWellFormed(events[i])
    requires c.lockingCheckDisabled
    ensures Run(c, events).1.lockingCheckDisabled
    ensures forall i :: 0 <= i < |events| ==> Run(c, events).0[i] != Err(LockNotHeld)
    decreases |events|
  {
    if |events| > 0 {
      var e := events[0];
      var s := Perform(c, e);
      assert s.result != Err(LockNotHeld) && s.after.lockingCheckDisabled by {
        if e.action.Invoke? {
          CallsKeepLockAndGrowLog(c, e.thread, e.action.op);
          PassingGuardNeverReportsLockNotHeld(c, e.thread, e.action.op);
        }
      }
      DisabledCheckIsPermanent(s.after, events[1..]);
      var r := Run(c, events);
      forall i | 0 <= i < |events|
        ensures r.0[i] != Err(LockNotHeld)
      {
        if i > 0 {
          assert r.0[i] == Run(s.after, events[1..]).0[i - 1];
        }
      }
    }
  }

  /** `LockNotHeld` only ever comes from a failing lock guard. */
  lemma PassingGuardNeverReportsLockNotHeld(c: Connection, t: ThreadId, op: Op)
    requires WellFormed(op) && LockGuardPasses(c, t)
    ensures Apply(c, t, op).result != Err(LockNotHeld)
  {
    match op
    case UpsertRecord(record, settings, reply) =>
      if ArgumentsValid(op) {
        assert LockGuardPasses(ApplyContext(c, settings.value), t);
      }
    case ExecuteBatch(batch, reply) =>
      if batch.Some? {
        var b := batch.value;
        assert Records.ExecuteBatch(c, t, batch, reply)
            == Records.Execute(c, t, b.requestWithResults,
                               Some(RequestSettings(b.impersonateAsUserId, b.skipPluginExecution)), reply);
      }
    case DeleteRecordByReference(target, settings, reply) =>
      if target.Some? {
        var r := target.value;
        assert Records.DeleteRecordByReference(c, t, target, settings, reply)
            == Records.DeleteRecord(c, t, r.logicalName, r.id, settings, reply);
      }
    case _ =>
  }

  /** The transport requests that need no lock: the identity test, and the
      round trips of enumerating an unprotected query handle. */
  predicate Unguarded(call: Call) {
    call.request == ExecuteCall(WhoAmIRequest) || call.request.HandleQueryCall?
  }

  /** While the locking check is on and thread `holder` holds the lock and
      does not release it, no other thread gets a request of a guarded method
      to the transport (only the identity test and the enumeration of
      unprotected query handles need no lock), no other thread can release or
      take the lock, and the holder still holds it at the end. */
  lemma {:induction false} HolderIsNotInterleaved(c: Connection, holder: ThreadId, events: seq<Event>)
    requires forall i :: 0 <= i < |events| ==> EventWellFormed(events[i])
    requires !c.lockingCheckDisabled && IsLockedByThisThread(c, holder)
    requires forall i :: 0 <= i < |events| ==> events[i].action != DisableLockingCheck
    requires forall i :: 0 <= i < |events| ==> events[i] != Event(holder, ReleaseLock)
    ensures IsLockedByThisThread(Run(c, events).1, holder)
    ensures !Run(c, events).1.lockingCheckDisabled
    ensures c.log <= Run(c, events).1.log
    ensures forall i :: |c.log| <= i < |Run(c, events).1.log| ==>
      Run(c, events).1.log[i].issuer == holder || Unguarded(Run(c, events).1.log[i])
    decreases |events|
  {
    if |events| > 0 {
      var e := events[0];
      var s := Perform(c, e);
      assert IsLockedByThisThread(s.after, holder) && !s.after.lockingCheckDisabled && c.log <= s.after.log
          && forall i :: |c.log| <= i < |s.after.log| ==> s.after.log[i].issuer == holder || Unguarded(s.after.log[i])
      by {
        match e.action
        case Invoke(op) =>
          CallsKeepLockAndGrowLog(c, e.thread, op);
        case TryLock =>
        case ReleaseLock =>
        case DisableLockingCheck =>
        case Test(_) =>
        case CreateQueryUnsafe(_, _) =>
        case EnumerateUnsafe(_, _) =>
      }
      HolderIsNotInterleaved(s.after, holder, events[1..]);
      var final := Run(c, events).1;
      assert final == Run(s.after, events[1..]).1;
      forall i | |c.log| <= i < |final.log|
        ensures final.log[i].issuer == holder || Unguarded(final.log[i])
      {
        if i < |s.after.log| {
          assert final.log[i] == s.after.log[i];
        }
      }
    }
  }

  /** The lock does not protect the holder's change tracking: another
      thread's `QuerySingle` with `ClearChangesEveryTime` fails its lock guard
      but has already cleared the tracked records; the holder keeps the lock
      and nothing reaches the transport. */
  lemma OthersClearHolderTracking(c: Connection, holder: ThreadId, other: ThreadId, source: QuerySource,
                                  run: Queries.QueryRun)
    requires !c.lockingCheckDisabled && IsLockedByThisThread(c, holder) && other != holder
    requires !Queries.NameMissing(source)
    ensures
      var s := Apply(c, other, QuerySingle(source, Some(run), QueryContext(true, false)));
      && s.result == Err(LockNotHeld)
      && s.after.tracked == {}
      && IsLockedByThisThread(s.after, holder)
      && s.after.log == c.log
  {
  }
}
