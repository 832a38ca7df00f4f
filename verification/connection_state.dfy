/** The state one `Connection` carries between calls, and the lock primitives
    and the shared steps (lock guard, applying the call context, sending one
    request to the transport) that every operation is built from.

    The remote service is not modelled: what the transport is asked is appended
    to `log`, and what it answers is a parameter of each operation. */
module ConnectionState {
  import opened Types
  import opened Locking

  /** Descriptor of a paged bulk query (`QueryExpression`); opaque here. */
  datatype QueryExpression = QueryExpression(entityName: string)

  /** Paging position of a bulk query (`PagingInfo`). */
  datatype PagingInfo = PagingInfo(count: int, pageNumber: int, pagingCookie: Option<string>)

  /** Attribute selection of a single-record retrieve (`ColumnSet`). */
  datatype ColumnSet = AllColumns | Columns(names: set<string>)

  /** Where a LINQ query starts: `CreateQuery(entityLogicalName)` or
      `CreateQuery<T>()` for an early-bound record type. */
  datatype QuerySource = ByName(logicalName: NullableString) | ByType(typeName: string)

  /** One request handed to the transport. */
  datatype TransportRequest =
    | CreateCall(record: Entity)
    | UpdateCall(record: Entity)
    | DeleteCall(logicalName: string, id: Guid)
    | ExecuteCall(request: OrgRequest)
    | RetrieveCall(logicalName: string, id: Guid, columns: ColumnSet)
    | RetrieveMultipleCall(query: QueryExpression, pageInfo: PagingInfo)
    | QueryCall(source: QuerySource)
    | HandleQueryCall(source: QuerySource)

  /** A request as the transport saw it: the calling thread, and the CallerId and
      BypassPluginExecution values the client carried when it was sent. */
  datatype Call = Call(issuer: ThreadId, request: TransportRequest, callerId: Guid, bypassPluginExecution: bool)

  datatype Connection = Connection(
    monitor: Monitor,
    lockingCheckDisabled: bool,
    callerId: Guid,
    bypassPluginExecution: bool,
    tracked: set<Entity>,
    log: seq<Call>)

  /** The outcome of one operation: its result and the connection afterwards. */
  datatype Step<+T> = Step(result: Result<T>, after: Connection)

  /** `IsLockedByThisThread`. */
  predicate IsLockedByThisThread(c: Connection, t: ThreadId) {
    IsEntered(c.monitor, t)
  }

  /** The guard in front of every lock-checked operation:
      `!_disableLockingCheck && !IsLockedByThisThread()` throws. */
  predicate LockGuardPasses(c: Connection, t: ThreadId) {
    c.lockingCheckDisabled || IsLockedByThisThread(c, t)
  }

  /** `TryLock`: one non-blocking `Monitor.TryEnter`. Nothing but the monitor changes. */
  function TryLock(c: Connection, t: ThreadId): (r: (bool, Connection))
    ensures r.0 <==> c.monitor.owner.None? || IsLockedByThisThread(c, t)
    ensures r.0 ==> IsLockedByThisThread(r.1, t)
    ensures r.0 ==> r.1.monitor.depth == c.monitor.depth + 1
    ensures !r.0 ==> r.1 == c
    ensures r.1.(monitor := c.monitor) == c
  {
    var (acquired, m) := TryEnter(c.monitor, t);
    (acquired, c.(monitor := m))
  }

  /** `ReleaseLock`: one `Monitor.Exit`; a thread that does not hold the lock
      gets `LockExitError` and the connection is left as it was. */
  function ReleaseLock(c: Connection, t: ThreadId): (s: Step<()>)
    ensures s.result.Err? <==> !IsLockedByThisThread(c, t)
    ensures s.result.Err? ==> s.result.error == LockExitError && s.after == c
    ensures s.result.Ok? ==> s.after.monitor.depth + 1 == c.monitor.depth
    ensures s.result.Ok? && s.after.monitor.depth > 0 ==> IsLockedByThisThread(s.after, t)
    ensures s.result.Ok? && s.after.monitor.depth == 0 ==> s.after.monitor == Free
    ensures s.after.(monitor := c.monitor) == c
  {
    match Exit(c.monitor, t)
    case Err(e) => Step(Err(e), c)
    case Ok(m) => Step(Ok(()), c.(monitor := m))
  }

  /** `DisableLockingCheck`: sets the flag; nothing ever clears it. */
  function DisableLockingCheck(c: Connection): (c': Connection)
    ensures c'.lockingCheckDisabled
    ensures forall t :: LockGuardPasses(c', t)
    ensures c'.(lockingCheckDisabled := c.lockingCheckDisabled) == c
  {
    c.(lockingCheckDisabled := true)
  }

  /** Assigning `CallerId` and `BypassPluginExecution` from the request settings. */
  function ApplyContext(c: Connection, settings: RequestSettings): (c': Connection)
    ensures c'.callerId == CallerIdFor(settings)
    ensures c'.bypassPluginExecution == settings.skipPluginExecution
    ensures c'.(callerId := c.callerId, bypassPluginExecution := c.bypassPluginExecution) == c
  {
    c.(callerId := CallerIdFor(settings), bypassPluginExecution := settings.skipPluginExecution)
  }

  /** Handing one request to the transport, under the client's current context. */
  function Send(c: Connection, t: ThreadId, request: TransportRequest): Connection {
    c.(log := c.log + [Call(t, request, c.callerId, c.bypassPluginExecution)])
  }

  /** `c'` is `c` after the call context of `settings` was applied and then
      exactly one `request` by thread `t` was handed to the transport;
      the lock, the disable flag and the tracked records are untouched. */
  predicate SentUnder(c: Connection, c': Connection, t: ThreadId, request: TransportRequest, settings: RequestSettings) {
    && c'.callerId == CallerIdFor(settings)
    && c'.bypassPluginExecution == settings.skipPluginExecution
    && c'.log == c.log + [Call(t, request, c'.callerId, c'.bypassPluginExecution)]
    && c'.monitor == c.monitor
    && c'.lockingCheckDisabled == c.lockingCheckDisabled
    && c'.tracked == c.tracked
  }

  /** `c'` is `c` after thread `t` handed exactly one `request` to the
      transport, with the call context left as it was. */
  predicate SentAsIs(c: Connection, c': Connection, t: ThreadId, request: TransportRequest) {
    c' == c.(log := c.log + [Call(t, request, c.callerId, c.bypassPluginExecution)])
  }
}
