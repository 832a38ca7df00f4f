/** LINQ-backed queries of `Connection`: the unprotected query constructor and
    the guarded multi, single and single-or-default queries.

    The query itself is abstract: a `queryBuilder` is `None` when the caller
    passed null, and otherwise stands for what running its translated query
    gives: the records, in order, or a failure of the round trip. Materialising a query is one transport round trip, and
    the change-tracking context attaches every record it returns; `Detach`
    removes a record from the context and `ClearChanges` empties it. */
module Queries {
  import opened Types
  import opened ConnectionState

  /** A query as the caller's `queryBuilder` shapes it, run by `ToArray`: the
      records it returns in order, or the failure of that round trip. */
  type QueryRun = Reply<seq<Entity>>

  /** The composable query handle the unprotected constructor returns. */
  datatype QueryHandle = QueryHandle(source: QuerySource)

  /** `ClearChanges` on the change-tracking context. */
  function ClearChanges(c: Connection): Connection {
    c.(tracked := {})
  }

  /** `ClearChanges` only when the query context asks for it. */
  function ClearIfAsked(c: Connection, context: QueryContext): Connection {
    if context.clearChangesEveryTime then ClearChanges(c) else c
  }

  /** The set of records a result sequence holds. */
  function Elements(rows: seq<Entity>): set<Entity> {
    set e | e in rows
  }

  /** The `foreach ... Detach(entity, true)` loop: detaches the records one at a time. */
  function DetachEach(tracked: set<Entity>, rows: seq<Entity>): (r: set<Entity>)
    ensures r <= tracked
    ensures forall e :: e in tracked ==> (e in r <==> e !in rows)
    decreases |rows|
  {
    if |rows| == 0 then tracked
    else DetachEach(tracked - {rows[0]}, rows[1..])
  }

  /** Materialising the query: one round trip, and the returned records become tracked. */
  function Materialise(c: Connection, t: ThreadId, source: QuerySource, rows: seq<Entity>): Connection {
    var c1 := Send(c, t, QueryCall(source));
    c1.(tracked := c1.tracked + Elements(rows))
  }

  /** The name guard of the by-name overloads; the generic overloads have none. */
  predicate NameMissing(source: QuerySource) {
    source.ByName? && IsNullOrEmpty(source.logicalName)
  }

  /** Name and builder guards of the guarded queries, in source order. */
  function QueryArgumentError<T>(source: QuerySource, builder: Option<T>): (e: Option<Error>)
    ensures e.None? <==> !NameMissing(source) && builder.Some?
    ensures NameMissing(source) ==> e == Some(InvalidArgument("entityLogicalName"))
    ensures !NameMissing(source) && builder.None? ==> e == Some(InvalidArgument("queryBuilder"))
  {
    if NameMissing(source) then Some(InvalidArgument("entityLogicalName"))
    else if builder.None? then Some(InvalidArgument("queryBuilder"))
    else None
  }

  /** `CreateQuery_Unsafe_Unprotected`, both overloads. No lock guard and no
      round trip. The context is cleared first when asked, the by-name overload
      then checks the name, and on success the context is cleared again
      unconditionally. */
  function CreateQueryUnsafe(c: Connection, source: QuerySource, context: QueryContext): (s: Step<QueryHandle>)
    ensures s.result.Err? <==> NameMissing(source)
    ensures s.result.Err? ==> s.result.error == InvalidArgument("entityLogicalName")
    ensures s.result.Ok? ==> s.result.value == QueryHandle(source) && s.after.tracked == {}
    ensures s.result.Err? ==> s.after.tracked == if context.clearChangesEveryTime then {} else c.tracked
    ensures s.after.(tracked := c.tracked) == c
  {
    var c0 := ClearIfAsked(c, context);
    if NameMissing(source) then Step(Err(InvalidArgument("entityLogicalName")), c0)
    else Step(Ok(QueryHandle(source)), ClearChanges(c0))
  }

  /** Enumerating a handle the unprotected constructor returned. The query
      runs through the same client as every guarded call, but nothing checks
      the lock: one round trip by the enumerating thread, and the
      change-tracking context attaches what comes back. A failure is passed on. */
  function EnumerateUnsafe(c: Connection, t: ThreadId, handle: QueryHandle, run: QueryRun): (s: Step<seq<Entity>>)
    ensures s.after.log == c.log + [Call(t, HandleQueryCall(handle.source), c.callerId, c.bypassPluginExecution)]
    ensures s.result.Ok? <==> run.Answer?
    ensures run.Answer? ==> s.result == Ok(run.value) && s.after.tracked == c.tracked + Elements(run.value)
    ensures run.Fault? ==> s.result == Err(RemoteFailure(run.message)) && s.after.tracked == c.tracked
    ensures s.after.(log := c.log, tracked := c.tracked) == c
  {
    var c1 := Send(c, t, HandleQueryCall(handle.source));
    match run
    case Fault(m) => Step(Err(RemoteFailure(m)), c1)
    case Answer(rows) => Step(Ok(rows), c1.(tracked := c1.tracked + Elements(rows)))
  }

  /** `QueryMultiple`, both overloads: guards, then the lock guard, and only
      then the optional `ClearChanges`; the records come back in query order,
      detached afterwards when the context asks for it. A failing round trip
      is passed on, with nothing attached. */
  function QueryMultiple(c: Connection, t: ThreadId, source: QuerySource, builder: Option<QueryRun>,
                         context: QueryContext): (s: Step<seq<Entity>>)
    ensures QueryArgumentError(source, builder).Some? ==> s == Step(Err(QueryArgumentError(source, builder).value), c)
    ensures QueryArgumentError(source, builder).None? && !LockGuardPasses(c, t) ==> s == Step(Err(LockNotHeld), c)
    ensures s.result.Ok? <==> QueryArgumentError(source, builder).None? && LockGuardPasses(c, t) && builder.value.Answer?
    ensures QueryArgumentError(source, builder).None? && LockGuardPasses(c, t) ==>
      var base := if context.clearChangesEveryTime then {} else c.tracked;
      && s.after.log == c.log + [Call(t, QueryCall(source), c.callerId, c.bypassPluginExecution)]
      && (builder.value.Fault? ==>
            s.result == Err(RemoteFailure(builder.value.message)) && s.after.tracked == base)
      && (builder.value.Answer? ==>
            && s.result == Ok(builder.value.value)
            && s.after.tracked == if context.detachRetrievedRecords then base - Elements(builder.value.value)
                                  else base + Elements(builder.value.value))
    ensures s.after.(log := c.log, tracked := c.tracked) == c
  {
    match QueryArgumentError(source, builder)
    case Some(e) => Step(Err(e), c)
    case None =>
      if !LockGuardPasses(c, t) then Step(Err(LockNotHeld), c)
      else
        var c0 := ClearIfAsked(c, context);
        match builder.value
        case Fault(m) => Step(Err(RemoteFailure(m)), Send(c0, t, QueryCall(source)))
        case Answer(rows) =>
          var c1 := Materialise(c0, t, source, rows);
          if !context.detachRetrievedRecords then Step(Ok(rows), c1)
          else Step(Ok(rows), c1.(tracked := DetachEach(c1.tracked, rows)))
  }

  /** `QuerySingle`, both overloads: `ClearChanges` (when asked) comes BEFORE
      every guard; exactly one record must come back. With detaching on, the
      records are detached before the count is checked, so a failing count
      still detaches them. A failing round trip is passed on. */
  function QuerySingle(c: Connection, t: ThreadId, source: QuerySource, builder: Option<QueryRun>,
                       context: QueryContext): (s: Step<Entity>)
    ensures QueryArgumentError(source, builder).Some? ==>
      s == Step(Err(QueryArgumentError(source, builder).value), ClearIfAsked(c, context))
    ensures QueryArgumentError(source, builder).None? && !LockGuardPasses(c, t) ==>
      s == Step(Err(LockNotHeld), ClearIfAsked(c, context))
    ensures QueryArgumentError(source, builder).None? && LockGuardPasses(c, t) ==>
      var base := if context.clearChangesEveryTime then {} else c.tracked;
      && s.after.log == c.log + [Call(t, QueryCall(source), c.callerId, c.bypassPluginExecution)]
      && (builder.value.Fault? ==>
            s.result == Err(RemoteFailure(builder.value.message)) && s.after.tracked == base)
      && (builder.value.Answer? ==>
            var rows := builder.value.value;
            && (s.result.Ok? <==> |rows| == 1)
            && (s.result.Ok? ==> s.result.value == rows[0])
            && (s.result.Err? ==> s.result.error == CardinalityViolation(|rows|))
            && s.after.tracked == if context.detachRetrievedRecords then base - Elements(rows)
                                  else base + Elements(rows))
    ensures s.after.(log := c.log, tracked := c.tracked) == c
  {
    var c0 := ClearIfAsked(c, context);
    match QueryArgumentError(source, builder)
    case Some(e) => Step(Err(e), c0)
    case None =>
      if !LockGuardPasses(c, t) then Step(Err(LockNotHeld), c0)
      else
        match builder.value
        case Fault(m) => Step(Err(RemoteFailure(m)), Send(c0, t, QueryCall(source)))
        case Answer(rows) =>
          var c1 := Materialise(c0, t, source, rows);
          var c2 := if context.detachRetrievedRecords then c1.(tracked := DetachEach(c1.tracked, rows)) else c1;
          if |rows| == 1 then Step(Ok(rows[0]), c2)
          else Step(Err(CardinalityViolation(|rows|)), c2)
  }

  /** `QuerySingleOrDefault`, both overloads: like `QuerySingle`, but zero
      records give an absent result, and the count is checked BEFORE
      detaching, so a failing count detaches nothing. */
  function QuerySingleOrDefault(c: Connection, t: ThreadId, source: QuerySource, builder: Option<QueryRun>,
                                context: QueryContext): (s: Step<Option<Entity>>)
    ensures QueryArgumentError(source, builder).Some? ==>
      s == Step(Err(QueryArgumentError(source, builder).value), ClearIfAsked(c, context))
    ensures QueryArgumentError(source, builder).None? && !LockGuardPasses(c, t) ==>
      s == Step(Err(LockNotHeld), ClearIfAsked(c, context))
    ensures QueryArgumentError(source, builder).None? && LockGuardPasses(c, t) ==>
      var base := if context.clearChangesEveryTime then {} else c.tracked;
      && s.after.log == c.log + [Call(t, QueryCall(source), c.callerId, c.bypassPluginExecution)]
      && (builder.value.Fault? ==>
            s.result == Err(RemoteFailure(builder.value.message)) && s.after.tracked == base)
      && (builder.value.Answer? ==>
            var rows := builder.value.value;
            && (s.result.Ok? <==> |rows| <= 1)
            && (s.result == Ok(None) <==> |rows| == 0)
            && (s.result.Ok? && s.result.value.Some? ==> s.result.value.value == rows[0])
            && (s.result.Err? ==> s.result.error == CardinalityViolation(|rows|))
            && s.after.tracked == if context.detachRetrievedRecords && |rows| <= 1 then base - Elements(rows)
                                  else base + Elements(rows))
    ensures s.after.(log := c.log, tracked := c.tracked) == c
  {
    var c0 := ClearIfAsked(c, context);
    match QueryArgumentError(source, builder)
    case Some(e) => Step(Err(e), c0)
    case None =>
      if !LockGuardPasses(c, t) then Step(Err(LockNotHeld), c0)
      else
        match builder.value
        case Fault(m) => Step(Err(RemoteFailure(m)), Send(c0, t, QueryCall(source)))
        case Answer(rows) =>
          var c1 := Materialise(c0, t, source, rows);
          if |rows| > 1 then Step(Err(CardinalityViolation(|rows|)), c1)
          else
            var found := if |rows| == 0 then None else Some(rows[0]);
            if context.detachRetrievedRecords then Step(Ok(found), c1.(tracked := DetachEach(c1.tracked, rows)))
            else Step(Ok(found), c1)
  }

  /** On the same failing count, `QuerySingle` has already detached the
      records while `QuerySingleOrDefault` leaves them tracked. */
  lemma DetachOrderDiffers(c: Connection, t: ThreadId, source: QuerySource, rows: seq<Entity>)
    requires !NameMissing(source) && LockGuardPasses(c, t) && |rows| >= 2
    ensures
      var context := QueryContext(false, true);
      && QuerySingle(c, t, source, Some(Answer(rows)), context).result == Err(CardinalityViolation(|rows|))
      && QuerySingleOrDefault(c, t, source, Some(Answer(rows)), context).result == Err(CardinalityViolation(|rows|))
      && (forall e :: e in rows ==> e !in QuerySingle(c, t, source, Some(Answer(rows)), context).after.tracked)
      && (forall e :: e in rows ==> e in QuerySingleOrDefault(c, t, source, Some(Answer(rows)), context).after.tracked)
  {
  }

  /** A failing lock guard still clears the change tracking of the single
      queries when asked to, while `QueryMultiple` clears only after the guard. */
  lemma ClearBeforeGuardOnlyInSingleQueries(c: Connection, t: ThreadId, source: QuerySource, rows: seq<Entity>)
    requires !NameMissing(source) && !LockGuardPasses(c, t)
    ensures
      var context := QueryContext(true, false);
      && QuerySingle(c, t, source, Some(Answer(rows)), context) == Step(Err(LockNotHeld), ClearChanges(c))
      && QuerySingleOrDefault(c, t, source, Some(Answer(rows)), context) == Step(Err(LockNotHeld), ClearChanges(c))
      && QueryMultiple(c, t, source, Some(Answer(rows)), context) == Step(Err(LockNotHeld), c)
  {
  }
}
