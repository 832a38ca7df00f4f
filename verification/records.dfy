/** Single-record operations of `Connection`: create, update, delete (by name
    and id or by reference), execute, upsert, refresh, retrieve and the
    identity test.

    Create, update, delete, execute and upsert follow one order: argument
    guards first (`InvalidArgument`, named after the parameter), then the lock
    guard (`LockNotHeld`), then the call context, then exactly one transport
    round trip whose answer or failure is passed on. `RefreshRecord` and
    `Retrieve` apply no call context, and `Retrieve` runs its lock guard
    before its argument guards. `Test` has neither guards nor context. A
    failing guard leaves the connection as it was. */
module Records {
  import opened Types
  import opened ConnectionState

  /** Record shape `CreateRecord` accepts: not null, no id yet, a logical name. */
  predicate CreatableRecord(record: Option<Entity>) {
    record.Some? && record.value.id == EmptyGuid && !IsNullOrEmpty(record.value.logicalName)
  }

  /** Record shape `UpdateRecord` and `RefreshRecord` accept: not null, an id, a logical name. */
  predicate IdentifiedRecord(record: Option<Entity>) {
    record.Some? && record.value.id != EmptyGuid && !IsNullOrEmpty(record.value.logicalName)
  }

  /** `CreateRecord`: the new identifier the service assigned. */
  function CreateRecord(c: Connection, t: ThreadId, record: Option<Entity>, settings: Option<RequestSettings>,
                        reply: Reply<Guid>): (s: Step<Guid>)
    ensures !CreatableRecord(record) ==> s == Step(Err(InvalidArgument("record")), c)
    ensures CreatableRecord(record) && settings.None? ==> s == Step(Err(InvalidArgument("requestSettings")), c)
    ensures CreatableRecord(record) && settings.Some? && !LockGuardPasses(c, t) ==> s == Step(Err(LockNotHeld), c)
    ensures CreatableRecord(record) && settings.Some? && LockGuardPasses(c, t) ==>
      && SentUnder(c, s.after, t, CreateCall(record.value), settings.value)
      && (s.result.Ok? <==> reply.Answer?)
      && (s.result.Ok? ==> s.result.value == reply.value)
      && (reply.Fault? ==> s.result == Err(RemoteFailure(reply.message)))
  {
    if !CreatableRecord(record) then Step(Err(InvalidArgument("record")), c)
    else if settings.None? then Step(Err(InvalidArgument("requestSettings")), c)
    else if !LockGuardPasses(c, t) then Step(Err(LockNotHeld), c)
    else
      var c1 := ApplyContext(c, settings.value);
      Step(Forward(reply), Send(c1, t, CreateCall(record.value)))
  }

  /** `DeleteRecord(logicalName, id, requestSettings)`. */
  function DeleteRecord(c: Connection, t: ThreadId, logicalName: NullableString, id: Guid,
                        settings: Option<RequestSettings>, reply: Reply<()>): (s: Step<()>)
    ensures IsNullOrEmpty(logicalName) ==> s == Step(Err(InvalidArgument("logicalName")), c)
    ensures !IsNullOrEmpty(logicalName) && id == EmptyGuid ==> s == Step(Err(InvalidArgument("id")), c)
    ensures !IsNullOrEmpty(logicalName) && id != EmptyGuid && settings.None? ==>
      s == Step(Err(InvalidArgument("requestSettings")), c)
    ensures !IsNullOrEmpty(logicalName) && id != EmptyGuid && settings.Some? && !LockGuardPasses(c, t) ==>
      s == Step(Err(LockNotHeld), c)
    ensures !IsNullOrEmpty(logicalName) && id != EmptyGuid && settings.Some? && LockGuardPasses(c, t) ==>
      && SentUnder(c, s.after, t, DeleteCall(logicalName.value, id), settings.value)
      && (s.result.Ok? <==> reply.Answer?)
      && (reply.Fault? ==> s.result == Err(RemoteFailure(reply.message)))
  {
    if IsNullOrEmpty(logicalName) then Step(Err(InvalidArgument("logicalName")), c)
    else if id == EmptyGuid then Step(Err(InvalidArgument("id")), c)
    else if settings.None? then Step(Err(InvalidArgument("requestSettings")), c)
    else if !LockGuardPasses(c, t) then Step(Err(LockNotHeld), c)
    else
      var c1 := ApplyContext(c, settings.value);
      Step(Forward(reply), Send(c1, t, DeleteCall(logicalName.value, id)))
  }

  /** `DeleteRecord(entityReference, requestSettings)`: a null reference is
      rejected, otherwise the call is the by-name-and-id delete. */
  function DeleteRecordByReference(c: Connection, t: ThreadId, target: Option<EntityReference>,
                                   settings: Option<RequestSettings>, reply: Reply<()>): (s: Step<()>)
    ensures target.None? ==> s == Step(Err(InvalidArgument("entityReference")), c)
    ensures target.Some? ==> s == DeleteRecord(c, t, target.value.logicalName, target.value.id, settings, reply)
  {
    match target
    case None => Step(Err(InvalidArgument("entityReference")), c)
    case Some(r) => DeleteRecord(c, t, r.logicalName, r.id, settings, reply)
  }

  /** `UpdateRecord`: returns the record's own id, not anything the service says. */
  function UpdateRecord(c: Connection, t: ThreadId, record: Option<Entity>, settings: Option<RequestSettings>,
                        reply: Reply<()>): (s: Step<Guid>)
    ensures !IdentifiedRecord(record) ==> s == Step(Err(InvalidArgument("record")), c)
    ensures IdentifiedRecord(record) && settings.None? ==> s == Step(Err(InvalidArgument("requestSettings")), c)
    ensures IdentifiedRecord(record) && settings.Some? && !LockGuardPasses(c, t) ==> s == Step(Err(LockNotHeld), c)
    ensures IdentifiedRecord(record) && settings.Some? && LockGuardPasses(c, t) ==>
      && SentUnder(c, s.after, t, UpdateCall(record.value), settings.value)
      && (s.result.Ok? <==> reply.Answer?)
      && (reply.Fault? ==> s.result == Err(RemoteFailure(reply.message)))
    ensures s.result.Ok? ==> record.Some? && s.result.value == record.value.id && s.result.value != EmptyGuid
  {
    if !IdentifiedRecord(record) then Step(Err(InvalidArgument("record")), c)
    else if settings.None? then Step(Err(InvalidArgument("requestSettings")), c)
    else if !LockGuardPasses(c, t) then Step(Err(LockNotHeld), c)
    else
      var c1 := ApplyContext(c, settings.value);
      var c2 := Send(c1, t, UpdateCall(record.value));
      match reply
      case Fault(m) => Step(Err(RemoteFailure(m)), c2)
      case Answer(_) => Step(Ok(record.value.id), c2)
  }

  /** `Execute(request, requestSettings)`: the service's response, which may be null. */
  function Execute(c: Connection, t: ThreadId, request: Option<OrgRequest>, settings: Option<RequestSettings>,
                   reply: Reply<Option<OrgResponse>>): (s: Step<Option<OrgResponse>>)
    ensures request.None? ==> s == Step(Err(InvalidArgument("request")), c)
    ensures request.Some? && settings.None? ==> s == Step(Err(InvalidArgument("requestSettings")), c)
    ensures request.Some? && settings.Some? && !LockGuardPasses(c, t) ==> s == Step(Err(LockNotHeld), c)
    ensures request.Some? && settings.Some? && LockGuardPasses(c, t) ==>
      && SentUnder(c, s.after, t, ExecuteCall(request.value), settings.value)
      && (s.result.Ok? <==> reply.Answer?)
      && (s.result.Ok? ==> s.result.value == reply.value)
      && (reply.Fault? ==> s.result == Err(RemoteFailure(reply.message)))
  {
    if request.None? then Step(Err(InvalidArgument("request")), c)
    else if settings.None? then Step(Err(InvalidArgument("requestSettings")), c)
    else if !LockGuardPasses(c, t) then Step(Err(LockNotHeld), c)
    else
      var c1 := ApplyContext(c, settings.value);
      Step(Forward(reply), Send(c1, t, ExecuteCall(request.value)))
  }

  /** The two fields `Execute(ExecuteMultipleRequestBuilder)` reads from the
      builder, plus the prepared request; the builder itself is not modelled. */
  datatype BatchBuilder = BatchBuilder(requestWithResults: Option<OrgRequest>, impersonateAsUserId: Option<Guid>,
                                       skipPluginExecution: bool)

  /** `Execute(executeMultipleRequestBuilder)`: a null builder is rejected,
      otherwise the builder's request is executed with request settings built
      from the builder's impersonation and plugin-bypass fields. */
  function ExecuteBatch(c: Connection, t: ThreadId, builder: Option<BatchBuilder>,
                        reply: Reply<Option<OrgResponse>>): (s: Step<Option<OrgResponse>>)
    ensures builder.None? ==> s == Step(Err(InvalidArgument("executeMultipleRequestBuilder")), c)
    ensures builder.Some? ==>
      s == Execute(c, t, builder.value.requestWithResults,
                   Some(RequestSettings(builder.value.impersonateAsUserId, builder.value.skipPluginExecution)), reply)
  {
    match builder
    case None => Step(Err(InvalidArgument("executeMultipleRequestBuilder")), c)
    case Some(b) =>
      Execute(c, t, b.requestWithResults, Some(RequestSettings(b.impersonateAsUserId, b.skipPluginExecution)), reply)
  }

  /** The tail `UpsertRecord` shares in both of its forms: apply the context,
      then run `Execute` on an `UpsertRequest` (which validates, checks the
      lock and applies the context again), cast the response to
      `UpsertResponse` and return its non-null `Target`. */
  function UpsertAfterGuards(c: Connection, t: ThreadId, record: Entity, settings: RequestSettings,
                             reply: Reply<Option<OrgResponse>>): (s: Step<EntityReference>)
    requires LockGuardPasses(c, t)
    ensures SentUnder(c, s.after, t, ExecuteCall(UpsertRequest(record)), settings)
    ensures s.result.Ok? <==> reply.Answer? && reply.value.Some? && reply.value.value.UpsertResponse?
    ensures s.result.Ok? ==> s.result.value == reply.value.value.upserted
    ensures reply.Answer? && reply.value.Some? && !reply.value.value.UpsertResponse? ==> s.result == Err(InvalidCast)
    ensures reply.Answer? && reply.value.None? ==> s.result == Err(InvalidArgument("executeResponse"))
    ensures reply.Fault? ==> s.result == Err(RemoteFailure(reply.message))
  {
    var c1 := ApplyContext(c, settings);
    var executed := Execute(c1, t, Some(UpsertRequest(record)), Some(settings), reply);
    match executed.result
    case Err(e) => Step(Err(e), executed.after)
    case Ok(None) => Step(Err(InvalidArgument("executeResponse")), executed.after)
    case Ok(Some(UpsertResponse(target))) => Step(Ok(target), executed.after)
    case Ok(Some(_)) => Step(Err(InvalidCast), executed.after)
  }

  /** `UpsertRecord` exactly as the source guards it: `NullOrInvalidInput`
      throws when its predicate is false, and the predicate given is
      `string.IsNullOrEmpty(p.LogicalName)`, so only records WITHOUT a logical
      name get past the guard. */
  function UpsertRecordAsWritten(c: Connection, t: ThreadId, record: Option<Entity>, settings: Option<RequestSettings>,
                                 reply: Reply<Option<OrgResponse>>): (s: Step<EntityReference>)
    ensures record.None? || !IsNullOrEmpty(record.value.logicalName) ==> s == Step(Err(InvalidArgument("record")), c)
    ensures record.Some? && IsNullOrEmpty(record.value.logicalName) && settings.None? ==>
      s == Step(Err(InvalidArgument("requestSettings")), c)
    ensures record.Some? && IsNullOrEmpty(record.value.logicalName) && settings.Some? && !LockGuardPasses(c, t) ==>
      s == Step(Err(LockNotHeld), c)
    ensures record.Some? && IsNullOrEmpty(record.value.logicalName) && settings.Some? && LockGuardPasses(c, t) ==>
      && SentUnder(c, s.after, t, ExecuteCall(UpsertRequest(record.value)), settings.value)
      && (s.result.Ok? <==> reply.Answer? && reply.value.Some? && reply.value.value.UpsertResponse?)
      && (s.result.Ok? ==> s.result.value == reply.value.value.upserted)
      && (reply.Answer? && reply.value.None? ==> s.result == Err(InvalidArgument("executeResponse")))
      && (reply.Answer? && reply.value.Some? && !reply.value.value.UpsertResponse? ==> s.result == Err(InvalidCast))
      && (reply.Fault? ==> s.result == Err(RemoteFailure(reply.message)))
    ensures s.result.Ok? ==> record.Some? && IsNullOrEmpty(record.value.logicalName)
  {
    if record.None? || !IsNullOrEmpty(record.value.logicalName) then Step(Err(InvalidArgument("record")), c)
    else if settings.None? then Step(Err(InvalidArgument("requestSettings")), c)
    else if !LockGuardPasses(c, t) then Step(Err(LockNotHeld), c)
    else UpsertAfterGuards(c, t, record.value, settings.value, reply)
  }

  /** `UpsertRecord` with its record guard's predicate negated: the record
      must be non-null and have a logical name; its id may or may not be set. */
  function UpsertRecord(c: Connection, t: ThreadId, record: Option<Entity>, settings: Option<RequestSettings>,
                        reply: Reply<Option<OrgResponse>>): (s: Step<EntityReference>)
    ensures record.None? || IsNullOrEmpty(record.value.logicalName) ==> s == Step(Err(InvalidArgument("record")), c)
    ensures record.Some? && !IsNullOrEmpty(record.value.logicalName) && settings.None? ==>
      s == Step(Err(InvalidArgument("requestSettings")), c)
    ensures record.Some? && !IsNullOrEmpty(record.value.logicalName) && settings.Some? && !LockGuardPasses(c, t) ==>
      s == Step(Err(LockNotHeld), c)
    ensures record.Some? && !IsNullOrEmpty(record.value.logicalName) && settings.Some? && LockGuardPasses(c, t) ==>
      && SentUnder(c, s.after, t, ExecuteCall(UpsertRequest(record.value)), settings.value)
      && (s.result.Ok? <==> reply.Answer? && reply.value.Some? && reply.value.value.UpsertResponse?)
      && (s.result.Ok? ==> s.result.value == reply.value.value.upserted)
      && (reply.Answer? && reply.value.None? ==> s.result == Err(InvalidArgument("executeResponse")))
      && (reply.Answer? && reply.value.Some? && !reply.value.value.UpsertResponse? ==> s.result == Err(InvalidCast))
      && (reply.Fault? ==> s.result == Err(RemoteFailure(reply.message)))
  {
    if record.None? || IsNullOrEmpty(record.value.logicalName) then Step(Err(InvalidArgument("record")), c)
    else if settings.None? then Step(Err(InvalidArgument("requestSettings")), c)
    else if !LockGuardPasses(c, t) then Step(Err(LockNotHeld), c)
    else UpsertAfterGuards(c, t, record.value, settings.value, reply)
  }

  /** The record guard of `UpsertRecord` as written rejects every record that
      has a logical name, even when everything else would let it through, and
      lets a record without a name reach the transport. */
  lemma UpsertAsWrittenRejectsNamedRecords()
    ensures
      var c := Connection(Locking.Free, true, EmptyGuid, false, {}, []);
      var named := Entity(Some("account"), EmptyGuid, map[]);
      var unnamed := Entity(Some(""), EmptyGuid, map[]);
      var settings := Some(RequestSettings(None, false));
      var reply := Answer(Some(UpsertResponse(EntityReference(Some("account"), 7))));
      && UpsertRecordAsWritten(c, 0, Some(named), settings, reply).result == Err(InvalidArgument("record"))
      && UpsertRecord(c, 0, Some(named), settings, reply).result == Ok(EntityReference(Some("account"), 7))
      && UpsertRecordAsWritten(c, 0, Some(unnamed), settings, reply).result.Ok?
      && UpsertRecord(c, 0, Some(unnamed), settings, reply).result == Err(InvalidArgument("record"))
  {
  }

  /** The corrected upsert and the one as written disagree on every record
      (non-null): exactly one of them accepts it past the record guard. */
  lemma {:induction false} UpsertGuardsAreComplementary(c: Connection, t: ThreadId, record: Entity,
                                                        settings: Option<RequestSettings>,
                                                        reply: Reply<Option<OrgResponse>>)
    ensures UpsertRecord(c, t, Some(record), settings, reply).result == Err(InvalidArgument("record"))
        <==> UpsertRecordAsWritten(c, t, Some(record), settings, reply).result != Err(InvalidArgument("record"))
  {
    if IsNullOrEmpty(record.logicalName) {
      var s := UpsertRecordAsWritten(c, t, Some(record), settings, reply);
      if settings.Some? && LockGuardPasses(c, t) {
        assert s.result.Ok? || s.result.error != InvalidArgument("record") by {
          var c1 := ApplyContext(c, settings.value);
          var executed := Execute(c1, t, Some(UpsertRequest(record)), settings, reply);
          assert executed.result.Err? ==> executed.result.error != InvalidArgument("record");
        }
      }
    } else {
      var s := UpsertRecord(c, t, Some(record), settings, reply);
      if settings.Some? && LockGuardPasses(c, t) {
        var c1 := ApplyContext(c, settings.value);
        var executed := Execute(c1, t, Some(UpsertRequest(record)), settings, reply);
        assert executed.result.Err? ==> executed.result.error != InvalidArgument("record");
      }
    }
  }

  /** `RefreshRecord`: re-reads the record through the transport's Retrieve,
      asking for exactly the attributes the record currently has, under the
      same name and id. The call context is not applied. */
  function RefreshRecord(c: Connection, t: ThreadId, record: Option<Entity>, reply: Reply<Entity>): (s: Step<Entity>)
    ensures !IdentifiedRecord(record) ==> s == Step(Err(InvalidArgument("record")), c)
    ensures IdentifiedRecord(record) && !LockGuardPasses(c, t) ==> s == Step(Err(LockNotHeld), c)
    ensures IdentifiedRecord(record) && LockGuardPasses(c, t) ==>
      && SentAsIs(c, s.after, t,
                  RetrieveCall(record.value.logicalName.value, record.value.id, Columns(record.value.attributes.Keys)))
      && (s.result.Ok? <==> reply.Answer?)
      && (s.result.Ok? ==> s.result.value == reply.value)
      && (reply.Fault? ==> s.result == Err(RemoteFailure(reply.message)))
  {
    if !IdentifiedRecord(record) then Step(Err(InvalidArgument("record")), c)
    else if !LockGuardPasses(c, t) then Step(Err(LockNotHeld), c)
    else
      var r := record.value;
      var columns := Columns(set name | name in r.attributes);
      assert columns.names == r.attributes.Keys;
      Step(Forward(reply), Send(c, t, RetrieveCall(r.logicalName.value, r.id, columns)))
  }

  /** `Retrieve`: unlike every other operation, the lock guard runs before
      the argument guards. The call context is not applied. */
  function Retrieve(c: Connection, t: ThreadId, entityName: NullableString, id: Guid, columns: Option<ColumnSet>,
                    reply: Reply<Entity>): (s: Step<Entity>)
    ensures !LockGuardPasses(c, t) ==> s == Step(Err(LockNotHeld), c)
    ensures LockGuardPasses(c, t) && IsNullOrEmpty(entityName) ==> s == Step(Err(InvalidArgument("entityName")), c)
    ensures LockGuardPasses(c, t) && !IsNullOrEmpty(entityName) && id == EmptyGuid ==>
      s == Step(Err(InvalidArgument("id")), c)
    ensures LockGuardPasses(c, t) && !IsNullOrEmpty(entityName) && id != EmptyGuid && columns.None? ==>
      s == Step(Err(InvalidArgument("columnSet")), c)
    ensures LockGuardPasses(c, t) && !IsNullOrEmpty(entityName) && id != EmptyGuid && columns.Some? ==>
      && SentAsIs(c, s.after, t, RetrieveCall(entityName.value, id, columns.value))
      && (s.result.Ok? <==> reply.Answer?)
      && (s.result.Ok? ==> s.result.value == reply.value)
      && (reply.Fault? ==> s.result == Err(RemoteFailure(reply.message)))
  {
    if !LockGuardPasses(c, t) then Step(Err(LockNotHeld), c)
    else if IsNullOrEmpty(entityName) then Step(Err(InvalidArgument("entityName")), c)
    else if id == EmptyGuid then Step(Err(InvalidArgument("id")), c)
    else if columns.None? then Step(Err(InvalidArgument("columnSet")), c)
    else Step(Forward(reply), Send(c, t, RetrieveCall(entityName.value, id, columns.value)))
  }

  /** `Test`: one `WhoAmI` execute, with no lock guard and no call context;
      true when a response came back and names a non-empty user. A response
      of another type fails the cast. */
  function Test(c: Connection, t: ThreadId, reply: Reply<Option<OrgResponse>>): (s: Step<bool>)
    ensures SentAsIs(c, s.after, t, ExecuteCall(WhoAmIRequest))
    ensures s.result == Ok(true) <==>
      reply.Answer? && reply.value.Some? && reply.value.value.WhoAmIResponse? && reply.value.value.userId != EmptyGuid
    ensures reply.Answer? && reply.value.None? ==> s.result == Ok(false)
    ensures reply.Answer? && reply.value.Some? && reply.value.value.WhoAmIResponse? ==>
      s.result == Ok(reply.value.value.userId != EmptyGuid)
    ensures reply.Answer? && reply.value.Some? && !reply.value.value.WhoAmIResponse? ==> s.result == Err(InvalidCast)
    ensures reply.Fault? ==> s.result == Err(RemoteFailure(reply.message))
  {
    var c1 := Send(c, t, ExecuteCall(WhoAmIRequest));
    match reply
    case Fault(m) => Step(Err(RemoteFailure(m)), c1)
    case Answer(None) => Step(Ok(false), c1)
    case Answer(Some(WhoAmIResponse(user))) => Step(Ok(user != EmptyGuid), c1)
    case Answer(Some(_)) => Step(Err(InvalidCast), c1)
  }
}
