/** Value objects shared by the connection model: records, references, call
    context, the opaque organisation requests and responses, and the error tags
    the connection raises.

    C# references that may be null are modelled as `Option`, with `None`
    standing for null. A Guid is a `nat` and `EmptyGuid` (0) is `Guid.Empty`. */
module Types {

  /** A reference that may be null: `None` is null. */
  datatype Option<+T> = None | Some(value: T)

  type Guid = nat

  /** `Guid.Empty`, also the `default` of Guid that `Guard.Against.Default` rejects. */
  const EmptyGuid: Guid := 0

  /** Identity of a calling thread; the model passes it explicitly. */
  type ThreadId = nat

  /** A string reference that may be null. */
  type NullableString = Option<string>

  /** `string.IsNullOrEmpty`. */
  predicate IsNullOrEmpty(s: NullableString) {
    s.None? || |s.value| == 0
  }

  /** Attribute values of a record; the remote service defines many more kinds. */
  datatype Value = Text(text: string) | Number(number: int) | Flag(flag: bool) | Lookup(target: EntityReference)

  /** A remote record: logical type name, identifier and attribute map. */
  datatype Entity = Entity(logicalName: NullableString, id: Guid, attributes: map<string, Value>)

  /** Logical name plus identifier of a remote record. */
  datatype EntityReference = EntityReference(logicalName: NullableString, id: Guid)

  /** Per-call context: optional impersonated user and the plugin-bypass switch. */
  datatype RequestSettings = RequestSettings(impersonateAsUserId: Option<Guid>, skipPluginExecution: bool)

  /** The CallerId a call runs under: the impersonated user, or Guid.Empty
      (act as the connection's own identity) when none is given. */
  function CallerIdFor(settings: RequestSettings): Guid {
    match settings.impersonateAsUserId
    case Some(user) => user
    case None => EmptyGuid
  }

  /** Change-tracking switches of a query (`OrganizationServiceContextSettings`). */
  datatype QueryContext = QueryContext(clearChangesEveryTime: bool, detachRetrievedRecords: bool)

  /** Organisation requests sent through `Execute`. Only the two the connection
      itself builds are distinguished; every other request is opaque. */
  datatype OrgRequest =
    | UpsertRequest(target: Entity)
    | WhoAmIRequest
    | OtherRequest(requestName: string)

  /** Organisation responses; the transport may also answer null (`Option`). */
  datatype OrgResponse =
    | UpsertResponse(upserted: EntityReference)
    | WhoAmIResponse(userId: Guid)
    | OtherResponse(responseName: string)

  /** What the remote service answered to one round trip: a value, or a
      transport failure that the connection forwards unchanged. */
  datatype Reply<+T> = Answer(value: T) | Fault(message: string)

  /** The exceptions the connection raises, as tags. `InvalidArgument` carries
      the name of the parameter the failing guard named. */
  datatype Error =
    | InvalidArgument(parameter: string)
    | LockNotHeld
    | CardinalityViolation(retrieved: nat)
    | LockExitError
    | InvalidCast
    | RemoteFailure(message: string)

  datatype Result<+T> = Ok(value: T) | Err(error: Error)

  /** A transport reply surfaced to the caller: failures are passed on as-is. */
  function Forward<T>(reply: Reply<T>): Result<T> {
    match reply
    case Answer(v) => Ok(v)
    case Fault(m) => Err(RemoteFailure(m))
  }
}
