/**
 * The boundary with the catalog service. The HTTP exchange and the JSON decoder are
 * inputs (`Env`); what the adapter adds is the classification of a reply into success,
 * `NoSuchObjectException` or `TException`.
 */
module Remote {
  import opened Wrappers
  import opened Messages

  /** A GET request: the full URI and, for the list calls, a JSON entity. */
  datatype Request = Request(uri: string, entity: Option<string>)

  /** What executing a request gives: an `IOException`, or a status line and a body. */
  datatype Response = TransportFailure(message: string) | Reply(status: int, body: string)

  /** What the JSON reader gives for a body: a record, or the message of the exception it throws. */
  datatype Decoded<T> = Decoded(value: T) | Malformed(message: string)

  /** The catalog service and the decoder, as functions of what is sent and received. */
  datatype Env = Env(
    exchange: Request -> Response,
    errorBody: string -> Decoded<ErrorResponse>,
    schemaBody: string -> Decoded<SchemaInfo>,
    schemaListBody: string -> Decoded<Option<seq<SchemaInfo>>>,
    tableBody: string -> Decoded<TableInfo>,
    tableListBody: string -> Decoded<Option<seq<TableInfo>>>)

  /** The decoder builds every column through `setTypeName`, so the type name of every
      column of a decoded table is lower case. */
  ghost predicate DecodesNormalised(env: Env)
  {
    forall body, i :: env.tableBody(body).Decoded? && 0 <= i < |env.tableBody(body).value.columns| ==>
      Normalised(env.tableBody(body).value.columns[i])
  }

  /** The metastore exceptions a caller can observe. */
  datatype Failure = NoSuchObject(message: string) | TException(message: string)

  const ConvertPrefix := "Exception while getting a response from unity catalog: "

  /** `convertToTException`: a generic error carrying the cause's message behind a fixed prefix. */
  function Converted(message: string): (f: Failure)
    ensures f.TException? && |f.message| == |ConvertPrefix| + |message|
    ensures f.message[..|ConvertPrefix|] == ConvertPrefix
    ensures f.message[|ConvertPrefix|..] == message
  {
    TException(ConvertPrefix + message)
  }

  /** The error codes that mean the schema, table or catalog does not exist. */
  const NotFoundCodes: set<string> := {"SCHEMA_DOES_NOT_EXIST", "TABLE_DOES_NOT_EXIST", "CATALOG_DOES_NOT_EXIST"}

  /** `handleErrorResponse`: `None` lets the call go on; `Some(f)` is what it throws.
      `error` is the error envelope decoded from the body, consulted only when the status is not 200. */
  function HandleErrorResponse(status: int, error: Decoded<ErrorResponse>): (r: Option<Failure>)
    ensures r.None? <==> status == 200
    ensures (r.Some? && r.value.NoSuchObject?) <==>
      status == 404 && error.Decoded? && error.value.errorCode in NotFoundCodes
    ensures r.Some? && r.value.NoSuchObject? ==> r.value.message == error.value.message
    ensures status != 200 && error.Malformed? ==> r == Some(Converted(error.message))
    ensures status == 404 && error.Decoded? && error.value.errorCode !in NotFoundCodes ==>
      r == Some(TException(error.value.message))
    ensures status != 200 && status != 404 && error.Decoded? ==>
      r == Some(TException(error.value.errorCode + ":" + error.value.message))
  {
    if status == 200 then None
    else
      match error
      case Malformed(m) => Some(Converted(m))
      case Decoded(e) =>
        if status == 404 then
          match e.errorCode
          case "SCHEMA_DOES_NOT_EXIST" => Some(NoSuchObject(e.message))
          case "TABLE_DOES_NOT_EXIST" => Some(NoSuchObject(e.message))
          case "CATALOG_DOES_NOT_EXIST" => Some(NoSuchObject(e.message))
          case _ => Some(TException(e.message))
        else Some(TException(e.errorCode + ":" + e.message))
  }

  /** Execute a request and classify the reply: the body of a 200 reply, or the failure.
      An `IOException` from the exchange is converted by the caller's `catch (IOException)`. */
  function Fetch(env: Env, req: Request): (r: Result<string, Failure>)
    ensures r.Ok? <==> env.exchange(req).Reply? && env.exchange(req).status == 200
    ensures r.Ok? ==> r.value == env.exchange(req).body
    ensures env.exchange(req).TransportFailure? ==> r == Err(Converted(env.exchange(req).message))
    ensures env.exchange(req).Reply? && env.exchange(req).status != 200 ==>
      r == Err(HandleErrorResponse(env.exchange(req).status, env.errorBody(env.exchange(req).body)).value)
  {
    match env.exchange(req)
    case TransportFailure(m) => Err(Converted(m))
    case Reply(status, body) =>
      match HandleErrorResponse(status, env.errorBody(body))
      case Some(f) => Err(f)
      case None => Ok(body)
  }

  /** Decode the body of a successful fetch; a decoding `IOException` is converted. */
  function Read<T>(fetched: Result<string, Failure>, decode: string -> Decoded<T>): (r: Result<T, Failure>)
    ensures fetched.Err? ==> r == Err(fetched.error)
    ensures r.Ok? <==> fetched.Ok? && decode(fetched.value).Decoded?
    ensures r.Ok? ==> r.value == decode(fetched.value).value
    ensures fetched.Ok? && decode(fetched.value).Malformed? ==> r == Err(Converted(decode(fetched.value).message))
  {
    match fetched
    case Err(f) => Err(f)
    case Ok(body) =>
      match decode(body)
      case Malformed(m) => Err(Converted(m))
      case Decoded(v) => Ok(v)
  }
}
