/**
 * JSON values and the framework's HTTP exceptions, as the services throw
 * them and as the exception filter reads them.
 */
module Http {
  import opened Wrappers

  /** A JSON value; numbers are integers here, which is all the core uses them for. */
  datatype Json =
    | JNull
    | JBool(b: bool)
    | JNum(n: int)
    | JStr(s: string)
    | JArr(items: seq<Json>)
    | JObj(fields: map<string, Json>)

  /** JavaScript truthiness of a JSON value. */
  predicate Truthy(j: Json)
  {
    match j
    case JNull => false
    case JBool(b) => b
    case JNum(n) => n != 0
    case JStr(s) => s != ""
    case JArr(_) => true
    case JObj(_) => true
  }

  /** The exception classes the core throws. */
  datatype ExceptionKind = BadRequest | Unauthorized | NotFound | Conflict

  /** The HTTP status each exception class carries. */
  function StatusCode(k: ExceptionKind): (code: int)
    ensures 400 <= code < 500
  {
    match k
    case BadRequest => 400
    case Unauthorized => 401
    case NotFound => 404
    case Conflict => 409
  }

  /** The `error` text the framework puts in a body it builds from a plain message. */
  function ErrorName(k: ExceptionKind): string
  {
    match k
    case BadRequest => "Bad Request"
    case Unauthorized => "Unauthorized"
    case NotFound => "Not Found"
    case Conflict => "Conflict"
  }

  /** What `getResponse()` returns: the string or the object the exception was built from. */
  datatype ExceptionResponse = Text(text: string) | Object(fields: map<string, Json>)

  /** An HTTP exception: its class, its response and its `message` property. */
  datatype HttpException = HttpException(kind: ExceptionKind, response: ExceptionResponse, message: string)
  {
    /** `getStatus()`. */
    function Status(): int
    {
      StatusCode(kind)
    }
  }

  /**
   * An exception built from a response object, as the framework does: its
   * message is the object's string `message`, else the class's name in words.
   */
  function FromObject(k: ExceptionKind, fields: map<string, Json>): (e: HttpException)
    ensures e.kind == k && e.response == Object(fields)
    ensures "message" in fields && fields["message"].JStr? ==> e.message == fields["message"].s
  {
    var message :=
      if "message" in fields && fields["message"].JStr? then fields["message"].s
      else ErrorName(k) + " Exception";
    HttpException(k, Object(fields), message)
  }

  /** `new XException({ status: 'error', message })`: the form the core's services throw. */
  function ErrorException(k: ExceptionKind, message: string): (e: HttpException)
    ensures e.kind == k && e.message == message
    ensures e.response.Object? && e.response.fields.Keys == {"status", "message"}
    ensures e.response.fields["status"] == JStr("error") && e.response.fields["message"] == JStr(message)
  {
    FromObject(k, map["status" := JStr("error"), "message" := JStr(message)])
  }

  /** `new XException({ status, errors: { field: [text] } })`: a per-field validation failure. */
  function FieldException(k: ExceptionKind, status: string, message: Option<string>, field: string, text: string): (e: HttpException)
    ensures e.kind == k && e.response.Object? && "status" in e.response.fields
  {
    var errors := JObj(map[field := JArr([JStr(text)])]);
    var base := map["status" := JStr(status), "errors" := errors];
    FromObject(k, if message.Some? then base["message" := JStr(message.value)] else base)
  }

  /** `new XException(message)`: the framework wraps the text as `{ statusCode, message, error }`. */
  function PlainException(k: ExceptionKind, message: string): (e: HttpException)
    ensures e.kind == k && e.message == message
    ensures e.response.Object? && "status" !in e.response.fields
    ensures "message" in e.response.fields && e.response.fields["message"] == JStr(message)
  {
    FromObject(k, map["statusCode" := JNum(StatusCode(k)), "message" := JStr(message), "error" := JStr(ErrorName(k))])
  }
}
