/** The HTTP exception filter's `catch`: the reply it makes of an HTTP exception. */
module HttpExceptionFilter {
  import opened Http

  /** The status line and JSON body written to the client. */
  datatype Reply = Reply(status: int, body: Json)

  /** A response object that already has a `status` key is sent as it is. */
  predicate PassesThrough(e: HttpException)
  {
    e.response.Object? && "status" in e.response.fields
  }

  /**
   * The message of a reformatted body: a string response itself; otherwise the
   * response's `message` when truthy, else the exception's own message when
   * non-empty, else a fixed text.
   */
  function Message(e: HttpException): (m: Json)
    ensures e.response.Text? ==> m == JStr(e.response.text)
    ensures e.response.Object? && "message" in e.response.fields && Truthy(e.response.fields["message"]) ==>
      m == e.response.fields["message"]
    ensures e.response.Object? && !("message" in e.response.fields && Truthy(e.response.fields["message"])) ==>
      m == if e.message != "" then JStr(e.message) else JStr("An error occurred")
    ensures e.response.Object? ==> Truthy(m) || m == JStr("An error occurred")
  {
    match e.response
    case Text(t) => JStr(t)
    case Object(f) =>
      if "message" in f && Truthy(f["message"]) then f["message"]
      else if e.message != "" then JStr(e.message)
      else JStr("An error occurred")
  }

  /** `HttpExceptionFilter.catch`. */
  function Catch(e: HttpException): (r: Reply)
    ensures r.status == e.Status()
    ensures r.body.JObj? && "status" in r.body.fields
    ensures PassesThrough(e) ==> r.body == JObj(e.response.fields)
    ensures !PassesThrough(e) ==> r.body.fields == map["status" := JStr("error"), "message" := Message(e)]
  {
    if PassesThrough(e) then Reply(e.Status(), JObj(e.response.fields))
    else Reply(e.Status(), JObj(map["status" := JStr("error"), "message" := Message(e)]))
  }

  /** An exception the services throw in their own `{ status: 'error', message }` form reaches the client unchanged. */
  lemma ServiceErrorReachesClientUnchanged(k: ExceptionKind, message: string)
    ensures Catch(ErrorException(k, message)) == Reply(StatusCode(k), JObj(map["status" := JStr("error"), "message" := JStr(message)]))
  {
  }

  /** An exception built from a plain non-empty message is reformatted to `{ status: 'error', message }`. */
  lemma PlainErrorIsReformatted(k: ExceptionKind, message: string)
    requires message != ""
    ensures Catch(PlainException(k, message)) == Reply(StatusCode(k), JObj(map["status" := JStr("error"), "message" := JStr(message)]))
  {
  }

  /**
   * A list of validation messages (the framework's own validation failure,
   * `{ statusCode, message: [...], error }`) is carried over as the message.
   */
  lemma ValidationListIsKeptAsMessage(k: ExceptionKind, messages: seq<Json>)
    ensures var e := FromObject(k, map["statusCode" := JNum(StatusCode(k)), "message" := JArr(messages), "error" := JStr(ErrorName(k))]);
            Catch(e).body == JObj(map["status" := JStr("error"), "message" := JArr(messages)])
  {
  }

  /** An object response with neither a usable message nor a message property falls back to the fixed text. */
  lemma FallbackMessage(k: ExceptionKind)
    ensures Catch(HttpException(k, Object(map["message" := JStr("")]), "")).body
         == JObj(map["status" := JStr("error"), "message" := JStr("An error occurred")])
  {
  }

  /**
   * An exception built from an object whose `message` is missing, or falsy
   * and not a string, reports the exception's own message, which the
   * framework derives from the class name (for example "Not Found Exception").
   */
  lemma ClassNameIsSecondChoice(k: ExceptionKind, fields: map<string, Json>)
    requires "status" !in fields
    requires "message" in fields ==> !Truthy(fields["message"]) && !fields["message"].JStr?
    ensures Catch(FromObject(k, fields)).body
         == JObj(map["status" := JStr("error"), "message" := JStr(ErrorName(k) + " Exception")])
  {
    assert FromObject(k, fields).message == ErrorName(k) + " Exception";
  }
}
