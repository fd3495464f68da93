/** What a Flask handler hands back: a JSON reply, an HTTP abort, or an exception nobody caught. */
module Http {
  import opened Json

  datatype Response =
      /** `jsonify(body), status` */
    | Reply(status: int, body: Value)
      /** a werkzeug `HTTPException` such as the `NotFound` raised by `get_or_404` */
    | Abort(code: int)
      /** any other exception; Flask answers it with 500 */
    | Uncaught

  /**
   * The status code of the handler's outcome, before any application-wide error handler.
   * The `instance/` app registers one for every exception, aborts included, and answers 500
   * there (instance/backend/app.py:68-71), so a client of that tree sees 500 for an `Abort` too.
   */
  function Status(r: Response): (code: int)
    ensures r.Uncaught? ==> code == 500
    ensures r.Abort? ==> code == r.code
  {
    match r
    case Reply(s, _) => s
    case Abort(c) => c
    case Uncaught => 500
  }

  /** `{"error": text}` */
  function ErrorBody(text: string): Value {
    Obj(map["error" := Str(text)])
  }

  /** `{"message": text}` */
  function MessageBody(text: string): Value {
    Obj(map["message" := Str(text)])
  }

  function Error(status: int, text: string): Response {
    Reply(status, ErrorBody(text))
  }

  function Message(status: int, text: string): Response {
    Reply(status, MessageBody(text))
  }
}
