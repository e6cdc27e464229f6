/**
 * The backend crate's `error_response`, which logs every error before it
 * answers: at level error for a 500, at level warn otherwise, with the
 * inner message. The log line is returned as data.
 */
module BackendApiErrors {
  import opened ApiErrors

  datatype LogLevel = Warn | Error

  datatype LogLine = LogLine(level: LogLevel, text: string)

  /** The response and the log line `error_response` writes. */
  datatype LoggedResponse = LoggedResponse(response: Response, log: LogLine)

  /** The backend's `error_response`, arm by arm. */
  function LoggedErrorResponse(e: ApiError): (r: LoggedResponse)
    ensures r.response == ErrorResponse(e)
    ensures r.log.level == Error <==> e.InternalError?
    ensures |e.msg| < |r.log.text| && r.log.text[|r.log.text| - |e.msg|..] == e.msg
  {
    var (code, level, tag) := match e
      case InternalError(_) => (500, Error, "[500 INTERNAL] ")
      case NotFound(_) => (404, Warn, "[404 NOT FOUND] ")
      case BadRequest(_) => (400, Warn, "[400 BAD REQUEST] ")
      case Conflict(_) => (409, Warn, "[409 CONFLICT] ")
      case ValidationError(_) => (422, Warn, "[422 VALIDATION] ")
      case Unauthorized(_) => (401, Warn, "[401 UNAUTHORIZED] ")
      case Forbidden(_) => (403, Warn, "[403 FORBIDDEN] ");
    LoggedResponse(Response(code, ErrorBody("error", Display(e), code)), LogLine(level, tag + e.msg))
  }

  /**
   * The text of an internal error goes to the server log and never to the
   * client: two internal errors give the same response, and different log
   * lines whenever their texts differ.
   */
  lemma InternalDetailLoggedNotSent(m1: string, m2: string)
    ensures LoggedErrorResponse(InternalError(m1)).response == LoggedErrorResponse(InternalError(m2)).response
    ensures m1 != m2 ==> LoggedErrorResponse(InternalError(m1)).log != LoggedErrorResponse(InternalError(m2)).log
  {
    var t1, t2 := LoggedErrorResponse(InternalError(m1)).log.text, LoggedErrorResponse(InternalError(m2)).log.text;
    if t1 == t2 {
      assert m1 == t1[|"[500 INTERNAL] "|..] == t2[|"[500 INTERNAL] "|..] == m2;
    }
  }
}
