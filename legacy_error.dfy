/**
 * The backend's older three-variant `ApiError` (errors/error.rs): only
 * BadRequest carries a message.
 */
module LegacyErrors {
  import A = ApiErrors

  datatype LegacyApiError = InternalError | NotFound | BadRequest(msg: string)

  function Display(e: LegacyApiError): (r: string)
    ensures e.BadRequest? ==> r == "Bad Request: " + e.msg
  {
    match e
    case InternalError => "Internal Server Error"
    case NotFound => "Not Found"
    case BadRequest(m) => "Bad Request: " + m
  }

  function StatusCode(e: LegacyApiError): (code: nat)
    ensures code == 500 <==> e.InternalError?
  {
    match e
    case InternalError => 500
    case NotFound => 404
    case BadRequest(_) => 400
  }

  function ErrorResponse(e: LegacyApiError): (r: A.Response)
    ensures r.status == StatusCode(e)
    ensures r.body.code == r.status && r.body.status == "error"
    ensures r.body.message == Display(e)
  {
    var code := StatusCode(e);
    A.Response(code, A.ErrorBody("error", Display(e), code))
  }

  /** The same-named variant of the seven-variant type, with message `m`. */
  function Widen(e: LegacyApiError, m: string): A.ApiError {
    match e
    case InternalError => A.InternalError(m)
    case NotFound => A.NotFound(m)
    case BadRequest(b) => A.BadRequest(b)
  }

  /**
   * The three-variant type answers exactly as the same-named variants of
   * the seven-variant type, whatever message those hold.
   */
  lemma AgreesWithApiError(e: LegacyApiError, m: string)
    ensures ErrorResponse(e) == A.ErrorResponse(Widen(e, m))
  {
  }

  /** Two distinct BadRequest messages always display differently. */
  lemma OnlyBadRequestShowsMessage(m1: string, m2: string)
    ensures Display(BadRequest(m1)) == Display(BadRequest(m2)) ==> m1 == m2
  {
    if Display(BadRequest(m1)) == Display(BadRequest(m2)) {
      var p := |"Bad Request: "|;
      assert m1 == Display(BadRequest(m1))[p..] == Display(BadRequest(m2))[p..] == m2;
    }
  }
}
