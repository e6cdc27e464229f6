/**
 * The HTTP-facing error type `ApiError` shared by both crates: its display
 * text, the status table of `error_response`, the JSON error body, and the
 * three `From` conversions (service errors, validator errors, Actix
 * extractor errors).
 */
module ApiErrors {
  import opened Wrappers
  import opened Text
  import SE = ServiceErrors

  datatype ApiError =
    | InternalError(msg: string)
    | NotFound(msg: string)
    | BadRequest(msg: string)
    | Conflict(msg: string)
    | ValidationError(msg: string)
    | Unauthorized(msg: string)
    | Forbidden(msg: string)

  /** The variants whose display text leaves the inner message out. */
  predicate HidesMessage(e: ApiError) {
    e.InternalError? || e.NotFound?
  }

  /** The `#[error(...)]` display text, `self.to_string()`. */
  function Display(e: ApiError): (r: string)
    ensures !HidesMessage(e) ==> |e.msg| < |r| && r[|r| - |e.msg|..] == e.msg
  {
    match e
    case InternalError(_) => "Internal Server Error"
    case NotFound(_) => "Not Found"
    case BadRequest(m) => "Bad Request: " + m
    case Conflict(m) => "Conflict: " + m
    case ValidationError(m) => "ValidationError: " + m
    case Unauthorized(m) => "Unauthorized: " + m
    case Forbidden(m) => "Forbidden: " + m
  }

  /**
   * InternalError and NotFound show the same text whatever their message;
   * every other variant shows its message, so two different messages never
   * give the same text.
   */
  lemma DisplayMessageRule(e: ApiError, m1: string, m2: string)
    ensures HidesMessage(e) ==> Display(e.(msg := m1)) == Display(e.(msg := m2))
    ensures !HidesMessage(e) && Display(e.(msg := m1)) == Display(e.(msg := m2)) ==> m1 == m2
  {
    var d1, d2 := Display(e.(msg := m1)), Display(e.(msg := m2));
    if !HidesMessage(e) && d1 == d2 {
      var p := |d1| - |m1|;
      assert |d2| - |m2| == p by {
        match e
        case BadRequest(_) =>
        case Conflict(_) =>
        case ValidationError(_) =>
        case Unauthorized(_) =>
        case Forbidden(_) =>
      }
      assert m1 == d1[p..] == d2[p..] == m2;
    }
  }

  /** The status table of `error_response`. */
  function StatusCode(e: ApiError): (code: nat)
    ensures 400 <= code <= 500
    ensures code == 500 <==> e.InternalError?
  {
    match e
    case InternalError(_) => 500
    case NotFound(_) => 404
    case BadRequest(_) => 400
    case Conflict(_) => 409
    case ValidationError(_) => 422
    case Unauthorized(_) => 401
    case Forbidden(_) => 403
  }

  /** Each variant has its own status: equal statuses mean the same variant. */
  lemma StatusIdentifiesVariant(a: ApiError, b: ApiError)
    ensures StatusCode(a) == StatusCode(b) <==> a.(msg := "") == b.(msg := "")
  {
  }

  /** The serialised `ErrorResponse { status, message, code }`. */
  datatype ErrorBody = ErrorBody(status: string, message: string, code: nat)

  /** An HTTP response: its status line and its JSON error body. */
  datatype Response = Response(status: nat, body: ErrorBody)

  /** `ResponseError::error_response` */
  function ErrorResponse(e: ApiError): (r: Response)
    ensures r.status == StatusCode(e)
    ensures r.body.code == r.status && r.body.status == "error"
    ensures r.body.message == Display(e)
  {
    var code := StatusCode(e);
    Response(code, ErrorBody("error", Display(e), code))
  }

  /** `From<ServiceError> for ApiError` (the service-to-HTTP translation). */
  function FromServiceError(e: SE.ServiceError): (r: ApiError)
    ensures r.msg == e.msg
    ensures !r.ValidationError? && !r.Forbidden?
    ensures r.NotFound? <==> e.NotFound?
    ensures r.Conflict? <==> e.Conflict?
    ensures r.Unauthorized? <==> e.Unauthorized?
    ensures r.BadRequest? <==> e.BadRequest? || e.InvalidId?
    ensures r.InternalError? <==> e.HashingError? || e.DatabaseError? || e.Unexpected?
  {
    match e
    case NotFound(m) => NotFound(m)
    case BadRequest(m) => BadRequest(m)
    case InvalidId(m) => BadRequest(m)
    case HashingError(m) => InternalError(m)
    case DatabaseError(m) => InternalError(m)
    case Conflict(m) => Conflict(m)
    case Unexpected(m) => InternalError(m)
    case Unauthorized(m) => Unauthorized(m)
  }

  /**
   * Storage, hashing and unexpected failures reach the client as a 500 whose
   * body says only "Internal Server Error", whatever their text.
   */
  lemma InternalFailuresDoNotLeak(e: SE.ServiceError)
    requires e.HashingError? || e.DatabaseError? || e.Unexpected?
    ensures ErrorResponse(FromServiceError(e)) == Response(500, ErrorBody("error", "Internal Server Error", 500))
  {
  }

  // ---- validator errors ----

  /** One `validator::ValidationError`: its code and its optional message. */
  datatype FieldError = FieldError(code: string, message: Option<string>)

  /** The errors of one field. */
  datatype FieldErrors = FieldErrors(field: string, errors: seq<FieldError>)

  /**
   * `ValidationErrors::field_errors()`. Its order comes from a hash map, so
   * any order the sequence gives is a possible one.
   */
  type ValidationErrors = seq<FieldErrors>

  /** The names of the fields that have errors. */
  function FieldNames(errs: ValidationErrors): set<string> {
    set i | 0 <= i < |errs| :: errs[i].field
  }

  lemma FieldNamesConcat(a: ValidationErrors, b: ValidationErrors)
    ensures FieldNames(a + b) == FieldNames(a) + FieldNames(b)
  {
    forall f | f in FieldNames(a + b) ensures f in FieldNames(a) + FieldNames(b) {
      var i :| 0 <= i < |a + b| && (a + b)[i].field == f;
      if i >= |a| { assert b[i - |a|].field == f; }
    }
    forall f | f in FieldNames(a) ensures f in FieldNames(a + b) {
      var i :| 0 <= i < |a| && a[i].field == f;
      assert (a + b)[i].field == f;
    }
    forall f | f in FieldNames(b) ensures f in FieldNames(a + b) {
      var i :| 0 <= i < |b| && b[i].field == f;
      assert (a + b)[|a| + i].field == f;
    }
  }

  lemma FieldNamesSingle(f: FieldErrors)
    ensures FieldNames([]) == {} && FieldNames([f]) == {f.field}
  {
    assert [f][0].field == f.field;
  }

  /** What one validator rule reports: nothing when it holds, its message under `field` otherwise. */
  function Rule(holds: bool, field: string, code: string, message: string): (errs: ValidationErrors)
    ensures holds <==> errs == []
    ensures FieldNames(errs) == if holds then {} else {field}
  {
    FieldNamesSingle(FieldErrors(field, [FieldError(code, Some(message))]));
    if holds then [] else [FieldErrors(field, [FieldError(code, Some(message))])]
  }

  const DefaultReason := "tidak valid"

  /** A message, or "tidak valid" when the error has none. */
  function Reason(e: FieldError): string {
    e.message.GetOr(DefaultReason)
  }

  function Reasons(es: seq<FieldError>): (r: seq<string>)
    ensures |r| == |es|
  {
    seq(|es|, i requires 0 <= i < |es| => Reason(es[i]))
  }

  /** One field's reasons, joined with ", ". */
  function FieldReasons(f: FieldErrors): string {
    Join(Reasons(f.errors), ", ")
  }

  function FieldReasonList(errs: ValidationErrors): (r: seq<string>)
    ensures |r| == |errs|
  {
    seq(|errs|, i requires 0 <= i < |errs| => FieldReasons(errs[i]))
  }

  /** The fields' reasons, joined with " | ". */
  function FlattenMessage(errs: ValidationErrors): string {
    Join(FieldReasonList(errs), " | ")
  }

  /** `From<ValidationErrors> for ApiError` */
  function FromValidationErrors(errs: ValidationErrors): (r: ApiError)
    ensures r.ValidationError? && StatusCode(r) == 422
    ensures r.msg == FlattenMessage(errs)
  {
    ValidationError(FlattenMessage(errs))
  }

  /** A further error of a field is added after ", ". */
  lemma FieldReasonsAppend(f: FieldErrors, e: FieldError)
    requires f.errors != []
    ensures FieldReasons(f.(errors := f.errors + [e])) == FieldReasons(f) + ", " + Reason(e)
  {
    assert Reasons(f.errors + [e]) == Reasons(f.errors) + [Reason(e)];
    JoinSnoc(Reasons(f.errors), Reason(e), ", ");
  }

  /** A further field is added after " | ". */
  lemma FlattenAppendField(errs: ValidationErrors, f: FieldErrors)
    requires errs != []
    ensures FlattenMessage(errs + [f]) == FlattenMessage(errs) + " | " + FieldReasons(f)
  {
    assert FieldReasonList(errs + [f]) == FieldReasonList(errs) + [FieldReasons(f)];
    JoinSnoc(FieldReasonList(errs), FieldReasons(f), " | ");
  }

  /** A single field with a single message-less error reads "tidak valid". */
  lemma FlattenDefaultMessage(field: string, code: string)
    ensures FlattenMessage([FieldErrors(field, [FieldError(code, None)])]) == "tidak valid"
  {
    assert FieldReasonList([FieldErrors(field, [FieldError(code, None)])]) == ["tidak valid"];
  }

  // ---- Actix extractor errors ----

  /** The variants of `JsonPayloadError`. */
  datatype JsonPayloadError =
    | JsonOverflowKnownLength | JsonOverflow | JsonContentType
    | JsonDeserialize | JsonSerialize | JsonPayload

  /** The variants of `PayloadError`. */
  datatype PayloadError =
    | PayloadIncomplete | PayloadEncodingCorrupted | PayloadOverflow
    | PayloadUnknownLength | PayloadHttp2 | PayloadIo

  /** An `actix_web::Error`, classified by what `as_error` finds inside it. */
  datatype ActixError =
    | JsonError(json: JsonPayloadError)
    | PayloadFailure(payload: PayloadError)
    | UrlencodedFailure
    | OtherActixError

  /** `From<ActixError> for ApiError` */
  function FromActixError(e: ActixError): (r: ApiError)
    ensures r.BadRequest? <==> !e.OtherActixError?
    ensures r.InternalError? <==> e.OtherActixError?
    ensures StatusCode(r) == (if e.OtherActixError? then 500 else 400)
  {
    match e
    case JsonError(j) =>
      (match j
       case JsonContentType => BadRequest("Konten harus berupa JSON (Content-Type: application/json)")
       case JsonDeserialize => BadRequest("Format JSON tidak valid atau ada field yang salah/tidak lengkap")
       case JsonPayload => BadRequest("Ukuran body terlalu besar atau rusak")
       case JsonOverflow => BadRequest("Nilai melebihi batas yang diperbolehkan")
       case _ => BadRequest("Terjadi kesalahan saat memproses JSON"))
    case PayloadFailure(p) =>
      (match p
       case PayloadOverflow => BadRequest("Ukuran permintaan terlalu besar")
       case PayloadIncomplete => BadRequest("Data tidak lengkap atau rusak")
       case _ => BadRequest("Permintaan tidak dapat dibaca"))
    case UrlencodedFailure => BadRequest("Format form tidak valid")
    case OtherActixError => InternalError("Terjadi kesalahan internal saat memproses permintaan")
  }
}
