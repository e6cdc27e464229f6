/**
 * The service layer's error type (the eight variants of
 * `ServiceError`) and the translation of a failed MongoDB write into it.
 */
module ServiceErrors {

  datatype ServiceError =
    | NotFound(msg: string)
    | InvalidId(msg: string)
    | DatabaseError(msg: string)
    | Unexpected(msg: string)
    | HashingError(msg: string)
    | Conflict(msg: string)
    | BadRequest(msg: string)
    | Unauthorized(msg: string)

  /**
   * A failed `insert_one` / `update_one` as the driver reports it: a
   * duplicate-key violation, or any other failure; `detail` is the text the
   * driver's error displays.
   */
  datatype WriteFault = DuplicateKey(detail: string) | StorageFailure(detail: string)

  /**
   * `handle_duplicate_key_error(&e)` turns a duplicate key into Conflict;
   * every other failure becomes `DatabaseError(e.to_string())`.
   */
  function FromWriteFault(f: WriteFault): (e: ServiceError)
    ensures e.Conflict? <==> f.DuplicateKey?
    ensures e.DatabaseError? <==> f.StorageFailure?
    ensures e.msg == f.detail
  {
    match f
    case DuplicateKey(d) => Conflict(d)
    case StorageFailure(d) => DatabaseError(d)
  }
}
