/**
 * The decisions of the backend user handlers: the "no fields" guard of
 * `patch_user_handler` and the `Location` header of `post_user_handler`.
 * The DTOs' own validator rules are given as the errors they report.
 */
module UserHandler {
  import opened Wrappers
  import opened ObjectIds
  import AE = ApiErrors
  import opened UserModels
  import US = UserService
  import Text

  /** One field as the guard sees it: absent counts as blank. */
  function FieldBlank(field: Option<string>): bool {
    match field
    case None => true
    case Some(s) => Text.IsBlank(s)
  }

  /** Absent, or made of whitespace characters only. */
  predicate AbsentOrWhitespace(field: Option<string>) {
    field.Some? ==> forall i :: 0 <= i < |field.value| ==> Text.IsWhitespace(field.value[i])
  }

  lemma FieldBlankIff(field: Option<string>)
    ensures FieldBlank(field) <==> AbsentOrWhitespace(field)
  {
    if field.Some? {
      Text.BlankIffAllWhitespace(field.value);
    }
  }

  /** `no_fields` in `patch_user_handler`. */
  function NoFields(dto: UpdateUserDTO): (none: bool)
    ensures none <==> AbsentOrWhitespace(dto.username) && AbsentOrWhitespace(dto.email) &&
                      AbsentOrWhitespace(dto.phone_number) && AbsentOrWhitespace(dto.password)
    ensures US.NoUpdateFields(dto) ==> none
  {
    FieldBlankIff(dto.username);
    FieldBlankIff(dto.email);
    FieldBlankIff(dto.phone_number);
    FieldBlankIff(dto.password);
    FieldBlank(dto.username) && FieldBlank(dto.email) && FieldBlank(dto.phone_number) && FieldBlank(dto.password)
  }

  const NoFieldsMessage := "Minimal satu field valid harus diisi"

  datatype PatchOutcome = CallUpdate(dto: UpdateUserDTO) | Reject(error: AE.ApiError)

  /**
   * `patch_user_handler` up to the service call: the body must parse, then
   * pass its validator (`validation` is what `validate()` reports), then
   * give at least one non-blank field.
   */
  function PatchUser(payload: Result<UpdateUserDTO, AE.ActixError>, validation: AE.ValidationErrors): (o: PatchOutcome)
    ensures payload.Err? ==> o == Reject(AE.FromActixError(payload.error))
    ensures payload.Ok? && validation != [] ==> o == Reject(AE.FromValidationErrors(validation))
    ensures payload.Ok? && validation == [] && NoFields(payload.value) ==> o == Reject(AE.BadRequest(NoFieldsMessage))
    ensures o.CallUpdate? <==> (payload.Ok? && validation == [] && !NoFields(payload.value))
    ensures o.CallUpdate? ==> o.dto == payload.value && !US.NoUpdateFields(o.dto)
  {
    match payload
    case Err(e) => Reject(AE.FromActixError(e))
    case Ok(dto) =>
      if validation != [] then Reject(AE.FromValidationErrors(validation))
      else if NoFields(dto) then Reject(AE.BadRequest(NoFieldsMessage))
      else CallUpdate(dto)
  }

  /** An invalid body is answered 422 even when every field is blank: validation comes first. */
  lemma ValidationBeforeNoFields(dto: UpdateUserDTO, validation: AE.ValidationErrors)
    requires validation != [] && NoFields(dto)
    ensures PatchUser(Ok(dto), validation).Reject?
    ensures AE.StatusCode(PatchUser(Ok(dto), validation).error) == 422
  {
  }

  const UsersPath := "/users/"

  /** `post_user_handler`'s `Location`: the path of the id in the response built from the service's user. */
  function CreatedLocation(created: User, defaultId: ObjectId): (loc: string)
    ensures |loc| == |UsersPath| + 24 && loc[..|UsersPath|] == UsersPath
    ensures ParseObjectId(loc[|UsersPath|..]) == Some(created.id.GetOr(defaultId))
  {
    var body := ToUserResponse(created, defaultId);
    var loc := UsersPath + body.id;
    assert loc[|UsersPath|..] == body.id;
    loc
  }

  /**
   * `create_user_service` returns its user with no id, so the header names
   * the freshly generated default id rather than the id the insert stored.
   */
  lemma LocationIgnoresInsertedId(created: User, defaultId: ObjectId, newId: ObjectId)
    requires created.id.None?
    requires defaultId != newId
    ensures ParseObjectId(CreatedLocation(created, defaultId)[|UsersPath|..]) == Some(defaultId)
    ensures ParseObjectId(CreatedLocation(created, defaultId)[|UsersPath|..]) != Some(newId)
  {
  }

  /** The header as evidently intended: the path of the id the insert stored. */
  function IntendedLocation(newId: ObjectId): (loc: string)
    ensures |loc| == |UsersPath| + 24 && loc[..|UsersPath|] == UsersPath
    ensures ParseObjectId(loc[|UsersPath|..]) == Some(newId)
  {
    ParseToHex(newId);
    var loc := UsersPath + ToHex(newId);
    assert loc[|UsersPath|..] == ToHex(newId);
    loc
  }

  /** Distinct created users get distinct intended locations. */
  lemma IntendedLocationsDistinct(a: ObjectId, b: ObjectId)
    requires a != b
    ensures IntendedLocation(a) != IntendedLocation(b)
  {
  }
}
