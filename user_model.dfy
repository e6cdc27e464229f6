/**
 * User records of both crates (the two `User` structs have the same
 * fields), the request bodies, the `UserResponse` projection, and the
 * backend's JSON serialisation, which skips `password_hash`.
 */
module UserModels {
  import opened Wrappers
  import opened ObjectIds

  datatype User = User(
    id: Option<ObjectId>,
    username: string,
    email: string,
    password_hash: string,
    phone_number: Option<string>)

  /** `RegisterDTO` (rest_api) and `Register` (backend) have the same fields. */
  datatype RegisterDTO = RegisterDTO(
    username: string,
    email: string,
    phone_number: Option<string>,
    password: string)

  datatype CreateUserDTO = CreateUserDTO(
    username: string,
    email: string,
    phone_number: Option<string>,
    password: Option<string>)

  datatype UpdateUserDTO = UpdateUserDTO(
    username: Option<string>,
    email: Option<string>,
    phone_number: Option<string>,
    password: Option<string>)

  datatype LoginDTO = LoginDTO(username: string, password: string)

  /** What a client sees of a user: no password hash. */
  datatype UserResponse = UserResponse(
    id: string,
    username: string,
    email: string,
    phone_number: Option<string>)

  /**
   * `From<User> for UserResponse`: the id in hex, or the hex of
   * `ObjectId::default()` (a freshly generated id, `defaultId`) when the
   * user has none.
   */
  function ToUserResponse(u: User, defaultId: ObjectId): (r: UserResponse)
    ensures ParseObjectId(r.id) == Some(u.id.GetOr(defaultId))
    ensures r.username == u.username && r.email == u.email && r.phone_number == u.phone_number
  {
    ParseToHex(u.id.GetOr(defaultId));
    UserResponse(ToHex(u.id.GetOr(defaultId)), u.username, u.email, u.phone_number)
  }

  /** The response does not depend on the password hash at all. */
  lemma ResponseIgnoresPasswordHash(u: User, hash: string, defaultId: ObjectId)
    ensures ToUserResponse(u.(password_hash := hash), defaultId) == ToUserResponse(u, defaultId)
  {
  }

  /** `From<RegisterDTO> for User`: no id yet, and an empty hash to be filled in later. */
  function UserFromRegister(dto: RegisterDTO): (u: User)
    ensures u.id.None? && u.password_hash == ""
    ensures u.username == dto.username && u.email == dto.email && u.phone_number == dto.phone_number
  {
    User(None, dto.username, dto.email, "", dto.phone_number)
  }

  datatype Json = JString(s: string) | JNull

  /** The keys of a serialised object, in order. */
  function Keys(fields: seq<(string, Json)>): (ks: seq<string>)
    ensures |ks| == |fields|
    ensures forall i :: 0 <= i < |fields| ==> ks[i] == fields[i].0
  {
    if fields == [] then [] else [fields[0].0] + Keys(fields[1..])
  }

  function OptionalText(s: Option<string>): Json {
    if s.Some? then JString(s.value) else JNull
  }

  /**
   * The backend `User` as serde writes it: `_id` (in hex) only when
   * present, and `password_hash` never.
   */
  function BackendUserJson(u: User): (fields: seq<(string, Json)>)
    ensures "password_hash" !in Keys(fields)
    ensures "_id" in Keys(fields) <==> u.id.Some?
    ensures u.id.Some? ==> fields[0] == ("_id", JString(ToHex(u.id.value)))
    ensures ("username", JString(u.username)) in fields && ("email", JString(u.email)) in fields
    ensures ("phone_number", OptionalText(u.phone_number)) in fields
  {
    (if u.id.Some? then [("_id", JString(ToHex(u.id.value)))] else [])
    + [("username", JString(u.username)),
       ("email", JString(u.email)),
       ("phone_number", OptionalText(u.phone_number))]
  }
}
