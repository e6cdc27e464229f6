/**
 * The rest_api login and registration services. The `users` collection is
 * given as its documents in natural order (or the driver's failure), and
 * the argon2 hash and verify routines are parameters.
 */
module AuthService {
  import opened Wrappers
  import opened ServiceErrors
  import opened UserModels

  /**
   * The position of the first user named `name` in `users`, or `|users|`
   * when there is none: the document `find_one({"username": name})` returns.
   */
  function FirstNamed(users: seq<User>, name: string): (i: nat)
    ensures i <= |users|
    ensures forall j :: 0 <= j < i ==> users[j].username != name
    ensures i < |users| ==> users[i].username == name
  {
    if users == [] then 0
    else if users[0].username == name then 0
    else 1 + FirstNamed(users[1..], name)
  }

  /** `find_one` by exact username. */
  function FindByUsername(users: seq<User>, name: string): (r: Option<User>)
    ensures r.None? <==> forall u :: u in users ==> u.username != name
    ensures r.Some? ==> r.value in users && r.value.username == name
  {
    var i := FirstNamed(users, name);
    if i < |users| then Some(users[i]) else None
  }

  const WrongCredentials := "username atau password salah"

  /**
   * `login_service`: the stored user when the username exists and the
   * password verifies against its hash. `users` is Err when the lookup
   * itself fails; `verify(password, hash)` is argon2's verdict.
   */
  function Login(dto: LoginDTO, users: Result<seq<User>, string>, verify: (string, string) -> bool): (r: Result<User, ServiceError>)
    ensures users.Err? ==> r == Err(DatabaseError(users.error))
    ensures r.Ok? <==> (users.Ok? && FindByUsername(users.value, dto.username).Some? &&
                       verify(dto.password, FindByUsername(users.value, dto.username).value.password_hash))
    ensures r.Ok? ==> r.value in users.value && r.value.username == dto.username
    ensures users.Ok? && r.Err? ==> r.error == Unauthorized(WrongCredentials)
  {
    match users
    case Err(detail) => Err(DatabaseError(detail))
    case Ok(stored) =>
      match FindByUsername(stored, dto.username)
      case None => Err(Unauthorized(WrongCredentials))
      case Some(user) =>
        if !verify(dto.password, user.password_hash) then Err(Unauthorized(WrongCredentials))
        else Ok(user)
  }

  /**
   * An unknown username and a wrong password are answered identically: no
   * failed login reveals whether the account exists.
   */
  lemma FailedLoginsIndistinguishable(unknown: LoginDTO, wrong: LoginDTO, users: seq<User>, verify: (string, string) -> bool)
    requires FindByUsername(users, unknown.username).None?
    requires FindByUsername(users, wrong.username).Some?
    requires !verify(wrong.password, FindByUsername(users, wrong.username).value.password_hash)
    ensures Login(unknown, Ok(users), verify) == Login(wrong, Ok(users), verify)
    ensures Login(unknown, Ok(users), verify).Err?
  {
  }

  /** A successful login returns the first stored user of that name, as stored. */
  lemma LoginReturnsStoredRecord(dto: LoginDTO, users: seq<User>, verify: (string, string) -> bool)
    requires Login(dto, Ok(users), verify).Ok?
    ensures Login(dto, Ok(users), verify).value == users[FirstNamed(users, dto.username)]
  {
  }

  const HashFailurePrefix := "Gagal hashing password: "

  /**
   * `register_service`: hash the password, then insert the new user.
   * `hash` is argon2 with a fresh salt; `insertFault` is the failure of
   * `insert_one`, None when it succeeds.
   */
  function Register(dto: RegisterDTO, hash: string -> Result<string, string>, insertFault: Option<WriteFault>): (r: Result<User, ServiceError>)
    ensures hash(dto.password).Err? ==> r == Err(HashingError(HashFailurePrefix + hash(dto.password).error))
    ensures hash(dto.password).Ok? && insertFault.Some? ==> r == Err(FromWriteFault(insertFault.value))
    ensures r.Ok? <==> hash(dto.password).Ok? && insertFault.None?
    ensures r.Ok? ==> r.value.id.None? && r.value.password_hash == hash(dto.password).value
    ensures r.Ok? ==> r.value.username == dto.username && r.value.email == dto.email && r.value.phone_number == dto.phone_number
  {
    match hash(dto.password)
    case Err(e) => Err(HashingError(HashFailurePrefix + e))
    case Ok(hashed) =>
      if insertFault.Some? then Err(FromWriteFault(insertFault.value))
      else Ok(User(None, dto.username, dto.email, hashed, dto.phone_number))
  }

  /**
   * The registered user is the `From<RegisterDTO>` conversion with the
   * empty hash filled in: never the plain password.
   */
  lemma RegisterFillsConvertedUser(dto: RegisterDTO, hash: string -> Result<string, string>)
    requires hash(dto.password).Ok?
    ensures Register(dto, hash, None) == Ok(UserFromRegister(dto).(password_hash := hash(dto.password).value))
  {
  }
}
