/**
 * The backend user service over the `users` collection. The collection is
 * a class holding each stored document by `_id` and the natural order a
 * cursor returns them in. The backend `User` marks `password_hash` as
 * skipped when serialising, and the same struct is what the service
 * inserts and reads back, so documents are kept as stored: the hash may
 * be absent.
 */
module UserService {
  import opened Wrappers
  import opened ObjectIds
  import opened ServiceErrors
  import opened UserModels
  import Text

  /** A document of the `users` collection. */
  datatype UserDoc = UserDoc(
    id: ObjectId,
    username: string,
    email: string,
    password_hash: Option<string>,
    phone_number: Option<string>)

  /** `User` reads a document back only when `password_hash` is there: the field has no default. */
  predicate UserReadable(d: UserDoc) {
    d.password_hash.Some?
  }

  function DecodeUser(d: UserDoc): (r: Option<User>)
    ensures r.Some? <==> UserReadable(d)
    ensures r.Some? ==> r.value.id == Some(d.id) && r.value.username == d.username && r.value.email == d.email
    ensures r.Some? ==> r.value.phone_number == d.phone_number && Some(r.value.password_hash) == d.password_hash
  {
    if d.password_hash.None? then None
    else Some(User(Some(d.id), d.username, d.email, d.password_hash.value, d.phone_number))
  }

  /**
   * What `insert_one(&user)` stores under the generated `newId`: every
   * field but `password_hash`, which serialisation skips.
   */
  function StoredUser(u: User, newId: ObjectId): (d: UserDoc)
    ensures d.id == newId && d.password_hash.None?
    ensures d.username == u.username && d.email == u.email && d.phone_number == u.phone_number
  {
    UserDoc(newId, u.username, u.email, None, u.phone_number)
  }

  /** No document the insert stores can be read back as a `User`. */
  lemma StoredUserUnreadable(u: User, newId: ObjectId)
    ensures DecodeUser(StoredUser(u, newId)).None?
  {
  }

  /** The insert as evidently intended: the hash kept in the database, only left out of responses. */
  function IntendedStoredUser(u: User, newId: ObjectId): (d: UserDoc)
    ensures d.id == newId && d.password_hash == Some(u.password_hash)
  {
    UserDoc(newId, u.username, u.email, Some(u.password_hash), u.phone_number)
  }

  /** With the hash stored, the document reads back as the inserted user under its new id. */
  lemma IntendedStoredUserReadsBack(u: User, newId: ObjectId)
    ensures DecodeUser(IntendedStoredUser(u, newId)) == Some(u.(id := Some(newId)))
  {
  }

  predicate AllStored(docs: map<ObjectId, UserDoc>, ids: seq<ObjectId>) {
    forall i :: 0 <= i < |ids| ==> ids[i] in docs
  }

  /** The documents under `ids`, in order, read as users; None when one is unreadable. */
  function DecodeUsers(docs: map<ObjectId, UserDoc>, ids: seq<ObjectId>): (r: Option<seq<User>>)
    requires AllStored(docs, ids)
    ensures r.Some? <==> forall i :: 0 <= i < |ids| ==> UserReadable(docs[ids[i]])
    ensures r.Some? ==> |r.value| == |ids| && forall i :: 0 <= i < |ids| ==> DecodeUser(docs[ids[i]]) == Some(r.value[i])
  {
    if ids == [] then Some([])
    else
      var front := ids[..|ids| - 1];
      assert forall i :: 0 <= i < |front| ==> front[i] == ids[i];
      match DecodeUsers(docs, front)
      case None => None
      case Some(us) =>
        match DecodeUser(docs[ids[|ids| - 1]])
        case None => None
        case Some(u) => Some(us + [u])
  }

  /**
   * The password a created user gets: the one supplied, as given, unless it
   * is missing or only whitespace; then the username followed by "123" when
   * the username is shorter than 6 bytes, and the username itself otherwise.
   */
  function InitialPassword(password: Option<string>, username: string): (pw: string)
    ensures password.Some? && !Text.IsBlank(password.value) ==> pw == password.value
    ensures (password.None? || Text.IsBlank(password.value)) && Text.Utf8Length(username) < 6 ==> pw == username + "123"
    ensures (password.None? || Text.IsBlank(password.value)) && Text.Utf8Length(username) >= 6 ==> pw == username
  {
    var given := password.GetOr("");
    if !Text.IsBlank(given) then given
    else if Text.Utf8Length(username) < 6 then username + "123"
    else username
  }

  /** The initial password is never empty: the fallbacks are at least three characters long. */
  lemma InitialPasswordNonEmpty(password: Option<string>, username: string)
    ensures InitialPassword(password, username) != ""
  {
    var pw := InitialPassword(password, username);
    if password.Some? && !Text.IsBlank(password.value) {
      assert Text.Trim(password.value) != "";
    } else if Text.Utf8Length(username) >= 6 {
      assert |username| > 0;
    }
  }

  const InvalidIdMessage := "Invalid ID"
  const HashFailurePrefix := "Gagal hashing password: "
  const NothingToUpdateMessage := "Tidak ada data untuk di-update"
  const UserMissingMessage := "User tidak ditemukan!"

  /** The NotFound message of `get_user_service`, quoting the requested id. */
  function UserNotFoundMessage(id: string): (m: string)
    ensures |m| == |id| + 33 && m[16..16 + |id|] == id
  {
    "User dengan ID '" + id + "' tidak ditemukan"
  }

  /** One `$set` entry of a user update. */
  datatype UserSetEntry =
    | SetUsername(username: string)
    | SetEmail(email: string)
    | SetPhone(phone: string)
    | SetPasswordHash(hash: string)

  predicate NoUpdateFields(dto: UpdateUserDTO) {
    dto.username.None? && dto.email.None? && dto.phone_number.None? && dto.password.None?
  }

  function UsernameEntry(dto: UpdateUserDTO): seq<UserSetEntry> {
    if dto.username.Some? then [SetUsername(dto.username.value)] else []
  }

  function EmailEntry(dto: UpdateUserDTO): seq<UserSetEntry> {
    if dto.email.Some? then [SetEmail(dto.email.value)] else []
  }

  function PhoneEntry(dto: UpdateUserDTO): seq<UserSetEntry> {
    if dto.phone_number.Some? then [SetPhone(dto.phone_number.value)] else []
  }

  /**
   * The update document `update_user_service` assembles: one entry per
   * supplied field, the password only as its hash under `password_hash`;
   * HashingError when hashing the supplied password fails.
   */
  function UserUpdateEntries(dto: UpdateUserDTO, hash: string -> Result<string, string>): (r: Result<seq<UserSetEntry>, ServiceError>)
    ensures r.Err? <==> dto.password.Some? && hash(dto.password.value).Err?
    ensures r.Err? ==> r.error == HashingError(HashFailurePrefix + hash(dto.password.value).error)
    ensures r.Ok? ==> (r.value == [] <==> NoUpdateFields(dto))
    ensures r.Ok? ==> forall e :: e in r.value && e.SetPasswordHash? ==>
      dto.password.Some? && hash(dto.password.value).Ok? && e.hash == hash(dto.password.value).value
    ensures r.Ok? ==> (dto.password.Some? <==> exists e :: e in r.value && e.SetPasswordHash?)
  {
    var fields := UsernameEntry(dto) + EmailEntry(dto) + PhoneEntry(dto);
    if dto.password.None? then Ok(fields)
    else match hash(dto.password.value)
      case Err(e) => Err(HashingError(HashFailurePrefix + e))
      case Ok(h) =>
        var doc := fields + [SetPasswordHash(h)];
        assert doc[|fields|] in doc;
        Ok(doc)
  }

  /** The `update_doc` assembly: in-place inserts, with the hash computed on the way. */
  method BuildUserUpdateDoc(dto: UpdateUserDTO, hash: string -> Result<string, string>) returns (r: Result<seq<UserSetEntry>, ServiceError>)
    ensures r == UserUpdateEntries(dto, hash)
  {
    var doc: seq<UserSetEntry> := [];
    if dto.username.Some? {
      doc := doc + [SetUsername(dto.username.value)];
    }
    assert doc == UsernameEntry(dto);
    if dto.email.Some? {
      doc := doc + [SetEmail(dto.email.value)];
    }
    assert doc == UsernameEntry(dto) + EmailEntry(dto);
    if dto.phone_number.Some? {
      doc := doc + [SetPhone(dto.phone_number.value)];
    }
    assert doc == UsernameEntry(dto) + EmailEntry(dto) + PhoneEntry(dto);
    if dto.password.Some? {
      var hashed := hash(dto.password.value);
      if hashed.Err? {
        return Err(HashingError(HashFailurePrefix + hashed.error));
      }
      doc := doc + [SetPasswordHash(hashed.value)];
    }
    r := Ok(doc);
  }

  function ApplyUserEntry(d: UserDoc, e: UserSetEntry): UserDoc {
    match e
    case SetUsername(u) => d.(username := u)
    case SetEmail(m) => d.(email := m)
    case SetPhone(p) => d.(phone_number := Some(p))
    case SetPasswordHash(h) => d.(password_hash := Some(h))
  }

  /** `$set`: each entry overwrites its field, in order. */
  function ApplyUserSet(d: UserDoc, entries: seq<UserSetEntry>): (r: UserDoc)
    ensures r.id == d.id
    decreases |entries|
  {
    if entries == [] then d else ApplyUserSet(ApplyUserEntry(d, entries[0]), entries[1..])
  }

  lemma {:induction false} ApplyUserSetConcat(d: UserDoc, a: seq<UserSetEntry>, b: seq<UserSetEntry>)
    ensures ApplyUserSet(d, a + b) == ApplyUserSet(ApplyUserSet(d, a), b)
    decreases |a|
  {
    if a == [] {
      assert a + b == b;
    } else {
      assert (a + b)[0] == a[0] && (a + b)[1..] == a[1..] + b;
      ApplyUserSetConcat(ApplyUserEntry(d, a[0]), a[1..], b);
    }
  }

  lemma ApplyOptionalUserEntry(d: UserDoc, prefix: seq<UserSetEntry>, entries: seq<UserSetEntry>, e: UserSetEntry, present: bool)
    requires entries == if present then [e] else []
    ensures ApplyUserSet(d, prefix + entries) ==
      if present then ApplyUserEntry(ApplyUserSet(d, prefix), e) else ApplyUserSet(d, prefix)
  {
    ApplyUserSetConcat(d, prefix, entries);
    if present {
      assert [e][1..] == [];
    }
  }

  /**
   * The document after a successful update: each supplied field replaced,
   * the password only as `hashed`, and nothing else touched.
   */
  function PatchedUser(d: UserDoc, dto: UpdateUserDTO, hashed: string): UserDoc {
    d.(username := dto.username.GetOr(d.username),
       email := dto.email.GetOr(d.email),
       phone_number := if dto.phone_number.Some? then dto.phone_number else d.phone_number,
       password_hash := if dto.password.Some? then Some(hashed) else d.password_hash)
  }

  /** Applying the assembled update document changes exactly the supplied fields. */
  lemma PatchedUserBySet(d: UserDoc, dto: UpdateUserDTO, hash: string -> Result<string, string>)
    requires UserUpdateEntries(dto, hash).Ok?
    ensures var hashed := if dto.password.Some? then hash(dto.password.value).value else "";
      ApplyUserSet(d, UserUpdateEntries(dto, hash).value) == PatchedUser(d, dto, hashed)
  {
    var a, b, c := UsernameEntry(dto), EmailEntry(dto), PhoneEntry(dto);
    assert a == [] + a;
    ApplyOptionalUserEntry(d, [], a, SetUsername(dto.username.GetOr(d.username)), dto.username.Some?);
    ApplyOptionalUserEntry(d, a, b, SetEmail(dto.email.GetOr(d.email)), dto.email.Some?);
    ApplyOptionalUserEntry(d, a + b, c, SetPhone(if dto.phone_number.Some? then dto.phone_number.value else ""), dto.phone_number.Some?);
    if dto.password.Some? {
      var h := hash(dto.password.value).value;
      ApplyOptionalUserEntry(d, a + b + c, [SetPasswordHash(h)], SetPasswordHash(h), true);
    } else {
      assert a + b + c == UserUpdateEntries(dto, hash).value;
    }
  }

  /**
   * An update that sets a password leaves a readable document, whatever was
   * stored before, holding the password's hash.
   */
  lemma PasswordUpdateMakesReadable(d: UserDoc, dto: UpdateUserDTO, hash: string -> Result<string, string>)
    requires dto.password.Some? && UserUpdateEntries(dto, hash).Ok?
    ensures var after := ApplyUserSet(d, UserUpdateEntries(dto, hash).value);
      UserReadable(after) && after.password_hash == Some(hash(dto.password.value).value)
  {
    PatchedUserBySet(d, dto, hash);
  }

  /**
   * The listing loop of `get_users_service`: read each document in order
   * and push it; stop at the first one that does not read back.
   */
  method ListUsers(docs: map<ObjectId, UserDoc>, order: seq<ObjectId>) returns (listed: Option<seq<User>>)
    requires AllStored(docs, order)
    ensures listed == DecodeUsers(docs, order)
  {
    var found: seq<User> := [];
    var i := 0;
    while i < |order|
      invariant 0 <= i <= |order|
      invariant AllStored(docs, order[..i])
      invariant DecodeUsers(docs, order[..i]) == Some(found)
    {
      assert order[..i + 1][..i] == order[..i];
      assert AllStored(docs, order[..i + 1]);
      var u := DecodeUser(docs[order[i]]);
      if u.None? {
        return None;
      }
      found := found + [u.value];
      i := i + 1;
    }
    assert order[..|order|] == order;
    listed := Some(found);
  }

  class UserCollection {
    /** The stored documents by `_id`. */
    var docs: map<ObjectId, UserDoc>
    /** The collection's natural order. */
    var order: seq<ObjectId>

    ghost predicate Valid()
      reads this
    {
      Distinct(order) &&
      (forall k :: k in docs <==> k in order) &&
      (forall k :: k in docs ==> docs[k].id == k)
    }

    constructor ()
      ensures Valid() && docs == map[] && order == []
    {
      docs := map[];
      order := [];
    }

    /**
     * `get_users_service`. `findFault` is a failure of the query;
     * `decodeMessage` the driver's text when a document does not read back.
     */
    method GetUsers(findFault: Option<string>, decodeMessage: string) returns (r: Result<seq<User>, ServiceError>)
      requires Valid()
      ensures findFault.Some? ==> r == Err(DatabaseError(findFault.value))
      ensures findFault.None? ==> (AllStored(docs, order) &&
        r == if DecodeUsers(docs, order).Some? then Ok(DecodeUsers(docs, order).value) else Err(DatabaseError(decodeMessage)))
    {
      if findFault.Some? {
        return Err(DatabaseError(findFault.value));
      }
      assert AllStored(docs, order);
      var listed := ListUsers(docs, order);
      r := if listed.Some? then Ok(listed.value) else Err(DatabaseError(decodeMessage));
    }

    /** `get_user_service`: one user by id. */
    function GetUser(idText: string, findFault: Option<string>, decodeMessage: string): (r: Result<User, ServiceError>)
      reads this
      ensures ParseObjectId(idText).None? ==> r == Err(InvalidId(InvalidIdMessage))
      ensures ParseObjectId(idText).Some? && findFault.Some? ==> r == Err(DatabaseError(findFault.value))
      ensures ParseObjectId(idText).Some? && findFault.None? && ParseObjectId(idText).value !in docs ==>
        r == Err(NotFound(UserNotFoundMessage(idText)))
      ensures (ParseObjectId(idText).Some? && findFault.None? && ParseObjectId(idText).value in docs &&
               !UserReadable(docs[ParseObjectId(idText).value])) ==> r == Err(DatabaseError(decodeMessage))
      ensures r.Ok? <==> (ParseObjectId(idText).Some? && findFault.None? &&
        ParseObjectId(idText).value in docs && UserReadable(docs[ParseObjectId(idText).value]))
      ensures r.Ok? ==> DecodeUser(docs[ParseObjectId(idText).value]) == Some(r.value)
    {
      match ParseObjectId(idText)
      case None => Err(InvalidId(InvalidIdMessage))
      case Some(id) =>
        if findFault.Some? then Err(DatabaseError(findFault.value))
        else if id !in docs then Err(NotFound(UserNotFoundMessage(idText)))
        else match DecodeUser(docs[id])
          case None => Err(DatabaseError(decodeMessage))
          case Some(u) => Ok(u)
    }

    /**
     * `create_user_service`. `hash` is argon2 with a fresh salt, `newId`
     * the `_id` the insert is given, `fault` the insert's failure.
     */
    method CreateUser(dto: CreateUserDTO, hash: string -> Result<string, string>, newId: ObjectId, fault: Option<WriteFault>)
      returns (r: Result<User, ServiceError>)
      requires Valid()
      requires newId !in docs
      modifies this
      ensures Valid()
      ensures var pw := InitialPassword(dto.password, dto.username);
        if hash(pw).Err? then r == Err(HashingError(HashFailurePrefix + hash(pw).error)) && docs == old(docs) && order == old(order)
        else if fault.Some? then r == Err(FromWriteFault(fault.value)) && docs == old(docs) && order == old(order)
        else
          var u := User(None, dto.username, dto.email, hash(pw).value, dto.phone_number);
          r == Ok(u) && docs == old(docs)[newId := StoredUser(u, newId)] && order == old(order) + [newId]
    {
      var password := dto.password.GetOr("");
      if Text.IsBlank(password) {
        if Text.Utf8Length(dto.username) < 6 {
          password := dto.username + "123";
        } else {
          password := dto.username;
        }
      }
      assert password == InitialPassword(dto.password, dto.username);
      var hashed := hash(password);
      if hashed.Err? {
        return Err(HashingError(HashFailurePrefix + hashed.error));
      }
      var user := User(None, dto.username, dto.email, hashed.value, dto.phone_number);
      if fault.Some? {
        return Err(FromWriteFault(fault.value));
      }
      docs := docs[newId := StoredUser(user, newId)];
      order := order + [newId];
      r := Ok(user);
    }

    /**
     * `update_user_service`. `fault` is the failure of `update_one`;
     * `decodeMessage` the driver's text when the re-read document does not
     * read back.
     */
    method UpdateUser(idText: string, dto: UpdateUserDTO, hash: string -> Result<string, string>,
                      fault: Option<WriteFault>, decodeMessage: string)
      returns (r: Result<User, ServiceError>)
      requires Valid()
      modifies this
      ensures Valid() && order == old(order)
      ensures ParseObjectId(idText).None? ==> r == Err(InvalidId(InvalidIdMessage)) && docs == old(docs)
      ensures ParseObjectId(idText).Some? ==>
        var id, entries := ParseObjectId(idText).value, UserUpdateEntries(dto, hash);
        if entries.Err? then r == Err(entries.error) && docs == old(docs)
        else if NoUpdateFields(dto) then r == Err(BadRequest(NothingToUpdateMessage)) && docs == old(docs)
        else if fault.Some? then r == Err(FromWriteFault(fault.value)) && docs == old(docs)
        else if id !in old(docs) then r == Err(NotFound(UserMissingMessage)) && docs == old(docs)
        else
          var hashed := if dto.password.Some? then hash(dto.password.value).value else "";
          docs == old(docs)[id := PatchedUser(old(docs)[id], dto, hashed)] &&
          r == if UserReadable(docs[id]) then Ok(DecodeUser(docs[id]).value) else Err(DatabaseError(decodeMessage))
    {
      var id := ParseObjectId(idText);
      if id.None? {
        return Err(InvalidId(InvalidIdMessage));
      }
      var entries := BuildUserUpdateDoc(dto, hash);
      if entries.Err? {
        return Err(entries.error);
      }
      if entries.value == [] {
        return Err(BadRequest(NothingToUpdateMessage));
      }
      if fault.Some? {
        return Err(FromWriteFault(fault.value));
      }
      if id.value !in docs {
        return Err(NotFound(UserMissingMessage));
      }
      PatchedUserBySet(docs[id.value], dto, hash);
      docs := docs[id.value := ApplyUserSet(docs[id.value], entries.value)];
      var back := DecodeUser(docs[id.value]);
      if back.None? {
        return Err(DatabaseError(decodeMessage));
      }
      r := Ok(back.value);
    }

    /** `delete_user_service`. `fault` is the failure of `delete_one`. */
    method DeleteUser(idText: string, fault: Option<string>) returns (r: Result<bool, ServiceError>)
      requires Valid()
      modifies this
      ensures Valid()
      ensures ParseObjectId(idText).None? ==> r == Err(InvalidId(InvalidIdMessage)) && docs == old(docs) && order == old(order)
      ensures ParseObjectId(idText).Some? && fault.Some? ==>
        r == Err(DatabaseError(fault.value)) && docs == old(docs) && order == old(order)
      ensures ParseObjectId(idText).Some? && fault.None? ==>
        var id := ParseObjectId(idText).value;
        if id !in old(docs) then r == Err(NotFound(UserMissingMessage)) && docs == old(docs) && order == old(order)
        else r == Ok(true) && docs == old(docs) - {id} && order == Without(old(order), id)
    {
      var id := ParseObjectId(idText);
      if id.None? {
        return Err(InvalidId(InvalidIdMessage));
      }
      if fault.Some? {
        return Err(DatabaseError(fault.value));
      }
      if id.value !in docs {
        return Err(NotFound(UserMissingMessage));
      }
      WithoutRemoves(order, id.value);
      docs := docs - {id.value};
      order := Without(order, id.value);
      r := Ok(true);
    }
  }

  /** `ids` with `k` taken out, the rest in order. */
  function Without(ids: seq<ObjectId>, k: ObjectId): (r: seq<ObjectId>)
    ensures forall x :: x in r <==> x in ids && x != k
    ensures |r| <= |ids|
  {
    if ids == [] then []
    else if ids[0] == k then Without(ids[1..], k)
    else [ids[0]] + Without(ids[1..], k)
  }

  predicate Distinct(ids: seq<ObjectId>) {
    forall i, j :: 0 <= i < j < |ids| ==> ids[i] != ids[j]
  }

  /** Taking an id out of a duplicate-free sequence keeps it duplicate-free. */
  lemma {:induction false} WithoutRemoves(ids: seq<ObjectId>, k: ObjectId)
    requires Distinct(ids)
    ensures Distinct(Without(ids, k))
  {
    if ids != [] {
      WithoutRemoves(ids[1..], k);
      var rest := Without(ids[1..], k);
      if ids[0] != k {
        forall j | 0 <= j < |ids| - 1
          ensures ids[1..][j] != ids[0]
        {
          assert ids[1..][j] == ids[j + 1];
        }
        assert ids[0] !in rest;
        var r := [ids[0]] + rest;
        forall i, j | 0 <= i < j < |r|
          ensures r[i] != r[j]
        {
          assert r[j] == rest[j - 1] && rest[j - 1] in rest;
          if i == 0 {
            assert r[i] == ids[0];
          } else {
            assert r[i] == rest[i - 1];
          }
        }
      }
    }
  }

  /** A user created by `create_user_service` makes every later listing fail. */
  lemma ListingFailsAfterCreate(docs: map<ObjectId, UserDoc>, order: seq<ObjectId>, u: User, newId: ObjectId)
    requires AllStored(docs, order)
    ensures AllStored(docs[newId := StoredUser(u, newId)], order + [newId])
    ensures DecodeUsers(docs[newId := StoredUser(u, newId)], order + [newId]).None?
  {
    var docs' := docs[newId := StoredUser(u, newId)];
    assert AllStored(docs', order + [newId]);
    assert (order + [newId])[|order|] == newId;
  }
}
