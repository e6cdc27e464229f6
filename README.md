# qtoky core in Dafny

A model of the decision and validation rules of qtoky. qtoky is a small
point-of-sale REST service in Rust with two crates, `rest_api` and
`backend`, built on Actix and MongoDB. The model covers:

- **Ownership-scoped product service** (`rest_api`). The `products`
  collection is a class that holds a map from `_id` to the stored document,
  plus the cursor order. Reading, creating and partially updating products
  are methods on it. A product update may touch only a document that matches
  both `_id` and the caller's `user_id`.
- **Backend user service.** The `users` collection is modelled the same way,
  with list, get, create (including the default-password rule), partial
  update and delete.
- **Auth middleware.** The chain "token present → token decodes → CSRF
  double-submit for non-GET" is a pure decision function.
- **Login and register decisions.** The database, argon2 and the JWT library
  are oracles passed in as parameters.
- **Error taxonomy.**
  - `ServiceError` → `ApiError` → HTTP status and JSON body.
  - Validation errors are flattened into one message.
  - Actix payload errors are classified.
  - The backend's copy of `api_error.rs` (backend/src/errors/api_error.rs:46-155) has the same tables as the `rest_api` one, so one module models both. The backend's only extra is the log line, modelled in `BackendApiErrors`.
  - The older three-variant error in backend/src/errors/error.rs has its own module.
- **DTO validators and response projections** for products (both crates),
  sales and users.
- **The patch-user "no fields" check** and the `Location` header of the
  backend user handler.
- **Cookie and token helpers.** These are the expiry test, cookie
  attributes, and the CSRF token drawn with rand's `Alphanumeric`
  distribution.

How external calls are modelled:

- **Clock:** the current time is a parameter.
- **MongoDB:**
  - The failures of MongoDB calls are parameters: a query fault, or a write fault that is either a duplicate key or a storage failure.
  - The `_id` chosen by an insert is a parameter.
  - When a stored document does not deserialise, the driver's error text is a parameter.
- **Other libraries:**
  - The SKU generator, the password hash and verify functions, and JWT decoding are parameters.
  - `ObjectId::parse_str` / `to_hex` are modelled concretely: 12 bytes, 24 hex digits.

Stored documents are kept in BSON terms: a date field holds either a BSON
datetime or a string. This is because the product update writes values that
`Product` cannot read back (see Findings).

## Model

| member | source | states |
|---|---|---|
| ApiErrors.Display | rest_api/src/errors/api_error.rs:11-33 | the text of every variant except InternalError and NotFound ends with its message |
| ApiErrors.DisplayMessageRule | rest_api/src/errors/api_error.rs:13-32 | InternalError and NotFound render the same text whatever their message; every other variant's text determines its message |
| ApiErrors.StatusCode | rest_api/src/errors/api_error.rs:45-53 | the status is within 400..500, and it is 500 exactly for InternalError |
| ApiErrors.StatusIdentifiesVariant | rest_api/src/errors/api_error.rs:45-53 | two errors get the same status iff they are the same variant: the seven-row table is injective |
| ApiErrors.ErrorResponse | rest_api/src/errors/api_error.rs:44-62 | the response uses the variant's status; its body has status "error", code equal to that HTTP status, and the display text as message |
| ApiErrors.FromServiceError | rest_api/src/errors/mod.rs:7-21 | the message is carried over unchanged; NotFound, Conflict and Unauthorized map to themselves; BadRequest and InvalidId map to BadRequest; the three internal failures map to InternalError; ValidationError and Forbidden are never produced |
| ApiErrors.InternalFailuresDoNotLeak | rest_api/src/errors/mod.rs:14-18 | hashing, database and unexpected failures all yield the same 500 response, "Internal Server Error", whatever the detail |
| ApiErrors.FromValidationErrors | rest_api/src/errors/api_error.rs:66-90 | the result is always a ValidationError (422) carrying the flattened message |
| ApiErrors.FieldReasonsAppend | rest_api/src/errors/api_error.rs:73-82 | one more error in a field adds ", " and its reason to that field's text |
| ApiErrors.FlattenAppendField | rest_api/src/errors/api_error.rs:69-86 | one more field adds " \| " and that field's text to the message |
| ApiErrors.FlattenDefaultMessage | rest_api/src/errors/api_error.rs:76-79 | an error without a message reads "tidak valid" |
| ApiErrors.FromActixError | rest_api/src/errors/api_error.rs:94-134 | JSON, payload and urlencoded errors give BadRequest (400); any other Actix error gives InternalError (500) |
| BackendApiErrors.LoggedErrorResponse | backend/src/errors/api_error.rs:45-84 | the response equals the shared table's; the log line is at error level exactly for InternalError, and it ends with the inner message |
| BackendApiErrors.InternalDetailLoggedNotSent | backend/src/errors/api_error.rs:47-50 | two internal errors with different details get identical responses but different log lines |
| LegacyErrors.Display | backend/src/errors/error.rs:6-16 | a BadRequest renders as "Bad Request: " followed by its message |
| LegacyErrors.StatusCode | backend/src/errors/error.rs:27-31 | the status is 500 exactly for InternalError |
| LegacyErrors.ErrorResponse | backend/src/errors/error.rs:25-41 | the body has status "error" and code equal to the HTTP status, with the display text as message |
| LegacyErrors.AgreesWithApiError | backend/src/errors/error.rs:25-41 | each of the three variants responds exactly as the same-named variant of the seven-variant ApiError |
| LegacyErrors.OnlyBadRequestShowsMessage | backend/src/errors/error.rs:8-15 | the BadRequest text determines its message |
| ServiceErrors.FromWriteFault | rest_api/src/services/product_service.rs:83-88 | a duplicate-key failure gives Conflict; any other write failure gives DatabaseError; the detail is kept |
| Text.BlankIffAllWhitespace | rest_api/src/services/product_service.rs:51 | `trim().is_empty()` holds iff every character is Unicode white space |
| Text.Utf8Length | backend/src/services/user_service.rs:58 | the byte length `len()` is between the character count and four times it, and equals the character count iff the text is ASCII |
| Text.JoinSnoc | rest_api/src/errors/api_error.rs:82-86 | joining one more part appends the separator and that part |
| Text.JoinLength | rest_api/src/errors/api_error.rs:82-86 | the joined length is the parts' total plus one separator between each pair of neighbours |
| ObjectIds.ParseObjectId | rest_api/src/utils/mod.rs:18-20 | parsing succeeds iff the text is 24 hex digits |
| ObjectIds.ParseToHex | rest_api/src/utils/mod.rs:18-20 | parsing the hex rendering of an id gives back that id |
| ObjectIds.ToHexInjective | rest_api/src/models/product.rs:80-84 | distinct ids render as distinct hex strings |
| ProductModels.ValidateProduct | rest_api/src/models/product.rs:29-43 | name, price and stock each fail exactly when the name is empty, the price is below 100 or the stock is above 99999; no other field is checked; no errors iff all three hold |
| ProductModels.ValidateProductUpdate | rest_api/src/models/product.rs:45-59 | a field fails only when it is present and out of range; absent fields pass |
| ProductModels.ToResponse | rest_api/src/models/product.rs:77-94 | requires an id; the response's ids parse back to the product's ids; name, sku, price and stock are copied; category and timestamps are present iff present in the product |
| BackendProductModels.ValidateProduct | backend/src/models/product.rs:29-43 | the same three rules, each an iff, with the price as a real: at least 100.0; no errors iff all three hold |
| BackendProductModels.ValidateProductUpdate | backend/src/models/product.rs:45-59 | absent fields pass; present ones face the same bounds |
| BackendProductModels.ToResponse | backend/src/models/product.rs:77-94 | requires an id; ids parse back; fields are copied; optional fields are present iff present in the product |
| SaleModels.ValidateSaleItem | backend/src/models/sale.rs:53-65 | quantity fails iff below 1, price iff below 100, discount iff present and negative; no errors iff the item is valid |
| SaleModels.ItemFailures | backend/src/models/sale.rs:71-73 | the nested report lists failing items in increasing index order; it is empty iff every item is valid |
| SaleModels.ItemFailuresComplete | backend/src/models/sale.rs:72 | every invalid item appears in the nested report under its own index |
| SaleModels.ValidateSale | backend/src/models/sale.rs:67-82 | items fail iff the list is empty, paid_amount iff negative, notes iff longer than 255; the nested item report is attached |
| SaleModels.ValidSaleIff | backend/src/models/sale.rs:67-82 | a sale passes with no field and no item error iff all its rules hold |
| UserModels.ToUserResponse | rest_api/src/models/user.rs:51-60 | the id parses back to the user's id, or to the default id when there is none; username, email and phone are copied |
| UserModels.ResponseIgnoresPasswordHash | rest_api/src/models/user.rs:43-60 | changing the password hash never changes the response |
| UserModels.UserFromRegister | rest_api/src/models/user.rs:62-72 | the user has no id and an empty hash, and the other fields are copied |
| UserModels.BackendUserJson | backend/src/models/user.rs:5-21 | the serialised backend user has no `password_hash` key; `_id` is present iff the id is; the other fields appear unchanged |
| Jwt.AsUsize | rest_api/src/utils/jwt.rs:38 | the `as usize` cast leaves non-negative timestamps unchanged and stays within 64 bits |
| Jwt.IsJwtExpired | rest_api/src/utils/jwt.rs:36-40 | for a non-negative clock, a token is expired iff its `exp` is strictly before now |
| Jwt.ExpiryBoundary | rest_api/src/utils/jwt.rs:37-40 | `exp == now` is not expired; once expired, a token stays expired as the clock advances |
| Jwt.CreateAuthCookie | rest_api/src/utils/jwt.rs:42-49 | the cookie is `auth_token`, holds the token, and is http-only, SameSite Strict, with path "/" and `secure` unset |
| Jwt.CreateCsrfCookie | rest_api/src/utils/jwt.rs:51-58 | the cookie is `csrf_token`, holds the token, is not http-only, and is SameSite Strict with path "/" |
| Jwt.CookiesDiffer | rest_api/src/utils/jwt.rs:42-58 | the two cookies have different names; only the auth cookie is hidden from scripts |
| Jwt.AlphabetChar | rest_api/src/utils/jwt.rs:60 | each of the 62 sample values maps to an ASCII letter or digit: 0-25 upper case, 52-61 digits |
| Jwt.SampleAlphanumeric | rest_api/src/utils/jwt.rs:63-68 | a completed sample has exactly the requested length and only ASCII alphanumerics |
| Jwt.SampleSucceedsIff | rest_api/src/utils/jwt.rs:63-68 | `n` characters are drawn iff the random stream holds at least `n` accepted words |
| Jwt.GenerateCsrfToken | rest_api/src/utils/jwt.rs:63-69 | a token is exactly 32 ASCII alphanumerics, produced iff 32 words are accepted |
| AuthMiddleware.HeaderToStr | rest_api/src/middlewares/auth_middleware.rs:67-70 | a header value reads as text iff every byte is visible ASCII or tab; the text has the same characters |
| AuthMiddleware.Check | rest_api/src/middlewares/auth_middleware.rs:48-79 | missing token gives 401 "Token tidak ditemukan"; an undecodable token gives 401 "Token tidak valid atau expired"; Forbidden only on a non-GET with the CSRF message; the request is forwarded, unchanged, iff the token decodes and (GET or the header equals the CSRF cookie) |
| AuthMiddleware.RejectionStatus | rest_api/src/middlewares/auth_middleware.rs:55-74 | a rejection is 401 or 403; it is 403 iff the token was fine and the CSRF check failed |
| AuthMiddleware.GetIgnoresCsrf | rest_api/src/middlewares/auth_middleware.rs:65 | a GET with a token is forwarded iff the token decodes, whatever the CSRF cookie or header |
| AuthMiddleware.UnreadableHeaderForbidden | rest_api/src/middlewares/auth_middleware.rs:67-74 | a non-GET whose CSRF header is not readable text is Forbidden, even with a CSRF cookie |
| AuthMiddleware.AlphanumericHeaderReadsBack | rest_api/src/middlewares/auth_middleware.rs:67-72 | an alphanumeric token sent as a header reads back as the same text |
| AuthMiddleware.LoginCookiesPass | rest_api/src/middlewares/auth_middleware.rs:48-79 | a request carrying the issued auth cookie and a generated CSRF token in both cookie and header is forwarded for any method |
| AuthService.FirstNamed | rest_api/src/services/auth_service.rs:11-12 | the index of the first stored user with the exact username, or the length when there is none |
| AuthService.FindByUsername | rest_api/src/services/auth_service.rs:11-14 | the lookup is None iff no stored user has the username; otherwise it is a stored user with that name |
| AuthService.Login | rest_api/src/services/auth_service.rs:8-32 | a lookup failure gives DatabaseError; success iff the user exists and the password verifies, returning that stored user; every other failure is Unauthorized "username atau password salah" |
| AuthService.FailedLoginsIndistinguishable | rest_api/src/services/auth_service.rs:16-29 | an unknown user and a wrong password give the identical error |
| AuthService.LoginReturnsStoredRecord | rest_api/src/services/auth_service.rs:31 | a successful login returns the first stored record with that username, unchanged |
| AuthService.Register | rest_api/src/services/auth_service.rs:34-66 | a hash failure gives HashingError "Gagal hashing password: …"; a write failure gives Conflict or DatabaseError; success iff both succeed, giving a user with no id, the hash, and the other fields copied |
| AuthService.RegisterFillsConvertedUser | rest_api/src/services/auth_service.rs:37-53 | the registered user is the DTO's converted user with the hash filled in |
| ProductService.Decode | rest_api/src/models/product.rs:6-27 | a stored document reads back iff its dates are BSON dates and its category is an ObjectId or its hex text; the product keeps the document's `_id` and owner |
| ProductService.Encode | rest_api/src/models/product.rs:6-27 | what is stored for a product with an id is readable and keeps that id and owner |
| ProductService.DecodeEncode | rest_api/src/models/product.rs:6-27 | a stored product reads back as itself |
| ProductService.OwnedDocs | rest_api/src/services/product_service.rs:18-21 | the query yields only documents of the given owner, at most one per stored id |
| ProductService.OwnedDocsMembers | rest_api/src/services/product_service.rs:18-31 | a document is listed iff it is stored under one of the ids and belongs to the owner |
| ProductService.DecodeAll | rest_api/src/services/product_service.rs:25-31 | the cursor drains iff every document is readable; each product is its document read back, in order |
| ProductService.ListingFailsOnUnreadable | rest_api/src/services/product_service.rs:25-29 | one unreadable document of the owner makes the whole listing fail |
| ProductService.ListOwned | rest_api/src/services/product_service.rs:23-31 | the loop yields exactly the owner's documents read back, in cursor order, or fails as the cursor does |
| ProductService.ChooseSku | rest_api/src/services/product_service.rs:50-53 | a supplied SKU is kept verbatim unless it is absent or whitespace-only, in which case the generated one is used |
| ProductService.ParseCategory | rest_api/src/services/product_service.rs:65-67 | a category is kept iff it is supplied and parses as an ObjectId; malformed ones are dropped |
| ProductService.NewProduct | rest_api/src/services/product_service.rs:55-70 | the new product has no id, the caller as owner, and `created_at == updated_at == now` |
| ProductService.ProductUpdateEntries | rest_api/src/services/product_service.rs:108-130 | the update document is empty iff no field is supplied, and never holds `updated_at` at that point |
| ProductService.BuildProductUpdateDoc | rest_api/src/services/product_service.rs:108-124 | the in-place inserts build exactly the entries of the supplied fields, in the source's order |
| ProductService.ApplySet | rest_api/src/services/product_service.rs:145-146 | a `$set` never changes `_id`, owner or `created_at` |
| ProductService.PatchedBySet | rest_api/src/services/product_service.rs:108-146 | applying the built `$set` replaces exactly the supplied fields and `updated_at`, and nothing else |
| ProductService.UpdatedDocumentUnreadable | rest_api/src/services/product_service.rs:132-133 | after any update the stored document no longer reads back as a Product |
| ProductService.IntendedPatchedDoc | rest_api/src/services/product_service.rs:108-146 | the corrected document differs from the as-written one only in `updated_at`, which is a BSON date of now |
| ProductService.IntendedPatch | rest_api/src/services/product_service.rs:108-133 | id, owner and `created_at` are kept; the supplied fields are replaced, a supplied category as it parses; `updated_at` is now |
| ProductService.IntendedUpdateReadsBack | rest_api/src/services/product_service.rs:122-133 | with `updated_at` stored as a date, an updated readable product reads back iff any supplied category is valid hex, and then as the intended updated product |
| ProductService.ProductCollection.GetProducts | rest_api/src/services/product_service.rs:11-34 | a malformed caller id gives InvalidId "Invalid ID"; a query fault gives DatabaseError; otherwise the result is exactly the caller's products in cursor order |
| ProductService.ProductCollection.CreateProduct | rest_api/src/services/product_service.rs:36-90 | a malformed id or a write fault leaves the collection unchanged (InvalidId, or Conflict/DatabaseError); on success the product gets the inserted id, is stored under it, and nothing else changes |
| ProductService.ProductCollection.UpdateProduct | rest_api/src/services/product_service.rs:92-175 | the product id is checked before the user id; an empty update gives BadRequest; the write fault is next; a product not matching both `_id` and owner gives NotFound; otherwise only that document changes, patched with the supplied fields, and the re-read result is returned; the order never changes |
| ProductService.CreatedProductListedLast | rest_api/src/services/product_service.rs:73-81 | after a create, the owner's listing is the old one followed by the new product |
| ProductService.UpdateKeepsOtherListings | rest_api/src/services/product_service.rs:139-161 | an update leaves every other user's listing unchanged |
| ProductService.ListingFailsAfterUpdate | rest_api/src/services/product_service.rs:18-33 | once one of an owner's products has been updated, listing that owner's products fails |
| UserService.DecodeUser | backend/src/models/user.rs:5-21 | a stored user reads back iff it has a `password_hash`; all fields are kept |
| UserService.StoredUser | backend/src/services/user_service.rs:68-76 | the inserted document has the new `_id` and the user's fields, but no `password_hash` |
| UserService.StoredUserUnreadable | backend/src/models/user.rs:17-18 | a created user's document never reads back |
| UserService.IntendedStoredUser | backend/src/services/user_service.rs:68-76 | the intended document keeps the hash |
| UserService.IntendedStoredUserReadsBack | backend/src/services/user_service.rs:68-78 | with the hash stored, the document reads back as the created user with its new id |
| UserService.DecodeUsers | backend/src/services/user_service.rs:17-23 | the listing succeeds iff every stored user is readable; each user is its document read back, in order |
| UserService.InitialPassword | backend/src/services/user_service.rs:55-63 | a non-blank password is used as given; otherwise a username shorter than 6 bytes gets "123" appended and a longer one is used as is |
| UserService.InitialPasswordNonEmpty | backend/src/services/user_service.rs:55-63 | the effective password is never empty |
| UserService.UserNotFoundMessage | backend/src/services/user_service.rs:43 | the NotFound message contains the requested id verbatim |
| UserService.UserUpdateEntries | backend/src/services/user_service.rs:99-121 | a hash failure gives HashingError; otherwise the update is empty iff no field is supplied; a password appears only as its hash, under `password_hash`, iff a password is supplied |
| UserService.BuildUserUpdateDoc | backend/src/services/user_service.rs:99-115 | the in-place inserts build exactly those entries |
| UserService.PatchedUserBySet | backend/src/services/user_service.rs:99-126 | applying the built `$set` replaces exactly the supplied fields and the hash |
| UserService.PasswordUpdateMakesReadable | backend/src/services/user_service.rs:111-114 | applying an update with a password leaves a readable document whose `password_hash` is that password's hash |
| UserService.ListUsers | backend/src/services/user_service.rs:15-23 | the loop yields every stored user read back in cursor order, or fails as the cursor does |
| UserService.UserCollection.GetUsers | backend/src/services/user_service.rs:7-26 | a query fault gives DatabaseError; otherwise the result is all users in order, or DatabaseError if one cannot be read |
| UserService.UserCollection.GetUser | backend/src/services/user_service.rs:28-44 | a malformed id gives InvalidId; a query fault gives DatabaseError with its text; a missing id gives NotFound naming the id; an unreadable document gives DatabaseError; success iff the id is stored and readable, returning that user |
| UserService.UserCollection.CreateUser | backend/src/services/user_service.rs:46-87 | the password is hashed from the effective password; a hash or write failure changes nothing; on success the user (no id, the hash, fields copied) is inserted under the new id and nothing else changes |
| UserService.UserCollection.UpdateUser | backend/src/services/user_service.rs:89-142 | a malformed id gives InvalidId; a hash failure gives HashingError; an empty update gives BadRequest; a write fault and then a missing id give their errors with nothing changed; otherwise only that user's document changes, with the supplied fields |
| UserService.UserCollection.DeleteUser | backend/src/services/user_service.rs:144-162 | a malformed id gives InvalidId; a missing id gives NotFound; otherwise the user is removed from the map and the order, and the result is `Ok(true)` |
| UserService.Without | backend/src/services/user_service.rs:152-153 | the remaining ids are exactly the old ones other than the deleted one |
| UserService.WithoutRemoves | backend/src/services/user_service.rs:152-153 | deleting keeps the ids distinct |
| UserService.ListingFailsAfterCreate | backend/src/services/user_service.rs:7-26 | once a user has been created, listing all users fails |
| UserHandler.FieldBlankIff | backend/src/rest/users/handler.rs:69-88 | a field counts as empty iff it is absent or all white space |
| UserHandler.NoFields | backend/src/rest/users/handler.rs:69-88 | no_fields holds iff each of the four fields is absent or whitespace-only; in particular when none is supplied |
| UserHandler.PatchUser | backend/src/rest/users/handler.rs:59-96 | a payload error is classified; validation errors come next (422); then no_fields gives BadRequest "Minimal satu field valid harus diisi"; the service is called, with the DTO unchanged, iff at least one field is non-blank |
| UserHandler.ValidationBeforeNoFields | backend/src/rest/users/handler.rs:66-67 | a DTO failing validation is rejected with 422 even when it is also empty |
| UserHandler.CreatedLocation | backend/src/rest/users/handler.rs:48-51 | the Location is `/users/` followed by the 24-digit hex of the returned user's id, or of the default id |
| UserHandler.LocationIgnoresInsertedId | backend/src/rest/users/handler.rs:48-51 | for the id-less user the service returns, the Location names the default id, not the inserted one |
| UserHandler.IntendedLocation | backend/src/rest/users/handler.rs:50-51 | the intended Location names the inserted id |
| UserHandler.IntendedLocationsDistinct | backend/src/rest/users/handler.rs:50-51 | different inserted ids give different Locations |

## Left out

- MongoDB I/O is reduced to its outcomes. Query and write faults, the inserted `_id` and the driver's deserialisation message are parameters. A collection is a map plus a cursor order. A cursor fault partway through the stream (an I/O error from `try_next` in rest_api/src/services/product_service.rs:25-28 and backend/src/services/user_service.rs:17-20) is not modelled: in the model the listing loops fail only on an unreadable document. Such a fault would give DatabaseError in the same way. Concurrency between requests is not modelled.
- A fault of the `find_one` re-read after an update is not modelled. For products, the update first checks `matched_count` (rest_api/src/services/product_service.rs:157-160), so the re-read always sees the just-written document and its "Produk tidak ditemukan!" NotFound cannot arise in the model. For users, `update_user_service` does not check `matched_count` (backend/src/services/user_service.rs:125-139): a well-formed id that is not stored matches nothing, and the re-read's "User tidak ditemukan!" NotFound is how the source reports it. `UserService.UserCollection.UpdateUser` gives that error.
- `handle_duplicate_key_error` is not part of this model. It is taken to turn a duplicate-key failure into Conflict, with the driver's detail as its message. Its exact text is not modelled.
- `generate_random_sku`, argon2 hashing and verification, JWT encoding and decoding, and `Utc::now` are parameters.
- The JWT claims and the library's expiry leeway are not modelled: decoding is a yes/no oracle.
- `opt_object_id_as_string` is not part of this model. It is taken to write the category id as its hex text, like `object_id_as_string`.
- The backend `UserResponse`, `CreateUserDTO` and `UpdateUserDTO` are not part of this model. For `UserResponse` and `CreateUserDTO` the `rest_api` shapes (rest_api/src/models/user.rs) are used. `rest_api` has no `UpdateUserDTO`: its shape, four optional strings (username, email, phone_number, password), is inferred from how backend/src/rest/users/handler.rs:69-88 and backend/src/services/user_service.rs:101-111 use it. The validator rules on those DTOs are not modelled; they enter only as the validation errors they report.
- Duplicate cookies and duplicate headers are not modelled: cookies are a map from name to value and headers a map from name to one value, so which of several `x-csrf-token` headers `HeaderMap::get` returns (the first) is not captured. The async service machinery of the middleware (`poll_ready`, `new_transform`, `Rc`) is left out.
- rand's random stream is a finite sequence of 32-bit words. Only the rejection-sampling step of `Alphanumeric` is modelled, from rand's published algorithm. The generator itself is not.
- Floating point is not modelled. Backend prices, discounts and paid amounts are `real`s and are only compared with thresholds.
- Field order in the validation-error join comes from a HashMap. The fields are a given sequence, and only the separators and the default reason are proved.
- The `rest_api` `ServiceError` conversion matches eight variants; the model uses backend/src/errors/service_error.rs's eight.
- Logging (`println!`, `warn!`, `error!`) is left out, except the backend error log line.
- Routing, `main`, JSON response building, the pass-through handlers and the demo handler under backend/src/api are left out, and so are the sale service and handler.
- The `Sale` record and the documented status values ("paid", "partial", "unpaid") are left out. No modelled code computes them. The values appear only as the constant `SaleModels.SaleStatuses`.
- ProductModels.ToResponse, BackendProductModels.ToResponse: the RFC 3339 rendering of the timestamps is a parameter. Only the presence of the timestamps is stated, not their text.

## Findings

| source | as written | input that shows it | evidently intended | confidence | as-written member | corrected member |
|---|---|---|---|---|---|---|
| rest_api/src/services/product_service.rs:132-133 | `updated_at` is `$set` as an RFC 3339 string, but `Product` reads `updated_at` as a BSON datetime, so the re-read after a matched update cannot deserialise: the call returns DatabaseError after the write succeeded, and from then on listing that owner's products fails | any update of an owned product that supplies at least one field, e.g. `{"name": "x"}` | store `updated_at` as a BSON datetime, the rest of the `$set` unchanged, so that the updated product reads back | not executed; relies on bson's `DateTime` deserialiser rejecting strings | ProductService.UpdatedDocumentUnreadable | ProductService.IntendedUpdateReadsBack |
| backend/src/models/user.rs:17-18 | `password_hash` is `skip_serializing`, and the same `User` is inserted by `create_user_service` (backend/src/services/user_service.rs:76), so the stored document has no hash. The field has no default, so `get_user_service` and `get_users_service` fail on it | `create_user_service` with username "budi" and no password, then `get_users_service` | skip the hash only in responses, so that the inserted document keeps it and reads back | not executed | UserService.StoredUserUnreadable | UserService.IntendedStoredUserReadsBack |
| backend/src/rest/users/handler.rs:48-51 | the Location is built from the user `create_user_service` returns, whose id is None (backend/src/services/user_service.rs:68-78); the backend `UserResponse` conversion is not part of this model and is taken to be the `rest_api` one (rest_api/src/models/user.rs:54), so `unwrap_or_default` renders a freshly generated ObjectId instead of the inserted one | any successful `POST /users` | `/users/{inserted id}` | not executed | UserHandler.LocationIgnoresInsertedId | UserHandler.IntendedLocation |
