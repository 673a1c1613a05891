# MiniBank authentication and account authorization, in Dafny

This project models the authentication and per-account authorization core of
MiniBank, a small Go banking service:

- **Accounts** (`pkg/util/types.go`, and the older `types.go`): the account
  record, `NewAccount` and `Account.ValidatePassword`.
- **The store** (`internal/storage.go`): the `Storage` interface and the
  PostgreSQL implementation's result logic, over an in-memory table of rows.
- **Tokens** (`createJWT`, `validateJWT` in `pkg/api/api.go`): JSON Web
  Tokens (RFC 7519) signed with HS256 (HMAC-SHA256, section 3.2 of RFC 7518).
  Parsing goes through golang-jwt v5, with a key function that refuses every
  `alg` (section 4.1.1 of RFC 7515) that is not HMAC.
- **The access guard** (`withJWTAuth`): validate the `x-jwt-token` header,
  parse the `{id}` path variable, look the account up, and compare its
  `Number` with the token's `accountNumber` claim. Every failure writes the
  same `400 {"error":"permission denied"}`.
- **Login** (`loginPost`): look up by username, check the password with
  bcrypt, and issue a token.
- **The handlers** behind the guard (`handleGetAccountByID`,
  `handleDeleteAccount`), the account list and creation handlers, and
  `makeHTTPHandleFunc`, which turns a handler's error into status 400.

The two cryptographic libraries are collaborators (module `Crypto`):

- bcrypt is a record of two total functions, `generate` and `compare`.
- The JWS layer is a record of four total functions: `signingString`,
  `compact`, `split` and `mac`.

Two predicates state what the rest of the model may assume of them:

- `BcryptSound`: a generated hash verifies against its password, is 60
  characters long and is not the password itself.
- `JwsSound`: splitting a token the library serialised gives back exactly
  what was signed, and the empty string is not a token.

Every lemma that relies on one of these says so in its `requires`.

Decisions are stated as pure functions:

- `Tokens.ValidateJWT`
- `Api.Authorize`
- `Api.LoginOutcome`
- the handler outcomes

The state-changing code is a class with methods proved against those
functions:

- `Storage.PostgresStore` is the row table. Its read methods loop over the
  rows.
- `Api.APIServer` holds the handlers and the guard.
- `Http.ResponseRecorder` records every response written.

Modules and files:

| file | module | models |
|---|---|---|
| wrappers.dfy | Wrappers | Go's `(value, error)` returns and nil |
| strconv.dfy | Strconv | `strconv.Atoi` / `Itoa`, as `getID` and the error messages use them |
| clock.dfy | Clock | `time.Time` and `.UTC()` |
| crypto.dfy | Crypto | bcrypt and the JWS layer as collaborators, and the signing-method registry |
| util_types.dfy | UtilTypes | `pkg/util/types.go` |
| legacy_types.dfy | LegacyTypes | `types.go` |
| storage.dfy | Storage | `internal/storage.go` |
| tokens.dfy | Tokens | `createJWT`, `validateJWT` |
| http.dfy | Http | requests, JSON responses, the response writer |
| api.dfy | Api | `getID`, `withJWTAuth`, `loginPost`, the handlers, `makeHTTPHandleFunc` |
| api_properties.dfy | ApiProperties | properties of the guard and the login |

The service's intended behaviour and its code part ways in the places below.
The model follows the code in each of them.

- A login is meant not to reveal whether a username exists. The code answers
  `account with number [<username>] not found` when the username lookup finds
  no row, and `unable to authenticate` for a wrong password.
  `ApiProperties.LoginRevealsUnknownUsername` proves that the two answers
  differ. With the table definition the repository ships, which has no
  `username` column, the lookup query itself fails, and the client gets the
  database's error text instead (see "## Left out").
- An empty signing secret is meant to be refused. The code reads
  `JWT_SECRET` and signs and validates with whatever it holds, `""`
  included. `Tokens.IssuedTokenValidates` holds for every secret.
- Tokens are meant to expire. The code writes `"expiresAt": 15000`, which is
  a constant and not the registered `exp` claim. So the expiry is never
  checked. `Tokens.IssuedTokenIgnoresClock` proves that validity does not
  depend on the clock. `Tokens.PastExpRejected` shows that the library
  would enforce a real, non-zero `exp`; `Tokens.ZeroTimeClaimsIgnored` shows
  that it reads an `exp` or `nbf` of 0 as no deadline at all.
- The authorization key is meant to be an account's numeric identifier. The
  code compares `Number`, a random draw below 100000 that need not be
  unique. `ApiProperties.SharedNumberOpensBoth` proves that one token opens
  every account sharing that number.
- `CreateAccount` never writes a username, and `scanIntoAccount` never reads
  one. So login can never succeed for an account the service created
  (`ApiProperties.CreatedAccountsCannotLogIn`). When login does succeed, it
  answers with an empty username (`ApiProperties.LoginAnswersEmptyUsername`).
- The password hash is meant never to leave the server. The struct tag of
  `EncryptedPassword` in pkg/util/types.go:40 lacks its colon, so
  encoding/json ignores it, and every account the service writes carries the
  bcrypt hash under the key `EncryptedPassword`. `UtilTypes.AccountJsonObject`
  states the object encoding/json writes, and
  `ApiProperties.AdmittedGetSendsHash` proves that an admitted GET sends the
  stored hash.
- Account creation is meant to require its fields. `handleCreateAccount`
  checks none of them for presence. `ApiProperties.EmptyFieldsAccepted`
  proves that a request with empty names, username and email is stored.

The login-success lemmas (`ApiProperties.LoginIssuesAccountToken`,
`ApiProperties.LoginTokenOpensOwnAccount`) assume a table whose username
column is filled in. They hold for a store that honours the `Storage`
interface (internal/storage.go:11-18) and returns usernames. They do not
describe PostgresStore under any schema. With the shipped table, the
username query fails. If a `username` column were added, `select *` would
return nine columns against the eight destinations of `scanIntoAccount`, and
every scan would fail.

## Model

| member | source | states |
|---|---|---|
| `Strconv.Atoi` | pkg/api/api.go:221 | a path id parses only as an optional sign and one or more decimal digits whose signed value fits in 64 bits; unsigned and `+` digit strings give their value and `-` strings its negation when it fits, and fail when it does not; the empty string fails |
| `Strconv.AtoiItoa` | pkg/api/api.go:221 | reading back the decimal text of any 64-bit integer gives that integer |
| `Api.GetID` | pkg/api/api.go:219-226 | a numeric id gives `(Atoi(s), nil)`; anything else gives `-1` and the error "invalid id given s" |
| `Api.GetIDOfItoa` | pkg/api/api.go:219-226 | every 64-bit id written in decimal is accepted as that id |
| `Api.Reply` | pkg/api/api.go:211-217 | a handler's error reaches the client as status 400 with the error's text; a handler that returned nil has its own response on the wire |
| `Api.APIServer.ReportError` | pkg/api/api.go:211-217 | after the handler returns, an error adds exactly one 400 response and nil adds none |
| `Api.APIServer.DenyPermission` | pkg/api/api.go:228-230 | writes status 400 with `{"error":"permission denied"}` |
| `Api.APIServer.WithJWTAuth` | pkg/api/api.go:232-265 | the wrapped handler runs exactly once when `Authorize` allows and never otherwise; every denial writes the same permission-denied response and leaves the table untouched; a missing or non-numeric `accountNumber` claim panics and writes nothing; the id sequence never moves |
| `Api.APIServer.ServeAccountByID` | pkg/api/api.go:38 | `/account/{id}` through `makeHTTPHandleFunc` writes exactly one response: the handler's own, or its error as 400; the id sequence does not move |
| `Api.APIServer.HandleGetAccountByID` | pkg/api/api.go:136-150 | DELETE goes to the delete handler; otherwise a bad id or a failed lookup is returned as the error, and a found account is written with 200; the table and the id sequence are unchanged |
| `Api.APIServer.HandleDeleteAccount` | pkg/api/api.go:178-187 | a bad id or a failed delete is returned as the error; otherwise the rows with that id are removed and `{"deleted": id}` is written with 200; the id sequence does not move |
| `Api.APIServer.HandleGetAccount` | pkg/api/api.go:128-134 | writes every account in scan order with 200, or returns the first scan error and writes nothing |
| `Api.APIServer.HandleCreateAccount` | pkg/api/api.go:152-176 | a hashing error or an insert error is returned and neither the table nor the id sequence changes; otherwise one row is appended under the next id, the sequence advances by one, and the decoded request itself, password included, is echoed with 201 |
| `Api.Authorize` | pkg/api/api.go:232-265 | a token error is a denial carrying it; `TokenNotValid` never occurs; an allowed request has a parsed id, the account that id looks up, and a claimed number equal to that account's; a panic means a valid token and a found account but no numeric `accountNumber` claim |
| `Api.DeleteAccountOutcome` | pkg/api/api.go:178-187 | succeeds exactly when the id parses and is an `integer`, answering `{"deleted": id}` with 200 and leaving exactly the rows with other ids; an error leaves the table as it was |
| `Api.GetAccountByIDOutcome` | pkg/api/api.go:136-150 | DELETE is the delete outcome; otherwise the table is unchanged, a bad id is returned as the error, and success answers 200 with the account the id looks up |
| `Api.GetAccountsOutcome` | pkg/api/api.go:128-134 | succeeds exactly when every row scans, answering 200 with one account per row in order |
| `Api.LoginOutcome` | pkg/api/api.go:93-112 | a lookup error is returned as it is; a found account with a rejected password gives "unable to authenticate"; success means the password was accepted and answers that account's username and createJWT's token for it |
| `Api.LoginPostOutcome` | pkg/api/api.go:93-112 | succeeds exactly when the login does, answering its response with 200; otherwise returns the login's error |
| `UtilTypes.ValidatePassword` | pkg/util/types.go:45-47 | under a sound bcrypt, a password whose hash the account stores is accepted |
| `UtilTypes.AccountJsonObject` | pkg/util/types.go:33-43 | the encoded account has exactly the tagged keys plus `EncryptedPassword`, which holds the hash, because the malformed tag is ignored; no `encypted_password` key appears |
| `Http.ResponseRecorder.WriteJson` | pkg/api/api.go:199-203 | appends exactly one response with the given status and body |
| `ApiProperties.AdmittedGetSendsHash` | pkg/api/api.go:136-150 | an admitted GET answers with the account whose JSON carries, under `EncryptedPassword`, the bcrypt hash stored in the row with the admitted id |
| `ApiProperties.EmptyFieldsAccepted` | pkg/api/api.go:152-170 | a create request with empty names, username and email builds an account the insert accepts: no field is checked for presence |
| `Api.APIServer.LoginPost` | pkg/api/api.go:82-113 | carries out `LoginOutcome`: on success it writes the `LoginResponse` with 200; on failure it returns the error and writes nothing |
| `Api.APIServer.ServeLogin` | pkg/api/api.go:36 | POST /login writes exactly one response: the login response, or its error as 400 |
| `ApiProperties.RejectedTokenDenied` | pkg/api/api.go:236-242 | any validation error is a denial, whatever the table holds |
| `ApiProperties.MissingTokenDenied` | pkg/api/api.go:235-242 | an absent header (read as "") is denied as a malformed token |
| `ApiProperties.ValidCheckRedundant` | pkg/api/api.go:243-246 | the `!token.Valid` branch never fires: a token Parse returns without error is always Valid |
| `ApiProperties.ForgedAlgDenied` | pkg/api/api.go:270-274 | a token whose `alg` is registered but not HMAC is denied for the unexpected signing method, whatever the secret, path id or table |
| `ApiProperties.BadIdDeniedBeforeLookup` | pkg/api/api.go:247-251 | a path id that does not parse is denied with the same decision for every table, so the store plays no part |
| `ApiProperties.LookupFailureDenied` | pkg/api/api.go:252-256 | a failed `GetAccountByID` (not found, id out of range, NULL column) is a denial |
| `ApiProperties.AllowExactly` | pkg/api/api.go:232-265 | the guard allows exactly when the token validates, the id parses, the account is found and its `Number` equals the `accountNumber` claim; it then admits that account under that id |
| `ApiProperties.TokenOpensAccountWithSameNumber` | pkg/api/api.go:257-263 | a token issued for any account with number n opens `/account/{id}` for every account whose number is n |
| `ApiProperties.TokenDeniedForOtherNumber` | pkg/api/api.go:257-261 | a token issued for an account with a different number is denied as a mismatch |
| `ApiProperties.SharedNumberOpensBoth` | pkg/api/api.go:257-263 | two distinct accounts with the same number are both opened by one token |
| `ApiProperties.AdmittedGetServesAccount` | pkg/api/api.go:136-150 | once admitted, a GET answers 200 with the very account the guard resolved and changes nothing |
| `ApiProperties.AdmittedDeleteRemovesAccount` | pkg/api/api.go:137-139 | once admitted, a DELETE removes exactly the rows with that id and answers `{"deleted": id}` |
| `ApiProperties.LoginLookupErrorPropagates` | pkg/api/api.go:93-96 | a failed username lookup is returned unchanged and no token is issued |
| `ApiProperties.LoginWrongPassword` | pkg/api/api.go:98-100 | a password bcrypt rejects gives 400 "unable to authenticate" and no token |
| `ApiProperties.LoginIssuesAccountToken` | pkg/api/api.go:102-112 | a successful login has checked the password, returns the stored account's username, and returns a token that validates under the same secret, at any time, to that account's number |
| `ApiProperties.LoginAnswersEmptyUsername` | pkg/api/api.go:107-110 | a successful login always answers with an empty username, because the username is never read back from the table |
| `ApiProperties.LoginRevealsUnknownUsername` | pkg/api/api.go:93-100 | an unknown username and a wrong password produce different 400 bodies |
| `ApiProperties.CreatedAccountsCannotLogIn` | pkg/api/api.go:93-96 | on a table whose username column is empty, every login fails with the not-found error |
| `ApiProperties.StoreKeepsUsernamesEmpty` | internal/storage.go:57-80 | inserts and deletes never fill the username column |
| `ApiProperties.LoginTokenOpensOwnAccount` | pkg/api/api.go:82-113 | on a table whose username column is filled in, the right password yields a token that opens the holder's own `/account/{id}` |
| `Tokens.KeyFunc` | pkg/api/api.go:270-278 | a key is supplied exactly for HMAC methods, and it is the secret; every other method gets "Unexpected signing method" |
| `Tokens.ValidateJWT` | pkg/api/api.go:267-279 | an accepted token is Valid and HMAC-signed; it decodes to the returned header and claims; its `alg` names its method; its signature is the HMAC of its signing input under the secret; and its registered claims hold at the clock reading |
| `Tokens.IssuedClaims` | pkg/api/api.go:282-285 | the issued claims are exactly `expiresAt = 15000` and `accountNumber = acc.Number` |
| `Tokens.IssuedTokenValidates` | pkg/api/api.go:281-289 | a token from `createJWT` validates under the same secret as a Valid HS256 token whose claims are exactly the issued ones, with `accountNumber = acc.Number` |
| `Tokens.IssuedTokenIgnoresClock` | pkg/api/api.go:283 | the validation result of an issued token is the same at every clock reading |
| `Tokens.OtherSecretRejected` | pkg/api/api.go:267-289 | a token issued under one secret fails the signature check under a secret whose HMAC differs |
| `Tokens.NonHmacRejected` | pkg/api/api.go:270-274 | a registered non-HMAC `alg` is refused by the key function before any key is used, whatever the signature, claims, secret or clock |
| `Tokens.HmacVariantAccepted` | pkg/api/api.go:272 | HS256, HS384 and HS512 tokens signed with the secret are all accepted |
| `Tokens.PastExpRejected` | pkg/api/api.go:267-279 | the library does enforce a non-zero registered `exp`: a correctly signed token whose `exp` has passed is rejected as expired |
| `Tokens.ZeroTimeClaimsIgnored` | pkg/api/api.go:270-278 | an `exp` or `nbf` of 0 counts as absent: a correctly signed HMAC token carrying them is accepted at every clock reading |
| `Tokens.CheckRegisteredClaims` | pkg/api/api.go:270-278 | the default validator passes exactly when a present, non-zero `exp` is a number after the clock and a present, non-zero `nbf` is a number at or before it; an expired or not-yet-valid verdict names a claim that really is set and past or future |
| `Tokens.CreateJWT` | pkg/api/api.go:281-289 | the token string decodes to the HS256 header and the issued claims, with the HMAC-SHA256 of its signing input under the secret as its signature |
| `Crypto.GetSigningMethod` | pkg/api/api.go:270 | a registered `alg` gives back a method whose name is that `alg` |
| `UtilTypes.NewAccount` | pkg/util/types.go:49-64 | if hashing fails, returns its error and builds no account; otherwise the names, email and username are copied verbatim, `ID` is 0, `Number` is the draw in [0, 100000), `Balance` is 0, the stored password is the bcrypt hash, and `CreatedAt` is the clock reading in UTC |
| `UtilTypes.NewAccountAcceptsItsPassword` | pkg/util/types.go:45-50 | an account built with password p passes `ValidatePassword(p)`; it stores a 60-character hash, never the plaintext |
| `LegacyTypes.NewAccount` | types.go:22-30 | always builds an account; the names are copied, `ID` is 0, `Number` is the draw in [0, 100000), `Balance` is 0, and `CreatedAt` is the clock reading in UTC |
| `Storage.ScanIntoAccount` | internal/storage.go:125-140 | a row scans exactly when none of its text or timestamp columns is NULL; every column is copied, and `Username` is left empty |
| `Storage.ScanInsertedRow` | internal/storage.go:57-71 | an inserted row reads back as the account with the serial id, an empty username and each text cut to its column; text that already fits comes back unchanged |
| `Storage.NewAccountInsertable` | internal/storage.go:57-76 | an account from `NewAccount` whose names and email fit in 50 characters, trailing spaces aside, and hold no U+0000 is always accepted by the insert |
| `Storage.Fit` | internal/storage.go:44-48 | a `varchar(n)` column keeps a prefix of the value; a value within n is kept whole; a value it accepts is cut to at most n characters with only spaces dropped |
| `Storage.TrailingSpacesCut` | internal/storage.go:44-48 | a value whose excess over the width is all spaces is accepted, and the value is what is stored plus those spaces |
| `Storage.InsertError` | internal/storage.go:57-76 | the insert succeeds exactly when number and balance are `integer`s, no text holds U+0000 and no text has a non-space character past its column's width; the parameters are checked in order when bound (U+0000 in a name or email, then number, then U+0000 in the hash, then balance), then the 50- and 100-character limits |
| `Storage.InsertedRow` | internal/storage.go:57-71 | the inserted row has the serial id, no username, the number, balance and creation time, and for an accepted account each text is a prefix of the value within its column's width |
| `Storage.AccountById` | internal/storage.go:97-106 | an id outside `integer` is an error; a found account is the scan of a row with that id; an id no row has gives "account id <id> not found"; with unique ids, the lookup of an existing id is that row's scan |
| `Storage.AccountByUsername` | internal/storage.go:86-95 | a found account is the scan of a row with that username; a username no row has gives "account with number [<username>] not found" |
| `Storage.ScanAll` | internal/storage.go:108-123 | all or nothing: either every row scanned, in scan order, or the first scan error and no list |
| `Storage.Without` | internal/storage.go:77-80 | after a delete, the table holds exactly the rows whose id differs |
| `Storage.WithoutUnique` | internal/storage.go:77-80 | deleting keeps ids unique |
| `Storage.DeletedIdNotFound` | internal/storage.go:77-80 | after a delete, looking up the deleted id reports "account id <id> not found" |
| `Storage.NoUsernameNeverFound` | internal/storage.go:86-95 | rows without a stored username are never found by username |
| `Storage.PostgresStore.CreateAccount` | internal/storage.go:57-76 | appends one row under the next serial id, with the argument's `ID` and `Username` ignored and text cut to its column when the excess is spaces; on an insert error (U+0000 in a text, a non-space past a column's width, number or balance outside `integer`) changes nothing and returns the error; ids stay unique |
| `Storage.PostgresStore.DeleteAccount` | internal/storage.go:77-80 | removes the rows with the id; an absent id is no error; an id outside `integer` is an error and nothing changes |
| `Storage.PostgresStore.UpdateAccount` | internal/storage.go:82-84 | always returns nil and changes nothing |
| `Storage.PostgresStore.GetAccountByID` | internal/storage.go:97-106 | returns the first row with the id, scanned; or "account id <id> not found"; or the range error for an id outside `integer` |
| `Storage.PostgresStore.GetAccountByUsername` | internal/storage.go:86-95 | returns the first row with the username, scanned; or "account with number [<username>] not found" |
| `Storage.PostgresStore.GetAccounts` | internal/storage.go:108-123 | equals `ScanAll` of the table |

## Left out

- HTTP shell: `Run` and the router, the method dispatch in `handleLogin` and
  `handleAccount`, `loginGet`, and the JSON encoding in `writeJson`, apart
  from the key names of an encoded account (`UtilTypes.AccountJsonObject`).
  A response is a (status, body) pair and a request is its method,
  `x-jwt-token` header and `{id}` variable.
- Request bodies: the model takes the decoded `LoginRequest` and
  `CreateAccountRequest` as inputs. In the source, `handleLogin` calls
  `io.ReadAll` on the body before `loginPost` decodes it, so the decoder meets
  an empty body. This I/O behaviour and the errors of `r.ParseForm` and the
  JSON decoder are not modelled.
- Cryptography: the internals of bcrypt, HMAC-SHA256, base64url and the
  JSON encoding of JWS segments are not modelled. What the model assumes of
  them is stated in `BcryptSound` and `JwsSound`. The different-password
  property of bcrypt holds only with overwhelming probability, so it is not
  assumed, and `LoginWrongPassword` takes the rejection as its hypothesis.
- Tokens.CreateJWT: its error result is not modelled. HS256 signing with a
  byte-slice key cannot fail in the library, so the token is returned
  directly and `loginPost`'s branch for a signing error does not appear.
- Tokens.CheckRegisteredClaims: the library joins every failing check into
  one error; the model keeps the first. `iat`, `aud`, `iss` and `sub` are not
  checked by the default validator and are not modelled.
- Claim numbers: JSON numbers are `float64` in Go; the model keeps only
  integral numbers, so the truncating `int64(...)` cast of
  `accountNumber` and precision loss above 2^53 are not modelled.
- `JWT_SECRET`, `time.Now`, `rand.IntN` and bcrypt's salt are parameters. The
  draw is constrained to [0, 100000).
- SQL: the connection, `Ping`, the query text and the table definition are
  not modelled. The store is a table of rows in scan order. The column
  limits are kept because they decide when an insert fails: `varchar(50)`,
  `varchar(100)`, and `integer` for id, number and balance. The driver's error
  texts are shortened.
- Username column: the table definition in internal/storage.go creates no
  `username` column, so in PostgreSQL `GetAccountByUsername`'s query fails
  outright. The model gives the table a nullable username column that
  nothing writes. The query then finds nothing and fails with the not-found
  error instead. Both are failures, and the login fails either way. A table
  whose username column is filled in, as the login-success lemmas assume,
  stands for a store that honours the `Storage` interface, not for
  PostgresStore: with a real `username` column, `select *` would return nine
  columns against `scanIntoAccount`'s eight destinations and every scan would
  fail. That column-count failure is not modelled.
- Serial ids: the model advances the id counter only on a successful insert.
  The sequence values a failed insert may consume, and overflow of the
  sequence, are not modelled.
- `created_at` round trip: PostgreSQL keeps microseconds and no zone. A
  time read back is the stored instant; truncation and the zone the driver
  attaches are not modelled.
- Storage.PostgresStore.GetAccountByID and the other queries: failures of
  the connection or of `rows.Next` are not modelled; only the errors the
  table's contents cause are.
- Connection leak: `GetAccountByID` and `GetAccountByUsername` return from
  inside `for rows.Next()` without closing the result set
  (internal/storage.go:91-93, 102-104), and `DeleteAccount` never closes the
  rows its `Db.Query` returns (internal/storage.go:78). Each found lookup and
  each delete therefore holds a pooled connection. The model has no
  connection pool and ignores this.
- storage.go and api.go in the root package: a second copy of the SQL
  backend and stub handlers for the legacy package. They are not part of
  this model.
- `handleTransfer`: it only echoes the decoded request.
- pkg/template/login.go (an HTML template), scripts/seeds (seeding
  programs) and main.go (wiring): not part of this model.
- Logging (`log.Println` of the raw body, `fmt.Println`) and concurrency
  between requests: not modelled. Each request is one sequential run over
  the table.
