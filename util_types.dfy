/**
 * The account record of pkg/util/types.go, its constructor and its password
 * check, together with the request and response records of the login and
 * account-creation endpoints.
 */
module UtilTypes {
  import opened Wrappers
  import opened Clock
  import opened Crypto

  /** util.Account. `number` and `balance` are int64 in Go; `encryptedPassword` is the bcrypt hash. */
  datatype Account = Account(
    id: int,
    firstName: string,
    lastName: string,
    email: string,
    username: string,
    number: int,
    encryptedPassword: string,
    balance: int,
    createdAt: Time)

  /** util.LoginRequest, as decoded from the request body. */
  datatype LoginRequest = LoginRequest(email: string, username: string, password: string)

  /** util.LoginResponse. */
  datatype LoginResponse = LoginResponse(username: string, token: string)

  /** util.CreateAccountRequest, as decoded from the request body. */
  datatype CreateAccountRequest = CreateAccountRequest(
    firstName: string,
    lastName: string,
    username: string,
    email: string,
    password: string)

  /** Account numbers are drawn with rand.IntN(AccountNumberBound). */
  const AccountNumberBound: nat := 100000

  /**
   * util.NewAccount. The random draw of rand.IntN(100000), the salt bcrypt
   * draws and the reading of time.Now() are parameters. When hashing fails
   * the error is returned and no account is built.
   */
  function NewAccount(
    firstName: string, lastName: string, username: string, email: string, password: string,
    bcrypt: Bcrypt, salt: nat, draw: nat, now: Time): (r: Result<Account, string>)
    requires draw < AccountNumberBound
    ensures r.Err? <==> bcrypt.generate(password, salt).Err?
    ensures r.Err? ==> r.error == bcrypt.generate(password, salt).error
    ensures r.Ok? ==>
      && r.value.id == 0
      && r.value.firstName == firstName && r.value.lastName == lastName
      && r.value.email == email && r.value.username == username
      && 0 <= r.value.number < AccountNumberBound && r.value.number == draw
      && r.value.encryptedPassword == bcrypt.generate(password, salt).value
      && r.value.balance == 0
      && r.value.createdAt.unixNano == now.unixNano && r.value.createdAt.loc == UTC
  {
    match bcrypt.generate(password, salt)
    case Err(e) => Err(e)
    case Ok(hash) =>
      Ok(Account(
        id := 0,
        firstName := firstName,
        lastName := lastName,
        email := email,
        username := username,
        number := draw,
        encryptedPassword := hash,
        balance := 0,
        createdAt := InUTC(now)))
  }

  /** Account.ValidatePassword: bcrypt accepts `pw` against the stored hash. The account is a value and is not changed. */
  function ValidatePassword(a: Account, pw: string, bcrypt: Bcrypt): (ok: bool)
    ensures BcryptSound(bcrypt) && (exists salt :: bcrypt.generate(pw, salt) == Ok(a.encryptedPassword)) ==> ok
  {
    bcrypt.compare(a.encryptedPassword, pw)
  }

  /**
   * An account built with password `p` accepts `p`; what it stores is a
   * 60-character hash, never the plaintext.
   */
  lemma NewAccountAcceptsItsPassword(
    firstName: string, lastName: string, username: string, email: string, password: string,
    bcrypt: Bcrypt, salt: nat, draw: nat, now: Time)
    requires BcryptSound(bcrypt)
    requires draw < AccountNumberBound
    requires NewAccount(firstName, lastName, username, email, password, bcrypt, salt, draw, now).Ok?
    ensures var a := NewAccount(firstName, lastName, username, email, password, bcrypt, salt, draw, now).value;
      && ValidatePassword(a, password, bcrypt)
      && |a.encryptedPassword| == BcryptHashLength
      && a.encryptedPassword != password
      && '\0' !in a.encryptedPassword
  {
    var h := bcrypt.generate(password, salt);
    assert h.Ok?;
  }

  /**
   * The JSON object encoding/json writes for an Account: each field under the
   * name its `json:"…"` tag gives. The tag of EncryptedPassword lacks its
   * colon, so encoding/json ignores it and the hash goes out under the Go
   * field name. RFC 3339 formatting of the creation time is a parameter.
   */
  function AccountJsonObject(a: Account, rfc3339: Time -> string): (o: JsonObject)
    ensures o.Keys == {"id", "first_name", "last_name", "email", "username", "number",
                       "EncryptedPassword", "balance", "created_at"}
    ensures "encypted_password" !in o && "encrypted_password" !in o
    ensures o["EncryptedPassword"] == JString(a.encryptedPassword)
  {
    map[
      "id" := JNumber(a.id),
      "first_name" := JString(a.firstName),
      "last_name" := JString(a.lastName),
      "email" := JString(a.email),
      "username" := JString(a.username),
      "number" := JNumber(a.number),
      "EncryptedPassword" := JString(a.encryptedPassword),
      "balance" := JNumber(a.balance),
      "created_at" := JString(rfc3339(a.createdAt))]
  }
}
