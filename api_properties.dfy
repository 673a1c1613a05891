/**
 * What the guard and the login promise, stated over the pure decisions of
 * module Api and proved for every request, table, secret and clock reading,
 * assuming only what Crypto's predicates say of the libraries.
 */
module ApiProperties {
  import opened Wrappers
  import opened Strconv
  import opened Clock
  import opened Crypto
  import opened UtilTypes
  import opened Storage
  import opened Tokens
  import opened Http
  import opened Api

  // ---------------------------------------------------------------- the guard

  /** Any validation error is a denial, whatever the table holds. */
  lemma RejectedTokenDenied(r: Request, secret: string, now: Time, jws: Jws, rows: seq<Row>)
    requires ValidateJWT(r.jwtHeader, secret, now, jws).Err?
    ensures Authorize(r, secret, now, jws, rows) == Deny(TokenRejected(ValidateJWT(r.jwtHeader, secret, now, jws).error))
  {
  }

  /** A request without the x-jwt-token header is denied as malformed. */
  lemma MissingTokenDenied(r: Request, secret: string, now: Time, jws: Jws, rows: seq<Row>)
    requires JwsSound(jws)
    requires r.jwtHeader == ""
    ensures Authorize(r, secret, now, jws, rows) == Deny(TokenRejected(Malformed))
  {
  }

  /** The `!token.Valid` check never fires: Parse only returns without error a Valid token. */
  lemma ValidCheckRedundant(r: Request, secret: string, now: Time, jws: Jws, rows: seq<Row>)
    ensures Authorize(r, secret, now, jws, rows) != Deny(TokenNotValid)
  {
  }

  /** A token signed with a non-HMAC `alg` is denied, whatever the secret, the id and the table. */
  lemma ForgedAlgDenied(r: Request, secret: string, now: Time, jws: Jws, rows: seq<Row>)
    requires jws.split(r.jwtHeader).Some?
    requires var seg := jws.split(r.jwtHeader).value;
      && HeaderAlg(seg.header).Some?
      && GetSigningMethod(HeaderAlg(seg.header).value).Some?
      && !GetSigningMethod(HeaderAlg(seg.header).value).value.HMAC?
      && seg.signature.Some?
    ensures Authorize(r, secret, now, jws, rows)
         == Deny(TokenRejected(TokenUnverifiable(UnexpectedSigningMethod(HeaderAlg(jws.split(r.jwtHeader).value.header).value))))
  {
    NonHmacRejected(r.jwtHeader, secret, now, jws);
  }

  /**
   * A path id that does not parse is denied before the store is consulted:
   * the decision is the same for every table.
   */
  lemma BadIdDeniedBeforeLookup(r: Request, secret: string, now: Time, jws: Jws, rows1: seq<Row>, rows2: seq<Row>)
    requires ValidateJWT(r.jwtHeader, secret, now, jws).Ok?
    requires Atoi(r.idVar).None?
    ensures Authorize(r, secret, now, jws, rows1) == Deny(IdRejected("invalid id given " + r.idVar))
    ensures Authorize(r, secret, now, jws, rows1) == Authorize(r, secret, now, jws, rows2)
  {
  }

  /** A failed lookup (no such id, an id out of range, a NULL column) is a denial. */
  lemma LookupFailureDenied(r: Request, secret: string, now: Time, jws: Jws, rows: seq<Row>)
    requires ValidateJWT(r.jwtHeader, secret, now, jws).Ok?
    requires Atoi(r.idVar).Some?
    requires AccountById(rows, Atoi(r.idVar).value).Err?
    ensures Authorize(r, secret, now, jws, rows) == Deny(LookupFailed(AccountById(rows, Atoi(r.idVar).value).error))
  {
  }

  /**
   * The guard admits a request exactly when the token validates, the id
   * parses, the account is found and its number equals the token's
   * accountNumber claim; it then admits the account found.
   */
  lemma AllowExactly(r: Request, secret: string, now: Time, jws: Jws, rows: seq<Row>)
    ensures Authorize(r, secret, now, jws, rows).Allow? <==>
      && ValidateJWT(r.jwtHeader, secret, now, jws).Ok?
      && Atoi(r.idVar).Some?
      && AccountById(rows, Atoi(r.idVar).value).Ok?
      && ClaimedNumber(ValidateJWT(r.jwtHeader, secret, now, jws).value.claims)
           == Some(AccountById(rows, Atoi(r.idVar).value).value.number)
    ensures Authorize(r, secret, now, jws, rows).Allow? ==>
      && Authorize(r, secret, now, jws, rows).id == Atoi(r.idVar).value
      && Ok(Authorize(r, secret, now, jws, rows).account) == AccountById(rows, Atoi(r.idVar).value)
  {
  }

  /**
   * A token issued for any account with number n opens /account/{id} for every
   * account whose number is n: the check is keyed on the number, not the id.
   */
  lemma TokenOpensAccountWithSameNumber(httpMethod: string, holder: Account, id: int, rows: seq<Row>, secret: string, now: Time, jws: Jws)
    requires JwsSound(jws)
    requires InInt64(id)
    requires AccountById(rows, id).Ok? && AccountById(rows, id).value.number == holder.number
    ensures Authorize(Request(httpMethod, CreateJWT(holder, secret, jws), Itoa(id)), secret, now, jws, rows)
         == Allow(AccountById(rows, id).value, id)
  {
    IssuedTokenValidates(holder, secret, now, jws);
    GetIDOfItoa(id);
  }

  /** A token issued for an account whose number differs from the target's is denied. */
  lemma TokenDeniedForOtherNumber(httpMethod: string, holder: Account, id: int, rows: seq<Row>, secret: string, now: Time, jws: Jws)
    requires JwsSound(jws)
    requires InInt64(id)
    requires AccountById(rows, id).Ok? && AccountById(rows, id).value.number != holder.number
    ensures Authorize(Request(httpMethod, CreateJWT(holder, secret, jws), Itoa(id)), secret, now, jws, rows)
         == Deny(NumberMismatch(AccountById(rows, id).value.number, holder.number))
  {
    IssuedTokenValidates(holder, secret, now, jws);
    GetIDOfItoa(id);
  }

  /** Two distinct accounts that drew the same number are both opened by one token. */
  lemma SharedNumberOpensBoth(holder: Account, id1: int, id2: int, rows: seq<Row>, secret: string, now: Time, jws: Jws)
    requires JwsSound(jws)
    requires InInt64(id1) && InInt64(id2) && id1 != id2
    requires AccountById(rows, id1).Ok? && AccountById(rows, id2).Ok?
    requires AccountById(rows, id1).value.number == AccountById(rows, id2).value.number == holder.number
    ensures Authorize(Request("GET", CreateJWT(holder, secret, jws), Itoa(id1)), secret, now, jws, rows).Allow?
    ensures Authorize(Request("GET", CreateJWT(holder, secret, jws), Itoa(id2)), secret, now, jws, rows).Allow?
  {
    TokenOpensAccountWithSameNumber("GET", holder, id1, rows, secret, now, jws);
    TokenOpensAccountWithSameNumber("GET", holder, id2, rows, secret, now, jws);
  }

  /** Once admitted, a GET answers 200 with the very account the guard resolved and changes nothing. */
  lemma AdmittedGetServesAccount(r: Request, secret: string, now: Time, jws: Jws, rows: seq<Row>)
    requires Authorize(r, secret, now, jws, rows).Allow?
    requires r.httpMethod != "DELETE"
    ensures GetAccountByIDOutcome(r, rows)
         == (Ok(Response(StatusOK, AccountJson(Authorize(r, secret, now, jws, rows).account))), rows)
  {
  }

  /** Once admitted, a DELETE removes exactly the rows with the admitted id and answers {"deleted": id}. */
  lemma AdmittedDeleteRemovesAccount(r: Request, secret: string, now: Time, jws: Jws, rows: seq<Row>)
    requires Authorize(r, secret, now, jws, rows).Allow?
    requires r.httpMethod == "DELETE"
    ensures var id := Authorize(r, secret, now, jws, rows).id;
      GetAccountByIDOutcome(r, rows) == (Ok(Response(StatusOK, DeletedJson(id))), Without(rows, id))
  {
  }

  /**
   * An admitted GET sends the stored bcrypt hash to the client: the account
   * it writes carries the hash of the row the guard resolved, and the JSON
   * object of that account holds the hash under "EncryptedPassword".
   */
  lemma AdmittedGetSendsHash(r: Request, secret: string, now: Time, jws: Jws, rows: seq<Row>, rfc3339: Time -> string)
    requires Authorize(r, secret, now, jws, rows).Allow?
    requires r.httpMethod != "DELETE"
    ensures var d := Authorize(r, secret, now, jws, rows);
      && GetAccountByIDOutcome(r, rows).0 == Ok(Response(StatusOK, AccountJson(d.account)))
      && AccountJsonObject(d.account, rfc3339)["EncryptedPassword"] == JString(d.account.encryptedPassword)
      && exists i :: 0 <= i < |rows| && rows[i].id == d.id && rows[i].encryptedPassword == Some(d.account.encryptedPassword)
  {
    var d := Authorize(r, secret, now, jws, rows);
    var i :| 0 <= i < |rows| && rows[i].id == d.id && ScanIntoAccount(rows[i]) == Ok(d.account);
    assert rows[i].encryptedPassword == Some(d.account.encryptedPassword);
  }

  // ---------------------------------------------------------------- account creation

  /**
   * Account creation checks no field for presence: a request whose names,
   * username and email are all empty builds an account the insert accepts.
   */
  lemma EmptyFieldsAccepted(password: string, bcrypt: Bcrypt, salt: nat, draw: nat, now: Time)
    requires BcryptSound(bcrypt)
    requires draw < AccountNumberBound
    requires NewAccount("", "", "", "", password, bcrypt, salt, draw, now).Ok?
    ensures var a := NewAccount("", "", "", "", password, bcrypt, salt, draw, now).value;
      && a.firstName == a.lastName == a.username == a.email == ""
      && InsertError(a) == None
  {
    NewAccountInsertable("", "", "", "", password, bcrypt, salt, draw, now);
  }

  // ---------------------------------------------------------------- the login

  /** A failed username lookup is returned unchanged and issues no token. */
  lemma LoginLookupErrorPropagates(req: LoginRequest, rows: seq<Row>, secret: string, bcrypt: Bcrypt, jws: Jws)
    requires AccountByUsername(rows, req.username).Err?
    ensures LoginOutcome(req, rows, secret, bcrypt, jws) == Err(AccountByUsername(rows, req.username).error)
  {
  }

  /** A password bcrypt rejects gives "unable to authenticate" and no token. */
  lemma LoginWrongPassword(req: LoginRequest, rows: seq<Row>, secret: string, bcrypt: Bcrypt, jws: Jws)
    requires AccountByUsername(rows, req.username).Ok?
    requires !bcrypt.compare(AccountByUsername(rows, req.username).value.encryptedPassword, req.password)
    ensures LoginOutcome(req, rows, secret, bcrypt, jws) == Err(UnableToAuthenticate)
    ensures Reply(LoginPostOutcome(req, rows, secret, bcrypt, jws)) == Response(StatusBadRequest, ApiError("unable to authenticate"))
  {
  }

  /**
   * A successful login returns the stored account's username and a token that
   * validates under the same secret, at any clock reading, to that account's number.
   */
  lemma LoginIssuesAccountToken(req: LoginRequest, rows: seq<Row>, secret: string, now: Time, bcrypt: Bcrypt, jws: Jws)
    requires JwsSound(jws)
    requires LoginOutcome(req, rows, secret, bcrypt, jws).Ok?
    ensures AccountByUsername(rows, req.username).Ok?
    ensures var acc := AccountByUsername(rows, req.username).value;
      var login := LoginOutcome(req, rows, secret, bcrypt, jws).value;
      && bcrypt.compare(acc.encryptedPassword, req.password)
      && login.username == acc.username
      && ValidateJWT(login.token, secret, now, jws).Ok?
      && ClaimedNumber(ValidateJWT(login.token, secret, now, jws).value.claims) == Some(acc.number)
  {
    var acc := AccountByUsername(rows, req.username).value;
    IssuedTokenValidates(acc, secret, now, jws);
  }

  /**
   * The username is never read back from the table, so a successful login
   * always answers with an empty username.
   */
  lemma LoginAnswersEmptyUsername(req: LoginRequest, rows: seq<Row>, secret: string, bcrypt: Bcrypt, jws: Jws)
    requires LoginOutcome(req, rows, secret, bcrypt, jws).Ok?
    ensures LoginOutcome(req, rows, secret, bcrypt, jws).value.username == ""
  {
  }

  /**
   * The two login failures are told apart on the wire: an unknown username
   * answers "account with number [<username>] not found", a wrong password
   * "unable to authenticate".
   */
  lemma LoginRevealsUnknownUsername(req1: LoginRequest, req2: LoginRequest, rows: seq<Row>, secret: string, bcrypt: Bcrypt, jws: Jws)
    requires AccountByUsername(rows, req1.username) == Err(NotFoundByUsername(req1.username))
    requires AccountByUsername(rows, req2.username).Ok?
    requires !ValidatePassword(AccountByUsername(rows, req2.username).value, req2.password, bcrypt)
    ensures Reply(LoginPostOutcome(req1, rows, secret, bcrypt, jws)) == ErrorResponse(NotFoundByUsername(req1.username))
    ensures Reply(LoginPostOutcome(req2, rows, secret, bcrypt, jws)) == ErrorResponse(UnableToAuthenticate)
    ensures ErrorResponse(NotFoundByUsername(req1.username)) != ErrorResponse(UnableToAuthenticate)
  {
    var notFound := NotFoundByUsername(req1.username);
    assert notFound[0] == 'a' && UnableToAuthenticate[0] == 'u';
  }

  /**
   * Accounts created through the service can never log in: CreateAccount
   * leaves the username column empty, so every lookup by username fails.
   */
  lemma CreatedAccountsCannotLogIn(req: LoginRequest, rows: seq<Row>, secret: string, bcrypt: Bcrypt, jws: Jws)
    requires forall i :: 0 <= i < |rows| ==> rows[i].username.None?
    ensures LoginOutcome(req, rows, secret, bcrypt, jws) == Err(NotFoundByUsername(req.username))
  {
    NoUsernameNeverFound(rows, req.username);
  }

  /**
   * Inserting and deleting keep the username column empty, so a table built
   * by CreateAccount and DeleteAccount from an empty one never has a username.
   */
  lemma StoreKeepsUsernamesEmpty(rows: seq<Row>, a: Account, id: int, deleted: int)
    requires forall i :: 0 <= i < |rows| ==> rows[i].username.None?
    ensures var inserted := rows + [InsertedRow(a, id)];
      forall i :: 0 <= i < |inserted| ==> inserted[i].username.None?
    ensures var remaining := Without(rows, deleted);
      forall i :: 0 <= i < |remaining| ==> remaining[i].username.None?
  {
    var remaining := Without(rows, deleted);
    forall i | 0 <= i < |remaining| ensures remaining[i].username.None? {
      assert remaining[i] in rows;
    }
  }

  /**
   * End to end, for a table whose username column is filled in: the account
   * holder logs in with the password it was created with and the token opens
   * the holder's own /account/{id}.
   */
  lemma LoginTokenOpensOwnAccount(req: LoginRequest, id: int, rows: seq<Row>, secret: string, now: Time, bcrypt: Bcrypt, jws: Jws)
    requires JwsSound(jws) && BcryptSound(bcrypt)
    requires InInt64(id)
    requires AccountByUsername(rows, req.username).Ok?
    requires bcrypt.compare(AccountByUsername(rows, req.username).value.encryptedPassword, req.password)
    requires AccountById(rows, id) == AccountByUsername(rows, req.username)
    ensures LoginOutcome(req, rows, secret, bcrypt, jws).Ok?
    ensures var token := LoginOutcome(req, rows, secret, bcrypt, jws).value.token;
      Authorize(Request("GET", token, Itoa(id)), secret, now, jws, rows) == Allow(AccountById(rows, id).value, id)
  {
    var acc := AccountByUsername(rows, req.username).value;
    TokenOpensAccountWithSameNumber("GET", acc, id, rows, secret, now, jws);
  }
}
