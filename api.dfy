/**
 * The request handling of pkg/api/api.go: the path id parser, the JWT access
 * guard that wraps GET and DELETE /account/{id}, the login decision, the
 * account handlers and makeHTTPHandleFunc's error reporting. The guard and
 * the login are first stated as pure decisions; the server's methods are
 * proved to do what those decisions say.
 */
module Api {
  import opened Wrappers
  import opened Strconv
  import opened Clock
  import opened Crypto
  import opened UtilTypes
  import opened Storage
  import opened Tokens
  import opened Http

  // ---------------------------------------------------------------- responses

  /** makeHTTPHandleFunc: a handler's error becomes status 400 with the error's text. */
  function ErrorResponse(message: string): Response
  {
    Response(StatusBadRequest, ApiError(message))
  }

  /** What makeHTTPHandleFunc leaves on the wire for a handler's outcome. */
  function Reply(outcome: Result<Response, string>): (resp: Response)
    ensures outcome.Err? ==> resp.status == StatusBadRequest && resp.body == ApiError(outcome.error)
    ensures outcome.Ok? ==> resp == outcome.value
  {
    match outcome
    case Ok(written) => written
    case Err(message) => ErrorResponse(message)
  }

  /** permissionDenied: the one response every denial of the guard writes. */
  const PermissionDenied: Response := Response(StatusBadRequest, ApiError("permission denied"))

  // ---------------------------------------------------------------- path id

  /** getID: the {id} path variable through strconv.Atoi; on failure -1 and "invalid id given <text>". */
  function GetID(idVar: string): (r: (int, Option<string>))
    ensures r.1.None? <==> Atoi(idVar).Some?
    ensures r.1.None? ==> r.0 == Atoi(idVar).value
    ensures r.1.Some? ==> r.0 == -1 && r.1.value == "invalid id given " + idVar
  {
    match Atoi(idVar)
    case None => (-1, Some("invalid id given " + idVar))
    case Some(id) => (id, None)
  }

  /** Every 64-bit id, written in decimal, is parsed back to itself. */
  lemma GetIDOfItoa(id: int)
    requires InInt64(id)
    ensures GetID(Itoa(id)) == (id, None)
  {
    AtoiItoa(id);
  }

  // ---------------------------------------------------------------- the guard

  /** Why the guard denied a request. None of this reaches the client. */
  datatype Denial =
    | TokenRejected(jwtError: JwtError)
    | TokenNotValid
    | IdRejected(idError: string)
    | LookupFailed(lookupError: string)
    | NumberMismatch(accountNumber: int, claimedNumber: int)

  /**
   * The guard's decision. ClaimPanic is the panic of the type assertion
   * `claims["accountNumber"].(float64)` when that claim is absent or not a number.
   */
  datatype Decision =
    | Allow(account: Account, id: int)
    | Deny(reason: Denial)
    | ClaimPanic

  /** The accountNumber claim, when it holds a number. */
  function ClaimedNumber(claims: JsonObject): Option<int>
  {
    if "accountNumber" in claims && claims["accountNumber"].JNumber? then Some(claims["accountNumber"].n) else None
  }

  /**
   * withJWTAuth's decision chain, over the account table `rows`: validate the
   * token, require Valid, parse the id, look the account up, compare its
   * number with the token's accountNumber claim.
   */
  function Authorize(r: Request, secret: string, now: Time, jws: Jws, rows: seq<Row>): (d: Decision)
    ensures ValidateJWT(r.jwtHeader, secret, now, jws).Err? ==> d == Deny(TokenRejected(ValidateJWT(r.jwtHeader, secret, now, jws).error))
    ensures d != Deny(TokenNotValid)
    ensures d.Allow? ==>
      && GetID(r.idVar) == (d.id, None)
      && AccountById(rows, d.id) == Ok(d.account)
      && ClaimedNumber(ValidateJWT(r.jwtHeader, secret, now, jws).value.claims) == Some(d.account.number)
    ensures d.ClaimPanic? ==>
      ValidateJWT(r.jwtHeader, secret, now, jws).Ok? && AccountById(rows, GetID(r.idVar).0).Ok?
      && ClaimedNumber(ValidateJWT(r.jwtHeader, secret, now, jws).value.claims).None?
  {
    match ValidateJWT(r.jwtHeader, secret, now, jws)
    case Err(e) => Deny(TokenRejected(e))
    case Ok(token) =>
      if !token.valid then Deny(TokenNotValid)
      else
        var (id, idError) := GetID(r.idVar);
        if idError.Some? then Deny(IdRejected(idError.value))
        else
          match AccountById(rows, id)
          case Err(e) => Deny(LookupFailed(e))
          case Ok(acc) =>
            match ClaimedNumber(token.claims)
            case None => ClaimPanic
            case Some(claimed) =>
              if acc.number != claimed then Deny(NumberMismatch(acc.number, claimed))
              else Allow(acc, id)
  }

  // ---------------------------------------------------------------- handlers as decisions

  /** handleDeleteAccount's outcome and the table after it. */
  function DeleteAccountOutcome(r: Request, rows: seq<Row>): (o: (Result<Response, string>, seq<Row>))
    ensures o.0.Ok? <==> GetID(r.idVar).1.None? && InInt4(GetID(r.idVar).0)
    ensures o.0.Ok? ==> o.0.value == Response(StatusOK, DeletedJson(GetID(r.idVar).0))
    ensures o.0.Ok? ==> forall row :: row in o.1 <==> row in rows && row.id != GetID(r.idVar).0
    ensures o.0.Err? ==> o.1 == rows
  {
    var (id, idError) := GetID(r.idVar);
    if idError.Some? then (Err(idError.value), rows)
    else if !InInt4(id) then (Err(OutOfRange(id)), rows)
    else (Ok(Response(StatusOK, DeletedJson(id))), Without(rows, id))
  }

  /** handleGetAccountByID's outcome and the table after it; DELETE is passed to handleDeleteAccount. */
  function GetAccountByIDOutcome(r: Request, rows: seq<Row>): (o: (Result<Response, string>, seq<Row>))
    ensures r.httpMethod == "DELETE" ==> o == DeleteAccountOutcome(r, rows)
    ensures r.httpMethod != "DELETE" ==> o.1 == rows
    ensures r.httpMethod != "DELETE" && o.0.Ok? ==>
      && GetID(r.idVar).1.None?
      && AccountById(rows, GetID(r.idVar).0).Ok?
      && o.0.value == Response(StatusOK, AccountJson(AccountById(rows, GetID(r.idVar).0).value))
    ensures r.httpMethod != "DELETE" && GetID(r.idVar).1.Some? ==> o.0 == Err(GetID(r.idVar).1.value)
  {
    if r.httpMethod == "DELETE" then DeleteAccountOutcome(r, rows)
    else
      var (id, idError) := GetID(r.idVar);
      if idError.Some? then (Err(idError.value), rows)
      else
        match AccountById(rows, id)
        case Err(e) => (Err(e), rows)
        case Ok(acc) => (Ok(Response(StatusOK, AccountJson(acc))), rows)
  }

  /** handleGetAccount's outcome: every account, or the first scan error. */
  function GetAccountsOutcome(rows: seq<Row>): (o: Result<Response, string>)
    ensures o.Ok? <==> forall i :: 0 <= i < |rows| ==> ScanIntoAccount(rows[i]).Ok?
    ensures o.Ok? ==>
      && o.value.status == StatusOK && o.value.body.AccountsJson?
      && |o.value.body.accounts| == |rows|
      && forall i :: 0 <= i < |rows| ==> o.value.body.accounts[i] == ScanIntoAccount(rows[i]).value
  {
    match ScanAll(rows)
    case Err(e) => Err(e)
    case Ok(accounts) => Ok(Response(StatusOK, AccountsJson(accounts)))
  }

  const UnableToAuthenticate: string := "unable to authenticate"

  /**
   * loginPost's decision on a decoded request: look the username up (its
   * error is returned as it is), check the password, issue a token.
   */
  function LoginOutcome(req: LoginRequest, rows: seq<Row>, secret: string, bcrypt: Bcrypt, jws: Jws): (r: Result<LoginResponse, string>)
    ensures AccountByUsername(rows, req.username).Err? ==> r == Err(AccountByUsername(rows, req.username).error)
    ensures r.Ok? ==>
      && AccountByUsername(rows, req.username).Ok?
      && var acc := AccountByUsername(rows, req.username).value;
      && ValidatePassword(acc, req.password, bcrypt)
      && r.value == LoginResponse(username := acc.username, token := CreateJWT(acc, secret, jws))
    ensures r.Err? && AccountByUsername(rows, req.username).Ok? ==> r.error == UnableToAuthenticate
  {
    match AccountByUsername(rows, req.username)
    case Err(e) => Err(e)
    case Ok(acc) =>
      if !ValidatePassword(acc, req.password, bcrypt) then Err(UnableToAuthenticate)
      else Ok(LoginResponse(username := acc.username, token := CreateJWT(acc, secret, jws)))
  }

  /** loginPost's outcome as makeHTTPHandleFunc sees it: the login response with 200, or the error. */
  function LoginPostOutcome(req: LoginRequest, rows: seq<Row>, secret: string, bcrypt: Bcrypt, jws: Jws): (o: Result<Response, string>)
    ensures o.Ok? <==> LoginOutcome(req, rows, secret, bcrypt, jws).Ok?
    ensures o.Ok? ==> o.value == Response(StatusOK, LoginJson(LoginOutcome(req, rows, secret, bcrypt, jws).value))
    ensures o.Err? ==> o.error == LoginOutcome(req, rows, secret, bcrypt, jws).error
  {
    match LoginOutcome(req, rows, secret, bcrypt, jws)
    case Err(e) => Err(e)
    case Ok(login) => Ok(Response(StatusOK, LoginJson(login)))
  }

  // ---------------------------------------------------------------- the server

  /**
   * APIServer: the listen address and the store. The JWT secret, the clock,
   * the random draws and the cryptographic libraries are passed to the
   * methods that use them.
   */
  class APIServer {
    const listenAddr: string
    const store: PostgresStore

    constructor (listenAddr: string, store: PostgresStore)
      ensures this.listenAddr == listenAddr && this.store == store
    {
      this.listenAddr := listenAddr;
      this.store := store;
    }

    /** makeHTTPHandleFunc's closure after the handler returned: an error is written as status 400. */
    static method ReportError(w: ResponseRecorder, err: Option<string>)
      modifies w
      ensures err.None? ==> w.written == old(w.written)
      ensures err.Some? ==> w.written == old(w.written) + [ErrorResponse(err.value)]
    {
      if err.Some? {
        w.WriteJson(StatusBadRequest, ApiError(err.value));
      }
    }

    /** handleDeleteAccount. */
    method HandleDeleteAccount(w: ResponseRecorder, r: Request) returns (err: Option<string>)
      requires store.Valid()
      modifies store, w
      ensures store.Valid()
      ensures store.nextId == old(store.nextId)
      ensures var (outcome, rows) := DeleteAccountOutcome(r, old(store.rows));
        && store.rows == rows
        && (outcome.Ok? ==> err.None? && w.written == old(w.written) + [outcome.value])
        && (outcome.Err? ==> err == Some(outcome.error) && w.written == old(w.written))
    {
      var (id, idError) := GetID(r.idVar);
      if idError.Some? {
        return idError;
      }
      err := store.DeleteAccount(id);
      if err.Some? {
        return err;
      }
      w.WriteJson(StatusOK, DeletedJson(id));
    }

    /** handleGetAccountByID. */
    method HandleGetAccountByID(w: ResponseRecorder, r: Request) returns (err: Option<string>)
      requires store.Valid()
      modifies store, w
      ensures store.Valid()
      ensures store.nextId == old(store.nextId)
      ensures var (outcome, rows) := GetAccountByIDOutcome(r, old(store.rows));
        && store.rows == rows
        && (outcome.Ok? ==> err.None? && w.written == old(w.written) + [outcome.value])
        && (outcome.Err? ==> err == Some(outcome.error) && w.written == old(w.written))
    {
      if r.httpMethod == "DELETE" {
        err := HandleDeleteAccount(w, r);
        return;
      }
      var (id, idError) := GetID(r.idVar);
      if idError.Some? {
        return idError;
      }
      var account := store.GetAccountByID(id);
      if account.Err? {
        return Some(account.error);
      }
      w.WriteJson(StatusOK, AccountJson(account.value));
      err := None;
    }

    /** handleGetAccount (GET /account). */
    method HandleGetAccount(w: ResponseRecorder) returns (err: Option<string>)
      modifies w
      ensures var outcome := GetAccountsOutcome(store.rows);
        && (outcome.Ok? ==> err.None? && w.written == old(w.written) + [outcome.value])
        && (outcome.Err? ==> err == Some(outcome.error) && w.written == old(w.written))
    {
      var accounts := store.GetAccounts();
      if accounts.Err? {
        return Some(accounts.error);
      }
      w.WriteJson(StatusOK, AccountsJson(accounts.value));
      err := None;
    }

    /**
     * handleCreateAccount: builds the account (hashing may fail), stores it
     * (the insert may fail) and answers 201 with the decoded request itself.
     */
    method HandleCreateAccount(w: ResponseRecorder, req: CreateAccountRequest, bcrypt: Bcrypt, salt: nat, draw: nat, now: Time)
      returns (err: Option<string>)
      requires store.Valid()
      requires draw < AccountNumberBound
      modifies store, w
      ensures store.Valid()
      ensures var built := NewAccount(req.firstName, req.lastName, req.username, req.email, req.password, bcrypt, salt, draw, now);
        && (built.Err? ==>
              err == Some(built.error) && store.rows == old(store.rows) && store.nextId == old(store.nextId)
              && w.written == old(w.written))
        && (built.Ok? && InsertError(built.value).Some? ==>
              err == InsertError(built.value) && store.rows == old(store.rows) && store.nextId == old(store.nextId)
              && w.written == old(w.written))
        && (built.Ok? && InsertError(built.value).None? ==>
              && err.None?
              && store.rows == old(store.rows) + [InsertedRow(built.value, old(store.nextId))]
              && store.nextId == old(store.nextId) + 1
              && w.written == old(w.written) + [Response(StatusCreated, CreateRequestJson(req))])
    {
      var built := NewAccount(req.firstName, req.lastName, req.username, req.email, req.password, bcrypt, salt, draw, now);
      if built.Err? {
        return Some(built.error);
      }
      err := store.CreateAccount(built.value);
      if err.Some? {
        return;
      }
      w.WriteJson(StatusCreated, CreateRequestJson(req));
    }

    /** loginPost, from the decoded request on. */
    method LoginPost(w: ResponseRecorder, req: LoginRequest, secret: string, bcrypt: Bcrypt, jws: Jws)
      returns (err: Option<string>)
      modifies w
      ensures var outcome := LoginPostOutcome(req, store.rows, secret, bcrypt, jws);
        && (outcome.Ok? ==> err.None? && w.written == old(w.written) + [outcome.value])
        && (outcome.Err? ==> err == Some(outcome.error) && w.written == old(w.written))
    {
      var account := store.GetAccountByUsername(req.username);
      if account.Err? {
        return Some(account.error);
      }
      var acc := account.value;
      if !ValidatePassword(acc, req.password, bcrypt) {
        return Some(UnableToAuthenticate);
      }
      var token := CreateJWT(acc, secret, jws);
      w.WriteJson(StatusOK, LoginJson(LoginResponse(username := acc.username, token := token)));
      err := None;
    }

    /** POST /login through makeHTTPHandleFunc: exactly one response, the login's or its error as 400. */
    method ServeLogin(w: ResponseRecorder, req: LoginRequest, secret: string, bcrypt: Bcrypt, jws: Jws)
      modifies w
      ensures w.written == old(w.written) + [Reply(LoginPostOutcome(req, store.rows, secret, bcrypt, jws))]
    {
      var err := LoginPost(w, req, secret, bcrypt, jws);
      ReportError(w, err);
    }

    /** makeHTTPHandleFunc(handleGetAccountByID): exactly one response, the handler's or its error as 400. */
    method ServeAccountByID(w: ResponseRecorder, r: Request)
      requires store.Valid()
      modifies store, w
      ensures store.Valid()
      ensures store.nextId == old(store.nextId)
      ensures var (outcome, rows) := GetAccountByIDOutcome(r, old(store.rows));
        store.rows == rows && w.written == old(w.written) + [Reply(outcome)]
    {
      var err := HandleGetAccountByID(w, r);
      ReportError(w, err);
    }

    /** permissionDenied. */
    static method DenyPermission(w: ResponseRecorder)
      modifies w
      ensures w.written == old(w.written) + [PermissionDenied]
    {
      w.WriteJson(StatusBadRequest, ApiError("permission denied"));
    }

    /**
     * withJWTAuth wrapped around makeHTTPHandleFunc(handleGetAccountByID), as
     * the router installs it for /account/{id}. Returns how many times the
     * wrapped handler ran and whether the claim assertion panicked. Every
     * denial writes the same response and leaves the table alone; an allowed
     * request runs the handler once.
     */
    method WithJWTAuth(w: ResponseRecorder, r: Request, secret: string, now: Time, jws: Jws)
      returns (handlerRuns: nat, panicked: bool)
      requires store.Valid()
      modifies store, w
      ensures store.Valid()
      ensures store.nextId == old(store.nextId)
      ensures var d := Authorize(r, secret, now, jws, old(store.rows));
        && (handlerRuns == 1 <==> d.Allow?)
        && (handlerRuns == 0 <==> !d.Allow?)
        && (panicked <==> d.ClaimPanic?)
        && (d.Deny? ==> w.written == old(w.written) + [PermissionDenied] && store.rows == old(store.rows))
        && (d.ClaimPanic? ==> w.written == old(w.written) && store.rows == old(store.rows))
        && (d.Allow? ==>
              var (outcome, rows) := GetAccountByIDOutcome(r, old(store.rows));
              w.written == old(w.written) + [Reply(outcome)] && store.rows == rows)
    {
      handlerRuns, panicked := 0, false;
      var validated := ValidateJWT(r.jwtHeader, secret, now, jws);
      if validated.Err? || !validated.value.valid {
        DenyPermission(w);
        return;
      }
      var token := validated.value;
      var (id, idError) := GetID(r.idVar);
      if idError.Some? {
        DenyPermission(w);
        return;
      }
      var account := store.GetAccountByID(id);
      if account.Err? {
        DenyPermission(w);
        return;
      }
      var claimed := ClaimedNumber(token.claims);
      if claimed.None? {
        panicked := true;
        return;
      }
      if account.value.number != claimed.value {
        DenyPermission(w);
        return;
      }
      handlerRuns := handlerRuns + 1;
      ServeAccountByID(w, r);
    }
  }
}
