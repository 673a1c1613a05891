/**
 * Token issue and validation (createJWT and validateJWT of pkg/api/api.go):
 * HS256 JSON Web Tokens (RFC 7519) carrying the account number, checked by
 * jwt/v5's Parse with a key function that admits only HMAC methods.
 */
module Tokens {
  import opened Wrappers
  import opened Clock
  import opened Crypto
  import opened UtilTypes

  // ---------------------------------------------------------------- errors and tokens

  /** Why a token could not be verified at all. */
  datatype Unverifiable =
    | AlgUnspecified                     // no string `alg` in the header
    | AlgUnavailable(alg: string)        // `alg` names no registered method
    | UnexpectedSigningMethod(alg: string) // the key function refused a non-HMAC method

  /** Why the registered claims failed validation. */
  datatype ClaimsError = InvalidClaimType(claim: string) | Expired | NotValidYet

  /** The error kinds jwt.Parse reports. */
  datatype JwtError =
    | Malformed
    | TokenUnverifiable(why: Unverifiable)
    | SignatureInvalid
    | InvalidClaims(failure: ClaimsError)

  /** A *jwt.Token that Parse returned without error. */
  datatype Token = Token(
    header: JsonObject,
    claims: JsonObject,
    signingMethod: SigningMethod,
    signature: seq<bv8>,
    valid: bool)

  /** `token.Header["alg"].(string)`, when the header has a string there. */
  function HeaderAlg(header: JsonObject): Option<string>
  {
    if "alg" in header && header["alg"].JString? then Some(header["alg"].s) else None
  }

  // ---------------------------------------------------------------- validation

  /**
   * The key function validateJWT passes to jwt.Parse: any method that is not
   * HMAC is refused with "Unexpected signing method"; for HMAC the key is the
   * bytes of the secret.
   */
  function KeyFunc(signingMethod: SigningMethod, alg: string, secret: string): (r: Result<string, Unverifiable>)
    ensures r.Ok? <==> signingMethod.HMAC?
    ensures r.Ok? ==> r.value == secret
    ensures r.Err? ==> r.error == UnexpectedSigningMethod(alg)
  {
    if !signingMethod.HMAC? then Err(UnexpectedSigningMethod(alg)) else Ok(secret)
  }

  /**
   * A registered time claim that is present and counts: jwt/v5 reads a
   * number 0 in `exp` or `nbf` as if the claim were absent.
   */
  predicate TimeClaimSet(claims: JsonObject, claim: string)
  {
    claim in claims && !(claims[claim].JNumber? && claims[claim].n == 0)
  }

  /**
   * jwt/v5's default validator: `exp` and `nbf` (sections 4.1.4 and 4.1.5 of
   * RFC 7519), when present, must be numbers; a non-zero `exp` must lie after
   * the clock and a non-zero `nbf` at or before it. Every other claim,
   * "expiresAt" included, is ignored. Only the first failure is kept.
   */
  function CheckRegisteredClaims(claims: JsonObject, now: Time): (r: Option<ClaimsError>)
    ensures r.None? <==>
      && (TimeClaimSet(claims, "exp") ==>
            claims["exp"].JNumber? && now.unixNano < claims["exp"].n * NanosPerSecond)
      && (TimeClaimSet(claims, "nbf") ==>
            claims["nbf"].JNumber? && claims["nbf"].n * NanosPerSecond <= now.unixNano)
    ensures r == Some(Expired) ==>
      TimeClaimSet(claims, "exp") && claims["exp"].JNumber? && claims["exp"].n * NanosPerSecond <= now.unixNano
    ensures r == Some(NotValidYet) ==>
      TimeClaimSet(claims, "nbf") && claims["nbf"].JNumber? && now.unixNano < claims["nbf"].n * NanosPerSecond
  {
    if "exp" in claims && !claims["exp"].JNumber? then Some(InvalidClaimType("exp"))
    else if TimeClaimSet(claims, "exp") && !(now.unixNano < claims["exp"].n * NanosPerSecond) then Some(Expired)
    else if "nbf" in claims && !claims["nbf"].JNumber? then Some(InvalidClaimType("nbf"))
    else if TimeClaimSet(claims, "nbf") && now.unixNano < claims["nbf"].n * NanosPerSecond then Some(NotValidYet)
    else None
  }

  /**
   * validateJWT: jwt.Parse of the token string under the secret read from
   * JWT_SECRET, with the clock reading the validator uses. The steps run in
   * the library's order: decode the header and claims, look up `alg`, decode
   * the signature, ask the key function, compare the HMAC, check the
   * registered claims; only a token that passes them all is Valid.
   */
  function ValidateJWT(tokenString: string, secret: string, now: Time, jws: Jws): (r: Result<Token, JwtError>)
    ensures r.Ok? ==> r.value.valid && r.value.signingMethod.HMAC?
    ensures r.Ok? ==>
      && jws.split(tokenString).Some?
      && var seg := jws.split(tokenString).value;
      && seg.header == r.value.header && seg.claims == r.value.claims
      && HeaderAlg(seg.header) == Some(AlgName(r.value.signingMethod))
      && seg.signature == Some(jws.mac(r.value.signingMethod.hash, seg.signingString, secret))
      && CheckRegisteredClaims(seg.claims, now).None?
  {
    match jws.split(tokenString)
    case None => Err(Malformed)
    case Some(seg) =>
      match HeaderAlg(seg.header)
      case None => Err(TokenUnverifiable(AlgUnspecified))
      case Some(alg) =>
        match GetSigningMethod(alg)
        case None => Err(TokenUnverifiable(AlgUnavailable(alg)))
        case Some(signingMethod) =>
          match seg.signature
          case None => Err(Malformed)
          case Some(signature) =>
            match KeyFunc(signingMethod, alg, secret)
            case Err(why) => Err(TokenUnverifiable(why))
            case Ok(key) =>
              if signature != jws.mac(signingMethod.hash, seg.signingString, key) then Err(SignatureInvalid)
              else
                match CheckRegisteredClaims(seg.claims, now)
                case Some(why) => Err(InvalidClaims(why))
                case None => Ok(Token(seg.header, seg.claims, signingMethod, signature, true))
  }

  // ---------------------------------------------------------------- issue

  /** The claim createJWT writes in place of an expiry: a constant, not a time. */
  const ExpiresAt: int := 15000

  /** The header jwt.NewWithClaims writes for HS256. */
  const IssuedHeader: JsonObject := map["alg" := JString("HS256"), "typ" := JString("JWT")]

  /** The claims createJWT signs for an account number. */
  function IssuedClaims(number: int): (c: JsonObject)
    ensures c.Keys == {"expiresAt", "accountNumber"}
    ensures c["expiresAt"] == JNumber(ExpiresAt) && c["accountNumber"] == JNumber(number)
  {
    map["expiresAt" := JNumber(ExpiresAt), "accountNumber" := JNumber(number)]
  }

  /** createJWT: signs the account's claims with HS256 under the secret read from JWT_SECRET. */
  function CreateJWT(acc: Account, secret: string, jws: Jws): (token: string)
    ensures JwsSound(jws) ==>
      var input := jws.signingString(IssuedHeader, IssuedClaims(acc.number));
      jws.split(token) == Some(Segments(IssuedHeader, IssuedClaims(acc.number), input, Some(jws.mac(SHA256, input, secret))))
  {
    var input := jws.signingString(IssuedHeader, IssuedClaims(acc.number));
    jws.compact(input, jws.mac(SHA256, input, secret))
  }

  // ---------------------------------------------------------------- properties

  /**
   * A token createJWT issued validates under the same secret at every clock
   * reading, and carries the account's number as its accountNumber claim.
   */
  lemma IssuedTokenValidates(acc: Account, secret: string, now: Time, jws: Jws)
    requires JwsSound(jws)
    ensures ValidateJWT(CreateJWT(acc, secret, jws), secret, now, jws).Ok?
    ensures var t := ValidateJWT(CreateJWT(acc, secret, jws), secret, now, jws).value;
      && t.valid && t.signingMethod == HMAC(SHA256)
      && t.claims == IssuedClaims(acc.number)
      && t.claims["accountNumber"] == JNumber(acc.number)
  {
    var claims := IssuedClaims(acc.number);
    var input := jws.signingString(IssuedHeader, claims);
    var signature := jws.mac(SHA256, input, secret);
    assert jws.split(jws.compact(input, signature)) == Some(Segments(IssuedHeader, claims, input, Some(signature)));
    GetSigningMethodAlgName(HMAC(SHA256));
    assert HeaderAlg(IssuedHeader) == Some("HS256");
  }

  /** Whether an issued token is accepted never depends on the clock: it carries no `exp` or `nbf`. */
  lemma IssuedTokenIgnoresClock(acc: Account, secret: string, now1: Time, now2: Time, jws: Jws)
    requires JwsSound(jws)
    ensures ValidateJWT(CreateJWT(acc, secret, jws), secret, now1, jws)
         == ValidateJWT(CreateJWT(acc, secret, jws), secret, now2, jws)
  {
    IssuedTokenValidates(acc, secret, now1, jws);
    IssuedTokenValidates(acc, secret, now2, jws);
  }

  /** A token issued under one secret is rejected under another whose HMAC differs. */
  lemma OtherSecretRejected(acc: Account, secret: string, other: string, now: Time, jws: Jws)
    requires JwsSound(jws)
    requires var input := jws.signingString(IssuedHeader, IssuedClaims(acc.number));
      jws.mac(SHA256, input, secret) != jws.mac(SHA256, input, other)
    ensures ValidateJWT(CreateJWT(acc, secret, jws), other, now, jws) == Err(SignatureInvalid)
  {
    var claims := IssuedClaims(acc.number);
    var input := jws.signingString(IssuedHeader, claims);
    var signature := jws.mac(SHA256, input, secret);
    assert jws.split(jws.compact(input, signature)) == Some(Segments(IssuedHeader, claims, input, Some(signature)));
    GetSigningMethodAlgName(HMAC(SHA256));
    assert HeaderAlg(IssuedHeader) == Some("HS256");
  }

  /**
   * A token whose `alg` names a registered method that is not HMAC is refused
   * by the key function, whatever its signature, claims, secret or clock.
   */
  lemma NonHmacRejected(tokenString: string, secret: string, now: Time, jws: Jws)
    requires jws.split(tokenString).Some?
    requires var seg := jws.split(tokenString).value;
      && HeaderAlg(seg.header).Some?
      && GetSigningMethod(HeaderAlg(seg.header).value).Some?
      && !GetSigningMethod(HeaderAlg(seg.header).value).value.HMAC?
      && seg.signature.Some?
    ensures ValidateJWT(tokenString, secret, now, jws)
         == Err(TokenUnverifiable(UnexpectedSigningMethod(HeaderAlg(jws.split(tokenString).value.header).value)))
  {
  }

  /** Every HMAC variant (HS256, HS384, HS512) is accepted when signed with the secret. */
  lemma HmacVariantAccepted(hash: HashFn, claims: JsonObject, secret: string, now: Time, jws: Jws)
    requires JwsSound(jws)
    requires CheckRegisteredClaims(claims, now).None?
    ensures var header := map["alg" := JString(AlgName(HMAC(hash)))];
      var input := jws.signingString(header, claims);
      ValidateJWT(jws.compact(input, jws.mac(hash, input, secret)), secret, now, jws)
        == Ok(Token(header, claims, HMAC(hash), jws.mac(hash, input, secret), true))
  {
    var header := map["alg" := JString(AlgName(HMAC(hash)))];
    var input := jws.signingString(header, claims);
    var signature := jws.mac(hash, input, secret);
    assert jws.split(jws.compact(input, signature)) == Some(Segments(header, claims, input, Some(signature)));
    GetSigningMethodAlgName(HMAC(hash));
  }

  /**
   * The library does enforce a non-zero registered `exp` claim: a correctly
   * signed token whose `exp` has passed is rejected as expired. createJWT
   * never writes `exp`.
   */
  lemma PastExpRejected(header: JsonObject, claims: JsonObject, secret: string, now: Time, jws: Jws)
    requires JwsSound(jws)
    requires HeaderAlg(header).Some? && GetSigningMethod(HeaderAlg(header).value).Some?
    requires GetSigningMethod(HeaderAlg(header).value).value.HMAC?
    requires "exp" in claims && claims["exp"].JNumber? && claims["exp"].n != 0
    requires claims["exp"].n * NanosPerSecond <= now.unixNano
    ensures var hash := GetSigningMethod(HeaderAlg(header).value).value.hash;
      var input := jws.signingString(header, claims);
      ValidateJWT(jws.compact(input, jws.mac(hash, input, secret)), secret, now, jws) == Err(InvalidClaims(Expired))
  {
    var hash := GetSigningMethod(HeaderAlg(header).value).value.hash;
    var input := jws.signingString(header, claims);
    var signature := jws.mac(hash, input, secret);
    assert jws.split(jws.compact(input, signature)) == Some(Segments(header, claims, input, Some(signature)));
  }

  /**
   * An `exp` or `nbf` of 0 is no deadline: a correctly signed token carrying
   * them is accepted at every clock reading.
   */
  lemma ZeroTimeClaimsIgnored(hash: HashFn, claims: JsonObject, secret: string, now: Time, jws: Jws)
    requires JwsSound(jws)
    requires "exp" in claims ==> claims["exp"] == JNumber(0)
    requires "nbf" in claims ==> claims["nbf"] == JNumber(0)
    ensures var header := map["alg" := JString(AlgName(HMAC(hash)))];
      var input := jws.signingString(header, claims);
      ValidateJWT(jws.compact(input, jws.mac(hash, input, secret)), secret, now, jws).Ok?
  {
    assert CheckRegisteredClaims(claims, now).None?;
    HmacVariantAccepted(hash, claims, secret, now, jws);
  }
}
