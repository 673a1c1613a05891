/**
 * The two foreign cryptographic libraries the service relies on, as
 * collaborators: golang.org/x/crypto/bcrypt for passwords and the JSON Web
 * Signature layer of github.com/golang-jwt/jwt/v5 (RFC 7515 compact
 * serialisation, HMAC as in section 3.2 of RFC 7518). Their internals are
 * not modelled. Each is a record of total functions; what the rest of the
 * model may assume of them is stated once, as a predicate, and every lemma
 * that needs it says so in its requires.
 */
module Crypto {
  import opened Wrappers

  // ---------------------------------------------------------------- bcrypt

  /**
   * generate(password, salt) is bcrypt.GenerateFromPassword(password,
   * bcrypt.DefaultCost) run with the random salt `salt`; it may fail (for
   * instance on a password longer than 72 bytes). compare(hash, password) is
   * `bcrypt.CompareHashAndPassword(hash, password) == nil`.
   */
  datatype Bcrypt = Bcrypt(
    generate: (string, nat) -> Result<string, string>,
    compare: (string, string) -> bool)

  /** Length of every hash bcrypt produces ("$2a$10$" plus salt and digest). */
  const BcryptHashLength: nat := 60

  /**
   * A hash generated from a password verifies against that password, is 60
   * characters long, is not the password itself (a salted hash equal to
   * its own input is treated as impossible) and, being written in bcrypt's
   * base-64 alphabet, holds no U+0000.
   */
  ghost predicate BcryptSound(b: Bcrypt)
  {
    forall password: string, salt: nat :: b.generate(password, salt).Ok? ==>
      && b.compare(b.generate(password, salt).value, password)
      && |b.generate(password, salt).value| == BcryptHashLength
      && b.generate(password, salt).value != password
      && '\0' !in b.generate(password, salt).value
  }

  // ---------------------------------------------------------------- JSON values

  /**
   * A JSON value as encoding/json decodes it into an interface{}. Numbers are
   * float64 in Go; the model keeps only integral numbers.
   */
  datatype Json = JNumber(n: int) | JString(s: string) | JBool(b: bool) | JNull | JComposite

  /** A JSON object: a JOSE header or a jwt.MapClaims. */
  type JsonObject = map<string, Json>

  // ---------------------------------------------------------------- signing methods

  datatype HashFn = SHA256 | SHA384 | SHA512

  /** The signing methods jwt/v5 registers, one per `alg` value. */
  datatype SigningMethod =
    | HMAC(hash: HashFn)
    | RSA(hash: HashFn)
    | RSAPSS(hash: HashFn)
    | ECDSA(hash: HashFn)
    | EdDSA
    | Unsecured

  function Bits(h: HashFn): string
  {
    match h
    case SHA256 => "256"
    case SHA384 => "384"
    case SHA512 => "512"
  }

  /** The `alg` header value (section 4.1.1 of RFC 7515) that names a method. */
  function AlgName(m: SigningMethod): string
  {
    match m
    case HMAC(h) => "HS" + Bits(h)
    case RSA(h) => "RS" + Bits(h)
    case RSAPSS(h) => "PS" + Bits(h)
    case ECDSA(h) => "ES" + Bits(h)
    case EdDSA => "EdDSA"
    case Unsecured => "none"
  }

  function HashOf(bits: string): Option<HashFn>
  {
    if bits == "256" then Some(SHA256)
    else if bits == "384" then Some(SHA384)
    else if bits == "512" then Some(SHA512)
    else None
  }

  /** jwt.GetSigningMethod: the registered method for an `alg` value, if any. */
  function GetSigningMethod(alg: string): (m: Option<SigningMethod>)
    ensures m.Some? ==> AlgName(m.value) == alg
  {
    if alg == "EdDSA" then Some(EdDSA)
    else if alg == "none" then Some(Unsecured)
    else if |alg| != 5 then None
    else match HashOf(alg[2..])
      case None => None
      case Some(h) =>
        if alg[..2] == "HS" then Some(HMAC(h))
        else if alg[..2] == "RS" then Some(RSA(h))
        else if alg[..2] == "PS" then Some(RSAPSS(h))
        else if alg[..2] == "ES" then Some(ECDSA(h))
        else None
  }

  /** Every registered method is found again under its own name. */
  lemma GetSigningMethodAlgName(m: SigningMethod)
    ensures GetSigningMethod(AlgName(m)) == Some(m)
  {
    match m
    case EdDSA =>
    case Unsecured =>
    case HMAC(h) => assert AlgName(m)[..2] == "HS" && AlgName(m)[2..] == Bits(h);
    case RSA(h) => assert AlgName(m)[..2] == "RS" && AlgName(m)[2..] == Bits(h);
    case RSAPSS(h) => assert AlgName(m)[..2] == "PS" && AlgName(m)[2..] == Bits(h);
    case ECDSA(h) => assert AlgName(m)[..2] == "ES" && AlgName(m)[2..] == Bits(h);
  }

  // ---------------------------------------------------------------- JWS compact serialisation

  /**
   * What jwt.Parser.ParseUnverified recovers from a token string: the decoded
   * header and claims, the signing input (the first two segments as they
   * stand) and the third segment decoded from base64url, or None when that
   * segment does not decode.
   */
  datatype Segments = Segments(
    header: JsonObject,
    claims: JsonObject,
    signingString: string,
    signature: Option<seq<bv8>>)

  /**
   * signingString(header, claims) is Token.SigningString: base64url(JSON(header))
   * "." base64url(JSON(claims)). compact(signingString, signature) appends "."
   * and the base64url signature. split(token) is ParseUnverified's decoding, None
   * when the token does not have three segments or its header or claims do not
   * decode. mac(hash, input, key) is HMAC over `input` keyed with the bytes of
   * `key`.
   */
  datatype Jws = Jws(
    signingString: (JsonObject, JsonObject) -> string,
    compact: (string, seq<bv8>) -> string,
    split: string -> Option<Segments>,
    mac: (HashFn, string, string) -> seq<bv8>)

  /**
   * Splitting a token the library serialised gives back exactly what was
   * signed; the empty string (an absent header) is not a token.
   */
  ghost predicate JwsSound(j: Jws)
  {
    && j.split("") == None
    && forall header: JsonObject, claims: JsonObject, signature: seq<bv8> ::
         j.split(j.compact(j.signingString(header, claims), signature))
           == Some(Segments(header, claims, j.signingString(header, claims), Some(signature)))
  }
}
