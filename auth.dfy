/**
 * The JWT auth plugin: the key lookup, the token validation callback and the
 * default strategy the plugin registers. Fetching the JWKS document and
 * converting a JWK to PEM are calls into code outside this model; their
 * results are parameters.
 */
module Auth {
  import opened Wrappers
  import opened Js
  import opened Errors

  const KEY_ERROR_MESSAGE: string := "Cannot verify auth token"

  /** The credentials `validateToken` attaches: exactly `contactId` and `email` of the decoded token. */
  datatype Credentials = Credentials(contactId: Value, email: Value)

  /** `{ isValid }` or `{ isValid, credentials }` */
  datatype Validation = Validation(isValid: bool, credentials: Option<Credentials>)

  /** `validateToken(decoded)` */
  function ValidateToken(authEnabled: bool, decoded: map<string, Value>): (r: Validation)
    ensures !authEnabled ==> r == Validation(true, None)
    ensures authEnabled ==> (r.isValid <==> Truthy(Get(decoded, "contactId")))
    ensures authEnabled && r.isValid ==>
              r.credentials == Some(Credentials(Get(decoded, "contactId"), Get(decoded, "email")))
    ensures !r.isValid ==> r.credentials.None?
  {
    if !authEnabled then Validation(true, None)
    else
      var contactId := Get(decoded, "contactId");
      if !Truthy(contactId) then Validation(false, None)
      else Validation(true, Some(Credentials(contactId, Get(decoded, "email"))))
  }

  /** With auth disabled the decoded token is never looked at. */
  lemma DisabledIgnoresToken(decoded1: map<string, Value>, decoded2: map<string, Value>)
    ensures ValidateToken(false, decoded1) == ValidateToken(false, decoded2)
  {
  }

  /** A JSON web key; its members are handed to `jwkToPem` as they are. */
  type Jwk = map<string, Value>

  /** `{ key }`: a PEM string, or null. */
  datatype KeyResult = KeyResult(key: Option<string>)

  /**
   * `Boom.internal(KEY_ERROR_MESSAGE, e)`: a plain error is boomified, its message prefixed
   * with KEY_ERROR_MESSAGE and ": " (the bare prefix when its message is empty); an error
   * that already is a Boom error is only attached as data.
   */
  function KeyError(e: Thrown): (b: Boom)
    ensures b.statusCode == 500
    ensures e.PlainError? && e.message != "" ==> b.message == KEY_ERROR_MESSAGE + ": " + e.message
    ensures e.PlainError? && e.message == "" ==> b.message == KEY_ERROR_MESSAGE
    ensures e.BoomError? ==> b.message == KEY_ERROR_MESSAGE
  {
    match e
    case PlainError(message) => Internal(if message == "" then KEY_ERROR_MESSAGE else KEY_ERROR_MESSAGE + ": " + message)
    case BoomError(_) => Internal(KEY_ERROR_MESSAGE)
  }

  /**
   * `getKey`: `jwks` is what fetching the JWKS document yields (its `keys`, absent
   * or null as None, or the error the fetch threw), `jwkToPem` the conversion
   * (a PEM or the message of the error it throws).
   */
  function GetKey(jwks: Result<Option<seq<Jwk>>, Thrown>, jwkToPem: Jwk -> Result<string, string>): (r: Result<KeyResult, Boom>)
    ensures jwks.Failure? ==> r == Failure(KeyError(jwks.error))
    ensures jwks.Success? && (jwks.value.None? || jwks.value.value == []) ==> r == Success(KeyResult(None))
    ensures r.Success? && r.value.key.Some? <==>
              jwks.Success? && jwks.value.Some? && jwks.value.value != [] && jwkToPem(jwks.value.value[0]).Success?
    ensures r.Success? && r.value.key.Some? ==> jwkToPem(jwks.value.value[0]) == Success(r.value.key.value)
    ensures jwks.Success? && jwks.value.Some? && jwks.value.value != [] && jwkToPem(jwks.value.value[0]).Failure? ==>
              r == Failure(KeyError(PlainError(jwkToPem(jwks.value.value[0]).error)))
    ensures r.Failure? ==> r.error.statusCode == 500
  {
    if jwks.Failure? then Failure(KeyError(jwks.error))
    else if jwks.value.None? || |jwks.value.value| == 0 then Success(KeyResult(None))
    else
      match jwkToPem(jwks.value.value[0])
      case Success(pem) => Success(KeyResult(Some(pem)))
      case Failure(message) => Failure(KeyError(PlainError(message)))
  }

  /** Only the first key of the set is ever used: key sets that agree on it give the same answer. */
  lemma OnlyFirstKeyIsUsed(keys1: seq<Jwk>, keys2: seq<Jwk>, jwkToPem: Jwk -> Result<string, string>)
    requires keys1 != [] && keys2 != [] && keys1[0] == keys2[0]
    ensures GetKey(Success(Some(keys1)), jwkToPem) == GetKey(Success(Some(keys2)), jwkToPem)
  {
  }

  /** The only algorithm the strategy's `verifyOptions` admit. */
  const VERIFY_ALGORITHMS: seq<string> := ["RS256"]

  function AlgorithmAllowed(algorithm: string): (r: bool)
    ensures r <==> algorithm == "RS256"
  {
    algorithm in VERIFY_ALGORITHMS
  }

  datatype Mode = Required | Try

  /** `server.auth.default({ strategy, mode })` */
  datatype AuthDefault = AuthDefault(strategy: string, mode: Mode)

  function DefaultAuth(authEnabled: bool): (r: AuthDefault)
    ensures r.strategy == "jwt"
    ensures r.mode == Required <==> authEnabled
    ensures r.mode == Try <==> !authEnabled
  {
    AuthDefault("jwt", if authEnabled then Required else Try)
  }
}
