/** The session-authorization route (src/app/api/okto-auth/route.ts): it reads
    an identity token and its provider from one of three request shapes, builds
    the authenticate payload for a fresh session key, and on success hands back
    the session configuration and an authorization token. */
module OktoAuth {
  import opened Common
  import InvokeExecute

  /** The provider assumed for a bare `auth_token` (the email OTP flow). */
  const DefaultProvider := "okto"

  /** Both fee fields of the session data: a constant on the Okto chain. */
  const OktoChainFee := "0xBA43B7400"

  const InvalidFormatMessage := "Invalid request format. Expected idToken and provider, or auth_token"
  const CredentialsRequiredMessage := "idToken and provider are required"
  const AuthFailedMessage := "Failed to authenticate with Okto"
  const DefaultErrorMessage := "An error occurred while fetching the Okto token"
  const MethodNotAllowedMessage := "Method not allowed"

  /* ------------------------------------------------------------ the request */

  /** `body.extra_params`; a member it lacks is "". */
  datatype ExtraParams = ExtraParams(idToken: string, provider: string)

  /** The members of the JSON body the route looks at; "" stands for a missing one. */
  datatype AuthRequestBody = AuthRequestBody(
    extra_params: Option<ExtraParams>, idToken: string, provider: string, auth_token: string)

  /** `{ idToken, provider }` as the route passes it on. */
  datatype AuthData = AuthData(idToken: string, provider: string)

  /** Both credentials are truthy. */
  predicate HasCredentials(d: AuthData) {
    d.idToken != "" && d.provider != ""
  }

  /** The body-shape dispatch: `extra_params` wins whatever else the body holds;
      then top-level `idToken` and `provider` when both are truthy; then
      `auth_token` as the token with the provider defaulting to "okto"; no shape
      at all is `None`. Only the `extra_params` shape can yield empty credentials. */
  function ExtractCredentials(body: AuthRequestBody): (r: Option<AuthData>)
    ensures r.None? <==> body.extra_params.None? && (body.idToken == "" || body.provider == "") &&
                         body.auth_token == ""
    ensures body.extra_params.Some? ==>
              r == Some(AuthData(body.extra_params.value.idToken, body.extra_params.value.provider))
    ensures body.extra_params.None? && body.idToken != "" && body.provider != "" ==>
              r == Some(AuthData(body.idToken, body.provider))
    ensures body.extra_params.None? && (body.idToken == "" || body.provider == "") && body.auth_token != "" ==>
              r == Some(AuthData(body.auth_token, if body.provider != "" then body.provider else DefaultProvider))
    ensures r.Some? && body.extra_params.None? ==> HasCredentials(r.value)
  {
    if body.extra_params.Some? then
      Some(AuthData(body.extra_params.value.idToken, body.extra_params.value.provider))
    else if body.idToken != "" && body.provider != "" then
      Some(AuthData(body.idToken, body.provider))
    else if body.auth_token != "" then
      Some(AuthData(body.auth_token, if body.provider != "" then body.provider else DefaultProvider))
    else
      None
  }

  /** Whatever the top-level members say, a body with `extra_params` is read from
      `extra_params` alone. */
  lemma ExtraParamsTakePrecedence(body: AuthRequestBody, idToken: string, provider: string, auth_token: string)
    requires body.extra_params.Some?
    ensures ExtractCredentials(body) ==
            ExtractCredentials(body.(idToken := idToken, provider := provider, auth_token := auth_token))
  {
  }

  /* ------------------------------------------------------- the auth payload */

  /** The session key `SessionKey.create()` draws. */
  datatype SessionKey = SessionKey(
    privateKeyHexWith0x: string, uncompressedPublicKeyHexWith0x: string, ethereumAddress: string)

  /** The steps of `generateAuthPayload` that are not part of this model: ABI
      encoding of an address, keccak-256, signing the raw bytes of a hash with a
      private key, and `generatePaymasterData(clientSWA, clientPriv, nonce,
      validUntil, validAfter)`, which may throw. */
  datatype AuthHelpers = AuthHelpers(
    encodeAddress: string -> string,
    keccak256: string -> string,
    signMessage: (string, string) -> string,
    generatePaymasterData: (string, string, string, int, int) -> Result<string, Exception>)

  /** The sandbox paymaster address and `HOURS_IN_MS`, from the constants module. */
  datatype AuthConstants = AuthConstants(paymasterAddress: string, hoursInMs: nat)

  /** The paymaster deadline: six hours after `now`. */
  function PaymasterValidUntil(now: int, k: AuthConstants): int {
    now + 6 * k.hoursInMs
  }

  /** The message both signatures cover: the keccak of the ABI-encoded session address. */
  function SessionDigest(address: string, h: AuthHelpers): string {
    h.keccak256(h.encodeAddress(address))
  }

  /** `payload.sessionData`, as a value. */
  datatype SessionDataValue = SessionDataValue(
    nonce: string, clientSWA: string, sessionPk: string, maxPriorityFeePerGas: string,
    maxFeePerGas: string, paymaster: string, paymasterData: string)

  /** `payload`, as a value. */
  datatype AuthPayloadValue = AuthPayloadValue(
    authData: AuthData, sessionData: SessionDataValue,
    sessionPkClientSignature: string, sessionDataUserSignature: string)

  /** The payload `generateAuthPayload` returns, or the error it throws: one nonce
      in the session data and in the paymaster data, the session public key as
      `sessionPk`, both fees the Okto chain constant, and the client and the
      session key signing the same digest of the session address. */
  function AuthPayloadFor(authData: AuthData, sessionKey: SessionKey, clientSWA: string, clientPriv: string,
                          nonce: string, now: int, k: AuthConstants, h: AuthHelpers): (r: Result<AuthPayloadValue, Exception>)
    ensures var pm := h.generatePaymasterData(clientSWA, clientPriv, nonce, PaymasterValidUntil(now, k), 0);
      && (r.Success? <==> pm.Success?)
      && (r.Failure? ==> r.error == pm.error)
      && (r.Success? ==>
            var sd := r.value.sessionData;
            && r.value.authData == authData
            && sd.nonce == nonce
            && pm.value == sd.paymasterData
            && sd.clientSWA == clientSWA
            && sd.sessionPk == sessionKey.uncompressedPublicKeyHexWith0x
            && sd.maxFeePerGas == OktoChainFee && sd.maxPriorityFeePerGas == OktoChainFee
            && sd.paymaster == k.paymasterAddress
            && r.value.sessionPkClientSignature == h.signMessage(SessionDigest(sessionKey.ethereumAddress, h), clientPriv)
            && r.value.sessionDataUserSignature ==
                 h.signMessage(SessionDigest(sessionKey.ethereumAddress, h), sessionKey.privateKeyHexWith0x))
  {
    match h.generatePaymasterData(clientSWA, clientPriv, nonce, PaymasterValidUntil(now, k), 0)
    case Failure(e) => Failure(e)
    case Success(paymasterData) =>
      var digest := SessionDigest(sessionKey.ethereumAddress, h);
      Success(AuthPayloadValue(
        authData,
        SessionDataValue(nonce, clientSWA, sessionKey.uncompressedPublicKeyHexWith0x, OktoChainFee, OktoChainFee,
                         k.paymasterAddress, paymasterData),
        h.signMessage(digest, clientPriv),
        h.signMessage(digest, sessionKey.privateKeyHexWith0x)))
  }

  /** The `payload.sessionData` object, filled in member by member. */
  class SessionData {
    var nonce: string
    var clientSWA: string
    var sessionPk: string
    var maxPriorityFeePerGas: string
    var maxFeePerGas: string
    var paymaster: string
    var paymasterData: string

    /** `{}`: every member still missing. */
    constructor ()
      ensures Value() == SessionDataValue("", "", "", "", "", "", "")
    {
      nonce, clientSWA, sessionPk := "", "", "";
      maxPriorityFeePerGas, maxFeePerGas, paymaster, paymasterData := "", "", "", "";
    }

    function Value(): SessionDataValue
      reads this
    {
      SessionDataValue(nonce, clientSWA, sessionPk, maxPriorityFeePerGas, maxFeePerGas, paymaster, paymasterData)
    }
  }

  /** The `payload` object; `sessionData` is null until it is set. */
  class AuthPayload {
    var authData: AuthData
    var sessionData: SessionData?
    var sessionPkClientSignature: string
    var sessionDataUserSignature: string

    /** `{}` */
    constructor ()
      ensures sessionData == null
    {
      authData := AuthData("", "");
      sessionData := null;
      sessionPkClientSignature, sessionDataUserSignature := "", "";
    }

    function Value(): AuthPayloadValue
      reads this, sessionData
      requires sessionData != null
    {
      AuthPayloadValue(authData, sessionData.Value(), sessionPkClientSignature, sessionDataUserSignature)
    }
  }

  /** `generateAuthPayload`: builds `payload` and `payload.sessionData` member by
      member, awaiting the paymaster data and the two signatures in between. */
  method GenerateAuthPayload(authData: AuthData, sessionKey: SessionKey, clientSWA: string, clientPriv: string,
                             nonce: string, now: int, k: AuthConstants, h: AuthHelpers)
    returns (r: Result<AuthPayload, Exception>)
    ensures var spec := AuthPayloadFor(authData, sessionKey, clientSWA, clientPriv, nonce, now, k, h);
      && (r.Success? <==> spec.Success?)
      && (r.Failure? ==> r.error == spec.error)
      && (r.Success? ==>
            fresh(r.value) && r.value.sessionData != null && fresh(r.value.sessionData) &&
            r.value.Value() == spec.value)
  {
    var payload := new AuthPayload();
    payload.authData := authData;
    var sessionData := new SessionData();
    payload.sessionData := sessionData;
    sessionData.nonce := nonce;
    sessionData.clientSWA := clientSWA;
    sessionData.sessionPk := sessionKey.uncompressedPublicKeyHexWith0x;
    sessionData.maxPriorityFeePerGas := OktoChainFee;
    sessionData.maxFeePerGas := OktoChainFee;
    sessionData.paymaster := k.paymasterAddress;
    var paymasterData := h.generatePaymasterData(clientSWA, clientPriv, nonce, PaymasterValidUntil(now, k), 0);
    if paymasterData.Failure? {
      return Failure(paymasterData.error);
    }
    sessionData.paymasterData := paymasterData.value;
    var message := SessionDigest(sessionKey.ethereumAddress, h);
    payload.sessionPkClientSignature := h.signMessage(message, clientPriv);
    payload.sessionDataUserSignature := h.signMessage(message, sessionKey.privateKeyHexWith0x);
    r := Success(payload);
  }

  /* ------------------------------------------------------------- the route */

  /** The object the route returns as `sessionConfig`, with the field names it
      writes (`sessionPubKey`, upper-case K). */
  datatype AuthSessionConfig = AuthSessionConfig(sessionPrivKey: string, sessionPubKey: string, userSWA: string)

  /** What the route reads of the authenticate response: its status and
      `data.data.userSWA`. */
  datatype AuthResponse = AuthResponse(status: int, userSWA: string)

  /** The collaborators the route awaits: `invokeAuthenticate` and
      `getAuthorizationToken`; each may throw. */
  datatype AuthServices = AuthServices(
    authenticate: AuthPayloadValue -> Result<AuthResponse, Exception>,
    authorizationToken: AuthSessionConfig -> Result<string, Exception>)

  /** Everything outside the request the route depends on: the session key and
      nonce it draws, the clock, the two environment variables, the constants,
      the helpers and the collaborators. */
  datatype AuthEnv = AuthEnv(
    session: SessionKey, nonce: string, now: int, clientSWA: string, clientPriv: string,
    k: AuthConstants, helpers: AuthHelpers, services: AuthServices)

  /** The route's responses: 200 with the token and the session, or an error
      body with its status. */
  datatype AuthReply =
    | Authenticated(authToken: string, sessionConfig: AuthSessionConfig, userSWA: string, provider: string)
    | Refused(status: int, error: string)

  /** `error.message || 'An error occurred while fetching the Okto token'` */
  function ErrorText(e: Exception): (t: string)
    ensures t != ""
    ensures e.message != "" ==> t == e.message
    ensures e.message == "" ==> t == DefaultErrorMessage
  {
    if e.message != "" then e.message else DefaultErrorMessage
  }

  /** The payload the route builds for `data` in `env`. */
  function PayloadIn(env: AuthEnv, data: AuthData): Result<AuthPayloadValue, Exception> {
    AuthPayloadFor(data, env.session, env.clientSWA, env.clientPriv, env.nonce, env.now, env.k, env.helpers)
  }

  /** `POST`: dispatch on the body shape, require both credentials, build and send
      the authenticate payload; on status 200 return the session and its
      authorization token, on any other status refuse with that status; any
      error thrown on the way is a 500 carrying its message. */
  method Post(body: Result<AuthRequestBody, Exception>, env: AuthEnv) returns (reply: AuthReply)
    ensures body.Failure? ==> reply == Refused(500, ErrorText(body.error))
    ensures body.Success? && ExtractCredentials(body.value).None? ==> reply == Refused(400, InvalidFormatMessage)
    ensures body.Success? && ExtractCredentials(body.value).Some? && !HasCredentials(ExtractCredentials(body.value).value) ==>
              reply == Refused(400, CredentialsRequiredMessage)
    ensures reply.Authenticated? ==>
              && body.Success? && ExtractCredentials(body.value).Some?
              && var data := ExtractCredentials(body.value).value;
              && HasCredentials(data) && reply.provider == data.provider
              && PayloadIn(env, data).Success?
              && env.services.authenticate(PayloadIn(env, data).value) == Success(AuthResponse(200, reply.userSWA))
              && reply.sessionConfig == AuthSessionConfig(env.session.privateKeyHexWith0x,
                                                          env.session.uncompressedPublicKeyHexWith0x, reply.userSWA)
              && env.services.authorizationToken(reply.sessionConfig) == Success(reply.authToken)
    ensures body.Success? && ExtractCredentials(body.value).Some? && HasCredentials(ExtractCredentials(body.value).value) ==>
              var payload := PayloadIn(env, ExtractCredentials(body.value).value);
              && (payload.Failure? ==> reply == Refused(500, ErrorText(payload.error)))
              && (payload.Success? ==>
                    var response := env.services.authenticate(payload.value);
                    && (response.Failure? ==> reply == Refused(500, ErrorText(response.error)))
                    && (response.Success? && response.value.status != 200 ==>
                          reply == Refused(response.value.status, AuthFailedMessage))
                    && (response.Success? && response.value.status == 200 ==>
                          var config := AuthSessionConfig(env.session.privateKeyHexWith0x,
                                                          env.session.uncompressedPublicKeyHexWith0x,
                                                          response.value.userSWA);
                          (reply.Authenticated? <==> env.services.authorizationToken(config).Success?) &&
                          (reply.Refused? ==> reply == Refused(500, ErrorText(env.services.authorizationToken(config).error)))))
  {
    if body.Failure? {
      return Refused(500, ErrorText(body.error));
    }
    var credentials := ExtractCredentials(body.value);
    if credentials.None? {
      return Refused(400, InvalidFormatMessage);
    }
    var idToken, provider := credentials.value.idToken, credentials.value.provider;
    if idToken == "" || provider == "" {
      return Refused(400, CredentialsRequiredMessage);
    }
    var data := AuthData(idToken, provider);
    var session := env.session;
    var authPayload := GenerateAuthPayload(data, session, env.clientSWA, env.clientPriv, env.nonce, env.now,
                                           env.k, env.helpers);
    if authPayload.Failure? {
      return Refused(500, ErrorText(authPayload.error));
    }
    var response := env.services.authenticate(authPayload.value.Value());
    if response.Failure? {
      return Refused(500, ErrorText(response.error));
    }
    if response.value.status == 200 {
      var sessionConfig := AuthSessionConfig(session.privateKeyHexWith0x, session.uncompressedPublicKeyHexWith0x,
                                             response.value.userSWA);
      var authToken := env.services.authorizationToken(sessionConfig);
      if authToken.Failure? {
        return Refused(500, ErrorText(authToken.error));
      }
      reply := Authenticated(authToken.value, sessionConfig, response.value.userSWA, provider);
    } else {
      reply := Refused(response.value.status, AuthFailedMessage);
    }
  }

  /** `GET`: the route serves POST only. */
  function Get(): (r: AuthReply)
    ensures r.Refused? && r.status == 405 && r.error == MethodNotAllowedMessage
  {
    Refused(405, MethodNotAllowedMessage)
  }

  /** The session configuration a client reads back with the field names the
      signing code declares: `sessionPubkey` is missing from the object the
      route built. */
  function AsSigningConfig(c: AuthSessionConfig): (r: InvokeExecute.SessionConfig)
    ensures r.sessionPrivKey == c.sessionPrivKey && r.userSWA == c.userSWA && r.sessionPubkey == ""
  {
    InvokeExecute.SessionConfig(c.sessionPrivKey, "", c.userSWA)
  }

  /** The field-name mismatch does not reach signing: an op is signed alike
      whether or not the public key came through. */
  lemma PubKeyMismatchDoesNotAffectSigning(c: AuthSessionConfig, op: InvokeExecute.UserOp, s: InvokeExecute.Signing)
    ensures InvokeExecute.Signed(op, AsSigningConfig(c), s) ==
            InvokeExecute.Signed(op, InvokeExecute.SessionConfig(c.sessionPrivKey, c.sessionPubKey, c.userSWA), s)
  {
  }
}
