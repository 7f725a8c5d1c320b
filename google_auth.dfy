/** The server-side identity service (`lib/auth/google-auth.ts`): fail-fast construction from the
    environment, the OAuth 2.0 authorization request (section 4.1.1 of RFC 6749), the
    classification of token-endpoint errors (section 5.2 of RFC 6749), the projection of the
    user-info payload, the session-token claims and the configuration report. Network calls and
    JWT signing are outside: their outcomes are inputs. */
module GoogleAuth {
  import opened Wrappers
  import opened Text
  import opened FormUrlEncoding
  import opened AuthTypes

  // ---------------------------------------------------------------- constants

  const DefaultRedirectUri: string := "http://localhost:3000/api/auth/callback"
  const PlaceholderClientId: string := "your_actual_google_client_id_here"
  const PlaceholderClientSecret: string := "your_actual_google_client_secret_here"
  const MinJwtSecretLength: nat := 32
  const ClientIdDomain: string := ".googleusercontent.com"

  const AuthorizationEndpoint: string := "https://accounts.google.com/o/oauth2/v2/auth"
  /** What precedes the query in every authorization URL. */
  const AuthUrlPrefix: string := AuthorizationEndpoint + "?"

  const MissingClientIdError: string := "GOOGLE_CLIENT_ID environment variable is required"
  const MissingClientSecretError: string := "GOOGLE_CLIENT_SECRET environment variable is required"
  const WeakJwtSecretError: string :=
    "JWT_SECRET environment variable must be at least 32 characters long"
  const ClientIdNotReadyError: string :=
    "Google Client ID is not properly configured. Please check your .env.local file."
  /** The stem shared by the two configuration messages of the token exchange. */
  const InvalidStem: string := "Invalid "
  const InvalidClientError: string :=
    InvalidStem + "Google Client ID or Client Secret. Please check your OAuth configuration."
  const InvalidRequestError: string :=
    InvalidStem + "OAuth request. Please check your redirect URI configuration."
  const ExchangeFailedPrefix: string := "Failed to exchange code for token: "
  const UserInfoFailedError: string := "Failed to fetch user info from Google"
  const ExchangeFallbackError: string := "Authentication failed. Please try again."

  const ClientIdNotConfigured: string := "GOOGLE_CLIENT_ID is not configured"
  const ClientSecretNotConfigured: string := "GOOGLE_CLIENT_SECRET is not configured"
  const RedirectUriNotConfigured: string := "GOOGLE_REDIRECT_URI is not configured"
  const ClientIdFormatInvalid: string :=
    "GOOGLE_CLIENT_ID appears to be invalid (should end with .googleusercontent.com)"

  /** Seven days in milliseconds. */
  const SessionTtlMs: int := 7 * 24 * 60 * 60 * 1000

  // ---------------------------------------------------------------- construction

  /** The environment variables read at construction; None is an unset variable. */
  datatype Env = Env(
    googleClientId: Option<string>,
    googleClientSecret: Option<string>,
    googleRedirectUri: Option<string>,
    jwtSecret: Option<string>)

  /** A JWT secret the constructor accepts: set, and at least 32 characters long. */
  predicate StrongJwtSecret(secret: Option<string>) {
    secret.Some? && Utf16Length(secret.value) >= MinJwtSecretLength
  }

  /** The secret length is measured in UTF-16 code units: 32 characters always suffice, fewer
      than 16 never do, and 16 characters beyond U+FFFF already pass. */
  lemma JwtSecretLengthUnits(secret: string)
    ensures |secret| >= 32 ==> StrongJwtSecret(Some(secret))
    ensures |secret| < 16 ==> !StrongJwtSecret(Some(secret))
    ensures |secret| == 16 && (forall i | 0 <= i < |secret| :: secret[i] as int >= 0x10000) ==>
      StrongJwtSecret(Some(secret))
    ensures (forall i | 0 <= i < |secret| :: secret[i] as int < 0x10000) ==>
      (StrongJwtSecret(Some(secret)) <==> |secret| >= 32)
  {
    if forall i | 0 <= i < |secret| :: secret[i] as int >= 0x10000 {
      Utf16LengthAstral(secret);
    }
    if forall i | 0 <= i < |secret| :: secret[i] as int < 0x10000 {
      Utf16LengthBasic(secret);
    }
  }

  /** Sixteen U+1F600 characters make a JWT secret of 32 code units, which construction accepts. */
  lemma AstralSecretAccepted(clientId: string, clientSecret: string)
    requires clientId != "" && clientSecret != ""
    ensures ConstructionError(Env(Some(clientId), Some(clientSecret), None, Some(seq(16, i => '\U{1F600}')))).None?
  {
    JwtSecretLengthUnits(seq(16, i => '\U{1F600}'));
  }

  /** The error the constructor throws, or None when it completes. The checks run in order, so
      each error is reported only when every earlier check passed. */
  function ConstructionError(env: Env): (r: Option<string>)
    ensures r == Some(MissingClientIdError) <==> OrDefault(env.googleClientId, "") == ""
    ensures r == Some(MissingClientSecretError) <==>
      OrDefault(env.googleClientId, "") != "" && OrDefault(env.googleClientSecret, "") == ""
    ensures r == Some(WeakJwtSecretError) <==>
      OrDefault(env.googleClientId, "") != "" && OrDefault(env.googleClientSecret, "") != ""
      && !StrongJwtSecret(env.jwtSecret)
    ensures r.None? <==>
      OrDefault(env.googleClientId, "") != "" && OrDefault(env.googleClientSecret, "") != ""
      && StrongJwtSecret(env.jwtSecret)
  {
    if OrDefault(env.googleClientId, "") == "" then Some(MissingClientIdError)
    else if OrDefault(env.googleClientSecret, "") == "" then Some(MissingClientSecretError)
    else if !StrongJwtSecret(env.jwtSecret) then Some(WeakJwtSecretError)
    else None
  }

  /** The outcome of `new GoogleAuthService()`: the service, or the message of the error thrown. */
  datatype Construction = Built(service: GoogleAuthService) | Thrown(message: string)

  /** `new GoogleAuthService()`: read the environment, apply the defaults, then check in order. */
  method Create(env: Env) returns (r: Construction)
    ensures r.Thrown? <==> ConstructionError(env).Some?
    ensures r.Thrown? ==> r.message == ConstructionError(env).value
    ensures r.Built? ==> fresh(r.service) && r.service.Valid()
    ensures r.Built? ==>
      r.service.clientId == env.googleClientId.value &&
      r.service.clientSecret == env.googleClientSecret.value &&
      r.service.redirectUri == OrDefault(env.googleRedirectUri, DefaultRedirectUri) &&
      r.service.jwtSecret == env.jwtSecret.value
  {
    var clientId := OrDefault(env.googleClientId, "");
    var clientSecret := OrDefault(env.googleClientSecret, "");
    var redirectUri := OrDefault(env.googleRedirectUri, DefaultRedirectUri);
    if clientId == "" {
      return Thrown(MissingClientIdError);
    }
    if clientSecret == "" {
      return Thrown(MissingClientSecretError);
    }
    if env.jwtSecret.None? || Utf16Length(env.jwtSecret.value) < MinJwtSecretLength {
      return Thrown(WeakJwtSecretError);
    }
    var service := new GoogleAuthService(clientId, clientSecret, redirectUri, env.jwtSecret.value);
    return Built(service);
  }

  // ---------------------------------------------------------------- token endpoint

  /** The JSON error body of a failed token request; None when the body is not JSON. */
  datatype TokenErrorBody = TokenErrorBody(error: Option<string>, errorDescription: Option<string>)

  /** What the token endpoint answered: a grant, an error status, or a fetch that rejected. */
  datatype TokenResponse =
    | TokenGranted
    | TokenRejected(status: nat, statusText: string, body: Option<TokenErrorBody>)
    | TokenFetchFailed(message: Option<string>)

  /** The user-info payload; `otherFields` stands for everything else the provider sends. */
  datatype UserInfoPayload = UserInfoPayload(
    id: string,
    email: string,
    name: string,
    picture: Option<string>,
    verifiedEmail: bool,
    otherFields: map<string, string>)

  datatype UserInfoResponse =
    | UserInfoOk(payload: UserInfoPayload)
    | UserInfoRejected(status: nat, statusText: string)
    | UserInfoFetchFailed(message: Option<string>)

  /** The messages that point the operator at the OAuth client configuration. */
  predicate IsConfigurationError(message: string) {
    message == InvalidClientError || message == InvalidRequestError
  }

  /** The message thrown for a failed token request (`errorData` is `{}` when the body is not
      JSON). */
  function TokenErrorMessage(body: Option<TokenErrorBody>, statusText: string): (m: string)
    ensures IsConfigurationError(m) <==>
      body.Some? && (body.value.error == Some("invalid_client") || body.value.error == Some("invalid_request"))
    ensures body.Some? && body.value.error == Some("invalid_client") ==> m == InvalidClientError
    ensures body.Some? && body.value.error == Some("invalid_request") ==> m == InvalidRequestError
    ensures !IsConfigurationError(m) ==>
      m == ExchangeFailedPrefix +
        (if body.Some? then OrDefault(body.value.errorDescription, statusText) else statusText)
  {
    var data := body.GetOr(TokenErrorBody(None, None));
    if data.error == Some("invalid_client") then InvalidClientError
    else if data.error == Some("invalid_request") then InvalidRequestError
    else
      var m := ExchangeFailedPrefix + OrDefault(data.errorDescription, statusText);
      assert m[0] == 'F' && InvalidClientError[0] == InvalidStem[0] == 'I' == InvalidRequestError[0];
      m
  }

  /** The identity kept from the user-info payload: exactly its id, email, name, picture and
      verification flag; everything else the provider sent is dropped. */
  function ProjectUser(payload: UserInfoPayload): (u: GoogleUser)
    ensures u.id == payload.id && u.email == payload.email && u.name == payload.name
    ensures u.picture == payload.picture && u.verifiedEmail == payload.verifiedEmail
    ensures u.kycStatus.None?
  {
    GoogleUser(payload.id, payload.email, payload.name, payload.picture, payload.verifiedEmail, None)
  }

  /** Nothing outside the five projected fields reaches the identity. */
  lemma ProjectUserIgnoresOtherFields(payload: UserInfoPayload, other: map<string, string>)
    ensures ProjectUser(payload.(otherFields := other)) == ProjectUser(payload)
  {
  }

  /** The result of `exchangeCodeForToken` given what the two endpoints answered. A rejected fetch
      rethrows its own `Error` (None: a thrown value that is not an `Error`, replaced by a generic
      one); the user-info endpoint is consulted only after a grant. */
  function ExchangeCodeForToken(token: TokenResponse, userInfo: UserInfoResponse)
    : (r: Result<GoogleUser, string>)
    ensures r.Ok? <==> token.TokenGranted? && userInfo.UserInfoOk?
    ensures r.Ok? ==> r.value == ProjectUser(userInfo.payload)
    ensures token.TokenRejected? ==> r == Err(TokenErrorMessage(token.body, token.statusText))
    ensures token.TokenGranted? && userInfo.UserInfoRejected? ==> r == Err(UserInfoFailedError)
    ensures token.TokenFetchFailed? ==> r == Err(token.message.GetOr(ExchangeFallbackError))
    ensures token.TokenGranted? && userInfo.UserInfoFetchFailed? ==>
      r == Err(userInfo.message.GetOr(ExchangeFallbackError))
  {
    match token
    case TokenFetchFailed(message) => Err(message.GetOr(ExchangeFallbackError))
    case TokenRejected(_, statusText, body) => Err(TokenErrorMessage(body, statusText))
    case TokenGranted =>
      match userInfo
      case UserInfoFetchFailed(message) => Err(message.GetOr(ExchangeFallbackError))
      case UserInfoRejected(_, _) => Err(UserInfoFailedError)
      case UserInfoOk(payload) => Ok(ProjectUser(payload))
  }

  /** An `invalid_client` answer is reported as a configuration problem, never as a generic
      exchange failure; other rejections are configuration problems only for `invalid_request`. */
  lemma ExchangeClassification(token: TokenResponse, userInfo: UserInfoResponse)
    requires token.TokenRejected?
    ensures IsConfigurationError(ExchangeCodeForToken(token, userInfo).error) <==>
      token.body.Some? &&
      (token.body.value.error == Some("invalid_client") || token.body.value.error == Some("invalid_request"))
    ensures token.body.Some? && token.body.value.error == Some("invalid_client") ==>
      ExchangeCodeForToken(token, userInfo) == Err(InvalidClientError)
  {
  }

  // ---------------------------------------------------------------- session tokens

  /** What `jwtVerify` concluded about a token; signature and expiry checks happen there. */
  datatype VerifyOutcome = Verified(payload: AuthSession) | VerificationFailed(reason: string)

  /** `verifySessionToken`: the verified payload, or None for any failure; it never throws. */
  function VerifySessionToken(outcome: VerifyOutcome): (r: Option<AuthSession>)
    ensures r.Some? <==> outcome.Verified?
    ensures r.Some? ==> r.value == outcome.payload
  {
    match outcome
    case Verified(payload) => Some(payload)
    case VerificationFailed(_) => None
  }

  /** The `exp` claim `setExpirationTime` writes for an expiry instant: whole seconds, rounded
      down. */
  function ExpirationClaim(expiresAt: int): (exp: int)
    ensures exp * 1000 <= expiresAt < exp * 1000 + 1000
  {
    expiresAt / 1000
  }

  /** `createSessionToken` reads the clock twice: `Date.now()` for the expiry and `new Date()`
      for `createdAt`. With a clock that does not run backwards the token lives at most seven
      days from its creation, exactly seven when both readings agree. */
  lemma SessionLifetime(service: GoogleAuthService, user: GoogleUser, walletAddress: Option<string>,
                        smartWalletId: Option<string>, expiryClock: int, creationClock: int)
    requires expiryClock <= creationClock
    ensures var s := service.SessionClaims(user, walletAddress, smartWalletId, expiryClock, creationClock);
      s.expiresAt - s.createdAt <= SessionTtlMs &&
      (s.expiresAt - s.createdAt == SessionTtlMs <==> expiryClock == creationClock) &&
      ExpirationClaim(s.expiresAt) == (expiryClock + SessionTtlMs) / 1000
  {
  }

  // ---------------------------------------------------------------- the service

  /** Rank of a configuration problem in the order the checks run. */
  function CheckRank(message: string): nat {
    if message == ClientIdNotConfigured then 0
    else if message == ClientSecretNotConfigured then 1
    else if message == RedirectUriNotConfigured then 2
    else if message == ClientIdFormatInvalid then 3
    else 4
  }

  /** The message when `flagged`, nothing otherwise. */
  function ReportIf(flagged: bool, message: string): seq<string> {
    if flagged then [message] else []
  }

  /** The configuration problems of a service, each check contributing its message in turn. */
  function ConfigurationProblems(clientId: string, clientSecret: string, redirectUri: string): (r: seq<string>)
    ensures r == [] <==>
      clientId != "" && clientId != PlaceholderClientId && Contains(clientId, ClientIdDomain) &&
      clientSecret != "" && clientSecret != PlaceholderClientSecret && redirectUri != ""
  {
    ReportIf(clientId == "" || clientId == PlaceholderClientId, ClientIdNotConfigured) +
    ReportIf(clientSecret == "" || clientSecret == PlaceholderClientSecret, ClientSecretNotConfigured) +
    ReportIf(redirectUri == "", RedirectUriNotConfigured) +
    ReportIf(clientId != "" && !Contains(clientId, ClientIdDomain), ClientIdFormatInvalid)
  }

  /** Each message is reported exactly when its check fails, at most once, and the report is
      ordered as the checks run; it is empty exactly when the configuration is usable. */
  lemma ConfigurationProblemsMeaning(clientId: string, clientSecret: string, redirectUri: string)
    ensures var errors := ConfigurationProblems(clientId, clientSecret, redirectUri);
      |errors| <= 4 &&
      (ClientIdNotConfigured in errors <==> clientId == "" || clientId == PlaceholderClientId) &&
      (ClientSecretNotConfigured in errors <==> clientSecret == "" || clientSecret == PlaceholderClientSecret) &&
      (RedirectUriNotConfigured in errors <==> redirectUri == "") &&
      (ClientIdFormatInvalid in errors <==> clientId != "" && !Contains(clientId, ClientIdDomain)) &&
      (forall e | e in errors :: CheckRank(e) < 4)
  {
    RanksOfConfigurationMessages();
  }

  /** The report lists the problems in the order the checks run, each once. */
  lemma ConfigurationProblemsOrdered(clientId: string, clientSecret: string, redirectUri: string)
    ensures var errors := ConfigurationProblems(clientId, clientSecret, redirectUri);
      forall i, j | 0 <= i < j < |errors| :: CheckRank(errors[i]) < CheckRank(errors[j])
  {
    RanksOfConfigurationMessages();
  }

  lemma RanksOfConfigurationMessages()
    ensures CheckRank(ClientIdNotConfigured) == 0 && CheckRank(ClientSecretNotConfigured) == 1
    ensures CheckRank(RedirectUriNotConfigured) == 2 && CheckRank(ClientIdFormatInvalid) == 3
  {
  }

  /** No parameter name occurs twice. */
  predicate NamesDistinct(ps: seq<Param>) {
    forall i, j | 0 <= i < j < |ps| :: ps[i].name != ps[j].name
  }

  /** The parameters of the authorization request, in the order the URL carries them: the four
      that section 4.1.1 of RFC 6749 asks of a code request, the OpenID scopes, offline access
      and forced consent, each name once. */
  function AuthRequestParams(clientId: string, redirectUri: string, state: string): (r: seq<Param>)
    ensures Param("response_type", "code") in r && Param("client_id", clientId) in r
    ensures Param("redirect_uri", redirectUri) in r && Param("state", state) in r
    ensures Param("scope", "openid email profile") in r
    ensures Param("access_type", "offline") in r && Param("prompt", "consent") in r
    ensures |r| == 7 && NamesDistinct(r)
  {
    var r := [ Param("client_id", clientId),
               Param("redirect_uri", redirectUri),
               Param("response_type", "code"),
               Param("scope", "openid email profile"),
               Param("access_type", "offline"),
               Param("prompt", "consent"),
               Param("state", state) ];
    assert NamesDistinct(r) by {
      forall i, j | 0 <= i < j < |r| ensures r[i].name != r[j].name {
        if i == 3 && j == 6 {
          assert r[i].name[1] != r[j].name[1];
        } else {
          assert |r[i].name| != |r[j].name|;
        }
      }
    }
    r
  }

  /** The form fields of the access-token request: the grant type, code and redirect URI of
      section 4.1.3 of RFC 6749 and the client credentials in the body (section 2.3.1), each
      name once. */
  function TokenRequestParams(clientId: string, clientSecret: string, code: string, redirectUri: string)
    : (r: seq<Param>)
    ensures Param("grant_type", "authorization_code") in r && Param("code", code) in r
    ensures Param("redirect_uri", redirectUri) in r
    ensures Param("client_id", clientId) in r && Param("client_secret", clientSecret) in r
    ensures |r| == 5 && NamesDistinct(r)
  {
    var r := [ Param("client_id", clientId),
               Param("client_secret", clientSecret),
               Param("code", code),
               Param("grant_type", "authorization_code"),
               Param("redirect_uri", redirectUri) ];
    assert NamesDistinct(r) by {
      forall i, j | 0 <= i < j < |r| ensures r[i].name != r[j].name {
        assert |r[i].name| != |r[j].name|;
      }
    }
    r
  }

  class GoogleAuthService {
    const clientId: string
    const clientSecret: string
    const redirectUri: string
    /** The signing key; its UTF-8 encoding is what signs, which is not modelled. */
    const jwtSecret: string

    /** What construction guarantees. */
    ghost predicate Valid() {
      clientId != "" && clientSecret != "" && redirectUri != "" && Utf16Length(jwtSecret) >= MinJwtSecretLength
    }

    /** The field assignments, once the environment checks of `Create` have passed. */
    constructor (clientId: string, clientSecret: string, redirectUri: string, jwtSecret: string)
      requires clientId != "" && clientSecret != "" && redirectUri != ""
      requires Utf16Length(jwtSecret) >= MinJwtSecretLength
      ensures Valid()
      ensures this.clientId == clientId && this.clientSecret == clientSecret
      ensures this.redirectUri == redirectUri && this.jwtSecret == jwtSecret
    {
      this.clientId := clientId;
      this.clientSecret := clientSecret;
      this.redirectUri := redirectUri;
      this.jwtSecret := jwtSecret;
    }

    /** `getAuthUrl`: refuses an empty or placeholder client id; otherwise the endpoint followed
        by a query that reads back as exactly the seven request parameters, in order. The
        anti-replay `state` is an input: it comes from `Math.random` and nothing makes it fresh. */
    function AuthUrl(state: string): (r: Result<string, string>)
      ensures r.Err? <==> clientId == "" || clientId == PlaceholderClientId
      ensures r.Err? ==> r.error == ClientIdNotReadyError
      ensures r.Ok? ==>
        |AuthUrlPrefix| <= |r.value| && r.value[..|AuthUrlPrefix|] == AuthUrlPrefix &&
        ParseQuery(r.value[|AuthUrlPrefix|..]) == Some(AuthRequestParams(clientId, redirectUri, state))
    {
      if clientId == "" || clientId == PlaceholderClientId then Err(ClientIdNotReadyError)
      else
        var query := Serialize(AuthRequestParams(clientId, redirectUri, state));
        ParseSerialize(AuthRequestParams(clientId, redirectUri, state));
        assert (AuthUrlPrefix + query)[|AuthUrlPrefix|..] == query;
        Ok(AuthUrlPrefix + query)
    }

    /** The body `exchangeCodeForToken` posts: it reads back as the five token-request fields. */
    function TokenRequestBody(code: string): (body: string)
      ensures ParseQuery(body) == Some(TokenRequestParams(clientId, clientSecret, code, redirectUri))
    {
      ParseSerialize(TokenRequestParams(clientId, clientSecret, code, redirectUri));
      Serialize(TokenRequestParams(clientId, clientSecret, code, redirectUri))
    }

    /** The claims `createSessionToken` signs: the user's id, email and name, the optional wallet
        link, `createdAt` from the second clock reading and an expiry seven days after the first. */
    function SessionClaims(user: GoogleUser, walletAddress: Option<string>, smartWalletId: Option<string>,
                           expiryClock: int, creationClock: int): (s: AuthSession)
      ensures s.userId == user.id && s.email == user.email && s.name == user.name
      ensures s.walletAddress == walletAddress && s.smartWalletId == smartWalletId
      ensures s.createdAt == creationClock && s.expiresAt - expiryClock == 604800000
      ensures s.user.None? && s.wallet.None?
    {
      AuthSession(user.id, user.email, user.name, walletAddress, smartWalletId,
                  creationClock, expiryClock + SessionTtlMs, None, None)
    }

    /** `validateConfiguration`: the problems found, in check order, and whether there are none. */
    method ValidateConfiguration() returns (isValid: bool, errors: seq<string>)
      ensures errors == ConfigurationProblems(clientId, clientSecret, redirectUri)
      ensures isValid <==> |errors| == 0
    {
      errors := [];
      if clientId == "" || clientId == PlaceholderClientId {
        errors := errors + [ClientIdNotConfigured];
      }
      if clientSecret == "" || clientSecret == PlaceholderClientSecret {
        errors := errors + [ClientSecretNotConfigured];
      }
      if redirectUri == "" {
        errors := errors + [RedirectUriNotConfigured];
      }
      if clientId != "" && !Contains(clientId, ClientIdDomain) {
        errors := errors + [ClientIdFormatInvalid];
      }
      isValid := |errors| == 0;
    }
  }

  /** The placeholder client id contains no `.`, so it cannot carry the provider's domain. */
  lemma PlaceholderLacksDomain()
    ensures !Contains(PlaceholderClientId, ClientIdDomain)
  {
    NotContainsMissingFirst(PlaceholderClientId, ClientIdDomain);
  }

  /** Construction only rejects an empty client id: a placeholder id passes it, and then the
      service refuses to build an authorization URL while its configuration report lists the id
      twice, as unconfigured and as malformed. */
  method PlaceholderClientIdScenario(secret: string, jwtSecret: string, state: string)
    returns (built: bool, url: Result<string, string>, isValid: bool, errors: seq<string>)
    requires secret != "" && Utf16Length(jwtSecret) >= MinJwtSecretLength
    requires secret != PlaceholderClientSecret
    ensures built && url == Err(ClientIdNotReadyError) && !isValid
    ensures errors == [ClientIdNotConfigured, ClientIdFormatInvalid]
  {
    var env := Env(Some(PlaceholderClientId), Some(secret), None, Some(jwtSecret));
    var r := Create(env);
    built := r.Built?;
    var service := r.service;
    url := service.AuthUrl(state);
    PlaceholderLacksDomain();
    isValid, errors := service.ValidateConfiguration();
  }

  /** On a built service the redirect-URI check never fires (construction supplies a default),
      and the client id is reported unconfigured only when it is the placeholder. */
  lemma BuiltServiceReports(service: GoogleAuthService)
    requires service.Valid()
    ensures var errors := ConfigurationProblems(service.clientId, service.clientSecret, service.redirectUri);
      RedirectUriNotConfigured !in errors &&
      (ClientIdNotConfigured in errors <==> service.clientId == PlaceholderClientId) &&
      (ClientSecretNotConfigured in errors <==> service.clientSecret == PlaceholderClientSecret)
  {
    ConfigurationProblemsMeaning(service.clientId, service.clientSecret, service.redirectUri);
  }
}
