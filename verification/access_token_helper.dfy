/** OAuth2 access-token acquisition: dispatch over the four grant types of
    RFC 6749 (sections 4.1 to 4.4), the form posted to the token endpoint,
    the anti-CSRF `state` check that guards the authorization-code exchange,
    and the mapping of the endpoint's response onto an access-token record.

    Everything the engine delegates to (the HTTP client, the JSON parser, the
    state and PKCE caches, the response validators, integer parsing) is a
    field of `TokenEnv`; the model fixes only the order and the conditions
    under which each is consulted. */
module AccessTokenHelper {
  import opened Base
  import Scopes

  datatype ResponseType = CodeResponse | TokenResponse | NoneResponse

  datatype GrantType = AuthorizationCode | Password | ClientCredentials | RefreshToken

  const AuthorizationCodeGrantName := "authorization_code"
  const PasswordGrantName := "password"

  /** The OAuth2 strategy's configuration; every reference field may be null. */
  datatype OAuthConfig = OAuthConfig(
    clientId: Option<string>,
    clientSecret: Option<string>,
    tokenUrl: Option<string>,
    callbackUrl: Option<string>,
    responseType: Option<ResponseType>,
    grantType: Option<GrantType>,
    verifyState: bool,
    enablePkce: bool,
    username: Option<string>,
    password: Option<string>,
    scopes: Option<seq<Option<string>>>)

  datatype AccessToken = AccessToken(
    accessToken: Option<string>,
    refreshToken: Option<string>,
    idToken: Option<string>,
    tokenType: Option<string>,
    scope: Option<string>,
    expiresIn: Option<int>)

  /** Form parameters of a token request; a parameter may be put with a null value. */
  type Form = map<string, Option<string>>

  /** A parsed response body: keys of the JSON object, values as text or null. */
  type Kv = map<string, Option<string>>

  /** One POST to the token endpoint. */
  datatype Post = Post(url: Option<string>, form: Form)

  /** Why no token was obtained. */
  datatype TokenError =
    | ConfigMissing
    | StateRejected(reason: string)
    | ProviderRejected(reason: string)
    | NoAccessToken(body: string)
    | CallbackRejected(reason: string)
    | NoAccessTokenInCallback
    | ClientCredentialsUnsupported
    | MissingParameters

  /** The result of one acquisition together with the token request it issued, if any. */
  datatype TokenRun = TokenRun(result: Result<AccessToken, TokenError>, posted: Option<Post>)

  /** The collaborators of the token engine, left uninterpreted. */
  datatype TokenEnv = TokenEnv(
    blankChar: char -> bool,                                     // character test of `StrUtil.isBlank`
    checkState: (Option<string>, Option<string>, bool) -> Check, // `Oauth2Util.checkState(state, clientId, verify)`
    cachedVerifier: Option<string> -> Option<string>,            // `PkceHelper.getCacheCodeVerifier(clientId)`
    post: Post -> string,                                        // `HttpUtil.post(url, form)`
    parseKv: string -> Kv,                                       // `JsonUtil.parseKv(body)`
    checkResponse: (string, Kv) -> Check,                        // `Oauth2Util.checkOauthResponse(body, kv)`
    checkCallback: (Option<string>, Option<string>) -> Check,    // `Oauth2Util.checkOauthCallbackRequest(error, description)`
    toInt: Option<string> -> Option<int>,                        // `JapUtil.toInt`
    kvInteger: Option<string> -> Option<int>)                    // `Kv.getInteger` applied to the raw value

  const FailurePrefix := "Oauth2Strategy failed to get AccessToken."

  /** The message of the exception each error stands for. */
  function Message(e: TokenError): (m: string)
    ensures !(e.StateRejected? || e.ProviderRejected? || e.CallbackRejected?) ==> FailurePrefix <= m
    ensures e.NoAccessToken? ==> m == FailurePrefix + e.body
    ensures e.StateRejected? || e.ProviderRejected? || e.CallbackRejected? ==> m == e.reason
  {
    match e
    case ConfigMissing => FailurePrefix + " OAuthConfig cannot be empty"
    case StateRejected(reason) => reason
    case ProviderRejected(reason) => reason
    case NoAccessToken(body) => FailurePrefix + body
    case CallbackRejected(reason) => reason
    case NoAccessTokenInCallback => FailurePrefix
    case ClientCredentialsUnsupported => FailurePrefix + " Grant type of client_credentials type is not supported."
    case MissingParameters => FailurePrefix + " Missing required parameters"
  }

  /** `StrUtil.isBlank`: null, or made only of blank characters. */
  predicate IsBlank(env: TokenEnv, s: Option<string>) {
    s.None? || forall i :: 0 <= i < |s.value| ==> env.blankChar(s.value[i])
  }

  /** `ArrayUtil.isNotEmpty`: a non-null array with at least one element. */
  predicate HasScopes(scopes: Option<seq<Option<string>>>) {
    scopes.Some? && |scopes.value| > 0
  }

  /** The text `String.join` writes for each scope: a null element becomes "null". */
  function ScopeTexts(scopes: seq<Option<string>>): (texts: seq<string>)
    ensures |texts| == |scopes|
    ensures forall i :: 0 <= i < |scopes| ==> texts[i] == JavaText(scopes[i])
  {
    seq(|scopes|, i requires 0 <= i < |scopes| => JavaText(scopes[i]))
  }

  // ---------------------------------------------------------------------
  // Dispatch
  // ---------------------------------------------------------------------

  /** The branch that handles a configuration. */
  datatype Mode = AuthorizationCodeMode | ImplicitMode | PasswordMode | ClientCredentialsMode | NoMode

  /** The test guarding each branch. */
  predicate Guards(m: Mode, c: OAuthConfig) {
    match m
    case AuthorizationCodeMode => c.responseType == Some(CodeResponse)
    case ImplicitMode => c.responseType == Some(TokenResponse)
    case PasswordMode => c.grantType == Some(Password)
    case ClientCredentialsMode => c.grantType == Some(ClientCredentials)
    case NoMode => false
  }

  /** The order in which the branches are tried. */
  const Precedence: seq<Mode> := [AuthorizationCodeMode, ImplicitMode, PasswordMode, ClientCredentialsMode]

  /** Reference dispatch: the first mode of a list whose guard holds. */
  function FirstMatch(modes: seq<Mode>, c: OAuthConfig): Mode
    decreases |modes|
  {
    if |modes| == 0 then NoMode
    else if Guards(modes[0], c) then modes[0]
    else FirstMatch(modes[1..], c)
  }

  /** The branch `getToken` enters for a non-null configuration. */
  function SelectMode(c: OAuthConfig): Mode {
    if c.responseType == Some(CodeResponse) then AuthorizationCodeMode
    else if c.responseType == Some(TokenResponse) then ImplicitMode
    else if c.grantType == Some(Password) then PasswordMode
    else if c.grantType == Some(ClientCredentials) then ClientCredentialsMode
    else NoMode
  }

  /** The branch entered is the earliest one in the precedence list whose guard holds;
      no branch is entered exactly when no guard holds. */
  lemma SelectModeHonoursPrecedence(c: OAuthConfig)
    ensures var m := SelectMode(c);
      && (m == NoMode <==> forall k :: 0 <= k < |Precedence| ==> !Guards(Precedence[k], c))
      && (m != NoMode ==> Guards(m, c))
      && (m != NoMode ==>
            exists i :: 0 <= i < |Precedence| && Precedence[i] == m &&
              forall k :: 0 <= k < i ==> !Guards(Precedence[k], c))
  {
    var m := SelectMode(c);
    if m != NoMode {
      var i := if m == AuthorizationCodeMode then 0 else if m == ImplicitMode then 1
               else if m == PasswordMode then 2 else 3;
      assert Precedence[i] == m;
    }
  }

  /** The dispatch agrees with first-match over the precedence list. */
  lemma SelectModeIsFirstMatch(c: OAuthConfig)
    ensures SelectMode(c) == FirstMatch(Precedence, c)
  {
  }

  // ---------------------------------------------------------------------
  // Token requests and responses
  // ---------------------------------------------------------------------

  /** The parameters of the authorization-code token request (section 4.1.3 of RFC 6749,
      with the PKCE `code_verifier` of section 4.5 of RFC 7636). */
  function AuthorizationCodeForm(env: TokenEnv, c: OAuthConfig, code: Option<string>): (f: Form)
    ensures f.Keys == {"grant_type", "code", "client_id", "client_secret"}
                      + (if IsBlank(env, c.callbackUrl) then {} else {"redirect_uri"})
                      + (if c.responseType == Some(CodeResponse) && c.enablePkce then {"code_verifier"} else {})
    ensures f["grant_type"] == Some(AuthorizationCodeGrantName)
    ensures f["code"] == code && f["client_id"] == c.clientId && f["client_secret"] == c.clientSecret
    ensures "redirect_uri" in f ==> f["redirect_uri"] == c.callbackUrl
    ensures "code_verifier" in f ==> f["code_verifier"] == env.cachedVerifier(c.clientId)
  {
    var required := map[
      "grant_type" := Some(AuthorizationCodeGrantName),
      "code" := code,
      "client_id" := c.clientId,
      "client_secret" := c.clientSecret];
    var withRedirect := if IsBlank(env, c.callbackUrl) then required else required["redirect_uri" := c.callbackUrl];
    if c.responseType == Some(CodeResponse) && c.enablePkce
    then withRedirect["code_verifier" := env.cachedVerifier(c.clientId)]
    else withRedirect
  }

  /** The parameters of the resource-owner password token request (section 4.3.2 of RFC 6749). */
  function PasswordForm(c: OAuthConfig): (f: Form)
    ensures f.Keys == {"grant_type", "username", "password", "client_id", "client_secret"}
                      + (if HasScopes(c.scopes) then {"scope"} else {})
    ensures f["grant_type"] == Some(PasswordGrantName)
    ensures f["username"] == c.username && f["password"] == c.password
    ensures f["client_id"] == c.clientId && f["client_secret"] == c.clientSecret
    ensures "scope" in f ==> f["scope"] == Some(Scopes.Join(ScopeTexts(c.scopes.value), Scopes.Separator))
  {
    var required := map[
      "grant_type" := Some(PasswordGrantName),
      "username" := c.username,
      "password" := c.password,
      "client_id" := c.clientId,
      "client_secret" := c.clientSecret];
    if HasScopes(c.scopes)
    then required["scope" := Some(Scopes.Join(ScopeTexts(c.scopes.value), Scopes.Separator))]
    else required
  }

  /** The `scope` parameter of the password request splits back into the configured scopes,
      each null scope read back as the text "null". */
  lemma PasswordScopeRoundTrip(c: OAuthConfig)
    requires HasScopes(c.scopes) && Scopes.Separable(ScopeTexts(c.scopes.value), Scopes.Separator)
    ensures "scope" in PasswordForm(c)
    ensures Scopes.Split(PasswordForm(c)["scope"].value, Scopes.Separator) == ScopeTexts(c.scopes.value)
    ensures forall i :: 0 <= i < |c.scopes.value| && c.scopes.value[i].Some? ==>
      Scopes.Split(PasswordForm(c)["scope"].value, Scopes.Separator)[i] == c.scopes.value[i].value
  {
    Scopes.SplitJoin(ScopeTexts(c.scopes.value), Scopes.Separator);
  }

  /** `Kv.getString`: the value under a key, null when the key is absent. */
  function KvString(kv: Kv, key: string): Option<string> {
    if key in kv then kv[key] else None
  }

  /** The five textual token fields equal what `lookup` gives for the same-named parameters. */
  predicate CopiesFields(t: AccessToken, lookup: string -> Option<string>) {
    && t.accessToken == lookup("access_token")
    && t.refreshToken == lookup("refresh_token")
    && t.idToken == lookup("id_token")
    && t.tokenType == lookup("token_type")
    && t.scope == lookup("scope")
  }

  /** `mapToAccessToken`: the token record built from a parsed response. */
  function MapToAccessToken(env: TokenEnv, kv: Kv): (t: AccessToken)
    ensures CopiesFields(t, key => KvString(kv, key))
    ensures t.expiresIn == env.kvInteger(KvString(kv, "expires_in"))
  {
    AccessToken(
      KvString(kv, "access_token"),
      KvString(kv, "refresh_token"),
      KvString(kv, "id_token"),
      KvString(kv, "token_type"),
      KvString(kv, "scope"),
      env.kvInteger(KvString(kv, "expires_in")))
  }

  /** The keys of a token-endpoint response that the mapping reads. */
  const TokenKeys: set<string> := {"access_token", "refresh_token", "id_token", "token_type", "scope", "expires_in"}

  /** The value a token contributes under one response key; `expiresText` renders `expires_in`. */
  function TokenValue(t: AccessToken, expiresText: Option<string>, key: string): Option<string> {
    if key == "access_token" then t.accessToken
    else if key == "refresh_token" then t.refreshToken
    else if key == "id_token" then t.idToken
    else if key == "token_type" then t.tokenType
    else if key == "scope" then t.scope
    else if key == "expires_in" then expiresText
    else None
  }

  /** A response body carrying the given token: one key per present field. */
  function ResponseOf(t: AccessToken, expiresText: Option<string>): Kv {
    map key | key in TokenKeys && TokenValue(t, expiresText, key).Some? :: TokenValue(t, expiresText, key)
  }

  /** Round trip: mapping a response that carries a token gives that token back, provided
      the integer reader reads the rendering of `expires_in` as the original number. */
  lemma MapResponseRoundTrip(env: TokenEnv, t: AccessToken, expiresText: Option<string>)
    requires env.kvInteger(expiresText) == t.expiresIn
    ensures MapToAccessToken(env, ResponseOf(t, expiresText)) == t
    ensures "access_token" in ResponseOf(t, expiresText) <==> t.accessToken.Some?
  {
  }

  /** POST a token request and validate the response: the provider check first, then
      the presence of `access_token`; only a response passing both is mapped. */
  function Exchange(env: TokenEnv, p: Post): (r: Result<AccessToken, TokenError>)
    ensures r.Ok? <==> env.checkResponse(env.post(p), env.parseKv(env.post(p))).Pass?
                       && "access_token" in env.parseKv(env.post(p))
    ensures env.checkResponse(env.post(p), env.parseKv(env.post(p))).Fail? ==>
      r == Err(ProviderRejected(env.checkResponse(env.post(p), env.parseKv(env.post(p))).message))
    ensures (env.checkResponse(env.post(p), env.parseKv(env.post(p))).Pass?
             && "access_token" !in env.parseKv(env.post(p))) ==> r == Err(NoAccessToken(env.post(p)))
    ensures r.Ok? ==> r.value == MapToAccessToken(env, env.parseKv(env.post(p)))
  {
    var body := env.post(p);
    var tokenInfo := env.parseKv(body);
    match env.checkResponse(body, tokenInfo)
    case Fail(reason) => Err(ProviderRejected(reason))
    case Pass =>
      if "access_token" !in tokenInfo then Err(NoAccessToken(body))
      else Ok(MapToAccessToken(env, tokenInfo))
  }

  // ---------------------------------------------------------------------
  // The four grant types
  // ---------------------------------------------------------------------

  /** The state check of the authorization-code callback. */
  function StateCheck(env: TokenEnv, request: ParameterMap, c: OAuthConfig): Check {
    env.checkState(GetParameter(request, "state"), c.clientId, c.verifyState)
  }

  /** Section 4.1 of RFC 6749: verify `state`, then exchange `code` at the token endpoint. */
  function AuthorizationCodeGrant(env: TokenEnv, request: ParameterMap, c: OAuthConfig): (r: TokenRun)
    ensures StateCheck(env, request, c).Fail? <==> r.posted.None?
    ensures StateCheck(env, request, c).Fail? ==>
      r.result == Err(StateRejected(StateCheck(env, request, c).message))
    ensures r.posted.Some? ==>
      && r.posted.value.url == c.tokenUrl
      && r.posted.value.form == AuthorizationCodeForm(env, c, GetParameter(request, "code"))
      && r.result == Exchange(env, r.posted.value)
  {
    match StateCheck(env, request, c)
    case Fail(reason) => TokenRun(Err(StateRejected(reason)), None)
    case Pass =>
      var p := Post(c.tokenUrl, AuthorizationCodeForm(env, c, GetParameter(request, "code")));
      TokenRun(Exchange(env, p), Some(p))
  }

  /** Section 4.2 of RFC 6749: the token arrives on the callback itself; nothing is posted. */
  function ImplicitGrant(env: TokenEnv, request: ParameterMap): (r: TokenRun)
    ensures r.posted.None?
    ensures env.checkCallback(GetParameter(request, "error"), GetParameter(request, "error_description")).Fail? ==>
      r.result == Err(CallbackRejected(
        env.checkCallback(GetParameter(request, "error"), GetParameter(request, "error_description")).message))
    ensures r.result.Ok? <==>
      env.checkCallback(GetParameter(request, "error"), GetParameter(request, "error_description")).Pass?
      && GetParameter(request, "access_token").Some?
    ensures (env.checkCallback(GetParameter(request, "error"), GetParameter(request, "error_description")).Pass?
             && GetParameter(request, "access_token").None?) ==> r.result == Err(NoAccessTokenInCallback)
    ensures r.result.Ok? ==> CopiesFields(r.result.value, name => GetParameter(request, name))
    ensures r.result.Ok? ==> r.result.value.expiresIn == env.toInt(GetParameter(request, "expires_in"))
  {
    match env.checkCallback(GetParameter(request, "error"), GetParameter(request, "error_description"))
    case Fail(reason) => TokenRun(Err(CallbackRejected(reason)), None)
    case Pass =>
      if GetParameter(request, "access_token").None? then TokenRun(Err(NoAccessTokenInCallback), None)
      else
        var t := AccessToken(
          GetParameter(request, "access_token"),
          GetParameter(request, "refresh_token"),
          GetParameter(request, "id_token"),
          GetParameter(request, "token_type"),
          GetParameter(request, "scope"),
          env.toInt(GetParameter(request, "expires_in")));
        TokenRun(Ok(t), None)
  }

  /** Section 4.3 of RFC 6749: exchange the configured username and password. */
  function PasswordGrant(env: TokenEnv, c: OAuthConfig): (r: TokenRun)
    ensures r.posted == Some(Post(c.tokenUrl, PasswordForm(c)))
    ensures r.result == Exchange(env, r.posted.value)
  {
    var p := Post(c.tokenUrl, PasswordForm(c));
    TokenRun(Exchange(env, p), Some(p))
  }

  /** Section 4.4 of RFC 6749 is rejected outright. */
  function ClientCredentialsGrant(c: OAuthConfig): (r: TokenRun)
    ensures r.result.Err? && r.posted.None?
  {
    TokenRun(Err(ClientCredentialsUnsupported), None)
  }

  /** `getToken`: reject a null configuration, otherwise run the first branch whose guard holds. */
  function GetToken(env: TokenEnv, request: ParameterMap, config: Option<OAuthConfig>): (r: TokenRun)
    ensures config.None? ==> r == TokenRun(Err(ConfigMissing), None)
    ensures config.Some? && SelectMode(config.value) == ClientCredentialsMode ==>
      r == TokenRun(Err(ClientCredentialsUnsupported), None)
    ensures config.Some? && SelectMode(config.value) == NoMode ==>
      r == TokenRun(Err(MissingParameters), None)
    ensures config.Some? && SelectMode(config.value) == ImplicitMode ==> r == ImplicitGrant(env, request)
    ensures config.Some? && SelectMode(config.value) == PasswordMode ==> r == PasswordGrant(env, config.value)
    ensures config.Some? && SelectMode(config.value) == AuthorizationCodeMode ==>
      r == AuthorizationCodeGrant(env, request, config.value)
    ensures r.posted.Some? ==>
      config.Some? && SelectMode(config.value) in {AuthorizationCodeMode, PasswordMode}
  {
    if config.None? then TokenRun(Err(ConfigMissing), None)
    else
      var c := config.value;
      match SelectMode(c)
      case AuthorizationCodeMode => AuthorizationCodeGrant(env, request, c)
      case ImplicitMode => ImplicitGrant(env, request)
      case PasswordMode => PasswordGrant(env, c)
      case ClientCredentialsMode => ClientCredentialsGrant(c)
      case NoMode => TokenRun(Err(MissingParameters), None)
  }

  /** Every token `getToken` returns was built from a validated source: a token-endpoint
      response that passed the provider check and carries `access_token`, or an implicit
      callback that passed its error check and carries `access_token`. */
  lemma TokenOnlyFromValidatedSource(env: TokenEnv, request: ParameterMap, config: Option<OAuthConfig>)
    ensures var r := GetToken(env, request, config);
      r.result.Ok? ==>
        if r.posted.Some? then
          var body := env.post(r.posted.value);
          && env.checkResponse(body, env.parseKv(body)).Pass?
          && "access_token" in env.parseKv(body)
          && r.result.value == MapToAccessToken(env, env.parseKv(body))
        else
          && config.Some? && SelectMode(config.value) == ImplicitMode
          && GetParameter(request, "access_token").Some?
          && r.result.value.accessToken == GetParameter(request, "access_token")
  {
  }

  /** In the authorization-code branch the token request carries `redirect_uri` exactly
      when a callback URL is configured, and `code_verifier` exactly when PKCE is on. */
  lemma AuthorizationCodeRequestShape(env: TokenEnv, request: ParameterMap, c: OAuthConfig)
    requires SelectMode(c) == AuthorizationCodeMode
    requires StateCheck(env, request, c).Pass?
    ensures var r := GetToken(env, request, Some(c));
      && r.posted.Some?
      && r.posted.value.form["grant_type"] == Some(AuthorizationCodeGrantName)
      && ("redirect_uri" in r.posted.value.form <==> !IsBlank(env, c.callbackUrl))
      && ("code_verifier" in r.posted.value.form <==> c.enablePkce)
  {
  }

  /** A client-credentials configuration fails the same way whatever its other fields hold. */
  lemma ClientCredentialsIgnoresOtherFields(env: TokenEnv, request: ParameterMap, c1: OAuthConfig, c2: OAuthConfig)
    requires SelectMode(c1) == ClientCredentialsMode && SelectMode(c2) == ClientCredentialsMode
    ensures GetToken(env, request, Some(c1)) == GetToken(env, request, Some(c2))
    ensures GetToken(env, request, Some(c1)).result == Err(ClientCredentialsUnsupported)
  {
  }

  /** The password scenario: the endpoint answers `access_token` and `expires_in` only, and the
      token carries exactly those two. */
  lemma PasswordScenario(env: TokenEnv, request: ParameterMap, c: OAuthConfig)
    requires c.responseType.None? && c.grantType == Some(Password)
    requires var body := env.post(Post(c.tokenUrl, PasswordForm(c)));
      && env.parseKv(body) == map["access_token" := Some("tok1"), "expires_in" := Some("7200")]
      && env.checkResponse(body, env.parseKv(body)).Pass?
      && env.kvInteger(Some("7200")) == Some(7200)
    ensures GetToken(env, request, Some(c)).result == Ok(AccessToken(Some("tok1"), None, None, None, None, Some(7200)))
  {
  }
}
