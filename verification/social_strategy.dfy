/** The social-login strategy: resolve the platform adapter from the
    configuration, send a fresh request to the provider's authorization page,
    complete a callback by logging in through the adapter and resolving the
    internal user, and forward token refresh, revoke and user-info calls.

    The adapter library, the user service and the session handling of the
    strategy base are fields of `StrategyEnv`. Each run records the calls it
    makes to them as a trace of `Event`s, so that the order of the protocol
    steps can be stated and checked against the state machine of one
    authentication attempt. */
module SocialStrategy {
  import opened Base
  import opened SocialCallback

  /** The adapter library's own client configuration. */
  datatype AuthConfig = AuthConfig(clientId: Option<string>, clientSecret: Option<string>, redirectUri: Option<string>)

  datatype SocialConfig = SocialConfig(platform: string, state: Option<string>, justAuthConfig: Option<AuthConfig>)

  /** A strategy configuration: the social variant, or the configuration of some other strategy. */
  datatype AuthenticateConfig = Social(social: SocialConfig) | OtherStrategy(kind: string)

  /** A user of the application. */
  datatype JapUser = JapUser(userId: string, username: Option<string>)

  /** A user as the third-party platform describes it. */
  datatype AuthUser = AuthUser(uuid: Option<string>, username: Option<string>, source: Option<string>)

  datatype AuthToken = AuthToken(accessToken: Option<string>, refreshToken: Option<string>)

  /** The status a revoke call reports. */
  datatype RevokeStatus = RevokeStatus(code: int)

  /** The adapter's response envelope: an application-level status, a payload that may be null, a message that may be null. */
  datatype AuthResponse<T> = AuthResponse(ok: bool, data: Option<T>, msg: Option<string>)

  /** One adapter call: it throws (with a message that may be null), returns a null
      response, or answers. */
  datatype Call<T> = Threw(message: Option<string>) | AnsweredNull | Answered(response: AuthResponse<T>)

  /** An adapter call outside the response envelope: it throws or gives a value. */
  datatype Attempt<T> = Thrown(message: Option<string>) | Gave(value: T)

  /** The user-information call found on an adapter, when it has one. */
  datatype UserInfoCall = InfoThrew | InfoReturned(user: Option<AuthUser>)

  /** A per-platform protocol adapter. */
  datatype Adapter = Adapter(
    authorize: Option<string> -> Attempt<Option<string>>,
    login: AuthCallback -> Call<AuthUser>,
    refresh: AuthToken -> Call<AuthToken>,
    revoke: AuthToken -> Call<RevokeStatus>,
    userInfo: Option<AuthToken -> UserInfoCall>)

  /** The exceptions of the strategy. */
  datatype JapError =
    | ConfigMismatch            // a configuration that is not a social configuration
    | MissAuthConfig            // the adapter library's configuration is missing
    | SocialFailure(message: string)
    | UserFailure(message: string)
    | NullDereference                 // a `NullPointerException` on a null adapter response
    | Unchecked(detail: Option<string>)   // an adapter exception that no handler of the strategy catches

  datatype Payload = UserPayload(user: JapUser) | UrlPayload(url: Option<string>) | TokenPayload(token: AuthToken)
                   | AuthUserPayload(authUser: Option<AuthUser>) | NoPayload

  /** The uniform result envelope. */
  datatype JapResponse = Success(payload: Payload) | Error(error: JapError)

  /** A public entry point either returns an envelope or lets an exception escape. */
  datatype Outcome = Returned(response: JapResponse) | Raised(error: JapError)

  /** The collaborators of the strategy, left uninterpreted. */
  datatype StrategyEnv = StrategyEnv(
    requestFor: (string, SocialConfig, AuthConfig) -> Adapter,  // `JustAuthRequestContext.getRequest`
    findUser: (string, Option<string>) -> Option<JapUser>,      // `getByPlatformAndUid(platform, uuid)`
    createUser: AuthUser -> Option<JapUser>,                    // `createAndGetSocialUser(socialUser)`
    loginSuccess: JapUser -> JapResponse,                       // the base strategy's `loginSuccess`
    socialCaughtAsUser: bool)                                   // whether the user-error handler also catches social errors

  /** The calls one authentication attempt makes. */
  datatype Event =
    | Authorized(state: Option<string>)
    | LoginCalled(callback: AuthCallback)
    | LookedUp(platform: string, uid: Option<string>, found: Option<JapUser>)
    | Created(socialUser: AuthUser, created: Option<JapUser>)
    | LoggedIn(user: JapUser)

  datatype Run = Run(outcome: Outcome, trace: seq<Event>)

  // ---------------------------------------------------------------------
  // The state machine of one authentication attempt
  // ---------------------------------------------------------------------

  datatype Phase =
    | Start
    | Redirected
    | CallbackReceived
    | Unresolved
    | Resolved(user: JapUser)
    | ResolutionFailed
    | Done(user: JapUser)

  /** The allowed transitions; `None` where an event may not occur. */
  function Step(p: Phase, e: Event): Option<Phase> {
    match (p, e)
    case (Start, Authorized(_)) => Some(Redirected)
    case (Start, LoginCalled(_)) => Some(CallbackReceived)
    case (CallbackReceived, LookedUp(_, _, found)) =>
      if found.Some? then Some(Resolved(found.value)) else Some(Unresolved)
    case (Unresolved, Created(_, created)) =>
      if created.Some? then Some(Resolved(created.value)) else Some(ResolutionFailed)
    case (Resolved(u), LoggedIn(v)) => if u == v then Some(Done(u)) else None
    case _ => None
  }

  /** The phase a trace leads to from `p`, if every step is allowed. */
  function Walk(p: Phase, trace: seq<Event>): Option<Phase>
    decreases |trace|
  {
    if |trace| == 0 then Some(p)
    else
      match Step(p, trace[0])
      case None => None
      case Some(q) => Walk(q, trace[1..])
  }

  // ---------------------------------------------------------------------
  // Operations
  // ---------------------------------------------------------------------

  /** `getAuthRequest`: a non-social configuration and a missing adapter configuration
      are errors; otherwise the adapter for the platform. */
  function GetAuthRequest(env: StrategyEnv, config: AuthenticateConfig): (r: Result<Adapter, JapError>)
    ensures r.Err? <==> !config.Social? || config.social.justAuthConfig.None?
    ensures !config.Social? ==> r.Err? && r.error == ConfigMismatch
    ensures config.Social? && config.social.justAuthConfig.None? ==> r.Err? && r.error == MissAuthConfig
    ensures r.Ok? ==>
      r.value == env.requestFor(config.social.platform, config.social, config.social.justAuthConfig.value)
  {
    if !config.Social? then Err(ConfigMismatch)
    else
      var sc := config.social;
      if sc.justAuthConfig.None? then Err(MissAuthConfig)
      else Ok(env.requestFor(sc.platform, sc, sc.justAuthConfig.value))
  }

  /** The ok/null gate: an answer counts as success only when its status is ok and it carries data. */
  predicate Passes<T>(c: Call<T>) {
    c.Answered? && c.response.ok && c.response.data.Some?
  }

  /** `login`: call the adapter, gate its answer, then resolve the user by platform and uid,
      creating one only when the lookup finds none. */
  function Login(env: StrategyEnv, source: string, adapter: Adapter, cb: AuthCallback): (r: Run)
    ensures |r.trace| >= 1 && r.trace[0] == LoginCalled(cb)
    ensures !Passes(adapter.login(cb)) ==> r.trace == [LoginCalled(cb)] && r.outcome.Raised?
    ensures adapter.login(cb).AnsweredNull? ==> r.outcome == Raised(NullDereference)
    ensures adapter.login(cb).Answered? && !Passes(adapter.login(cb)) ==>
      r.outcome.Raised? && r.outcome.error.UserFailure?
    ensures r.outcome.Raised? ==> (r.outcome.error.SocialFailure? <==> adapter.login(cb).Threw?)
    ensures Passes(adapter.login(cb)) ==>
      var u := adapter.login(cb).response.data.value;
      var found := env.findUser(source, u.uuid);
      && |r.trace| >= 2
      && r.trace[1] == LookedUp(source, u.uuid, found)
      && (found.Some? ==> r.outcome == Returned(env.loginSuccess(found.value)))
      && (found.None? ==> |r.trace| >= 3 && r.trace[2] == Created(u, env.createUser(u)))
      && (found.None? && env.createUser(u).Some? ==>
            r.outcome == Returned(env.loginSuccess(env.createUser(u).value)))
      && (found.None? && env.createUser(u).None? ==> r.outcome.Raised? && r.outcome.error.UserFailure?)
    ensures r.outcome.Returned? ==>
      (Passes(adapter.login(cb)) && r.trace[|r.trace| - 1].LoggedIn? &&
       r.outcome.response == env.loginSuccess(r.trace[|r.trace| - 1].user))
  {
    match adapter.login(cb)
    case Threw(m) =>
      Run(Raised(SocialFailure("Third party login of `" + source + "` failed. " + JavaText(m))), [LoginCalled(cb)])
    case AnsweredNull => Run(Raised(NullDereference), [LoginCalled(cb)])
    case Answered(resp) =>
      if !resp.ok || resp.data.None? then
        Run(Raised(UserFailure("Third party login of `" + source + "` cannot obtain user information. "
                               + JavaText(resp.msg))), [LoginCalled(cb)])
      else
        var socialUser := resp.data.value;
        var found := env.findUser(source, socialUser.uuid);
        var lookup := [LoginCalled(cb), LookedUp(source, socialUser.uuid, found)];
        if found.Some? then
          Run(Returned(env.loginSuccess(found.value)), lookup + [LoggedIn(found.value)])
        else
          var created := env.createUser(socialUser);
          if created.None? then
            Run(Raised(UserFailure("Unable to save user information of " + source)),
                lookup + [Created(socialUser, created)])
          else
            Run(Returned(env.loginSuccess(created.value)),
                lookup + [Created(socialUser, created), LoggedIn(created.value)])
  }

  /** Whether the handler around `login` turns an exception into an error envelope. */
  predicate Caught(env: StrategyEnv, e: JapError) {
    e.UserFailure? || (e.SocialFailure? && env.socialCaughtAsUser)
  }

  /** `authenticate`: a session user short-circuits; a configuration problem becomes an error
      envelope; a request that is not a callback is sent to the authorization page; a callback
      logs in, and a user error from the login becomes an error envelope. */
  function Authenticate(env: StrategyEnv, session: Option<JapUser>, config: AuthenticateConfig,
                        params: ParameterMap): (r: Run)
    ensures session.Some? ==> r == Run(Returned(Success(UserPayload(session.value))), [])
    ensures session.None? && GetAuthRequest(env, config).Err? ==>
      r == Run(Returned(Error(GetAuthRequest(env, config).error)), [])
    ensures session.None? && GetAuthRequest(env, config).Ok?
            && !IsCallback(config.social.platform, CallbackOf(params)) ==>
      var call := GetAuthRequest(env, config).value.authorize(config.social.state);
      && r.trace == [Authorized(config.social.state)]
      && (call.Gave? ==> r.outcome == Returned(Success(UrlPayload(call.value))))
      && (call.Thrown? ==> r.outcome == Raised(Unchecked(call.message)))
    ensures session.None? && GetAuthRequest(env, config).Ok?
            && IsCallback(config.social.platform, CallbackOf(params)) ==>
      var run := Login(env, config.social.platform, GetAuthRequest(env, config).value, CallbackOf(params));
      && r.trace == run.trace
      && (run.outcome.Returned? ==> r.outcome == run.outcome)
      && (run.outcome.Raised? && Caught(env, run.outcome.error) ==> r.outcome == Returned(Error(run.outcome.error)))
      && (run.outcome.Raised? && !Caught(env, run.outcome.error) ==> r.outcome == run.outcome)
    ensures (exists i :: 0 <= i < |r.trace| && r.trace[i].LoginCalled?) ==>
      session.None? && config.Social? && IsCallback(config.social.platform, CallbackOf(params))
    ensures r.outcome.Raised? ==> !Caught(env, r.outcome.error)
  {
    if session.Some? then Run(Returned(Success(UserPayload(session.value))), [])
    else
      match GetAuthRequest(env, config)
      case Err(e) => Run(Returned(Error(e)), [])
      case Ok(adapter) =>
        var sc := config.social;
        var cb := CallbackOf(params);
        if !IsCallback(sc.platform, cb) then
          match adapter.authorize(sc.state)
          case Thrown(m) => Run(Raised(Unchecked(m)), [Authorized(sc.state)])
          case Gave(url) => Run(Returned(Success(UrlPayload(url))), [Authorized(sc.state)])
        else
          var run := Login(env, sc.platform, adapter, cb);
          if run.outcome.Raised? && Caught(env, run.outcome.error)
          then Run(Returned(Error(run.outcome.error)), run.trace)
          else run
  }

  /** Every trace of `login` follows the state machine, and one that reaches `Done(u)`
      ends in the login-success response for `u`. */
  lemma {:induction false} LoginFollowsStateMachine(env: StrategyEnv, source: string, adapter: Adapter, cb: AuthCallback)
    ensures var r := Login(env, source, adapter, cb);
      && Walk(Start, r.trace).Some?
      && (Walk(Start, r.trace).value.Done? ==>
            r.outcome == Returned(env.loginSuccess(Walk(Start, r.trace).value.user)))
      && (Walk(Start, r.trace).value == ResolutionFailed ==> r.outcome.Raised?)
      && Walk(Start, r.trace).value != Redirected
  {
    var r := Login(env, source, adapter, cb);
    var t := r.trace;
    assert Step(Start, t[0]) == Some(CallbackReceived);
    if |t| == 1 {
      assert Walk(CallbackReceived, t[1..]) == Some(CallbackReceived);
    } else {
      var found := t[1].found;
      if found.Some? {
        assert t == [t[0], t[1], LoggedIn(found.value)];
        assert Walk(Resolved(found.value), t[2..]) == Some(Done(found.value));
      } else {
        var created := t[2].created;
        if created.Some? {
          assert t == [t[0], t[1], t[2], LoggedIn(created.value)];
          assert Walk(Resolved(created.value), t[3..]) == Some(Done(created.value));
          assert Walk(Unresolved, t[2..]) == Some(Done(created.value));
        } else {
          assert t == [t[0], t[1], t[2]];
          assert Walk(Unresolved, t[2..]) == Some(ResolutionFailed);
        }
      }
    }
  }

  /** Every trace of `authenticate` follows the state machine: a session hit or a configuration
      problem makes no call, exactly the start requests reach the redirect phase, a callback's
      trace begins with the login, and a user is created only after a lookup that found none. */
  lemma AuthenticateFollowsStateMachine(env: StrategyEnv, session: Option<JapUser>, config: AuthenticateConfig,
                                        params: ParameterMap)
    ensures var r := Authenticate(env, session, config, params);
      && Walk(Start, r.trace).Some?
      && (Walk(Start, r.trace).value.Done? ==>
            r.outcome == Returned(env.loginSuccess(Walk(Start, r.trace).value.user)))
      && (|r.trace| == 0 <==> session.Some? || GetAuthRequest(env, config).Err?)
      && (Walk(Start, r.trace).value == Redirected <==>
            session.None? && GetAuthRequest(env, config).Ok?
            && !IsCallback(config.social.platform, CallbackOf(params)))
      && (session.None? && GetAuthRequest(env, config).Ok?
          && IsCallback(config.social.platform, CallbackOf(params)) ==>
            |r.trace| > 0 && r.trace[0] == LoginCalled(CallbackOf(params)))
  {
    var r := Authenticate(env, session, config, params);
    if session.None? && GetAuthRequest(env, config).Ok? {
      if IsCallback(config.social.platform, CallbackOf(params)) {
        var adapter := GetAuthRequest(env, config).value;
        LoginFollowsStateMachine(env, config.social.platform, adapter, CallbackOf(params));
      } else {
        assert Walk(Redirected, r.trace[1..]) == Some(Redirected);
      }
    }
  }

  /** `refreshToken`: configuration problems become an error envelope; the adapter's answer
      must pass the ok/null gate, otherwise an exception escapes. */
  function RefreshToken(env: StrategyEnv, config: AuthenticateConfig, token: AuthToken): (r: Outcome)
    ensures GetAuthRequest(env, config).Err? ==> r == Returned(Error(GetAuthRequest(env, config).error))
    ensures r.Returned? && r.response.Success? ==>
      var call := GetAuthRequest(env, config).value.refresh(token);
      Passes(call) && r.response.payload == TokenPayload(call.response.data.value)
    ensures GetAuthRequest(env, config).Ok? ==>
      var call := GetAuthRequest(env, config).value.refresh(token);
      && (Passes(call) ==> r == Returned(Success(TokenPayload(call.response.data.value))))
      && (call.Threw? ==> r.Raised? && r.error.SocialFailure?)
      && (call.AnsweredNull? ==> r == Raised(NullDereference))
      && (call.Answered? && !Passes(call) ==> r.Raised? && r.error.UserFailure?)
  {
    match GetAuthRequest(env, config)
    case Err(e) => Returned(Error(e))
    case Ok(adapter) =>
      var source := config.social.platform;
      match adapter.refresh(token)
      case Threw(m) => Raised(SocialFailure("Third party refresh access token of `" + source + "` failed. " + JavaText(m)))
      case AnsweredNull => Raised(NullDereference)
      case Answered(resp) =>
        if !resp.ok || resp.data.None? then
          Raised(UserFailure("Third party refresh access token of `" + source + "` failed. " + JavaText(resp.msg)))
        else Returned(Success(TokenPayload(resp.data.value)))
  }

  /** `revokeToken`: as refresh, but success carries no payload. */
  function RevokeToken(env: StrategyEnv, config: AuthenticateConfig, token: AuthToken): (r: Outcome)
    ensures GetAuthRequest(env, config).Err? ==> r == Returned(Error(GetAuthRequest(env, config).error))
    ensures r.Returned? && r.response.Success? ==>
      Passes(GetAuthRequest(env, config).value.revoke(token)) && r.response.payload == NoPayload
    ensures GetAuthRequest(env, config).Ok? ==>
      var call := GetAuthRequest(env, config).value.revoke(token);
      && (Passes(call) ==> r == Returned(Success(NoPayload)))
      && (call.Threw? ==> r.Raised? && r.error.SocialFailure?)
      && (call.AnsweredNull? ==> r == Raised(NullDereference))
      && (call.Answered? && !Passes(call) ==> r.Raised? && r.error.UserFailure?)
  {
    match GetAuthRequest(env, config)
    case Err(e) => Returned(Error(e))
    case Ok(adapter) =>
      var source := config.social.platform;
      match adapter.revoke(token)
      case Threw(m) => Raised(SocialFailure("Third party refresh access token of `" + source + "` failed. " + JavaText(m)))
      case AnsweredNull => Raised(NullDereference)
      case Answered(resp) =>
        if !resp.ok || resp.data.None? then
          Raised(UserFailure("Third party refresh access token of `" + source + "` failed. " + JavaText(resp.msg)))
        else Returned(Success(NoPayload))
  }

  /** `getUserInfo`: an adapter without the capability yields success with a null user;
      one whose call throws or returns null raises a user error. */
  function GetUserInfo(env: StrategyEnv, config: AuthenticateConfig, token: AuthToken): (r: Outcome)
    ensures GetAuthRequest(env, config).Err? ==> r == Returned(Error(GetAuthRequest(env, config).error))
    ensures GetAuthRequest(env, config).Ok? && GetAuthRequest(env, config).value.userInfo.None? ==>
      r == Returned(Success(AuthUserPayload(None)))
    ensures GetAuthRequest(env, config).Ok? && GetAuthRequest(env, config).value.userInfo.Some? ==>
      var answer := GetAuthRequest(env, config).value.userInfo.value(token);
      && (answer.InfoReturned? && answer.user.Some? ==> r == Returned(Success(AuthUserPayload(answer.user))))
      && (answer.InfoThrew? || answer.user.None? ==> r.Raised?)
    ensures r.Returned? && r.response.Success? && r.response.payload.AuthUserPayload?
            && r.response.payload.authUser.Some? ==>
      var info := GetAuthRequest(env, config).value.userInfo;
      info.Some? && info.value(token) == InfoReturned(r.response.payload.authUser)
    ensures r.Raised? ==> r.error.UserFailure?
  {
    match GetAuthRequest(env, config)
    case Err(e) => Returned(Error(e))
    case Ok(adapter) =>
      var source := config.social.platform;
      var failure := UserFailure("Failed to obtain user information on the third-party platform `" + source + "`");
      match adapter.userInfo
      case None => Returned(Success(AuthUserPayload(None)))
      case Some(fetch) =>
        match fetch(token)
        case InfoThrew => Raised(failure)
        case InfoReturned(u) => if u.None? then Raised(failure) else Returned(Success(AuthUserPayload(u)))
  }

  // ---------------------------------------------------------------------
  // The entry points side by side
  // ---------------------------------------------------------------------

  /** A configuration that `getAuthRequest` rejects gets the same error envelope from every
      entry point, and no adapter or user-service call is made. */
  lemma ConfigErrorsAgree(env: StrategyEnv, config: AuthenticateConfig, params: ParameterMap, token: AuthToken)
    requires GetAuthRequest(env, config).Err?
    ensures var e := Returned(Error(GetAuthRequest(env, config).error));
      && Authenticate(env, None, config, params) == Run(e, [])
      && RefreshToken(env, config, token) == e
      && RevokeToken(env, config, token) == e
      && GetUserInfo(env, config, token) == e
  {
  }

  /** Whether a configuration is rejected does not depend on the collaborators. */
  lemma ConfigCheckIgnoresEnv(env1: StrategyEnv, env2: StrategyEnv, config: AuthenticateConfig)
    ensures GetAuthRequest(env1, config).Err? <==> GetAuthRequest(env2, config).Err?
    ensures GetAuthRequest(env1, config).Err? ==> GetAuthRequest(env1, config) == GetAuthRequest(env2, config)
  {
  }

  /** The forwarded calls, stated over all inputs: an exception escapes exactly when the configuration
      is accepted and the adapter's answer fails the gate; refresh and revoke share the ok/null gate,
      user information only checks for a null user. */
  lemma ForwardedCallsGate(env: StrategyEnv, config: AuthenticateConfig, token: AuthToken)
    ensures RefreshToken(env, config, token).Raised? <==>
      GetAuthRequest(env, config).Ok? && !Passes(GetAuthRequest(env, config).value.refresh(token))
    ensures RevokeToken(env, config, token).Raised? <==>
      GetAuthRequest(env, config).Ok? && !Passes(GetAuthRequest(env, config).value.revoke(token))
    ensures GetUserInfo(env, config, token).Raised? <==>
      GetAuthRequest(env, config).Ok? && GetAuthRequest(env, config).value.userInfo.Some?
      && (var answer := GetAuthRequest(env, config).value.userInfo.value(token);
          !(answer.InfoReturned? && answer.user.Some?))
  {
  }

  /** Refresh and revoke raise the same error when their adapter calls throw the same message:
      the revoke path reuses the refresh message text. */
  lemma RevokeReusesRefreshFailure(env: StrategyEnv, config: AuthenticateConfig, token: AuthToken, m: Option<string>)
    requires GetAuthRequest(env, config).Ok?
    requires GetAuthRequest(env, config).value.refresh(token) == Threw(m)
    requires GetAuthRequest(env, config).value.revoke(token) == Threw(m)
    ensures RefreshToken(env, config, token).Raised?
    ensures RefreshToken(env, config, token) == RevokeToken(env, config, token)
  {
  }
}
