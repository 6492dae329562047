# Strategy and token-exchange engine of JAP, modelled in Dafny

This project models the protocol decision logic of two classes of the JAP
authentication framework:

- `AccessTokenHelper` (OAuth2 module) obtains an access token. It dispatches
  over the four grant types of RFC 6749: authorization code (section 4.1),
  implicit (section 4.2), resource-owner password (section 4.3) and client
  credentials (section 4.4). It checks the anti-CSRF `state` before the
  authorization-code exchange (section 10.12). It builds the form posted to
  the token endpoint, including the optional `redirect_uri`, the PKCE
  `code_verifier` of section 4.5 of RFC 7636, and `scope`. It validates the
  endpoint's response and maps it onto an `AccessToken`.
- `SocialStrategy` (social module) drives third-party login. It classifies a
  request as "start" or "callback" with a fixed per-platform table. It parses
  the request parameters into a callback object. It returns either an
  authorization redirect or a login. A login resolves the internal user by
  `(platform, uuid)` and creates the user only when the lookup finds none.
  Refresh and revoke calls are forwarded behind an ok/null gate on the
  adapter's answer. The user-info call is forwarded behind a null check only.

Every collaborator the code calls but does not define is an uninterpreted
function field of an environment value. The model therefore fixes only which
collaborator is consulted, in which order and under which conditions. For the
token engine, `TokenEnv` covers the HTTP client, JSON parser, state and PKCE
caches, response validators, integer readers and the blank-character test. For
the social strategy, `StrategyEnv` covers the adapter factory, user service,
login-success hook, and the exception-hierarchy question. Effects become
observable values:

- `TokenRun.posted` is the one token request issued, or none.
- `Run.trace` lists the adapter and user-service calls of one authentication
  attempt. `Walk` checks that list against the state machine START →
  AUTHORIZE_REDIRECT | CALLBACK_RECEIVED → USER_RESOLVED → LOGIN_SUCCESS,
  where user resolution can also fail.

Java `null` is `Option.None` for configuration strings, scope elements, form
values, response values, the authorization URL, adapter payloads and adapter
responses. The platform name is the one reference taken to be non-null (see
"Left out"). Exceptions are
`Result.Err` in the token engine. In the strategy they are `Outcome.Raised`,
kept apart from the returned `JapResponse` envelope, because `refreshToken`
and `revokeToken` let their exceptions escape.

Files: `base.dfy` (shared values), `scopes.dfy` (scope joining and its
inverse), `access_token_helper.dfy`, `social_callback.dfy` (`parseRequest`,
`isCallback`) and `social_strategy.dfy`.

Two behaviours of the code are kept as written:

- `getUserInfo` on an adapter without the method returns success with a null
  user, not a not-supported error.
- The implicit grant's `expires_in` and the token response's `expires_in` go
  through two different readers (`JapUtil.toInt` and `Kv.getInteger`). The
  model keeps both as separate uninterpreted functions and does not choose a
  default.

## Model

| member | source | states |
|---|---|---|
| AccessTokenHelper.GetToken | jap-oauth2/src/main/java/com/fujieid/jap/oauth2/token/AccessTokenHelper.java:53-70 | A null config fails with the config-missing error and posts nothing. Otherwise the branch of the selected mode runs. Client credentials always fail with not-supported and post nothing. No matching mode fails with missing-parameters. A POST happens only in the authorization-code or password branch. |
| AccessTokenHelper.SelectModeHonoursPrecedence | jap-oauth2/src/main/java/com/fujieid/jap/oauth2/token/AccessTokenHelper.java:57-69 | The branch entered is the earliest in the order code ≺ token ≺ password ≺ client_credentials whose guard holds. No branch is entered exactly when no guard holds, so ambiguous configs are resolved, not rejected. |
| AccessTokenHelper.SelectModeIsFirstMatch | jap-oauth2/src/main/java/com/fujieid/jap/oauth2/token/AccessTokenHelper.java:57-69 | The dispatch equals a first-match search over the precedence list. |
| AccessTokenHelper.Message | jap-oauth2/src/main/java/com/fujieid/jap/oauth2/token/AccessTokenHelper.java:55-170 | Every error raised by the helper itself starts with "Oauth2Strategy failed to get AccessToken.". The missing-token error appends the raw response body. Errors from the unseen validators carry their own message. |
| AccessTokenHelper.AuthorizationCodeForm | jap-oauth2/src/main/java/com/fujieid/jap/oauth2/token/AccessTokenHelper.java:86-97 | The form always has grant_type=authorization_code, code, client_id and client_secret. It has redirect_uri exactly when the callback URL is not blank, and code_verifier (the cached verifier) exactly when the response type is code and PKCE is on. It has no other key. |
| AccessTokenHelper.AuthorizationCodeGrant | jap-oauth2/src/main/java/com/fujieid/jap/oauth2/token/AccessTokenHelper.java:81-108 | A token request is posted exactly when the state check passes. A failed check gives the state error and no POST. A passed check posts the authorization-code form to the token URL. |
| AccessTokenHelper.AuthorizationCodeRequestShape | jap-oauth2/src/main/java/com/fujieid/jap/oauth2/token/AccessTokenHelper.java:82-97 | Through getToken, a code-mode config that passes the state check issues exactly one request. That request has grant_type=authorization_code, redirect_uri iff the callback URL is not blank, and code_verifier iff PKCE is enabled. |
| AccessTokenHelper.ImplicitGrant | jap-oauth2/src/main/java/com/fujieid/jap/oauth2/token/AccessTokenHelper.java:117-132 | Never posts. A failed error/error_description check is the result whatever access_token holds. The grant succeeds iff that check passes and access_token is present. On success every token field is the same-named request parameter and expires_in goes through the integer reader. |
| AccessTokenHelper.PasswordForm | jap-oauth2/src/main/java/com/fujieid/jap/oauth2/token/AccessTokenHelper.java:142-150 | The form always has grant_type=password, username, password, client_id and client_secret. It has scope exactly when the scopes array is non-null and non-empty, and then scope holds the scopes joined with the separator, a null element written as "null". |
| AccessTokenHelper.PasswordScopeRoundTrip | jap-oauth2/src/main/java/com/fujieid/jap/oauth2/token/AccessTokenHelper.java:148-150 | Splitting the posted scope string at the separator gives back exactly the configured scopes, when no scope text contains the separator. A null scope comes back as the text "null"; every non-null scope comes back unchanged. |
| AccessTokenHelper.PasswordGrant | jap-oauth2/src/main/java/com/fujieid/jap/oauth2/token/AccessTokenHelper.java:141-160 | The password form is posted to the token URL, with no state check, and the exchange's verdict is the result. |
| AccessTokenHelper.ClientCredentialsGrant | jap-oauth2/src/main/java/com/fujieid/jap/oauth2/token/AccessTokenHelper.java:169-170 | Always an error, and nothing is posted. |
| AccessTokenHelper.ClientCredentialsIgnoresOtherFields | jap-oauth2/src/main/java/com/fujieid/jap/oauth2/token/AccessTokenHelper.java:66-67 | Any two client-credentials configs give the same run, the not-supported error, whatever their other fields hold. |
| AccessTokenHelper.Exchange | jap-oauth2/src/main/java/com/fujieid/jap/oauth2/token/AccessTokenHelper.java:99-107 | The result is a token iff the provider check passes and the body has access_token. A failed provider check gives that check's error. A passed check without access_token gives exactly the missing-token error carrying the raw body. A success maps the parsed body. |
| AccessTokenHelper.MapToAccessToken | jap-oauth2/src/main/java/com/fujieid/jap/oauth2/token/AccessTokenHelper.java:189-197 | access_token, refresh_token, id_token, token_type and scope are copied verbatim from the same keys (null when absent). expires_in comes from the integer reader. |
| AccessTokenHelper.MapResponseRoundTrip | jap-oauth2/src/main/java/com/fujieid/jap/oauth2/token/AccessTokenHelper.java:189-197 | Mapping a response body that carries a token gives that token back. Such a body has access_token exactly when the token has one. |
| AccessTokenHelper.TokenOnlyFromValidatedSource | jap-oauth2/src/main/java/com/fujieid/jap/oauth2/token/AccessTokenHelper.java:100-107 | Any token getToken returns comes from one of two places. Either it is a posted response that passed the provider check and has access_token, or it is an implicit callback that carries access_token. |
| AccessTokenHelper.PasswordScenario | jap-oauth2/src/main/java/com/fujieid/jap/oauth2/token/AccessTokenHelper.java:141-160 | A password config answered with {access_token=tok1, expires_in=7200} yields a token with exactly those two fields and the rest null. |
| Scopes.Join | jap-oauth2/src/main/java/com/fujieid/jap/oauth2/token/AccessTokenHelper.java:149 | The joined string starts with the first scope. It contains the separator exactly when there are two or more scopes or some scope contains it, so a single separator-free scope is sent as is. Its inverse is SplitJoin. |
| Scopes.Split | jap-oauth2/src/main/java/com/fujieid/jap/oauth2/token/AccessTokenHelper.java:149 | The inverse of the join: at least one piece, and no piece contains the separator. |
| Scopes.SplitJoin | jap-oauth2/src/main/java/com/fujieid/jap/oauth2/token/AccessTokenHelper.java:149 | For any non-empty scope list without the separator, splitting the joined string gives back the list. |
| SocialCallback.CallbackOf | jap-social/src/main/java/com/fujieid/jap/social/SocialStrategy.java:304-316 | An empty parameter map gives a callback with every field null. Otherwise each callback field is the first value of the same-named parameter, and parameters with a null value array are skipped. |
| SocialCallback.ParseRequest | jap-social/src/main/java/com/fujieid/jap/social/SocialStrategy.java:304-316 | The per-key loop that fills the JSON object produces the same callback as CallbackOf. |
| SocialCallback.IsCallback | jap-social/src/main/java/com/fujieid/jap/social/SocialStrategy.java:285-296 | A request is a callback iff it is Twitter with a non-null oauth_token, or the field named by the platform table is non-empty. The table is ALIPAY → auth_code, HUAWEI → authorization_code, others → code. |
| SocialCallback.IsCallbackOnRequest | jap-social/src/main/java/com/fujieid/jap/social/SocialStrategy.java:285-316 | The same classification stated over the raw request parameters. |
| SocialCallback.PlainCodeIgnored | jap-social/src/main/java/com/fujieid/jap/social/SocialStrategy.java:289-295 | For ALIPAY and HUAWEI the code field never affects the classification. |
| SocialCallback.TwitterTokenDecides | jap-social/src/main/java/com/fujieid/jap/social/SocialStrategy.java:286-288 | Twitter with a non-null oauth_token is a callback whatever code holds, the empty string included. |
| SocialCallback.AlipayExamples | jap-social/src/main/java/com/fujieid/jap/social/SocialStrategy.java:290-291 | ALIPAY with only auth_code is a callback. ALIPAY with only code is not. |
| SocialCallback.HuaweiExample | jap-social/src/main/java/com/fujieid/jap/social/SocialStrategy.java:292-293 | HUAWEI with only authorization_code is a callback. |
| SocialCallback.DefaultPlatformExamples | jap-social/src/main/java/com/fujieid/jap/social/SocialStrategy.java:289-295 | GITHUB with code is a callback. GITHUB without code is not. |
| SocialStrategy.GetAuthRequest | jap-social/src/main/java/com/fujieid/jap/social/SocialStrategy.java:227-241 | Fails iff the config is not a social config (config mismatch) or has no adapter configuration (MISS_AUTH_CONFIG). Otherwise it yields the adapter for the platform. |
| SocialStrategy.Login | jap-social/src/main/java/com/fujieid/jap/social/SocialStrategy.java:252-274 | The adapter login comes first. An answer that fails the ok/null gate raises and makes no further call: a thrown call gives the social error, a null response the null dereference, a failing answer the user error. After a passing answer the next call is the lookup by (platform, uuid). A user found there is logged in. Otherwise the next call creates a user from the adapter's user; a created user is logged in, and a failed creation raises the user error. A returned result is always the login-success response for the user in the last LoggedIn event. |
| SocialStrategy.LoginFollowsStateMachine | jap-social/src/main/java/com/fujieid/jap/social/SocialStrategy.java:252-274 | Every login trace is accepted by the state machine. A user is created only after a lookup that found none. Reaching Done(u) returns loginSuccess(u). A failed creation raises. |
| SocialStrategy.Authenticate | jap-social/src/main/java/com/fujieid/jap/social/SocialStrategy.java:120-149 | A session user returns success carrying that user with no call made. A config problem becomes an error envelope carrying the exception. A non-callback only authorizes: it returns success with the URL authorize(state) gives, which may be null, or lets authorize's exception escape. A callback runs login with the parsed callback and keeps its trace: a returned login result is passed through, a caught exception becomes an error envelope, and an uncaught one escapes. Login runs only on a callback. An escaping exception is never one the handler catches. |
| SocialStrategy.AuthenticateFollowsStateMachine | jap-social/src/main/java/com/fujieid/jap/social/SocialStrategy.java:120-149 | Every authenticate trace is accepted by the state machine, and Done(u) ends in loginSuccess(u). The trace is empty iff a session user or a config problem short-circuits. The redirect phase is reached iff the request is not a callback and the config is accepted. A callback's trace starts with the login of the parsed callback. |
| SocialStrategy.RefreshToken | jap-social/src/main/java/com/fujieid/jap/social/SocialStrategy.java:151-173 | A config problem becomes an error envelope. A passing answer gives success carrying the refreshed token, and success happens only then. A thrown call raises the social error, a null response the null dereference, a failing answer the user error. |
| SocialStrategy.RevokeToken | jap-social/src/main/java/com/fujieid/jap/social/SocialStrategy.java:175-196 | A config problem becomes an error envelope. A passing answer gives success with no payload, and success happens only then. A thrown call raises the social error, a null response the null dereference, a failing answer the user error. |
| SocialStrategy.GetUserInfo | jap-social/src/main/java/com/fujieid/jap/social/SocialStrategy.java:198-225 | A config problem becomes an error envelope. An adapter without the capability gives success with a null user. A non-null user from the capability gives success carrying that user; a throw or a null user raises. A returned user is exactly what the capability returned. Every raised error is a user error. |
| SocialStrategy.ConfigErrorsAgree | jap-social/src/main/java/com/fujieid/jap/social/SocialStrategy.java:127-132 | A config that getAuthRequest rejects gets the same error envelope from authenticate, refreshToken, revokeToken and getUserInfo, and authenticate makes no call. |
| SocialStrategy.ConfigCheckIgnoresEnv | jap-social/src/main/java/com/fujieid/jap/social/SocialStrategy.java:227-237 | Whether a config is rejected, and with which error, depends on the config alone and not on the adapter factory or user service. |
| SocialStrategy.ForwardedCallsGate | jap-social/src/main/java/com/fujieid/jap/social/SocialStrategy.java:161-224 | For all inputs: refresh and revoke raise exactly when the config is accepted and the adapter answer fails the ok/null gate. getUserInfo raises exactly when the config is accepted, the capability exists, and its answer is not a non-null user. |
| SocialStrategy.RevokeReusesRefreshFailure | jap-social/src/main/java/com/fujieid/jap/social/SocialStrategy.java:164-166 | When the refresh and revoke calls throw the same message, both entry points raise the very same error, because revoke reuses the refresh message text. |

## Left out

- HTTP transport and JSON parsing (`HttpUtil.post`, `JsonUtil.parseKv`) are uninterpreted functions of `TokenEnv` that always yield a body and a map. Neither a transport exception from `post` nor a parser exception on a malformed body is modelled; in the source either would escape `getToken`.
- `Oauth2Util.checkState`, `checkOauthResponse` and `checkOauthCallbackRequest` are uninterpreted checks that pass or fail with a message. `Oauth2Util` is not part of this model, so neither the state cache nor the comparison behind `checkState` is modelled.
- `PkceHelper.getCacheCodeVerifier`, `JapUtil.toInt` and `Kv.getInteger` are uninterpreted. No parsing default for `expires_in` is assumed.
- The character class of `StrUtil.isBlank` is an uninterpreted predicate. Only the null-or-all-blank structure is modelled.
- The `Oauth2ResponseType` and `Oauth2GrantType` enums and `Oauth2Const` are not part of this model. The enum constants are the ones `AccessTokenHelper` names, plus `NoneResponse` and `RefreshToken`, which stand for a configured value that none of its branches tests. The scope separator is taken to be the space of section 3.3 of RFC 6749.
- The adapter library (`AuthRequest`, `JustAuthRequestContext.getRequest`, `AuthStateCache`) is abstract. `login`, `refresh` and `revoke` throw, return a null response or give an `(ok, data, msg)` answer. `authorize` throws or gives a URL that may be null. The user-info capability throws or gives a user that may be null. `getRequest` is taken not to throw.
- The user service (`getByPlatformAndUid`, `createAndGetSocialUser`) and `loginSuccess` are uninterpreted functions that always return; exceptions of their own are not modelled.
- The JSON-to-callback binding matches wire names exactly. The binder's lenient matching of key names that differ only in case or underscores is not modelled.
- The session lookup (`checkSession`), `loginSuccess` and `checkAuthenticateConfig` belong to the strategy base class, which is not part of this model. The session is an `Option<JapUser>` input, `loginSuccess` is an uninterpreted function, and a failed config check is the `ConfigMismatch` error. The session key constant and the other constants of `JapConst` carry no behaviour here.
- Whether `JapSocialException` is caught by the `JapUserException` handler of `authenticate` depends on an exception hierarchy that is not part of this model. It is the boolean input `socialCaughtAsUser`.
- `getUserInfo`'s reflective method lookup is an optional capability on the adapter.
- A null platform name, which makes `isCallback` throw in the source, is not modelled: the platform is a non-null string.
- Error codes and messages of `JapErrorCode` are not modelled. An error envelope carries the exception value itself. `revokeToken` reuses the "refresh access token" message text exactly as the source does.
- The filter-pipeline test stub in jap-ids only prints and has no logic to model.
- Constructors of `SocialStrategy` only store collaborators. They are the fields of `StrategyEnv`.
