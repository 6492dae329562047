/** The social strategy's view of an inbound request: the callback object
    parsed from the request parameters, and the fixed per-platform table that
    decides whether a request starts an authorization or is the provider's
    callback. */
module SocialCallback {
  import opened Base

  /** The fields of the adapter library's callback object. */
  datatype AuthCallback = AuthCallback(
    code: Option<string>,
    authCode: Option<string>,
    state: Option<string>,
    authorizationCode: Option<string>,
    oauthToken: Option<string>,
    oauthVerifier: Option<string>)

  /** A freshly constructed callback object: every field null. */
  const EmptyCallback := AuthCallback(None, None, None, None, None, None)

  /** The flat JSON object built from the request: one text value per key. */
  type Json = map<string, string>

  /** The value of a JSON key, null when absent. */
  function Field(json: Json, key: string): Option<string> {
    if key in json then Some(json[key]) else None
  }

  /** Binding a JSON object to the callback type: each field takes the value under
      its own wire name and every other key is dropped. */
  function ToCallback(json: Json): AuthCallback {
    AuthCallback(
      Field(json, "code"),
      Field(json, "auth_code"),
      Field(json, "state"),
      Field(json, "authorization_code"),
      Field(json, "oauth_token"),
      Field(json, "oauth_verifier"))
  }

  /** The callback field stored under a wire name; null for names the type does not have. */
  function FieldNamed(cb: AuthCallback, name: string): Option<string> {
    if name == "code" then cb.code
    else if name == "auth_code" then cb.authCode
    else if name == "state" then cb.state
    else if name == "authorization_code" then cb.authorizationCode
    else if name == "oauth_token" then cb.oauthToken
    else if name == "oauth_verifier" then cb.oauthVerifier
    else None
  }

  /** The JSON object the request's parameters flatten into: the first value of
      each parameter, parameters bound to a null array left out. */
  function Flatten(params: ParameterMap): Json {
    map k | k in params && params[k].Some? :: params[k].value[0]
  }

  /** `parseRequest`: an empty parameter map gives a fresh callback, any other map is
      flattened and bound. Every field is the first value of the same-named parameter. */
  function CallbackOf(params: ParameterMap): (cb: AuthCallback)
    ensures |params| == 0 ==> cb == EmptyCallback
    ensures cb.code == GetParameter(params, "code")
    ensures cb.authCode == GetParameter(params, "auth_code")
    ensures cb.state == GetParameter(params, "state")
    ensures cb.authorizationCode == GetParameter(params, "authorization_code")
    ensures cb.oauthToken == GetParameter(params, "oauth_token")
    ensures cb.oauthVerifier == GetParameter(params, "oauth_verifier")
  {
    if |params| == 0 then EmptyCallback else ToCallback(Flatten(params))
  }

  /** `parseRequest` as written: visit every parameter once, putting the first value of
      each non-null array into the JSON object, then bind the object. */
  method ParseRequest(params: ParameterMap) returns (cb: AuthCallback)
    ensures cb == CallbackOf(params)
  {
    if |params| == 0 {
      return EmptyCallback;
    }
    var json: Json := map[];
    var pending := params.Keys;
    while pending != {}
      invariant pending <= params.Keys
      invariant forall k :: k in json <==> k in params && k !in pending && params[k].Some?
      invariant forall k :: k in json ==> json[k] == params[k].value[0]
      decreases |pending|
    {
      var key :| key in pending;
      var val := params[key];
      if val.Some? {
        json := json[key := val.value[0]];
      }
      pending := pending - {key};
    }
    assert json == Flatten(params);
    cb := ToCallback(json);
  }

  const Twitter := "TWITTER"
  const Alipay := "ALIPAY"
  const Huawei := "HUAWEI"

  /** The fixed table of the parameter that carries a platform's authorization code. */
  function CodeField(platform: string): string {
    if platform == Alipay then "auth_code"
    else if platform == Huawei then "authorization_code"
    else "code"
  }

  /** `isCallback`: a Twitter request carrying a non-null `oauth_token` is a callback;
      otherwise the request is a callback exactly when the platform's code field is non-empty. */
  function IsCallback(source: string, cb: AuthCallback): (b: bool)
    ensures b <==> (source == Twitter && cb.oauthToken.Some?) || !IsEmpty(FieldNamed(cb, CodeField(source)))
  {
    if source == Twitter && cb.oauthToken.Some? then true
    else
      var code :=
        if source == Alipay then cb.authCode
        else if source == Huawei then cb.authorizationCode
        else cb.code;
      !IsEmpty(code)
  }

  /** The classification stated over the raw request: which parameter is read depends only on the platform. */
  lemma IsCallbackOnRequest(source: string, params: ParameterMap)
    ensures IsCallback(source, CallbackOf(params)) <==>
      (source == Twitter && GetParameter(params, "oauth_token").Some?)
      || !IsEmpty(GetParameter(params, CodeField(source)))
  {
  }

  /** For Alipay and Huawei a plain `code` parameter plays no part in the classification. */
  lemma PlainCodeIgnored(source: string, cb: AuthCallback, otherCode: Option<string>)
    requires source == Alipay || source == Huawei
    ensures IsCallback(source, cb) == IsCallback(source, cb.(code := otherCode))
  {
  }

  /** For Twitter a present `oauth_token` decides, whatever `code` holds. */
  lemma TwitterTokenDecides(cb: AuthCallback)
    requires cb.oauthToken.Some?
    ensures IsCallback(Twitter, cb)
  {
  }

  /** A request carrying one parameter with one value. */
  function OneParam(name: string, value: string): ParameterMap {
    map[name := Some([value])]
  }

  /** Alipay reads `auth_code`: a request with only `auth_code` is a callback, one with only `code` is not. */
  lemma AlipayExamples()
    ensures IsCallback(Alipay, CallbackOf(OneParam("auth_code", "xyz")))
    ensures !IsCallback(Alipay, CallbackOf(OneParam("code", "xyz")))
  {
  }

  /** Huawei reads `authorization_code`. */
  lemma HuaweiExample()
    ensures IsCallback(Huawei, CallbackOf(OneParam("authorization_code", "xyz")))
  {
  }

  /** A platform outside the table reads `code`, and without it the request starts an authorization. */
  lemma DefaultPlatformExamples()
    ensures IsCallback("GITHUB", CallbackOf(OneParam("code", "xyz")))
    ensures !IsCallback("GITHUB", CallbackOf(OneParam("state", "s")))
  {
  }
}
