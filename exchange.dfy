/** The code-exchange endpoint (POST /api/oauth/exchange): trades an authorization code for
    Google's tokens, fetches the user's profile with them, and answers `{success, ...}`. The two
    provider replies are inputs; the outbound requests the handler makes are part of its result. */
module Exchange {
  import opened Js
  import opened Query

  const CallbackPath := "/oauth/callback"

  const ClientIdParam := "client_id"
  const ClientSecretParam := "client_secret"
  const CodeParam := "code"
  const GrantTypeParam := "grant_type"
  const AuthorizationCodeGrant := "authorization_code"
  const RedirectUriParam := "redirect_uri"

  const CodeRequired := "Authorization code is required"
  const TokenExchangeFailed := "Failed to exchange code for tokens"
  const ProfileFetchFailed := "Failed to fetch user profile"
  const InternalError := "Internal server error"

  /** GOOGLE_CLIENT_ID, GOOGLE_CLIENT_SECRET and NEXT_PUBLIC_FRONTEND_URL, each as the text it
      interpolates to. */
  datatype ServerConfig = ServerConfig(clientId: string, clientSecret: string, frontendUrl: string)

  /** The redirection URI registered with Google: both the authorization request and the token
      request carry it. */
  function RedirectUri(frontendUrl: string): string {
    frontendUrl + CallbackPath
  }

  /** The token fields passed on to the browser. */
  datatype TokenSet = TokenSet(
    accessToken: JsValue, refreshToken: JsValue, expiresIn: JsValue, scope: JsValue, tokenType: JsValue)

  /** The identity projection of Google's userinfo answer; `sub` is Google's `id`. */
  datatype Profile = Profile(sub: JsValue, email: JsValue, name: JsValue, picture: JsValue)

  datatype Response = Granted(tokens: TokenSet, profile: Profile) | Refused(message: string)

  /** What one request did: the form fields it posted to the token endpoint, the Authorization
      header it sent to the userinfo endpoint (each None when that call was not made), its answer. */
  datatype Run = Run(tokenRequest: Option<Pairs>, userinfoAuthorization: Option<string>, response: Response)

  /** The handler's catch block: `error.message || 'Internal server error'`. */
  function Caught(message: string): (r: Response)
    ensures r.Refused? && r.message != ""
    ensures message != "" ==> r == Refused(message)
  {
    Refused(if message == "" then InternalError else message)
  }

  /** The parameters of the token request (section 4.1.3 of RFC 6749), with the client's
      credentials in the body. */
  function TokenRequestParams(clientId: string, clientSecret: string, code: string, redirectUri: string): Pairs {
    [(ClientIdParam, clientId), (ClientSecretParam, clientSecret), (CodeParam, code),
     (GrantTypeParam, AuthorizationCodeGrant), (RedirectUriParam, redirectUri)]
  }

  /** The fields of the token request the handler builds; `code` is coerced to a string. */
  function TokenRequestFields(cfg: ServerConfig, code: JsValue): Pairs {
    TokenRequestParams(cfg.clientId, cfg.clientSecret, ToString(code), RedirectUri(cfg.frontendUrl))
  }

  /** The form-encoded body `URLSearchParams` makes of those fields. */
  function TokenRequestBody(cfg: ServerConfig, code: JsValue): string {
    Serialize(TokenRequestFields(cfg, code))
  }

  lemma TokenRequestParamsGet(clientId: string, clientSecret: string, code: string, redirectUri: string)
    ensures var ps := TokenRequestParams(clientId, clientSecret, code, redirectUri);
      Get(ps, "grant_type") == Some("authorization_code") &&
      Get(ps, "code") == Some(code) &&
      Get(ps, "redirect_uri") == Some(redirectUri) &&
      Get(ps, "client_id") == Some(clientId) &&
      Get(ps, "client_secret") == Some(clientSecret)
  {
    var ps := TokenRequestParams(clientId, clientSecret, code, redirectUri);
    assert Get(ps, "client_secret") == Get(ps[1..], "client_secret");
    assert Get(ps, "code") == Get(ps[1..], "code") == Get(ps[2..], "code");
    assert Get(ps, "grant_type") == Get(ps[1..], "grant_type") == Get(ps[2..], "grant_type")
        == Get(ps[3..], "grant_type");
    assert Get(ps, "redirect_uri") == Get(ps[1..], "redirect_uri") == Get(ps[2..], "redirect_uri")
        == Get(ps[3..], "redirect_uri") == Get(ps[4..], "redirect_uri");
  }

  /** The token request reads back as the authorization-code grant for exactly the received code,
      with the callback URI as `redirect_uri`. */
  lemma TokenRequestBodyParams(cfg: ServerConfig, code: JsValue)
    ensures var form := TokenRequestBody(cfg, code);
      Param(form, "grant_type") == Some("authorization_code") &&
      Param(form, "code") == Some(ToString(code)) &&
      Param(form, "redirect_uri") == Some(RedirectUri(cfg.frontendUrl)) &&
      Param(form, "client_id") == Some(cfg.clientId) &&
      Param(form, "client_secret") == Some(cfg.clientSecret)
  {
    var ps := TokenRequestFields(cfg, code);
    ParseSerialize(ps);
    TokenRequestParamsGet(cfg.clientId, cfg.clientSecret, ToString(code), RedirectUri(cfg.frontendUrl));
  }

  /** The token endpoint's answer read as the handler reads it: `.json()` first, then the `ok` check. */
  function TokensFrom(reply: Reply): (r: Result<JsValue>)
    ensures r.Success? <==> reply.Replied? && reply.ok && reply.body.Success?
    ensures r.Success? ==> r.value == reply.body.value
    ensures reply.Replied? && !reply.ok && reply.body.Success? && !IsNullish(reply.body.value) ==>
      r == Failure(ErrorText(Field(reply.body.value, "error_description"), TokenExchangeFailed))
    ensures reply.Rejected? ==> r == Failure(reply.reason)
  {
    match reply
    case Rejected(m) => Failure(m)
    case Replied(ok, body) =>
      var tokens :- body;
      if ok then Success(tokens)
      else
        var description :- Prop(tokens, "error_description");
        Failure(ErrorText(description, TokenExchangeFailed))
  }

  /** The userinfo endpoint's answer; a refusal's own text is not passed on. */
  function ProfileFrom(reply: Reply): (r: Result<JsValue>)
    ensures r.Success? <==> reply.Replied? && reply.ok && reply.body.Success?
    ensures r.Success? ==> r.value == reply.body.value
    ensures reply.Replied? && !reply.ok && reply.body.Success? ==> r == Failure(ProfileFetchFailed)
  {
    match reply
    case Rejected(m) => Failure(m)
    case Replied(ok, body) =>
      var profile :- body;
      if ok then Success(profile) else Failure(ProfileFetchFailed)
  }

  function ProjectTokens(tokens: JsValue): TokenSet {
    TokenSet(Field(tokens, "access_token"), Field(tokens, "refresh_token"), Field(tokens, "expires_in"),
             Field(tokens, "scope"), Field(tokens, "token_type"))
  }

  function ProjectProfile(profile: JsValue): Profile {
    Profile(Field(profile, "id"), Field(profile, "email"), Field(profile, "name"), Field(profile, "picture"))
  }

  /** The message of the TypeError thrown when `{ code, state }` is read from null. */
  function DestructureError(v: JsValue): string {
    "Cannot destructure property 'code' of '(intermediate value)' as it is " + ToString(v) + "."
  }

  /** The handler once it holds a truthy `code`: the token request, then the userinfo call. */
  function WithCode(cfg: ServerConfig, code: JsValue, tokenReply: Reply, userinfoReply: Reply): (run: Run)
    requires Truthy(code)
    ensures run.tokenRequest == Some(TokenRequestFields(cfg, code))
    ensures run.userinfoAuthorization.Some? ==>
      TokensFrom(tokenReply).Success? && !IsNullish(tokenReply.body.value) &&
      run.userinfoAuthorization.value == "Bearer " + ToString(Field(tokenReply.body.value, "access_token"))
    ensures (tokenReply.Replied? && !tokenReply.ok && tokenReply.body.Success? &&
             !IsNullish(tokenReply.body.value)) ==>
      run.userinfoAuthorization == None &&
      run.response == Refused(ErrorText(Field(tokenReply.body.value, "error_description"), TokenExchangeFailed))
    ensures (run.userinfoAuthorization.Some? && userinfoReply.Replied? && !userinfoReply.ok &&
             userinfoReply.body.Success?) ==> run.response == Refused(ProfileFetchFailed)
    ensures run.response.Granted? <==>
      TokensFrom(tokenReply).Success? && !IsNullish(tokenReply.body.value) &&
      ProfileFrom(userinfoReply).Success? && !IsNullish(userinfoReply.body.value)
    ensures run.response.Granted? ==>
      var t := tokenReply.body.value;
      var p := userinfoReply.body.value;
      run.response.tokens == TokenSet(Field(t, "access_token"), Field(t, "refresh_token"),
                                      Field(t, "expires_in"), Field(t, "scope"), Field(t, "token_type")) &&
      run.response.profile == Profile(Field(p, "id"), Field(p, "email"), Field(p, "name"), Field(p, "picture"))
    ensures run.response.Refused? ==> run.response.message != ""
  {
    var form := TokenRequestFields(cfg, code);
    match TokensFrom(tokenReply)
    case Failure(m) => Run(Some(form), None, Caught(m))
    case Success(tokens) =>
      var (authorization, response) := AfterTokens(tokens, userinfoReply);
      Run(Some(form), authorization, response)
  }

  /** True when the request body carries a code the handler goes on with. */
  predicate HasCode(request: Result<JsValue>) {
    request.Success? && !IsNullish(request.value) && Truthy(Field(request.value, "code"))
  }

  /** The handler once the token endpoint answered ok with `tokens`: the userinfo call, made with
      the bearer access token, and the answer. */
  function AfterTokens(tokens: JsValue, userinfoReply: Reply): (r: (Option<string>, Response))
    ensures r.0.Some? <==> !IsNullish(tokens)
    ensures r.0.Some? ==> r.0.value == "Bearer " + ToString(Field(tokens, "access_token"))
    ensures (r.0.Some? && userinfoReply.Replied? && !userinfoReply.ok && userinfoReply.body.Success?) ==>
      r.1 == Refused(ProfileFetchFailed)
    ensures r.1.Granted? <==>
      !IsNullish(tokens) && ProfileFrom(userinfoReply).Success? && !IsNullish(userinfoReply.body.value)
    ensures r.1.Granted? ==>
      var p := userinfoReply.body.value;
      r.1.tokens == TokenSet(Field(tokens, "access_token"), Field(tokens, "refresh_token"),
                             Field(tokens, "expires_in"), Field(tokens, "scope"), Field(tokens, "token_type")) &&
      r.1.profile == Profile(Field(p, "id"), Field(p, "email"), Field(p, "name"), Field(p, "picture"))
    ensures r.1.Refused? ==> r.1.message != ""
  {
    match Prop(tokens, "access_token")
    case Failure(m) => (None, Caught(m))
    case Success(accessToken) =>
      var authorization := "Bearer " + ToString(accessToken);
      match ProfileFrom(userinfoReply)
      case Failure(m) => (Some(authorization), Caught(m))
      case Success(profile) =>
        if IsNullish(profile) then (Some(authorization), Caught(ReadError(profile, "id")))
        else (Some(authorization), Granted(ProjectTokens(tokens), ProjectProfile(profile)))
  }

  /** The POST handler. `request` is the outcome of `request.json()`. */
  function Handle(cfg: ServerConfig, request: Result<JsValue>, tokenReply: Reply, userinfoReply: Reply): (run: Run)
    // a missing or falsy code is refused before any call to Google
    ensures request.Success? && !IsNullish(request.value) && !Truthy(Field(request.value, "code")) ==>
      run == Run(None, None, Refused(CodeRequired))
    // the token endpoint is called exactly when there is a code, with that code unchanged
    ensures run.tokenRequest.Some? <==> HasCode(request)
    ensures HasCode(request) ==>
      run.tokenRequest == Some(TokenRequestFields(cfg, Field(request.value, "code")))
    // the userinfo endpoint is called only after the token endpoint answered ok
    ensures run.userinfoAuthorization.Some? ==>
      HasCode(request) && TokensFrom(tokenReply).Success? && !IsNullish(tokenReply.body.value) &&
      run.userinfoAuthorization.value == "Bearer " + ToString(Field(tokenReply.body.value, "access_token"))
    // a token refusal carries Google's error_description, or a fixed text
    ensures (HasCode(request) && tokenReply.Replied? && !tokenReply.ok && tokenReply.body.Success? &&
             !IsNullish(tokenReply.body.value)) ==>
      run.userinfoAuthorization == None &&
      run.response == Refused(ErrorText(Field(tokenReply.body.value, "error_description"), TokenExchangeFailed))
    // a userinfo refusal carries a fixed text
    ensures (run.userinfoAuthorization.Some? && userinfoReply.Replied? && !userinfoReply.ok &&
             userinfoReply.body.Success?) ==> run.response == Refused(ProfileFetchFailed)
    // success exactly when both replies are ok objects; then the fields are passed on unchanged
    ensures run.response.Granted? <==>
      HasCode(request) && TokensFrom(tokenReply).Success? && !IsNullish(tokenReply.body.value) &&
      ProfileFrom(userinfoReply).Success? && !IsNullish(userinfoReply.body.value)
    ensures run.response.Granted? ==>
      var t := tokenReply.body.value;
      var p := userinfoReply.body.value;
      run.response.tokens == TokenSet(Field(t, "access_token"), Field(t, "refresh_token"),
                                      Field(t, "expires_in"), Field(t, "scope"), Field(t, "token_type")) &&
      run.response.profile == Profile(Field(p, "id"), Field(p, "email"), Field(p, "name"), Field(p, "picture"))
    // every failure answer carries a message
    ensures run.response.Refused? ==> run.response.message != ""
  {
    match request
    case Failure(m) => Run(None, None, Caught(m))
    case Success(body) =>
      if IsNullish(body) then Run(None, None, Caught(DestructureError(body)))
      else
        var code := Field(body, "code");
        if !Truthy(code) then Run(None, None, Refused(CodeRequired))
        else WithCode(cfg, code, tokenReply, userinfoReply)
  }

  /** Of a request body that is an object, the handler reads only `code`. */
  lemma OnlyCodeMatters(cfg: ServerConfig, b1: JsValue, b2: JsValue, tokenReply: Reply, userinfoReply: Reply)
    requires !IsNullish(b1) && !IsNullish(b2) && Field(b1, "code") == Field(b2, "code")
    ensures Handle(cfg, Success(b1), tokenReply, userinfoReply) == Handle(cfg, Success(b2), tokenReply, userinfoReply)
  {
  }

  /** `state` is read from the request but has no effect on what the handler does. */
  lemma StateIgnored(cfg: ServerConfig, fields: map<string, JsValue>, s1: JsValue, s2: JsValue,
                     tokenReply: Reply, userinfoReply: Reply)
    ensures Handle(cfg, Success(Obj(fields["state" := s1])), tokenReply, userinfoReply) ==
            Handle(cfg, Success(Obj(fields["state" := s2])), tokenReply, userinfoReply)
  {
    var b1, b2 := Obj(fields["state" := s1]), Obj(fields["state" := s2]);
    assert Field(b1, "code") == Field(b2, "code");
    OnlyCodeMatters(cfg, b1, b2, tokenReply, userinfoReply);
  }

  /** The `tokens` object of a grant, without the fields Google left out. */
  function TokensJson(t: TokenSet): (v: JsValue)
    ensures NoUndefinedProps(v)
    ensures Field(v, "access_token") == t.accessToken && Field(v, "refresh_token") == t.refreshToken &&
            Field(v, "expires_in") == t.expiresIn && Field(v, "scope") == t.scope &&
            Field(v, "token_type") == t.tokenType
  {
    Obj(Defined(map["access_token" := t.accessToken, "refresh_token" := t.refreshToken,
                    "expires_in" := t.expiresIn, "scope" := t.scope, "token_type" := t.tokenType]))
  }

  /** The `profile` object of a grant, without the fields Google left out. */
  function ProfileJson(p: Profile): (v: JsValue)
    ensures NoUndefinedProps(v)
    ensures Field(v, "sub") == p.sub && Field(v, "email") == p.email &&
            Field(v, "name") == p.name && Field(v, "picture") == p.picture
  {
    Obj(Defined(map["sub" := p.sub, "email" := p.email, "name" := p.name, "picture" := p.picture]))
  }

  /** The JSON body of the answer, as the browser reads it back. Properties whose value is
      undefined are dropped by `NextResponse.json`; reading them back gives undefined all the same. */
  function ToJson(r: Response): (v: JsValue)
    ensures NoUndefinedProps(v)
    ensures r.Granted? ==> NoUndefinedProps(Field(v, "tokens")) && NoUndefinedProps(Field(v, "profile"))
    ensures Truthy(Field(v, "success")) <==> r.Granted?
    ensures r.Refused? ==> Field(v, "message") == Str(r.message)
    ensures r.Granted? ==>
      var t := Field(v, "tokens");
      var p := Field(v, "profile");
      Field(t, "access_token") == r.tokens.accessToken && Field(t, "refresh_token") == r.tokens.refreshToken &&
      Field(t, "expires_in") == r.tokens.expiresIn && Field(t, "scope") == r.tokens.scope &&
      Field(t, "token_type") == r.tokens.tokenType &&
      Field(p, "sub") == r.profile.sub && Field(p, "email") == r.profile.email &&
      Field(p, "name") == r.profile.name && Field(p, "picture") == r.profile.picture
  {
    match r
    case Granted(t, p) =>
      Obj(map["success" := Bool(true), "tokens" := TokensJson(t), "profile" := ProfileJson(p)])
    case Refused(m) =>
      Obj(map["success" := Bool(false), "message" := Str(m)])
  }

  /** A userinfo answer with only `id` and `email` gives a profile object with just `sub` and
      `email`: the missing name and picture are left out, not written as undefined. */
  lemma PartialProfileJson(id: string, email: string)
    ensures ProfileJson(Profile(Str(id), Str(email), Undefined, Undefined)).fields ==
            map["sub" := Str(id), "email" := Str(email)]
  {
    var fields := ProfileJson(Profile(Str(id), Str(email), Undefined, Undefined)).fields;
    assert "name" !in fields && "picture" !in fields;
  }
}
