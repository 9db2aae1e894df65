/** How the pages and the exchange endpoint fit together: what one of them writes (a redirect, a
    stored item, a request) is what the next one reads. */
module Flow {
  import opened Js
  import opened UrlCoding
  import opened Query
  import opened Credentials
  import opened Browser
  import Exchange
  import Callback
  import opened Authorize

  // ---------------------------------------------------------------------------------------------
  // Google's authorization request and the server's token request

  /** Both requests name the same redirection URI when both sides are configured with the same
      frontend URL, as section 4.1.3 of RFC 6749 requires of the token request. */
  lemma RedirectUriAgrees(clientId: string, frontendUrl: string, state: string,
                          cfg: Exchange.ServerConfig, code: JsValue)
    requires cfg.frontendUrl == frontendUrl
    ensures Param(AuthorizationQuery(clientId, frontendUrl, state), "redirect_uri") ==
            Param(Exchange.TokenRequestBody(cfg, code), "redirect_uri") ==
            Some(frontendUrl + Exchange.CallbackPath)
  {
    AuthorizationQueryParams(clientId, frontendUrl, state);
    Exchange.TokenRequestBodyParams(cfg, code);
  }

  /** The client the code was issued to is the client that redeems it, under the same proviso. */
  lemma ClientIdAgrees(clientId: string, frontendUrl: string, state: string,
                       cfg: Exchange.ServerConfig, code: JsValue)
    requires cfg.clientId == clientId
    ensures Param(AuthorizationQuery(clientId, frontendUrl, state), "client_id") ==
            Param(Exchange.TokenRequestBody(cfg, code), "client_id") == Some(clientId)
  {
    AuthorizationQueryParams(clientId, frontendUrl, state);
    Exchange.TokenRequestBodyParams(cfg, code);
  }

  /** The `state` sent to Google is the authorize page's own query, and reads back as the same
      parameters in the same order. */
  lemma StateCarriesOriginalQuery(clientId: string, frontendUrl: string, q: string)
    ensures var state := Param(AuthorizationQuery(clientId, frontendUrl, OriginalParams(q)), "state");
      state == Some(OriginalParams(q)) && Parse(state.value) == Parse(q)
  {
    AuthorizationQueryParams(clientId, frontendUrl, OriginalParams(q));
    OriginalParamsPreserved(q);
  }

  // ---------------------------------------------------------------------------------------------
  // The error relay from the callback page to the authorize page

  /** The `error` parameter of the relayed query is the message, whatever its characters. */
  lemma ErrorParamOfErrorQuery(m: string)
    ensures Param(Callback.ErrorQuery(m), "error") == Some(m)
    ensures Param(Callback.ErrorQuery(m), "step") == None
  {
    var encoded := EncodeURIComponent(m);
    EncodeQuerySafe(m, Component);
    assert Callback.ErrorQuery(m) == "error" + "=" + encoded;
    ParsePiece("error", encoded);
    FormDecodeUnescaped("error");
    FormDecodeEncode(m, Component);
    assert Parse(Callback.ErrorQuery(m)) == [("error", m)];
  }

  /** The authorize page reached through the relay decodes the message a second time: a message
      without `%` is shown as sent, one with `%` is shown decoded or makes the effect throw. */
  lemma ErrorRelay(m: string, storage: map<string, string>, json: JsonCodec)
    ensures m == "" ==> MountEffectOf(Callback.ErrorQuery(m), storage, json) == NoEffect
    ensures m != "" ==>
      MountEffectOf(Callback.ErrorQuery(m), storage, json) ==
      (match DecodeURIComponent(m) case Some(text) => ShowError(text) case None => Throws(UriMalformed))
    ensures m != "" && '%' !in m ==> MountEffectOf(Callback.ErrorQuery(m), storage, json) == ShowError(m)
    ensures '%' in m ==> MountEffectOf(Callback.ErrorQuery(m), storage, json) != ShowError(m)
  {
    ErrorParamOfErrorQuery(m);
    DecodeURIComponentShorter(m);
  }

  /** A message that already holds an escape is not shown as sent: "%25" arrives as "%". */
  lemma ErrorRelayDecodesTwice(storage: map<string, string>, json: JsonCodec)
    ensures MountEffectOf(Callback.ErrorQuery("%25"), storage, json) == ShowError("%")
    ensures MountEffectOf(Callback.ErrorQuery("%"), storage, json) == Throws(UriMalformed)
  {
    ErrorRelay("%25", storage, json);
    DecodeURIComponentEscapedPercent();
    ErrorRelay("%", storage, json);
    DecodeURIComponentLonePercent();
  }

  // ---------------------------------------------------------------------------------------------
  // The Apify step after a successful exchange

  lemma ApifyStepQueryParams()
    ensures Param(Callback.ApifyStepQuery, "step") == Some("apify") && Given(Callback.ApifyStepQuery, "error") == None
  {
    ParsePlainPiece("step", "apify");
  }

  /** When the exchange succeeds and the page's JSON reads back the profile it stored, the
      authorize page opens on the Apify step showing that profile. */
  lemma ApifyStepAfterExchange(q: string, reply: Reply, json: JsonCodec, storage: map<string, string>)
    requires Callback.Callback(q, reply, json).writes != map[]
    requires reply.Replied? && reply.body.Success?
    requires var profile := Field(reply.body.value, "profile");
      json.stringify(profile) != "" && json.parse(json.stringify(profile)) == Success(profile)
    ensures MountEffectOf(Callback.ApifyStepQuery, storage + Callback.Callback(q, reply, json).writes, json) ==
            ShowApifyStep(Field(reply.body.value, "profile"))
  {
    ApifyStepQueryParams();
    var writes := Callback.Callback(q, reply, json).writes;
    assert writes == Callback.ExchangeOutcome(reply, json).value;
    assert (storage + writes)[ProfileKey] == json.stringify(Field(reply.body.value, "profile"));
  }

  // ---------------------------------------------------------------------------------------------
  // From Google's tokens to the bundle the GKP backend receives

  /** The exchange endpoint's success answer, the callback page storing it, and the authorize page
      reading it back build a bundle carrying exactly Google's tokens and identity, provided the
      page's JSON reads back what it wrote. */
  lemma TokensReachBackend(t: Exchange.TokenSet, p: Exchange.Profile, ok: bool, json: JsonCodec,
                           storage: map<string, string>, apifyToken: string)
    requires var body := Exchange.ToJson(Exchange.Granted(t, p));
      var tokens, profile := Field(body, "tokens"), Field(body, "profile");
      json.stringify(tokens) != "" && json.parse(json.stringify(tokens)) == Success(tokens) &&
      json.stringify(profile) != "" && json.parse(json.stringify(profile)) == Success(profile) &&
      !IsNullish(tokens) && !IsNullish(profile)
    ensures var reply := Replied(ok, Success(Exchange.ToJson(Exchange.Granted(t, p))));
      var outcome := Callback.ExchangeOutcome(reply, json);
      outcome.Success? &&
      var bundle := StoredBundle(storage + outcome.value, json, apifyToken);
      bundle.Success? &&
      bundle.value.session.accessToken == t.accessToken &&
      bundle.value.googleCredentials.accessToken == t.accessToken &&
      bundle.value.googleCredentials.refreshToken == t.refreshToken &&
      bundle.value.googleCredentials.scope == t.scope &&
      bundle.value.googleCredentials.expiresIn == ExpiresIn(t.expiresIn) &&
      bundle.value.session.userId == p.sub && bundle.value.googleProfile.id == p.sub &&
      bundle.value.session.userEmail == p.email && bundle.value.googleProfile.name == p.name &&
      bundle.value.apifyToken == apifyToken
  {
    var body := Exchange.ToJson(Exchange.Granted(t, p));
    var tokens, profile := Field(body, "tokens"), Field(body, "profile");
    var reply := Replied(ok, Success(body));
    var writes := Callback.ExchangeOutcome(reply, json).value;
    var stored := storage + writes;
    assert stored[TokensKey] == json.stringify(tokens) && stored[ProfileKey] == json.stringify(profile);
    assert StoredBundle(stored, json, apifyToken) == BuildBundle(tokens, profile, apifyToken);
  }
}
