/** The authorize page: it sends the user to Google's consent screen, shows the Apify-token step
    once the callback page has stored the Google tokens and profile, and hands everything to the
    GKP backend. */
module Authorize {
  import opened Js
  import opened UrlCoding
  import opened Query
  import opened Credentials
  import opened Browser
  import Exchange

  const GoogleAuthEndpoint := "https://accounts.google.com/o/oauth2/v2/auth"
  const Scope := "openid email profile"
  const MissingClientId := "Google Client ID not configured. Please check environment variables."
  const DataLost := "Authentication data lost. Please sign in again."
  const UnknownServerError := "An unknown error occurred on the server."
  /** The message of the URIError `decodeURIComponent` throws. */
  const UriMalformed := "URI malformed"

  /** The public build-time settings: the Google client id (None when unset) and the frontend and
      backend URLs as the texts they interpolate to. */
  datatype ClientConfig = ClientConfig(clientId: Option<string>, frontendUrl: string, backendUrl: string)

  // ---------------------------------------------------------------------------------------------
  // Step 1: the authorization request

  /** The parameters of the authorization request (section 4.1.1 of RFC 6749), in the order the
      page writes them; `state` carries the page's own query. */
  function AuthorizationParams(clientId: string, redirectUri: string, state: string): Pairs {
    [("client_id", clientId), ("redirect_uri", redirectUri), ("scope", Scope),
     ("response_type", "code"), ("access_type", "offline"), ("prompt", "consent"), ("state", state)]
  }

  function AuthorizationQuery(clientId: string, frontendUrl: string, state: string): string {
    Serialize(AuthorizationParams(clientId, Exchange.RedirectUri(frontendUrl), state))
  }

  function AuthorizationUrl(clientId: string, frontendUrl: string, state: string): string {
    GoogleAuthEndpoint + "?" + AuthorizationQuery(clientId, frontendUrl, state)
  }

  lemma AuthorizationParamsGet(clientId: string, redirectUri: string, state: string)
    ensures var ps := AuthorizationParams(clientId, redirectUri, state);
      Get(ps, "client_id") == Some(clientId) &&
      Get(ps, "redirect_uri") == Some(redirectUri) &&
      Get(ps, "scope") == Some(Scope) &&
      Get(ps, "response_type") == Some("code") &&
      Get(ps, "access_type") == Some("offline") &&
      Get(ps, "prompt") == Some("consent") &&
      Get(ps, "state") == Some(state)
  {
    var ps := AuthorizationParams(clientId, redirectUri, state);
    assert Get(ps, "redirect_uri") == Get(ps[1..], "redirect_uri");
    assert Get(ps, "scope") == Get(ps[1..], "scope") == Get(ps[2..], "scope");
    assert Get(ps, "response_type") == Get(ps[1..], "response_type") == Get(ps[2..], "response_type")
        == Get(ps[3..], "response_type");
    assert Get(ps, "access_type") == Get(ps[1..], "access_type") == Get(ps[2..], "access_type")
        == Get(ps[3..], "access_type") == Get(ps[4..], "access_type");
    assert Get(ps, "prompt") == Get(ps[1..], "prompt") == Get(ps[2..], "prompt")
        == Get(ps[3..], "prompt") == Get(ps[4..], "prompt") == Get(ps[5..], "prompt");
    assert Get(ps, "state") == Get(ps[1..], "state") == Get(ps[2..], "state")
        == Get(ps[3..], "state") == Get(ps[4..], "state") == Get(ps[5..], "state") == Get(ps[6..], "state");
  }

  /** Google reads the request as a code request for the configured client, asking for a refresh
      token, with the callback page as redirection URI and any text as `state`, unaltered. */
  lemma AuthorizationQueryParams(clientId: string, frontendUrl: string, state: string)
    ensures var q := AuthorizationQuery(clientId, frontendUrl, state);
      Param(q, "client_id") == Some(clientId) &&
      Param(q, "redirect_uri") == Some(frontendUrl + Exchange.CallbackPath) &&
      Param(q, "scope") == Some("openid email profile") &&
      Param(q, "response_type") == Some("code") &&
      Param(q, "access_type") == Some("offline") &&
      Param(q, "prompt") == Some("consent") &&
      Param(q, "state") == Some(state)
  {
    var redirectUri := Exchange.RedirectUri(frontendUrl);
    ParseSerialize(AuthorizationParams(clientId, redirectUri, state));
    AuthorizationParamsGet(clientId, redirectUri, state);
  }

  /** What the page keeps of its own query, `searchParams.toString()`. */
  function OriginalParams(q: string): string {
    Serialize(Parse(q))
  }

  /** The kept query reads back as the same parameters in the same order. */
  lemma OriginalParamsPreserved(q: string)
    ensures Parse(OriginalParams(q)) == Parse(q)
  {
    ParseSerialize(Parse(q));
  }

  // ---------------------------------------------------------------------------------------------
  // Mounting the page

  datatype MountEffect =
    | ShowError(message: string)     // an error came back from the callback page
    | ShowApifyStep(profile: JsValue) // the callback page stored a profile
    | Throws(reason: string)          // the effect throws
    | NoEffect

  /** The mount effect of the page with query `q` over the tab's storage. */
  function MountEffectOf(q: string, storage: map<string, string>, json: JsonCodec): (e: MountEffect)
    // an error parameter takes precedence over the step and is shown decoded once more
    ensures Given(q, "error").Some? ==>
      e == (match DecodeURIComponent(Given(q, "error").value)
            case Some(text) => ShowError(text)
            case None => Throws(UriMalformed))
    // the Apify step is shown only when asked for and a stored profile parses
    ensures e.ShowApifyStep? <==>
      Given(q, "error").None? && Param(q, "step") == Some("apify") &&
      StoredText(storage, ProfileKey).Some? && json.parse(storage[ProfileKey]).Success?
    ensures e.ShowApifyStep? ==> Success(e.profile) == json.parse(storage[ProfileKey])
    ensures e == NoEffect <==>
      Given(q, "error").None? && (Param(q, "step") != Some("apify") || StoredText(storage, ProfileKey).None?)
    // a stored profile that does not parse makes the effect throw with the parser's message
    ensures Given(q, "error").None? && Param(q, "step") == Some("apify") &&
            StoredText(storage, ProfileKey).Some? && json.parse(storage[ProfileKey]).Failure? ==>
      e == Throws(json.parse(storage[ProfileKey]).error)
    // only an error parameter shows an error
    ensures e.ShowError? ==> Given(q, "error").Some?
  {
    match Given(q, "error")
    case Some(encoded) =>
      (match DecodeURIComponent(encoded)
       case Some(text) => ShowError(text)
       case None => Throws(UriMalformed))
    case None =>
      if Param(q, "step") == Some("apify") then
        match StoredText(storage, ProfileKey)
        case None => NoEffect
        case Some(profile) =>
          (match json.parse(profile)
           case Success(p) => ShowApifyStep(p)
           case Failure(m) => Throws(m))
      else NoEffect
  }

  // ---------------------------------------------------------------------------------------------
  // Step 2: handing the credentials to the GKP backend

  /** Where the bundle is posted: the backend's callback with the original query appended. */
  function CallbackUrl(backendUrl: string, storage: map<string, string>): string {
    backendUrl + "/callback?" + (if OriginalParamsKey in storage then storage[OriginalParamsKey] else "")
  }

  /** The bundle made of the stored tokens and profile, or the message of the error thrown on the
      way: the data-lost error when either item is missing or empty, a parse error, or a failed
      property read. */
  function StoredBundle(storage: map<string, string>, json: JsonCodec, apifyToken: string): (r: Result<Bundle>)
    ensures StoredText(storage, TokensKey).None? || StoredText(storage, ProfileKey).None? ==>
      r == Failure(DataLost)
    ensures r.Success? <==>
      StoredText(storage, TokensKey).Some? && StoredText(storage, ProfileKey).Some? &&
      json.parse(storage[TokensKey]).Success? && json.parse(storage[ProfileKey]).Success? &&
      BuildBundle(json.parse(storage[TokensKey]).value, json.parse(storage[ProfileKey]).value, apifyToken).Success?
    ensures r.Success? ==>
      r == BuildBundle(json.parse(storage[TokensKey]).value, json.parse(storage[ProfileKey]).value, apifyToken)
  {
    match (StoredText(storage, TokensKey), StoredText(storage, ProfileKey))
    case (Some(tokens), Some(profile)) =>
      var parsedTokens :- json.parse(tokens);
      var parsedProfile :- json.parse(profile);
      BuildBundle(parsedTokens, parsedProfile, apifyToken)
    case _ => Failure(DataLost)
  }

  /** The backend's answer: the address to go to, or the message of the error thrown. A response
      that is not ok fails whatever its `success` says. */
  function BackendVerdict(reply: Reply): (r: Result<string>)
    ensures r.Success? <==>
      reply.Replied? && reply.ok && reply.body.Success? && Truthy(Field(reply.body.value, "success"))
    ensures r.Success? ==> r.value == ToString(Field(reply.body.value, "redirectUrl"))
    ensures reply.Rejected? ==> r == Failure(reply.reason)
    ensures (reply.Replied? && reply.body.Success? && !IsNullish(reply.body.value) && r.Failure?) ==>
      r.error == ErrorText(Field(reply.body.value, "message"), UnknownServerError)
  {
    match reply
    case Rejected(reason) => Failure(reason)
    case Replied(ok, body) =>
      var data :- body;
      if !ok then
        var message :- Prop(data, "message");
        Failure(ErrorText(message, UnknownServerError))
      else
        var success :- Prop(data, "success");
        if !Truthy(success) then Failure(ErrorText(Field(data, "message"), UnknownServerError))
        else Success(ToString(Field(data, "redirectUrl")))
  }

  datatype SubmitOutcome =
    | Failed(sent: Option<Request>, message: string) // an error was thrown, after the post if one was sent
    | Completed(request: Request, redirect: string)  // the backend accepted the bundle

  /** The try block of the final submission, once the token passed the checks. */
  function Handover(token: string, storage: map<string, string>, json: JsonCodec, backendUrl: string,
                    reply: Reply): (o: SubmitOutcome)
  {
    match StoredBundle(storage, json, token)
    case Failure(m) => Failed(None, m)
    case Success(bundle) =>
      var request := BackendPost(CallbackUrl(backendUrl, storage), bundle);
      match BackendVerdict(reply)
      case Failure(m) => Failed(Some(request), m)
      case Success(redirect) => Completed(request, redirect)
  }

  /** What the try block does: missing data is reported before anything is sent; the backend is
      called exactly when the bundle could be built, at the callback URL; the submission completes
      only when the backend also accepts, and then the browser goes where the backend says. */
  lemma HandoverOutcome(token: string, storage: map<string, string>, json: JsonCodec, backendUrl: string,
                        reply: Reply)
    ensures var o := Handover(token, storage, json, backendUrl, reply);
      (StoredText(storage, TokensKey).None? || StoredText(storage, ProfileKey).None? ==>
         o == Failed(None, DataLost)) &&
      ((o.Failed? && o.sent.Some?) || o.Completed? <==> StoredBundle(storage, json, token).Success?) &&
      (o.Failed? && o.sent.Some? ==>
         o.sent.value == BackendPost(CallbackUrl(backendUrl, storage), StoredBundle(storage, json, token).value) &&
         BackendVerdict(reply).Failure? && o.message == BackendVerdict(reply).error) &&
      (o.Completed? <==> StoredBundle(storage, json, token).Success? && BackendVerdict(reply).Success?) &&
      (o.Completed? ==>
         o.request == BackendPost(CallbackUrl(backendUrl, storage), StoredBundle(storage, json, token).value) &&
         o.request.bundle.apifyToken == token &&
         o.redirect == BackendVerdict(reply).value)
  {
  }

  /** The submit button is enabled when nothing is loading and the token is not blank; then the
      missing-token error cannot occur. */
  function SubmitEnabled(isLoading: bool, token: string): (r: bool)
    ensures r ==> !isLoading && TokenCheck(token) != Some(Blank)
  {
    !isLoading && Trim(token) != ""
  }

  // ---------------------------------------------------------------------------------------------
  // The page component

  /** The page's state; `query` is the page's query string, and `tab` the tab it runs in. */
  class GkpAuthClient {
    const tab: Tab
    const query: string
    const config: ClientConfig
    var apifyToken: string
    var error: Option<string>
    var isLoading: bool
    var googleProfile: JsValue
    var showApifyStep: bool

    constructor(tab: Tab, query: string, config: ClientConfig)
      ensures this.tab == tab && this.query == query && this.config == config
      ensures apifyToken == "" && error == None && !isLoading && googleProfile == Null && !showApifyStep
    {
      this.tab := tab;
      this.query := query;
      this.config := config;
      apifyToken := "";
      error := None;
      isLoading := false;
      googleProfile := Null;
      showApifyStep := false;
    }

    /** The mount effect; `threw` is the message of the error it throws, if it throws. */
    method Mount() returns (threw: Option<string>)
      modifies this
      ensures var e := MountEffectOf(query, tab.storage, tab.json);
        threw == (if e.Throws? then Some(e.reason) else None) &&
        error == (if e.ShowError? then Some(e.message) else old(error)) &&
        googleProfile == (if e.ShowApifyStep? then e.profile else old(googleProfile)) &&
        showApifyStep == (e.ShowApifyStep? || old(showApifyStep))
      ensures apifyToken == old(apifyToken) && isLoading == old(isLoading)
    {
      threw := None;
      var step := Param(query, "step");
      var encoded := Given(query, "error");
      if encoded.Some? {
        match DecodeURIComponent(encoded.value) {
          case Some(text) => error := Some(text);
          case None => threw := Some(UriMalformed);
        }
        return;
      }
      if step == Some("apify") {
        var profile := StoredText(tab.storage, ProfileKey);
        if profile.Some? {
          match tab.json.parse(profile.value) {
            case Success(p) =>
              googleProfile := p;
              showApifyStep := true;
            case Failure(m) =>
              threw := Some(m);
          }
        }
      }
    }

    /** Sends the browser to Google's consent screen, keeping the page's query for the way back. */
    method InitiateGoogleOAuth()
      modifies this, tab
      ensures (config.clientId.None? || config.clientId.value == "") ==>
        error == Some(MissingClientId) && isLoading == old(isLoading) &&
        tab.storage == old(tab.storage) && tab.location == old(tab.location)
      ensures (config.clientId.Some? && config.clientId.value != "") ==>
        error == old(error) && isLoading &&
        tab.storage == old(tab.storage)[OriginalParamsKey := OriginalParams(query)] &&
        tab.location == Some(AuthorizationUrl(config.clientId.value, config.frontendUrl, OriginalParams(query)))
      ensures tab.sent == old(tab.sent)
      ensures apifyToken == old(apifyToken) && googleProfile == old(googleProfile) &&
              showApifyStep == old(showApifyStep)
    {
      var clientId := config.clientId;
      if clientId.None? || clientId.value == "" {
        error := Some(MissingClientId);
        return;
      }
      isLoading := true;
      var originalParams := OriginalParams(query);
      tab.SetItem(OriginalParamsKey, originalParams);
      tab.Navigate(AuthorizationUrl(clientId.value, config.frontendUrl, originalParams));
    }

    /** Typing into the token field. */
    method SetApifyToken(value: string)
      modifies this
      ensures apifyToken == value
      ensures error == old(error) && isLoading == old(isLoading) && googleProfile == old(googleProfile) &&
              showApifyStep == old(showApifyStep)
    {
      apifyToken := value;
    }

    /** The final submission; `reply` is what the post to the backend produces, if it is made.
        `outcome` is None when the token is refused, which stops it before anything else happens;
        otherwise it is what the try block came to. */
    method HandleFinalSubmit(reply: Reply) returns (outcome: Option<SubmitOutcome>)
      modifies this, tab
      ensures outcome.None? <==> TokenCheck(apifyToken).Some?
      ensures outcome.None? ==>
        error == Some(RefusalMessage(TokenCheck(apifyToken).value)) && isLoading == old(isLoading) &&
        tab.storage == old(tab.storage) && tab.location == old(tab.location) && tab.sent == old(tab.sent)
      ensures outcome.Some? ==> outcome.value == Handover(apifyToken, old(tab.storage), tab.json, config.backendUrl, reply)
      ensures outcome.Some? && outcome.value.Failed? ==>
        error == Some("Error: " + outcome.value.message) && !isLoading &&
        tab.storage == old(tab.storage) && tab.location == old(tab.location) &&
        tab.sent == old(tab.sent) + (if outcome.value.sent.Some? then [outcome.value.sent.value] else [])
      ensures outcome.Some? && outcome.value.Completed? ==>
        error == None && isLoading &&
        tab.storage == old(tab.storage) - {TokensKey, ProfileKey, OriginalParamsKey} &&
        tab.location == Some(outcome.value.redirect) && tab.sent == old(tab.sent) + [outcome.value.request]
      ensures apifyToken == old(apifyToken) && googleProfile == old(googleProfile) &&
              showApifyStep == old(showApifyStep)
    {
      var refusal := TokenCheck(apifyToken);
      if refusal.Some? {
        error := Some(RefusalMessage(refusal.value));
        return None;
      }
      isLoading := true;
      error := None;
      var handed := TryHandover(reply);
      outcome := Some(handed);
    }

    /** The try block of the final submission and its catch. */
    method TryHandover(reply: Reply) returns (outcome: SubmitOutcome)
      modifies this, tab
      ensures outcome == Handover(apifyToken, old(tab.storage), tab.json, config.backendUrl, reply)
      ensures outcome.Failed? ==>
        error == Some("Error: " + outcome.message) && !isLoading &&
        tab.storage == old(tab.storage) && tab.location == old(tab.location) &&
        tab.sent == old(tab.sent) + (if outcome.sent.Some? then [outcome.sent.value] else [])
      ensures outcome.Completed? ==>
        error == old(error) && isLoading == old(isLoading) &&
        tab.storage == old(tab.storage) - {TokensKey, ProfileKey, OriginalParamsKey} &&
        tab.location == Some(outcome.redirect) && tab.sent == old(tab.sent) + [outcome.request]
      ensures apifyToken == old(apifyToken) && googleProfile == old(googleProfile) &&
              showApifyStep == old(showApifyStep)
    {
      var callbackUrl := CallbackUrl(config.backendUrl, tab.storage);
      match StoredBundle(tab.storage, tab.json, apifyToken) {
        case Failure(m) =>
          outcome := Failed(None, m);
        case Success(bundle) =>
          var request := BackendPost(callbackUrl, bundle);
          tab.Send(request);
          match BackendVerdict(reply) {
            case Failure(m) =>
              outcome := Failed(Some(request), m);
            case Success(redirect) =>
              tab.RemoveItem(TokensKey);
              tab.RemoveItem(ProfileKey);
              tab.RemoveItem(OriginalParamsKey);
              tab.Navigate(redirect);
              outcome := Completed(request, redirect);
          }
      }
      // the catch block
      if outcome.Failed? {
        error := Some("Error: " + outcome.message);
        isLoading := false;
      }
    }

    /** Back to the sign-in step: the stored Google data is dropped, the original query is kept. */
    method GoBackToStep1()
      modifies this, tab
      ensures !showApifyStep && googleProfile == Null && apifyToken == "" && error == None
      ensures isLoading == old(isLoading)
      ensures tab.storage == old(tab.storage) - {TokensKey, ProfileKey}
      ensures OriginalParamsKey in old(tab.storage) ==>
        OriginalParamsKey in tab.storage && tab.storage[OriginalParamsKey] == old(tab.storage)[OriginalParamsKey]
      ensures tab.location == old(tab.location) && tab.sent == old(tab.sent)
    {
      showApifyStep := false;
      googleProfile := Null;
      apifyToken := "";
      error := None;
      tab.RemoveItem(TokensKey);
      tab.RemoveItem(ProfileKey);
    }
  }
}
