/** The page Google redirects back to: it posts the authorization code to the exchange endpoint,
    keeps the answer in localStorage and sends the browser back to the authorize page. */
module Callback {
  import opened Js
  import opened UrlCoding
  import opened Query
  import opened Browser

  const AuthorizePath := "/authorize"
  /** The query of the address the page goes to after a successful exchange. */
  const ApifyStepQuery := "step" + "=" + "apify"
  const ApifyStepUrl := AuthorizePath + "?" + ApifyStepQuery
  const ExchangeFailed := "Token exchange failed"

  /** The query that carries an error message to the authorize page. */
  function ErrorQuery(message: string): string {
    "error=" + EncodeURIComponent(message)
  }

  function ErrorRedirect(message: string): string {
    AuthorizePath + "?" + ErrorQuery(message)
  }

  /** What the page makes of the exchange endpoint's reply: the two items it stores, or the message
      of the error it throws. The status of the response is not consulted. */
  function ExchangeOutcome(reply: Reply, json: JsonCodec): (r: Result<map<string, string>>)
    ensures r.Success? <==>
      reply.Replied? && reply.body.Success? && Truthy(Field(reply.body.value, "success"))
    ensures r.Success? ==>
      r.value == map[TokensKey := json.stringify(Field(reply.body.value, "tokens")),
                     ProfileKey := json.stringify(Field(reply.body.value, "profile"))]
    ensures reply.Rejected? ==> r == Failure(reply.reason)
    ensures (reply.Replied? && reply.body.Success? && !IsNullish(reply.body.value) &&
             !Truthy(Field(reply.body.value, "success"))) ==>
      r == Failure(ErrorText(Field(reply.body.value, "message"), ExchangeFailed))
  {
    match reply
    case Rejected(reason) => Failure(reason)
    case Replied(_, body) =>
      var data :- body;
      var success :- Prop(data, "success");
      if Truthy(success) then
        Success(map[TokensKey := json.stringify(Field(data, "tokens")),
                    ProfileKey := json.stringify(Field(data, "profile"))])
      else
        Failure(ErrorText(Field(data, "message"), ExchangeFailed))
  }

  /** One visit to the page: the request it sent, the items it stored and where it sent the browser
      (None when it stays). */
  datatype Visit = Visit(request: Option<Request>, writes: map<string, string>, target: Option<string>)

  function Callback(q: string, reply: Reply, json: JsonCodec): (v: Visit)
    // an error from Google is passed on, and no code is exchanged then, even when one is present
    ensures Given(q, "error").Some? ==>
      v == Visit(None, map[], Some(ErrorRedirect(Given(q, "error").value)))
    // without an error or a code the page does nothing
    ensures Given(q, "error").None? && Given(q, "code").None? ==> v == Visit(None, map[], None)
    // otherwise it posts the code and the state, as received
    ensures v.request.Some? <==> Given(q, "error").None? && Given(q, "code").Some?
    ensures v.request.Some? ==> v.request.value == ExchangePost(Given(q, "code").value, Param(q, "state"))
    // it stores exactly the tokens and the profile, and only when it goes on to the Apify step
    ensures v.writes != map[] <==> v.request.Some? && ExchangeOutcome(reply, json).Success?
    ensures v.writes != map[] ==> v.writes.Keys == {TokensKey, ProfileKey} && v.target == Some(ApifyStepUrl)
    ensures v.writes != map[] ==>
      v.writes[TokensKey] == json.stringify(Field(reply.body.value, "tokens")) &&
      v.writes[ProfileKey] == json.stringify(Field(reply.body.value, "profile"))
    // every failure of the exchange returns to the authorize page with its message
    ensures v.request.Some? && ExchangeOutcome(reply, json).Failure? ==>
      v.target == Some(ErrorRedirect(ExchangeOutcome(reply, json).error))
  {
    match Given(q, "error")
    case Some(e) => Visit(None, map[], Some(ErrorRedirect(e)))
    case None =>
      match Given(q, "code")
      case None => Visit(None, map[], None)
      case Some(code) =>
        var request := ExchangePost(code, Param(q, "state"));
        match ExchangeOutcome(reply, json)
        case Success(writes) =>
          assert TokensKey in writes;
          Visit(Some(request), writes, Some(ApifyStepUrl))
        case Failure(m) => Visit(Some(request), map[], Some(ErrorRedirect(m)))
  }

  /** The page's effect on the tab. */
  method HandleCallback(tab: Tab, q: string, reply: Reply)
    modifies tab
    ensures var v := Callback(q, reply, tab.json);
      tab.storage == old(tab.storage) + v.writes &&
      tab.sent == old(tab.sent) + (if v.request.Some? then [v.request.value] else []) &&
      tab.location == (if v.target.Some? then v.target else old(tab.location))
  {
    var code := Given(q, "code");
    var state := Param(q, "state");
    var error := Given(q, "error");
    if error.Some? {
      tab.Navigate(ErrorRedirect(error.value));
      return;
    }
    if code.Some? {
      ExchangeCodeForTokens(tab, code.value, state, reply);
    }
  }

  method ExchangeCodeForTokens(tab: Tab, code: string, state: Option<string>, reply: Reply)
    modifies tab
    ensures tab.sent == old(tab.sent) + [ExchangePost(code, state)]
    ensures match ExchangeOutcome(reply, tab.json)
      case Success(writes) => tab.storage == old(tab.storage) + writes && tab.location == Some(ApifyStepUrl)
      case Failure(m) => tab.storage == old(tab.storage) && tab.location == Some(ErrorRedirect(m))
  {
    tab.Send(ExchangePost(code, state));
    // the message of the error thrown inside the try block, if one was
    var thrown: Option<string> := None;
    match reply {
      case Rejected(reason) =>
        thrown := Some(reason);
      case Replied(_, body) =>
        match body {
          case Failure(m) =>
            thrown := Some(m);
          case Success(data) =>
            match Prop(data, "success") {
              case Failure(m) =>
                thrown := Some(m);
              case Success(success) =>
                if Truthy(success) {
                  tab.SetItem(TokensKey, tab.json.stringify(Field(data, "tokens")));
                  tab.SetItem(ProfileKey, tab.json.stringify(Field(data, "profile")));
                  tab.Navigate(ApifyStepUrl);
                } else {
                  thrown := Some(ErrorText(Field(data, "message"), ExchangeFailed));
                }
            }
        }
    }
    if thrown.Some? {
      tab.Navigate(ErrorRedirect(thrown.value));
    }
  }
}
