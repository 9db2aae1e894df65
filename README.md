# GKP OAuth relay — a Dafny model

The application connects a user's Google account and Apify API token to the GKP backend. It has
three parts, and they run one after the other.

1. **The authorize page** (`GkpAuthClient`) keeps the page's own query string in `localStorage`.
   It then sends the browser to Google's consent screen with an authorization-code request
   (section 4.1.1 of RFC 6749, plus `prompt` from section 3.1.2.1 of OpenID Connect Core 1.0).
2. **The callback page** (`/oauth/callback`) receives Google's answer. It posts `code` and
   `state` to the exchange endpoint, stores the tokens and profile it gets back, and returns to
   the authorize page at the Apify step. Any error is passed back to the authorize page in its
   query.
3. **The exchange endpoint** (`POST /api/oauth/exchange`) redeems the code at Google's token
   endpoint (section 4.1.3 of RFC 6749) and reads the user's profile from the userinfo endpoint.
   It answers `{success, tokens, profile}` or `{success: false, message}`.

The authorize page then checks the Apify token and builds the credential bundle from the stored
items. It posts the bundle to the GKP backend, clears the stored items, and follows the address
the backend returns.

The model has these modules:

- **`Js`**: the JavaScript values the code handles, and the parts of the language it relies on:
  - truthiness, `String(v)` and property reads that throw on null;
  - `new Error(x || fallback)`;
  - the outcome of a `fetch`.

  `JSON.parse`/`JSON.stringify` stay abstract, as the two function values of a `JsonCodec`.
- **`Utf8`, `UrlCoding`, `Query`**: UTF-8, `encodeURIComponent`/`decodeURIComponent`, and the
  `URLSearchParams` parser and serializer. They are written out down to the byte, because what
  the pages promise depends on them: parameters read back as written, and error texts are decoded
  twice.
- **`Exchange`**: the endpoint, as a function from the request body and Google's two replies to
  the requests it made and its answer.
- **`Browser`**: a `Tab` class holding `localStorage` as a map, the address it was sent to, and
  the requests its pages sent.
- **`Credentials`**: the token checks and the bundle posted to the GKP backend.
- **`Callback`**: the callback page, as a specification function and a method over the `Tab`.
- **`Authorize`**: the authorize page, as a class with the component's state fields, whose
  handlers are methods specified by functions.
- **`Flow`**: lemmas that connect the parts. Among them:
  - the authorization request and the token request name the same `redirect_uri`;
  - `state` carries the original query;
  - error texts survive the relay only when they hold no `%`;
  - the access token, refresh token and scope Google issued reach the GKP backend unchanged, with the subject, email and name of the user; `expires_in` defaults to 3600 when falsy, and `token_type` is not passed on.

## Model

| member | source | states |
|---|---|---|
| Js.ToString | app/api/oauth/exchange/route.ts:40 | `String(v)`: only the empty string gives the empty text, and a truthy value never does |
| Js.ErrorText | app/oauth/callback/page.tsx:47 | `new Error(v \|\| fallback).message` is never empty when the fallback is not |
| Utf8.EncodeCharShape | app/oauth/callback/page.tsx:15 | a character is written as 1 to 4 UTF-8 bytes, a single one exactly for ASCII, which is written as its own code; the lead byte is never a continuation byte and all the others are |
| Utf8.DecodeFirstOfEncodeChar | app/oauth/callback/page.tsx:15 | the decoder reads an encoded character back, together with its exact length, whatever follows it |
| Utf8.DecodeEncode | app/oauth/callback/page.tsx:15 | the strict and the lenient decoders both invert the UTF-8 encoding of any text |
| UrlCoding.HexValueOfDigit | app/oauth/callback/page.tsx:15 | reading a written hexadecimal digit gives its value back |
| UrlCoding.EncodeQuerySafe | app/authorize/mcpauthclient.tsx:68-76 | neither encoder ever writes `&`, `=` or `#`, so an encoded value cannot split a query |
| UrlCoding.PercentDecodeEncodeBytes | app/authorize/mcpauthclient.tsx:28-29 | percent-decoding returns exactly the bytes an encoder wrote |
| UrlCoding.FormDecodeEncode | app/oauth/callback/page.tsx:9-15 | the `URLSearchParams` decoder inverts both `encodeURIComponent` and the form serializer |
| UrlCoding.EncodeUnescaped | app/oauth/callback/page.tsx:15 | text made only of characters an encoder leaves alone is written unchanged |
| UrlCoding.FormDecodeUnescaped | app/authorize/mcpauthclient.tsx:28-29 | such plain text is read back unchanged |
| UrlCoding.DecodeURIComponent | app/authorize/mcpauthclient.tsx:32 | `decodeURIComponent` leaves text without `%` unchanged |
| UrlCoding.DecodeURIComponentShorter | app/authorize/mcpauthclient.tsx:32 | decoding never lengthens the text, and a text holding `%` either fails or comes back strictly shorter, so never unchanged |
| UrlCoding.DecodeURIComponentEscapedPercent | app/authorize/mcpauthclient.tsx:32 | a second decoding turns "%25" into "%" |
| UrlCoding.DecodeURIComponentLonePercent | app/authorize/mcpauthclient.tsx:32 | a lone `%` makes `decodeURIComponent` throw |
| Query.Split | app/authorize/mcpauthclient.tsx:28-29 | a query splits into at least one piece, and no piece holds the separator |
| Query.SplitJoin | app/authorize/mcpauthclient.tsx:60 | splitting inverts joining pieces that do not hold the separator |
| Query.CutAtEqualsAfter | app/authorize/mcpauthclient.tsx:28-29 | a `name=value` piece is cut at its first `=`, into the name and the value |
| Query.Get | app/oauth/callback/page.tsx:9-11 | `get` finds a value exactly when some parameter has the name, and the value belongs to such a parameter |
| Query.GetAt | app/oauth/callback/page.tsx:9-11 | `get` returns the value of the first parameter with the name |
| Query.ParsePiece | app/authorize/mcpauthclient.tsx:28-29 | a query of one `name=value` piece parses to that single parameter, decoded |
| Query.ParsePlainPiece | app/authorize/mcpauthclient.tsx:28 | a query of one plain piece, such as `step=apify`, parses to that parameter as written |
| Query.ParseSerializedPair | app/authorize/mcpauthclient.tsx:68-76 | a serialized parameter parses back to the same name and value |
| Query.SerializeAllPieces | app/authorize/mcpauthclient.tsx:68-76 | every serialized parameter is a non-empty piece without `&` |
| Query.ParseSerialize | app/authorize/mcpauthclient.tsx:60 | parsing a serialized list gives back exactly that list: names, values and order |
| Credentials.TrimEmpty | app/authorize/mcpauthclient.tsx:84 | `trim()` leaves nothing exactly when every character is JavaScript white space |
| Credentials.TokenCheckMeaning | app/authorize/mcpauthclient.tsx:84-91 | a token is refused as blank exactly when it is all white space; it is refused as malformed exactly when it is not blank and lacks `apify_api_`; it is accepted otherwise |
| Credentials.LeadingSpaceIsMalformed | app/authorize/mcpauthclient.tsx:88-91 | the prefix test is on the untrimmed token, so `" apify_api_x"` is refused as malformed |
| Credentials.BuildBundle | app/authorize/mcpauthclient.tsx:115-136 | the bundle is built exactly when neither stored object is null, and the first null read decides the error. Both places that carry the subject and the access token hold the same value. `expires_in` is kept when truthy and is 3600 otherwise, so it is always truthy. The metadata is empty and the Apify token is the one entered |
| Browser.Tab.SetItem | app/oauth/callback/page.tsx:41-42 | `setItem` changes that one key, and leaves the address and the sent requests alone |
| Browser.Tab.RemoveItem | app/authorize/mcpauthclient.tsx:150-152 | `removeItem` drops that one key and nothing else |
| Browser.Tab.Navigate | app/authorize/mcpauthclient.tsx:155 | assigning `location.href` sets the address and nothing else |
| Browser.Tab.Send | app/oauth/callback/page.tsx:29-33 | a `fetch` appends its request and leaves storage and the address alone |
| Callback.ExchangeOutcome | app/oauth/callback/page.tsx:35-48 | the exchange succeeds exactly when the body parses and `success` is truthy, whatever the HTTP status; it then stores exactly the serialized tokens and profile. A rejected fetch fails with its reason, and a falsy `success` fails with `message` or "Token exchange failed" |
| Callback.Callback | app/oauth/callback/page.tsx:8-53 | an `error` parameter sends the browser back with it, and no code is exchanged even when one is present. Without either parameter nothing happens. Otherwise `code` and `state` are posted unchanged. Items are stored only on success, and then exactly the two keys, holding `JSON.stringify` of the answer's `tokens` and `profile`, before going to the Apify step. Every failure goes back with its message |
| Callback.HandleCallback | app/oauth/callback/page.tsx:8-22 | the page's effect on the tab: storage gains exactly the visit's writes, sent gains exactly its request, and the address changes only to its target |
| Callback.ExchangeCodeForTokens | app/oauth/callback/page.tsx:24-53 | the code and state are posted. On success both items are written and the browser goes to `/authorize?step=apify`; otherwise storage is untouched and the browser goes to the error address |
| Exchange.Caught | app/api/oauth/exchange/route.ts:70-76 | the catch block always answers a refusal: a non-empty error message is passed on unchanged, an empty one becomes a non-empty fixed text |
| Exchange.TokenRequestParamsGet | app/api/oauth/exchange/route.ts:20-26 | each of the five token-request parameters can be read back under its name |
| Exchange.TokenRequestBodyParams | app/api/oauth/exchange/route.ts:17-27 | the form body reads back as the authorization-code grant for exactly the received code, with the callback URI and the client's credentials |
| Exchange.TokensFrom | app/api/oauth/exchange/route.ts:29-33 | the token reply is accepted exactly when it is ok and parses, and then it is the parsed body; a not-ok object reply fails with its `error_description` or the fixed text; a rejected fetch fails with its own reason |
| Exchange.ProfileFrom | app/api/oauth/exchange/route.ts:44-48 | the userinfo reply is accepted exactly when it is ok and parses; a refusal's own text is not passed on |
| Exchange.AfterTokens | app/api/oauth/exchange/route.ts:38-68 | userinfo is called with the bearer access token exactly when the tokens are not null. The answer is granted exactly when userinfo succeeds with a non-null body, and then it projects the tokens and profile fields unchanged |
| Exchange.WithCode | app/api/oauth/exchange/route.ts:17-68 | with a code, the token request is always made. Userinfo is called only after an ok token reply, and a token refusal never reaches it |
| Exchange.Handle | app/api/oauth/exchange/route.ts:3-77 | a falsy code is refused before any call to Google; the token endpoint is called exactly when there is a code, with that code. The answer is granted exactly when both replies are ok and not null, and then `id` becomes `sub` and the other fields pass unchanged. Every refusal carries a message |
| Exchange.OnlyCodeMatters | app/api/oauth/exchange/route.ts:5 | of an object request body, only `code` affects the run |
| Exchange.StateIgnored | app/api/oauth/exchange/route.ts:5 | `state` is read but changes nothing |
| Exchange.ToJson | app/api/oauth/exchange/route.ts:53-68 | the JSON answer's `success` is truthy exactly for a grant; it carries the five token fields and the four profile fields, or the message; like `NextResponse.json`, no property of the answer or of its `tokens` and `profile` objects holds undefined |
| Exchange.TokensJson | app/api/oauth/exchange/route.ts:55-61 | the `tokens` object reads back the five token fields, and a field Google left out is absent rather than undefined |
| Exchange.ProfileJson | app/api/oauth/exchange/route.ts:62-67 | the `profile` object reads back `sub`, `email`, `name` and `picture`, and a missing one is absent rather than undefined |
| Exchange.PartialProfileJson | app/api/oauth/exchange/route.ts:62-67 | a userinfo answer with only `id` and `email` gives a profile of exactly `sub` and `email` |
| Js.Defined | app/api/oauth/exchange/route.ts:53 | `JSON.stringify` drops undefined-valued properties; every property reads back as before |
| Authorize.AuthorizationParamsGet | app/authorize/mcpauthclient.tsx:68-76 | each of the seven request parameters can be read back under its name |
| Authorize.AuthorizationQueryParams | app/authorize/mcpauthclient.tsx:64-76 | Google reads the request with the configured client id, `redirect_uri` = frontend + `/oauth/callback`, `scope` = `openid email profile`, `response_type` = `code`, `access_type` = `offline`, `prompt` = `consent`, and the state unaltered |
| Authorize.OriginalParamsPreserved | app/authorize/mcpauthclient.tsx:60 | the kept query reads back as the page's own parameters, in order |
| Authorize.MountEffectOf | app/authorize/mcpauthclient.tsx:26-44 | an `error` parameter takes priority and is decoded once more; the decode may throw. Only an `error` parameter shows an error. The Apify step is shown exactly when `step=apify` and a stored profile parses, and it shows that profile. A stored profile that does not parse makes the effect throw with the parser's message. Otherwise nothing changes |
| Authorize.StoredBundle | app/authorize/mcpauthclient.tsx:103-136 | a missing item gives the data-lost error; the bundle is built exactly when both items are present, parse and build |
| Authorize.BackendVerdict | app/authorize/mcpauthclient.tsx:144-147 | the backend accepts exactly when the response is ok and `success` is truthy, and then gives `redirectUrl`; otherwise the error is `message` or the fixed text |
| Authorize.HandoverOutcome | app/authorize/mcpauthclient.tsx:96-161 | missing data fails before anything is sent. The backend is called exactly when the bundle is built, at the callback URL. The submission completes exactly when the backend accepts, and goes where it says |
| Authorize.SubmitEnabled | app/authorize/mcpauthclient.tsx:738 | an enabled submit button means nothing is loading and the token cannot be refused as blank |
| Authorize.GkpAuthClient.constructor | app/authorize/mcpauthclient.tsx:14-18 | the initial state: empty token, no error, not loading, no profile, step 1 |
| Authorize.GkpAuthClient.Mount | app/authorize/mcpauthclient.tsx:26-44 | the mount effect sets the error, or the profile and the step, exactly as `MountEffectOf` says, and reports the error it throws |
| Authorize.GkpAuthClient.InitiateGoogleOAuth | app/authorize/mcpauthclient.tsx:47-80 | without a client id it only sets the configuration error: no loading, no storage write, no navigation. With one it sets loading, stores the query and navigates to the authorization URL whose state is that query |
| Authorize.GkpAuthClient.SetApifyToken | app/authorize/mcpauthclient.tsx:727 | typing changes only the token |
| Authorize.GkpAuthClient.HandleFinalSubmit | app/authorize/mcpauthclient.tsx:83-162 | a refused token only sets its error: nothing is sent, stored, loaded or navigated. A failure sets "Error: " + message and stops loading, and leaves storage and the address alone. Success removes exactly the three keys and navigates to the redirect. The step, the profile and the token never change |
| Authorize.GkpAuthClient.TryHandover | app/authorize/mcpauthclient.tsx:96-161 | the try block and its catch: the state changes that go with each outcome of `Handover` |
| Authorize.GkpAuthClient.GoBackToStep1 | app/authorize/mcpauthclient.tsx:164-171 | back to step 1 with no profile, token or error. Only the tokens and profile are removed: the original query and the loading flag stay |
| Flow.RedirectUriAgrees | app/api/oauth/exchange/route.ts:25 | the authorization request and the token request carry the same `redirect_uri` when both sides use the same frontend URL |
| Flow.ClientIdAgrees | app/api/oauth/exchange/route.ts:21 | both requests name the same client when it is configured alike |
| Flow.StateCarriesOriginalQuery | app/authorize/mcpauthclient.tsx:60-75 | the `state` sent to Google is the stored query, and it parses back to the page's own parameters |
| Flow.ErrorParamOfErrorQuery | app/oauth/callback/page.tsx:15 | the relayed query's `error` parameter is the message, whatever its characters |
| Flow.ErrorRelay | app/authorize/mcpauthclient.tsx:31-34 | the authorize page decodes the relayed message again. A message without `%` is shown as sent, one with `%` is never shown as sent, and an empty one shows nothing |
| Flow.ErrorRelayDecodesTwice | app/oauth/callback/page.tsx:51 | "%25" is shown as "%", and a lone "%" makes the mount effect throw |
| Flow.ApifyStepQueryParams | app/oauth/callback/page.tsx:45 | `step=apify` carries the step and no error |
| Flow.ApifyStepAfterExchange | app/oauth/callback/page.tsx:37-45 | after a successful exchange, the authorize page opens on the Apify step and shows the stored profile |
| Flow.TokensReachBackend | app/authorize/mcpauthclient.tsx:104-136 | the endpoint's grant, stored by the callback page and read back, gives a bundle with exactly Google's access token, refresh token, scope, subject, email and name |

## Left out

- Rendering (JSX, styles, SVG), the debug log (`addDebugInfo`, `console`) and the `debugInfo` state. They have no effect on the flow.
- React scheduling, and the effects re-running when `searchParams` changes. Each handler is one atomic step. The page disables its buttons while loading, so handlers do not overlap.
- `fetch`, `.json()` and the network. Each call's outcome is an input (`Reply`). The pages' requests are recorded in `Tab.sent`: the code exchange as its `code` and `state` (its address, this application's own exchange endpoint, is fixed and not recorded), the backend post as its address and bundle. The endpoint's two calls to Google are recorded in `Exchange.Run`: the token request as its form fields, the userinfo request as its Authorization header; their fixed Google addresses are not recorded. HTTP methods and the other headers are not recorded.
- `JSON.parse` and `JSON.stringify` are abstract functions. `Flow.ApifyStepAfterExchange` and `Flow.TokensReachBackend` assume as a precondition that parsing gives back what was stringified.
- `Js.ToString`: numbers are integers; floating point is not modelled.
- `Js.JsValue`: arrays are not modelled. In JavaScript an array is truthy yet `String([])` is "", so `Js.ToString`'s "a truthy value never gives the empty text" holds only of the values modelled; a token reply whose `error_description` is `[]` would make the endpoint answer "Internal server error", a case the model cannot produce.
- `Browser.Tab.Navigate`: never fails. Setting `window.location.href` to an address the browser cannot parse (say `http://[x`) throws a SyntaxError. At app/authorize/mcpauthclient.tsx:155 that happens inside the try block, after the three `removeItem` calls. The page would then end in the catch block: the keys removed, "Error: " plus the SyntaxError's message shown, and loading off. `Authorize.GkpAuthClient.HandleFinalSubmit` instead reports completion and navigates.
- `Browser.Tab.SetItem`: never fails. `localStorage.setItem` can throw a QuotaExceededError. At app/oauth/callback/page.tsx:41-42 that would end in the callback page's catch block and redirect with the error. After a successful exchange, `Callback.ExchangeCodeForTokens` always stores both items and goes to the Apify step.
- `Js.ReadError`, `Exchange.DestructureError`: the TypeError texts follow V8's wording.
- `process.env`: each setting is the text it interpolates to (`ClientConfig`, `ServerConfig`). An unset client id on the page is `None`.
- `Utf8.DecodeLenient`: an invalid byte sequence becomes one U+FFFD per byte that cannot start a character. WHATWG's decoder replaces a whole maximal subpart with one U+FFFD, so for such input the two can differ in how many replacement characters appear.
- `UrlCoding.EncodeURIComponent`: never fails. Dafny's `char` excludes surrogate code points, so the URIError JavaScript throws on a lone surrogate cannot occur.
- `Authorize.GkpAuthClient.HandleFinalSubmit` and `Mount` return what the handler came to (`outcome`, `threw`), which the source does not return.
- `Credentials.TokenCheck` names the two refusal reasons (`Refusal`), which the source distinguishes only by their messages.
- `Exchange.Handle`: a not-ok userinfo reply is refused with the fixed text "Failed to fetch user profile"; Google's own error text in that reply is dropped, as the code does.
- app/page.tsx, app/layout.tsx, app/authorize/page.tsx and next.config.js are not part of this model. They hold static markup, a Suspense wrapper and settings, with no logic.
