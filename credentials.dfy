/** The Apify-token check and the credential bundle the authorize page posts to the GKP backend. */
module Credentials {
  import opened Js

  const ApifyPrefix := "apify_api_"
  const MissingTokenMessage := "Please enter your Apify API token to complete the GKP integration setup."
  const MalformedTokenMessage :=
    "Invalid Apify token format. Your token should start with 'apify_api_' followed by your unique identifier."
  /** What `expires_in` becomes when the stored value is falsy. */
  const DefaultExpiresIn := 3600

  /** The characters `String.prototype.trim` removes: white space and line terminators. */
  predicate IsJsWhitespace(c: char) {
    var n := c as int;
    n == 0x09 || n == 0x0A || n == 0x0B || n == 0x0C || n == 0x0D || n == 0x20 || n == 0xA0 ||
    n == 0x1680 || (0x2000 <= n <= 0x200A) || n == 0x2028 || n == 0x2029 || n == 0x202F ||
    n == 0x205F || n == 0x3000 || n == 0xFEFF
  }

  predicate AllWhitespace(s: string) {
    forall i :: 0 <= i < |s| ==> IsJsWhitespace(s[i])
  }

  function TrimStart(s: string): string {
    if s != [] && IsJsWhitespace(s[0]) then TrimStart(s[1..]) else s
  }

  function TrimEnd(s: string): string {
    if s != [] && IsJsWhitespace(s[|s| - 1]) then TrimEnd(s[..|s| - 1]) else s
  }

  /** `s.trim()`. */
  function Trim(s: string): string {
    TrimEnd(TrimStart(s))
  }

  lemma {:induction false} TrimStartEmpty(s: string)
    ensures TrimStart(s) == [] <==> AllWhitespace(s)
  {
    if s != [] && IsJsWhitespace(s[0]) {
      TrimStartEmpty(s[1..]);
      assert AllWhitespace(s) <==> AllWhitespace(s[1..]) by {
        assert forall i :: 0 < i < |s| ==> s[i] == s[1..][i - 1];
      }
    }
  }

  lemma {:induction false} TrimStartHead(s: string)
    ensures TrimStart(s) != [] ==> !IsJsWhitespace(TrimStart(s)[0])
  {
    if s != [] && IsJsWhitespace(s[0]) {
      TrimStartHead(s[1..]);
    }
  }

  lemma {:induction false} TrimEndKeepsHead(s: string)
    requires s != [] && !IsJsWhitespace(s[0])
    ensures TrimEnd(s) != []
  {
    if IsJsWhitespace(s[|s| - 1]) {
      assert |s| > 1;
      TrimEndKeepsHead(s[..|s| - 1]);
    }
  }

  /** A text trims to nothing exactly when every character of it is white space. */
  lemma TrimEmpty(s: string)
    ensures Trim(s) == [] <==> AllWhitespace(s)
  {
    TrimStartEmpty(s);
    TrimStartHead(s);
    if TrimStart(s) != [] {
      TrimEndKeepsHead(TrimStart(s));
    }
  }

  /** Why a token is refused: it is blank, or it lacks the prefix. */
  datatype Refusal = Blank | Malformed

  /** The error the page shows for a refused token. */
  function RefusalMessage(r: Refusal): string {
    match r
    case Blank => MissingTokenMessage
    case Malformed => MalformedTokenMessage
  }

  /** The checks `handleFinalSubmit` makes before anything else, in order: a token that trims to
      nothing, then one that does not start with the prefix, is refused. */
  function TokenCheck(token: string): Option<Refusal> {
    if Trim(token) == "" then Some(Blank)
    else if !(ApifyPrefix <= token) then Some(Malformed)
    else None
  }

  /** A token is refused as blank exactly when it is all white space, as malformed exactly when it
      is not and lacks the prefix, and accepted otherwise. */
  lemma TokenCheckMeaning(token: string)
    ensures TokenCheck(token) == Some(Blank) <==> AllWhitespace(token)
    ensures TokenCheck(token) == Some(Malformed) <==> !AllWhitespace(token) && !(ApifyPrefix <= token)
    ensures TokenCheck(token) == None <==> !AllWhitespace(token) && ApifyPrefix <= token
  {
    TrimEmpty(token);
  }

  /** The prefix is checked against the token as typed, so leading white space makes it malformed. */
  lemma LeadingSpaceIsMalformed()
    ensures TokenCheck(" apify_api_x") == Some(Malformed)
  {
    var t := " apify_api_x";
    assert !IsJsWhitespace(t[1]);
    assert t[0] != ApifyPrefix[0];
    TokenCheckMeaning(t);
  }

  datatype Session = Session(accessToken: JsValue, userId: JsValue, userEmail: JsValue)
  datatype GoogleCredentials =
    GoogleCredentials(accessToken: JsValue, refreshToken: JsValue, expiresIn: JsValue, scope: JsValue)
  datatype GoogleProfile = GoogleProfile(id: JsValue, email: JsValue, name: JsValue)

  /** The request body posted to the GKP backend. */
  datatype Bundle = Bundle(
    session: Session,
    googleCredentials: GoogleCredentials,
    googleProfile: GoogleProfile,
    clientMetadata: map<string, JsValue>,
    apifyToken: string)

  /** `parsedTokens.expires_in || 3600`. */
  function ExpiresIn(stored: JsValue): JsValue {
    if Truthy(stored) then stored else Num(DefaultExpiresIn)
  }

  /** The bundle built from the parsed stored tokens and profile. Reading a property of a null
      value throws; the first such read decides the message. */
  function BuildBundle(tokens: JsValue, profile: JsValue, apifyToken: string): (r: Result<Bundle>)
    ensures r.Success? <==> !IsNullish(tokens) && !IsNullish(profile)
    ensures IsNullish(tokens) ==> r == Failure(ReadError(tokens, "access_token"))
    ensures !IsNullish(tokens) && IsNullish(profile) ==> r == Failure(ReadError(profile, "sub"))
    // one subject and one access token, each written to both places that carry it
    ensures r.Success? ==>
      var b := r.value;
      b.session.userId == Field(profile, "sub") && b.googleProfile.id == Field(profile, "sub") &&
      b.session.userEmail == Field(profile, "email") && b.googleProfile.email == Field(profile, "email") &&
      b.googleProfile.name == Field(profile, "name") &&
      b.session.accessToken == Field(tokens, "access_token") &&
      b.googleCredentials.accessToken == Field(tokens, "access_token") &&
      b.googleCredentials.refreshToken == Field(tokens, "refresh_token") &&
      b.googleCredentials.scope == Field(tokens, "scope") &&
      b.clientMetadata == map[] && b.apifyToken == apifyToken
    // a falsy stored lifetime (missing, null, 0, "") becomes 3600, any other is kept
    ensures r.Success? ==>
      var e := Field(tokens, "expires_in");
      r.value.googleCredentials.expiresIn == (if Truthy(e) then e else Num(DefaultExpiresIn)) &&
      Truthy(r.value.googleCredentials.expiresIn)
  {
    var accessToken :- Prop(tokens, "access_token");
    var sub :- Prop(profile, "sub");
    // both objects have now been read once, so the remaining reads cannot throw
    var email := Field(profile, "email");
    Success(Bundle(
      Session(accessToken, sub, email),
      GoogleCredentials(accessToken, Field(tokens, "refresh_token"), ExpiresIn(Field(tokens, "expires_in")),
                        Field(tokens, "scope")),
      GoogleProfile(sub, email, Field(profile, "name")),
      map[],
      apifyToken))
  }
}
