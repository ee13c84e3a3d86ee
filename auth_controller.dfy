/**
 * The OAuth2 callback (authorization code grant, section 4.1.3 of RFC 6749):
 * it builds a Basic credential (section 2 of RFC 7617) and a form body, posts
 * them to the provider's token endpoint, and on success overwrites the token store.
 */
module AuthController {
  import opened Wrappers
  import opened Text
  import opened Http
  import opened Token

  /** `Base64.getEncoder().encodeToString(s.getBytes())`, which the model leaves abstract. */
  type Base64Encoder = string -> string

  const TokenUrl := "https://accounts.spotify.com/api/token"
  const TokensStored := "Tokens stored. You can now <a href='/current-song'>check the current song</a>."

  // ---------------------------------------------------------------------------
  // Client credentials

  /** The user-pass string `clientId:clientSecret`. */
  function Credentials(clientId: string, clientSecret: string): (s: string)
    ensures |s| == |clientId| + 1 + |clientSecret|
    ensures s[..|clientId|] == clientId && s[|clientId|] == ':' && s[|clientId| + 1..] == clientSecret
  {
    clientId + ":" + clientSecret
  }

  /**
   * The receiver of a Basic credential splits it at the first colon, so it gets
   * both halves back exactly when the client id has no colon (section 2 of RFC 7617).
   */
  lemma CredentialsRoundTrip(clientId: string, clientSecret: string)
    ensures ':' !in clientId ==> SplitAtFirst(Credentials(clientId, clientSecret), ':') == Some((clientId, clientSecret))
    ensures ':' in clientId ==> SplitAtFirst(Credentials(clientId, clientSecret), ':').value.0 != clientId
  {
    if ':' !in clientId {
      SplitAtFirstOfConcat(clientId, ':', clientSecret);
    }
  }

  /** The value of the Authorization header: `Basic ` and the encoded credentials. */
  function BasicAuthorization(clientId: string, clientSecret: string, base64: Base64Encoder): (h: string)
    ensures StartsWith(h, "Basic ")
    ensures h[|"Basic "|..] == base64(Credentials(clientId, clientSecret))
  {
    "Basic " + base64(Credentials(clientId, clientSecret))
  }

  // ---------------------------------------------------------------------------
  // The form body: a LinkedMultiValueMap, keys in insertion order, each with its list of values

  type FormData = seq<(string, seq<string>)>

  /** The keys of a form, in order. */
  function Keys(form: FormData): (ks: seq<string>)
    ensures |ks| == |form|
  {
    if form == [] then [] else [form[0].0] + Keys(form[1..])
  }

  /** The values recorded under `key` (its first entry), or none. */
  function ValuesOf(form: FormData, key: string): seq<string> {
    if form == [] then []
    else if form[0].0 == key then form[0].1
    else ValuesOf(form[1..], key)
  }

  /**
   * `MultiValueMap.add`: appends `value` to the list of `key`; a new key goes
   * after all existing ones, and every other key keeps its values.
   */
  function FormAdd(form: FormData, key: string, value: string): (r: FormData)
    ensures Keys(r) == if key in Keys(form) then Keys(form) else Keys(form) + [key]
    ensures ValuesOf(r, key) == ValuesOf(form, key) + [value]
    ensures forall k :: k != key ==> ValuesOf(r, k) == ValuesOf(form, k)
  {
    if form == [] then [(key, [value])]
    else if form[0].0 == key then [(key, form[0].1 + [value])] + form[1..]
    else [form[0]] + FormAdd(form[1..], key, value)
  }

  /**
   * The token request form, filled in place: exactly `grant_type`, `code` and
   * `redirect_uri`, in that order, each with one value.
   */
  method BuildTokenForm(code: string, redirectUri: string) returns (form: FormData)
    ensures Keys(form) == ["grant_type", "code", "redirect_uri"]
    ensures ValuesOf(form, "grant_type") == ["authorization_code"]
    ensures ValuesOf(form, "code") == [code]
    ensures ValuesOf(form, "redirect_uri") == [redirectUri]
  {
    form := [];
    form := FormAdd(form, "grant_type", "authorization_code");
    assert Keys(form) == ["grant_type"];
    form := FormAdd(form, "code", code);
    assert "code" != "grant_type" && Keys(form) == ["grant_type", "code"];
    form := FormAdd(form, "redirect_uri", redirectUri);
    assert "redirect_uri" != "grant_type" && "redirect_uri" != "code";
  }

  // ---------------------------------------------------------------------------
  // The exchange

  /** The POST to the token endpoint. */
  datatype TokenRequest = TokenRequest(url: string, authorization: string, form: FormData)

  /** The provider's token endpoint, seen as the reply it gives to each request. */
  type TokenEndpoint = TokenRequest -> UpstreamReply

  /**
   * Both casts of the token response, access token first: the pair of (nullable)
   * tokens, or the first value that is neither a string nor null. Nothing is
   * stored before both casts succeeded.
   */
  function ReadTokens(body: JsonObject): (r: Result<(Option<string>, Option<string>), Json>)
    ensures r.Ok? <==>
      CastToString(Lookup(body, "access_token")).Ok? && CastToString(Lookup(body, "refresh_token")).Ok?
    ensures r.Ok? ==>
      r.value == (CastToString(Lookup(body, "access_token")).value, CastToString(Lookup(body, "refresh_token")).value)
    ensures r.Err? ==>
      if CastToString(Lookup(body, "access_token")).Err?
      then Lookup(body, "access_token") == Some(r.error)
      else Lookup(body, "refresh_token") == Some(r.error)
  {
    match CastToString(Lookup(body, "access_token"))
    case Err(v) => Err(v)
    case Ok(accessToken) =>
      match CastToString(Lookup(body, "refresh_token"))
      case Err(v) => Err(v)
      case Ok(refreshToken) => Ok((accessToken, refreshToken))
  }

  /**
   * `handleCallback`: returns the page text (`None` when the exchange answered
   * with no body, so the handler completes without a value) and the request it
   * sent. A successful exchange overwrites both tokens with the response's values,
   * a missing `refresh_token` included; on any failure the store is untouched and
   * the page reports the error, with status 200 all the same.
   */
  method HandleCallback(store: TokenStorage, clientId: string, clientSecret: string, redirectUri: string,
                        code: string, base64: Base64Encoder, cast: CastMessage, exchange: TokenEndpoint)
    returns (page: Option<string>, request: TokenRequest)
    modifies store
    ensures request.url == TokenUrl
    ensures request.authorization == BasicAuthorization(clientId, clientSecret, base64)
    ensures Keys(request.form) == ["grant_type", "code", "redirect_uri"]
    ensures ValuesOf(request.form, "grant_type") == ["authorization_code"]
    ensures ValuesOf(request.form, "code") == [code]
    ensures ValuesOf(request.form, "redirect_uri") == [redirectUri]
    ensures match exchange(request)
      case Success(body) =>
        (match ReadTokens(body)
         case Ok((accessToken, refreshToken)) =>
           && store.accessToken == accessToken && store.refreshToken == refreshToken
           && (store.HasValidToken() <==> accessToken.Some? && accessToken.value != "")
           && page == Some(TokensStored)
         case Err(v) =>
           && unchanged(store)
           && page == Some("Error occurred: " + cast(v, "java.lang.String")))
      case NoContent | EmptyBody => unchanged(store) && page == None
      case Failure(m) => unchanged(store) && page == Some("Error occurred: " + Rendered(m))
  {
    var authorization := BasicAuthorization(clientId, clientSecret, base64);
    var formData := BuildTokenForm(code, redirectUri);
    request := TokenRequest(TokenUrl, authorization, formData);
    match exchange(request)
    case NoContent | EmptyBody =>
      page := None;
    case Failure(m) =>
      page := Some("Error occurred: " + Rendered(m));
    case Success(body) =>
      match ReadTokens(body)
      case Err(v) =>
        page := Some("Error occurred: " + cast(v, "java.lang.String"));
      case Ok((accessToken, refreshToken)) =>
        store.SetAccessToken(accessToken);
        store.SetRefreshToken(refreshToken);
        page := Some(TokensStored);
  }

  /** A response carrying `{"access_token": "A", "refresh_token": "R"}` yields exactly that pair. */
  lemma ReadTokensOfFullResponse(a: string, r: string, others: JsonObject)
    ensures ReadTokens(others["access_token" := JString(a)]["refresh_token" := JString(r)]) == Ok((Some(a), Some(r)))
  {
  }

  /** A response without `refresh_token` stores null for it, which clears an older one. */
  lemma ReadTokensWithoutRefresh(body: JsonObject, a: string)
    requires Lookup(body, "access_token") == Some(JString(a))
    requires "refresh_token" !in body
    ensures ReadTokens(body) == Ok((Some(a), None))
  {
  }
}
