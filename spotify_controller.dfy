/**
 * The login redirector and the playback gateway. Every gateway handler reads
 * the access token once, answers 401 without any outbound request when it is
 * null, and otherwise maps the provider's replies to a status and a JSON body.
 * A handler is modelled as a function of the token it read and of the
 * provider's behaviour, returning its response and the requests it issued.
 */
module SpotifyController {
  import opened Wrappers
  import opened Text
  import opened Http
  import opened Token

  /** The implementation of `UriUtils.encode(_, UTF_8)`, which the model leaves abstract. */
  type UrlEncoder = string -> string

  const AuthorizeUrl := "https://accounts.spotify.com/authorize"
  const Scopes: seq<string> := ["user-read-currently-playing", "user-read-playback-state", "user-modify-playback-state"]
  const Scope := "user-read-currently-playing" + " " + "user-read-playback-state" + " " + "user-modify-playback-state"

  const PlayerUrl := "https://api.spotify.com/v1/me/player"
  const CurrentlyPlayingUrl := "https://api.spotify.com/v1/me/player/currently-playing"
  const NextUrl := "https://api.spotify.com/v1/me/player/next"
  const PreviousUrl := "https://api.spotify.com/v1/me/player/previous"
  const PauseUrl := "https://api.spotify.com/v1/me/player/pause"
  const PlayUrl := "https://api.spotify.com/v1/me/player/play"
  const VolumeUrlPrefix := "https://api.spotify.com/v1/me/player/volume?volume_percent="

  const NotLoggedIn := "User not logged in. Please /login first."
  const NoSongPlaying := "No song currently playing"

  /** Java's `int`, the type of the `volume` request parameter. */
  type int32 = x: int | -0x8000_0000 <= x < 0x8000_0000

  // ---------------------------------------------------------------------------
  // Login redirector

  /** The 302 the login endpoint answers with and its `Location` header. */
  datatype Redirect = Redirect(status: int, location: string)

  /** The query parameters of the authorize URL, in order, as `name=value`. */
  function LoginQuery(clientId: string, redirectUri: string, encode: UrlEncoder): seq<string> {
    ["client_id=" + clientId, "response_type=code", "redirect_uri=" + encode(redirectUri), "scope=" + encode(Scope)]
  }

  /**
   * `login`: a redirect to the provider's authorize endpoint. The client id goes
   * in unencoded, the redirect URI and the scope list percent-encoded. The token
   * store is not consulted.
   */
  function Login(clientId: string, redirectUri: string, encode: UrlEncoder): (r: Redirect)
    ensures r.status == FOUND
    ensures r.location == AuthorizeUrl + "?" + Join(LoginQuery(clientId, redirectUri, encode), '&')
  {
    var url := AuthorizeUrl
      + "?client_id=" + clientId
      + "&response_type=code"
      + "&redirect_uri=" + encode(redirectUri)
      + "&scope=" + encode(Scope);
    LoginUrlIsJoinedQuery(clientId, encode(redirectUri), encode(Scope));
    Redirect(FOUND, url)
  }

  /**
   * Regrouping a left-nested concatenation `base ?k0 v0 &k1 &k2 v2 &k3 v3` as the
   * base, `?` and the four parameters joined by `&`.
   */
  lemma QueryRegrouped(base: string, qk0: string, k0: string, v0: string, ak1: string, k1: string,
                       ak2: string, k2: string, v2: string, ak3: string, k3: string, v3: string)
    requires qk0 == "?" + k0 && ak1 == "&" + k1 && ak2 == "&" + k2 && ak3 == "&" + k3
    ensures base + qk0 + v0 + ak1 + ak2 + v2 + ak3 + v3 == base + "?" + Join([k0 + v0, k1, k2 + v2, k3 + v3], '&')
  {
    JoinFour(k0 + v0, k1, k2 + v2, k3 + v3, '&');
  }

  /** The concatenation the source writes is the query parameters joined by `&`. */
  lemma LoginUrlIsJoinedQuery(clientId: string, uri: string, scope: string)
    ensures AuthorizeUrl + "?client_id=" + clientId + "&response_type=code" + "&redirect_uri=" + uri + "&scope=" + scope
      == AuthorizeUrl + "?" + Join(["client_id=" + clientId, "response_type=code", "redirect_uri=" + uri, "scope=" + scope], '&')
  {
    assert "?client_id=" == "?" + "client_id=";
    assert "&response_type=code" == "&" + "response_type=code";
    assert "&redirect_uri=" == "&" + "redirect_uri=";
    assert "&scope=" == "&" + "scope=";
    QueryRegrouped(AuthorizeUrl, "?client_id=", "client_id=", clientId, "&response_type=code", "response_type=code",
                   "&redirect_uri=", "redirect_uri=", uri, "&scope=", "scope=", scope);
  }

  /** The scope string is the three required permissions, separated by spaces. */
  lemma ScopeIsSpaceJoined()
    ensures Scope == Join(Scopes, ' ')
  {
  }

  /**
   * When neither the client id nor the encoded values contain `&` (percent-encoding
   * never leaves one), the query of the redirect splits back into exactly the four
   * parameters, in order: the URL is well formed.
   */
  lemma LoginQueryParses(clientId: string, redirectUri: string, encode: UrlEncoder)
    requires '&' !in clientId && '&' !in encode(redirectUri) && '&' !in encode(Scope)
    ensures var loc := Login(clientId, redirectUri, encode).location;
      StartsWith(loc, AuthorizeUrl + "?")
      && Split(loc[|AuthorizeUrl| + 1..], '&') == LoginQuery(clientId, redirectUri, encode)
  {
    var q := LoginQuery(clientId, redirectUri, encode);
    var loc := Login(clientId, redirectUri, encode).location;
    assert loc[|AuthorizeUrl| + 1..] == Join(q, '&');
    forall i | 0 <= i < |q|
      ensures '&' !in q[i]
    {
      if i == 0 { assert q[0] == "client_id=" + clientId; }
      if i == 2 { assert q[2] == "redirect_uri=" + encode(redirectUri); }
      if i == 3 { assert q[3] == "scope=" + encode(Scope); }
    }
    SplitJoin(q, '&');
  }

  // ---------------------------------------------------------------------------
  // Responses shared by the gateway handlers

  function Bearer(token: string): string {
    "Bearer " + token
  }

  /** 401 `{"error": "User not logged in. Please /login first."}`. */
  function Unauthorized(): Response {
    JsonResponse(UNAUTHORIZED, map["error" := JString(NotLoggedIn)])
  }

  /** 200 `{"message": text}`. */
  function Message(text: string): Response {
    JsonResponse(OK, map["message" := JString(text)])
  }

  /** 500 `{"error": text}`. */
  function ServerError(text: string): Response {
    JsonResponse(INTERNAL_SERVER_ERROR, map["error" := JString(text)])
  }

  /** A bodiless request succeeded: any 2xx status, whatever body came with it. */
  predicate Succeeded(reply: UpstreamReply) {
    !reply.Failure?
  }

  // ---------------------------------------------------------------------------
  // GET /current-song

  /** The error recovery of `getCurrentSong`, applied to an exception's message. */
  function RecoverCurrentSong(message: Option<string>): (r: Response)
    ensures message.None? ==> r == Unhandled
    ensures message.Some? ==> (r == Message(NoSongPlaying) <==> Contains(message.value, "No content"))
    ensures message.Some? && !Contains(message.value, "No content") ==> r == ServerError(message.value)
  {
    match message
    case None => Unhandled  // `contains` on a null message throws
    case Some(m) => if Contains(m, "No content") then Message(NoSongPlaying) else ServerError(m)
  }

  /**
   * `getCurrentSong`: the currently-playing document passes through unchanged; the
   * provider's 204 is turned into an exception whose message is "No content", which
   * the recovery maps, like every other message containing that text, to the
   * "no song" reply. Another 2xx without a body yields no document, and the handler
   * completes without a response entity.
   */
  function GetCurrentSong(token: Option<string>, upstream: Upstream): (h: Handled)
    ensures token.None? ==> h == Handled(Unauthorized(), [])
    ensures token.Some? ==> h.calls == [Call(GET, CurrentlyPlayingUrl, Bearer(token.value))]
    ensures token.Some? ==>
      match upstream(h.calls[0])
      case Success(body) => h.response == JsonResponse(OK, body)
      case NoContent => h.response == Message(NoSongPlaying)
      case EmptyBody => h.response == NoEntity
      case Failure(None) => h.response == Unhandled
      case Failure(Some(m)) =>
        h.response == if Contains(m, "No content") then Message(NoSongPlaying) else ServerError(m)
  {
    match token
    case None => Handled(Unauthorized(), [])
    case Some(t) =>
      var call := Call(GET, CurrentlyPlayingUrl, Bearer(t));
      // `None` is a body-less 2xx: the decoded document never arrives
      var result: Option<Result<JsonObject, Option<string>>> :=
        match upstream(call)
        case Success(body) => Some(Ok(body))
        case NoContent => Some(Err(Some("No content")))
        case EmptyBody => None
        case Failure(m) => Some(Err(m));
      var response := match result
        case None => NoEntity
        case Some(Ok(body)) => JsonResponse(OK, body)
        case Some(Err(m)) => RecoverCurrentSong(m);
      Handled(response, [call])
  }

  // ---------------------------------------------------------------------------
  // POST /skip-next and POST /skip-previous

  /**
   * `skipToNext`. Its failure body carries two fields, the fixed text "Failed to
   * get track info" and the exception's message, which may be null.
   */
  function SkipToNext(token: Option<string>, upstream: Upstream): (h: Handled)
    ensures token.None? ==> h == Handled(Unauthorized(), [])
    ensures token.Some? ==> h.calls == [Call(POST, NextUrl, Bearer(token.value))]
    ensures token.Some? && Succeeded(upstream(h.calls[0])) ==> h.response == Message("Skipped to next song")
    ensures token.Some? && upstream(h.calls[0]).Failure? ==>
      var m := upstream(h.calls[0]).message;
      && h.response.JsonResponse? && h.response.status == INTERNAL_SERVER_ERROR
      && h.response.body.Keys == {"error", "message"}
      && h.response.body["error"] == JString("Failed to get track info")
      && h.response.body["message"] == (if m.Some? then JString(m.value) else JNull)
  {
    match token
    case None => Handled(Unauthorized(), [])
    case Some(t) =>
      var call := Call(POST, NextUrl, Bearer(t));
      var response := match upstream(call)
        case Failure(m) =>
          var errorResponse := map["error" := JString("Failed to get track info")];
          var errorResponse := errorResponse["message" := if m.Some? then JString(m.value) else JNull];
          JsonResponse(INTERNAL_SERVER_ERROR, errorResponse)
        case _ => Message("Skipped to next song");
      Handled(response, [call])
  }

  /** `skipToPrevious`. */
  function SkipToPrevious(token: Option<string>, upstream: Upstream): (h: Handled)
    ensures token.None? ==> h == Handled(Unauthorized(), [])
    ensures token.Some? ==> h.calls == [Call(POST, PreviousUrl, Bearer(token.value))]
    ensures token.Some? && Succeeded(upstream(h.calls[0])) ==> h.response == Message("Skipped to previous song")
    ensures token.Some? && upstream(h.calls[0]).Failure? ==>
      h.response == ServerError("Failed to skip to previous song: " + Rendered(upstream(h.calls[0]).message))
  {
    match token
    case None => Handled(Unauthorized(), [])
    case Some(t) =>
      var call := Call(POST, PreviousUrl, Bearer(t));
      var response := match upstream(call)
        case Failure(m) => ServerError("Failed to skip to previous song: " + Rendered(m))
        case _ => Message("Skipped to previous song");
      Handled(response, [call])
  }

  // ---------------------------------------------------------------------------
  // POST /play-pause

  /** The state document says, as a JSON boolean, that playback is running. */
  predicate ReportsPlaying(state: JsonObject) {
    Lookup(state, "is_playing") == Some(JBool(true))
  }

  function ToggleFailed(message: string): Response {
    ServerError("Failed to toggle playback: " + message)
  }

  /**
   * `togglePlayPause`: fetch the player state, then PUT `pause` when `is_playing`
   * is true and `play` when it is false or absent. The PUT is issued only after a
   * state document was read and its `is_playing` cast to `Boolean` succeeded. A
   * 2xx without a body (204 or another) to the state fetch completes the handler
   * without a response entity.
   */
  function TogglePlayPause(token: Option<string>, upstream: Upstream, cast: CastMessage): (h: Handled)
    ensures token.None? ==> h == Handled(Unauthorized(), [])
    ensures token.Some? ==> 1 <= |h.calls| <= 2 && h.calls[0] == Call(GET, PlayerUrl, Bearer(token.value))
    // a failure of the state fetch is a 500 carrying its message, and nothing more is sent
    ensures token.Some? && upstream(h.calls[0]).Failure? ==>
      |h.calls| == 1 && h.response == ToggleFailed(Rendered(upstream(h.calls[0]).message))
    // a 2xx without a body ends the handler without a response entity, and nothing more is sent
    ensures token.Some? && (upstream(h.calls[0]).NoContent? || upstream(h.calls[0]).EmptyBody?) ==>
      |h.calls| == 1 && h.response == NoEntity
    // a state document whose `is_playing` is neither null nor a boolean fails the cast
    ensures token.Some? && upstream(h.calls[0]).Success? ==>
      var state := upstream(h.calls[0]).body;
      CastToBoolean(Lookup(state, "is_playing")).Err? ==>
        |h.calls| == 1 && h.response == ToggleFailed(cast(state["is_playing"], "java.lang.Boolean"))
    // otherwise a PUT follows, to `pause` exactly when the state reports playing
    ensures token.Some? && upstream(h.calls[0]).Success? ==>
      var state := upstream(h.calls[0]).body;
      CastToBoolean(Lookup(state, "is_playing")).Ok? ==>
        && |h.calls| == 2
        && h.calls[1] == Call(PUT, if ReportsPlaying(state) then PauseUrl else PlayUrl, Bearer(token.value))
        && (Succeeded(upstream(h.calls[1])) ==>
              h.response == Message(if ReportsPlaying(state) then "Playback paused" else "Playback resumed"))
        && (upstream(h.calls[1]).Failure? ==>
              h.response == ToggleFailed(Rendered(upstream(h.calls[1]).message)))
  {
    match token
    case None => Handled(Unauthorized(), [])
    case Some(t) =>
      var stateCall := Call(GET, PlayerUrl, Bearer(t));
      match upstream(stateCall)
      case NoContent | EmptyBody => Handled(NoEntity, [stateCall])
      case Failure(m) => Handled(ToggleFailed(Rendered(m)), [stateCall])
      case Success(state) =>
        match CastToBoolean(Lookup(state, "is_playing"))
        case Err(v) => Handled(ToggleFailed(cast(v, "java.lang.Boolean")), [stateCall])
        case Ok(isPlaying) =>
          var endpoint := if isPlaying.Some? && isPlaying.value then "pause" else "play";
          var putCall := Call(PUT, PlayerUrl + "/" + endpoint, Bearer(t));
          var response := match upstream(putCall)
            case Failure(m) => ToggleFailed(Rendered(m))
            case _ => Message(if endpoint == "pause" then "Playback paused" else "Playback resumed");
          Handled(response, [stateCall, putCall])
  }

  // ---------------------------------------------------------------------------
  // POST /set-volume

  /** `Math.max(0, Math.min(100, volume))`. */
  function Clamp(volume: int32): (r: int)
    ensures 0 <= r <= 100
    ensures 0 <= volume <= 100 ==> r == volume
    ensures volume < 0 ==> r == 0
    ensures volume > 100 ==> r == 100
  {
    var atMost100 := if 100 <= volume then 100 else volume;
    if 0 >= atMost100 then 0 else atMost100
  }

  /** The volume request for a clamped percentage, rendered in decimal. */
  function VolumeUrl(percent: nat): string {
    VolumeUrlPrefix + Decimal(percent)
  }

  /**
   * `setVolume`: the requested volume is silently clamped into [0, 100] before it
   * is sent, and the success message reports the clamped value.
   */
  function SetVolume(token: Option<string>, volume: int32, upstream: Upstream): (h: Handled)
    ensures token.None? ==> h == Handled(Unauthorized(), [])
    ensures token.Some? ==> h.calls == [Call(PUT, VolumeUrl(Clamp(volume)), Bearer(token.value))]
    ensures token.Some? && Succeeded(upstream(h.calls[0])) ==>
      h.response == Message("Volume set to " + Decimal(Clamp(volume)) + "%")
    ensures token.Some? && upstream(h.calls[0]).Failure? ==>
      h.response == ServerError("Failed to set volume: " + Rendered(upstream(h.calls[0]).message))
  {
    match token
    case None => Handled(Unauthorized(), [])
    case Some(t) =>
      var clampedVolume := Clamp(volume);
      var call := Call(PUT, VolumeUrlPrefix + Decimal(clampedVolume), Bearer(t));
      var response := match upstream(call)
        case Failure(m) => ServerError("Failed to set volume: " + Rendered(m))
        case _ => Message("Volume set to " + Decimal(clampedVolume) + "%");
      Handled(response, [call])
  }

  /**
   * The percentage sent is a canonical decimal numeral that reads back as the
   * clamped volume; in particular it lies in [0, 100], and an in-range volume is
   * sent unchanged.
   */
  lemma VolumeSentIsClamped(volume: int32)
    ensures var digits := VolumeUrl(Clamp(volume))[|VolumeUrlPrefix|..];
      && StartsWith(VolumeUrl(Clamp(volume)), VolumeUrlPrefix)
      && AllDigits(digits) && 1 <= |digits| <= 3
      && DecimalValue(digits) == Clamp(volume)
      && 0 <= DecimalValue(digits) <= 100
      && (0 <= volume <= 100 ==> DecimalValue(digits) == volume)
  {
    var n := Clamp(volume);
    DecimalRoundTrip(n);
    assert VolumeUrl(n)[|VolumeUrlPrefix|..] == Decimal(n);
    if n >= 10 {
      assert |Decimal(n / 10)| == 1 || (n / 10 >= 10 && |Decimal(n / 100)| == 1);
    }
  }

  /** Asking for 150 sends 100 and reports "Volume set to 100%". */
  lemma VolumeAboveRange(t: string, upstream: Upstream)
    requires Succeeded(upstream(Call(PUT, VolumeUrlPrefix + "100", Bearer(t))))
    ensures SetVolume(Some(t), 150, upstream)
      == Handled(Message("Volume set to 100%"), [Call(PUT, VolumeUrlPrefix + "100", Bearer(t))])
  {
    assert DigitChar(1) == '1' && DigitChar(0) == '0';
    assert Decimal(1) == "1";
    assert Decimal(10) == Decimal(1) + [DigitChar(0)] == "10";
    assert Decimal(100) == Decimal(10) + [DigitChar(0)] == "100";
    assert Clamp(150) == 100;
    assert "Volume set to " + "100" + "%" == "Volume set to 100%";
    var h := SetVolume(Some(t), 150, upstream);
    assert h.calls == [Call(PUT, VolumeUrlPrefix + "100", Bearer(t))];
    assert h.response == Message("Volume set to " + Decimal(100) + "%");
  }

  // ---------------------------------------------------------------------------
  // The authentication guard, across all gateway endpoints

  datatype Endpoint = CurrentSong | SkipNext | SkipPrevious | PlayPause | SetVolumeTo(volume: int32)

  /** The handler behind each gateway route. */
  function Dispatch(e: Endpoint, token: Option<string>, upstream: Upstream, cast: CastMessage): Handled {
    match e
    case CurrentSong => GetCurrentSong(token, upstream)
    case SkipNext => SkipToNext(token, upstream)
    case SkipPrevious => SkipToPrevious(token, upstream)
    case PlayPause => TogglePlayPause(token, upstream, cast)
    case SetVolumeTo(v) => SetVolume(token, v, upstream)
  }

  /**
   * Without an access token every endpoint answers the same 401 and issues no
   * request; with one, every endpoint issues at least one request and every
   * request carries that token.
   */
  lemma GuardIsUniform(e: Endpoint, token: Option<string>, upstream: Upstream, cast: CastMessage)
    ensures token.None? ==> Dispatch(e, token, upstream, cast) == Handled(Unauthorized(), [])
    ensures token.Some? ==>
      var calls := Dispatch(e, token, upstream, cast).calls;
      && calls != []
      && forall i :: 0 <= i < |calls| ==> calls[i].authorization == Bearer(token.value)
  {
  }

  /**
   * The guard tests for null, not for liveness: a stored empty token is not a
   * valid token, yet it passes the guard and requests go out with it.
   */
  lemma EmptyTokenPassesGuard(store: TokenStorage, e: Endpoint, upstream: Upstream, cast: CastMessage)
    requires store.accessToken == Some("")
    ensures !store.HasValidToken()
    ensures Dispatch(e, store.accessToken, upstream, cast).calls != []
    ensures Dispatch(e, store.accessToken, upstream, cast).calls[0].authorization == "Bearer "
  {
  }

  /** Every live token passes the guard of every endpoint. */
  lemma ValidTokenPassesGuard(store: TokenStorage, e: Endpoint, upstream: Upstream, cast: CastMessage)
    requires store.HasValidToken()
    ensures Dispatch(e, store.accessToken, upstream, cast).response != Unauthorized()
    ensures Dispatch(e, store.accessToken, upstream, cast).calls != []
    ensures var r := Dispatch(e, store.accessToken, upstream, cast).response;
      r.JsonResponse? ==> r.status != UNAUTHORIZED
  {
  }
}
