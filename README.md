# Spotify widget relay: verified model of its decision logic

The relay lets a browser widget show and control the track a user is playing on
Spotify. It does three things:

- **Token store** (`TokenStorage`). It holds one process-wide access/refresh
  token pair.
- **Auth callback** (`AuthController.handleCallback`). It runs the OAuth2
  authorization code exchange (section 4.1.3 of RFC 6749). The request carries a
  Basic credential (section 2 of RFC 7617). On success the callback fills the
  token store.
- **Login redirector and playback gateway** (`SpotifyController`). The login
  redirector builds the authorize URL (section 4.1.1 of RFC 6749). The gateway
  has five endpoints: current song, skip next, skip previous, play/pause and set
  volume. Each one forwards to the provider's Web API and maps the reply to a
  status and a JSON body.

The network is a parameter. The provider is a function from an outbound request
(`Http.Call`: verb, URL, Authorization header) to its reply (`Http.UpstreamReply`).
The reply is one of:

- a 2xx status with a JSON object body;
- status 204, which the provider sends when nothing is playing;
- any other 2xx status with no body;
- a failure carrying the exception's message, which Java allows to be null.

Each gateway handler is a function of the access token it read and of the
provider. It returns the response and the sequence of requests it issued. This
makes "no request without a token" and "no PUT after a failed state fetch"
statable.

Modules. Three follow the three source classes (`Token`, `SpotifyController`,
`AuthController`); three hold the shared types and string helpers they use
(`Wrappers`, `Text`, `Http`):

- `Wrappers`: `Option` (Java `null` is `None`) and `Result`.
- `Text`: the Java string operations the code relies on:
  - `startsWith` and `contains`;
  - the decimal rendering of an `int`;
  - joining and splitting at a separator;
  - splitting at the first colon.
- `Http`: decoded JSON values and the upstream request/reply types. Also the
  gateway's response type, plus `Map.get` and the `(String)` and `(Boolean)`
  casts.
- `Token`: the class `TokenStorage`, whose two fields stand for the two static
  fields. The predicate `HasValidToken` is the liveness check: a token is present
  and non-empty. The method `TokenLifecycle` is a client of the class. It relies
  only on the method contracts and asserts the lifecycle properties:
  - the initial state is not live;
  - a stored `""` is present but not live;
  - writing the same token twice gives the same state as writing it once;
  - the last write wins;
  - clearing removes both tokens.
- `SpotifyController`: `Login` and the five handlers. The `Dispatch` function
  routes an endpoint to its handler, and the guard lemmas quantify over every
  endpoint.
- `AuthController`: the credential, the form (a model of `LinkedMultiValueMap.add`),
  reading the tokens out of the response, and `HandleCallback`. `HandleCallback`
  is a method that changes the token store.

Behaviour worth knowing:

- The gateway guard tests whether the access token is `null`. It does not call
  `hasValidToken()`. So a stored empty token passes the guard, and requests go out
  carrying `Bearer ` (see `EmptyTokenPassesGuard`).
- A failed callback still answers with status 200. The page text starts with
  `Error occurred: `.
- On failure, `skipToNext` answers `{"error": "Failed to get track info", "message": <msg>}`.
  That error text is kept as written.
- Edge cases:
  - A 2xx reply without a body to the player-state fetch in `togglePlayPause`
    completes the handler without a response entity (`NoEntity`). No PUT is sent.
  - A 2xx reply without a body to the token request leaves the callback without
    a page (`None`).
  - In `getCurrentSong` only status 204 becomes the "no song" reply; another 2xx
    without a body completes the handler without a response entity.
  - A null exception message in `getCurrentSong` makes `contains` throw. The
    exception escapes the handler's recovery (`Unhandled`).

## Model

| member | source | states |
|---|---|---|
| Token.TokenStorage.constructor | widget/src/main/java/com/spotify/widget/token/TokenStorage.java:4-5 | both tokens start out absent, so the store is not live |
| Token.TokenStorage.GetAccessToken | widget/src/main/java/com/spotify/widget/token/TokenStorage.java:7-9 | returns the stored access token, null included |
| Token.TokenStorage.SetAccessToken | widget/src/main/java/com/spotify/widget/token/TokenStorage.java:11-13 | the access token becomes the argument whatever it held before (last write wins, so a repeated write changes nothing); the refresh token is unchanged |
| Token.TokenStorage.GetRefreshToken | widget/src/main/java/com/spotify/widget/token/TokenStorage.java:15-17 | returns the stored refresh token |
| Token.TokenStorage.SetRefreshToken | widget/src/main/java/com/spotify/widget/token/TokenStorage.java:19-21 | the refresh token becomes the argument; the access token and liveness are unchanged |
| Token.TokenStorage.ClearTokens | widget/src/main/java/com/spotify/widget/token/TokenStorage.java:27-30 | both tokens become absent and the store is not live |
| SpotifyController.Login | widget/src/main/java/com/spotify/widget/controller/SpotifyController.java:24-37 | status 302. The Location is the authorize endpoint, `?`, then `&`-joined parameters: `client_id` (raw), `response_type=code`, `redirect_uri` (encoded), `scope` (encoded). The token store is not an input |
| SpotifyController.LoginUrlIsJoinedQuery | widget/src/main/java/com/spotify/widget/controller/SpotifyController.java:28-32 | the left-nested concatenation the code writes equals the base URL, `?`, and the four parameters joined by `&` |
| SpotifyController.ScopeIsSpaceJoined | widget/src/main/java/com/spotify/widget/controller/SpotifyController.java:26 | the scope string is the three permissions (read currently playing, read playback state, modify playback state) joined by spaces |
| SpotifyController.LoginQueryParses | widget/src/main/java/com/spotify/widget/controller/SpotifyController.java:28-32 | when the client id and the encoded values contain no `&`, the query splits back into exactly the four parameters, in order |
| SpotifyController.GetCurrentSong | widget/src/main/java/com/spotify/widget/controller/SpotifyController.java:39-64 | no token: 401 "User not logged in. Please /login first." and no request. Otherwise one Bearer GET to currently-playing. Its body passes through with 200. A 204, or any message containing "No content", gives 200 "No song currently playing". Another 2xx without a body gives no response entity. Any other message gives 500 `{"error": msg}`. A null message escapes |
| SpotifyController.RecoverCurrentSong | widget/src/main/java/com/spotify/widget/controller/SpotifyController.java:57-63 | a null message escapes the recovery; a message gives 200 "No song currently playing" exactly when it contains "No content", and 500 `{"error": msg}` otherwise |
| SpotifyController.SkipToNext | widget/src/main/java/com/spotify/widget/controller/SpotifyController.java:66-87 | no token: 401 and no request. Otherwise one Bearer POST to `next`. Any 2xx gives 200 "Skipped to next song". A failure gives 500 with exactly the keys `error` = "Failed to get track info" and `message` = the message, null kept as JSON null |
| SpotifyController.SkipToPrevious | widget/src/main/java/com/spotify/widget/controller/SpotifyController.java:89-109 | no token: 401 and no request. Otherwise one POST to `previous`. Success gives 200 "Skipped to previous song". A failure gives 500 "Failed to skip to previous song: " + message |
| SpotifyController.TogglePlayPause | widget/src/main/java/com/spotify/widget/controller/SpotifyController.java:111-143 | no token: 401 and no request. Otherwise a GET of the player state comes first. After a failure, a 2xx without a body (which gives no response entity) or a failed `Boolean` cast, nothing more is sent. Otherwise exactly one PUT follows, to `pause` exactly when `is_playing` is true (else `play`), and gives "Playback paused" / "Playback resumed". A failure at either step gives 500 "Failed to toggle playback: " + that step's message |
| SpotifyController.Clamp | widget/src/main/java/com/spotify/widget/controller/SpotifyController.java:155 | the result lies in [0, 100], equals the input inside that range, is 0 below it and 100 above it |
| SpotifyController.SetVolume | widget/src/main/java/com/spotify/widget/controller/SpotifyController.java:145-168 | no token: 401 and no request. Otherwise one PUT to `volume?volume_percent=` + the clamped value. Success gives "Volume set to N%" with the clamped N. A failure gives 500 "Failed to set volume: " + message |
| SpotifyController.VolumeSentIsClamped | widget/src/main/java/com/spotify/widget/controller/SpotifyController.java:155-158 | the percentage in the request is a 1 to 3 digit numeral that reads back as the clamped volume, so it lies in [0, 100], and an in-range volume is sent unchanged |
| SpotifyController.VolumeAboveRange | widget/src/main/java/com/spotify/widget/controller/SpotifyController.java:155-162 | asking for 150 sends `volume_percent=100` and answers "Volume set to 100%" |
| SpotifyController.GuardIsUniform | widget/src/main/java/com/spotify/widget/controller/SpotifyController.java:41-46 | for every endpoint: no token gives the same 401 and zero requests, and a token gives at least one request, each carrying `Bearer <token>` (the same guard stands at lines 68-73, 91-96, 113-118 and 147-152) |
| SpotifyController.EmptyTokenPassesGuard | widget/src/main/java/com/spotify/widget/controller/SpotifyController.java:41-43 | a stored empty token is not live, yet every endpoint issues a request with it |
| SpotifyController.ValidTokenPassesGuard | widget/src/main/java/com/spotify/widget/token/TokenStorage.java:23-25 | with a live token no endpoint answers the not-logged-in 401, no JSON response it gives has status 401, and every endpoint issues a request |
| Text.ContainsIffOccurs | widget/src/main/java/com/spotify/widget/controller/SpotifyController.java:58 | the recursive `contains` holds exactly when the text occurs at some index |
| Text.Decimal | widget/src/main/java/com/spotify/widget/controller/SpotifyController.java:162 | the rendering of a non-negative int is a non-empty string of digits with no leading zero |
| Text.DecimalRoundTrip | widget/src/main/java/com/spotify/widget/controller/SpotifyController.java:158 | reading the rendered digits back gives the number |
| Text.DecimalInjective | widget/src/main/java/com/spotify/widget/controller/SpotifyController.java:162 | distinct numbers have distinct renderings, so the message names exactly one volume |
| Text.SplitJoin | widget/src/main/java/com/spotify/widget/controller/SpotifyController.java:28-32 | splitting undoes joining when no part contains the separator |
| Text.SplitAtFirst | widget/src/main/java/com/spotify/widget/controller/AuthController.java:31 | the split exists exactly when the separator occurs; its first part holds none, and the split reassembles to the input |
| Text.SplitAtFirstOfConcat | widget/src/main/java/com/spotify/widget/controller/AuthController.java:31 | cutting `a:b` at its first colon gives back `a` and `b` when `a` has no colon |
| Http.Rendered | widget/src/main/java/com/spotify/widget/controller/SpotifyController.java:107 | concatenating a message gives its text, or "null" for a null message |
| Http.Lookup | widget/src/main/java/com/spotify/widget/controller/SpotifyController.java:127 | `Map.get` is null exactly for an absent key, otherwise the stored value |
| Http.CastToBoolean | widget/src/main/java/com/spotify/widget/controller/SpotifyController.java:127 | the `(Boolean)` cast succeeds exactly for an absent value, JSON null or a boolean; it yields the boolean for a boolean only, and otherwise reports the offending value |
| Http.CastToString | widget/src/main/java/com/spotify/widget/controller/AuthController.java:47-48 | the `(String)` cast succeeds exactly for an absent value, JSON null or a string, and yields the string for a string only |
| AuthController.Credentials | widget/src/main/java/com/spotify/widget/controller/AuthController.java:31 | the user-pass string is the client id, then one colon, then the client secret |
| AuthController.CredentialsRoundTrip | widget/src/main/java/com/spotify/widget/controller/AuthController.java:31 | the user-pass string `clientId:clientSecret` splits back at its first colon into both halves exactly when the client id has no colon |
| AuthController.BasicAuthorization | widget/src/main/java/com/spotify/widget/controller/AuthController.java:31-32 | the header value (sent at line 41) is `Basic ` followed by the encoding of `clientId:clientSecret` |
| AuthController.FormAdd | widget/src/main/java/com/spotify/widget/controller/AuthController.java:35-37 | `add` appends the value to its key's list, puts a new key last, and leaves every other key's values alone |
| AuthController.BuildTokenForm | widget/src/main/java/com/spotify/widget/controller/AuthController.java:34-37 | the form has exactly the keys `grant_type`, `code`, `redirect_uri`, in that order, each with one value: `authorization_code`, the callback code and the configured redirect URI |
| AuthController.ReadTokens | widget/src/main/java/com/spotify/widget/controller/AuthController.java:47-48 | succeeds exactly when both casts succeed, giving the two nullable tokens; otherwise reports the access token's value when that cast fails, else the refresh token's |
| AuthController.HandleCallback | widget/src/main/java/com/spotify/widget/controller/AuthController.java:30-63 | sends one POST to the token endpoint with the Basic header and the three-field form. On success both tokens are overwritten (null for a missing one), the store is live iff the access token is non-empty, and the page is "Tokens stored. …". On a failed cast or request, the store is unchanged and the page is "Error occurred: " + message. On a 2xx without a body, the store is unchanged and there is no page |
| AuthController.ReadTokensOfFullResponse | widget/src/main/java/com/spotify/widget/controller/AuthController.java:46-52 | a response with string `access_token` "A" and `refresh_token` "R" yields exactly that pair to store |
| AuthController.ReadTokensWithoutRefresh | widget/src/main/java/com/spotify/widget/controller/AuthController.java:48-52 | a response without `refresh_token` stores null for it, which clears an older refresh token |

## Left out

- The browser front end (`script.js`). It is DOM work, timers, `localStorage` and
  random blink scheduling.
- The Spring Boot bootstrap, CORS registration and the startup banner
  (`BackendApplication.java`).
- The HTTP client and the reactive scheduling. Requests are performed at once,
  and the provider is a function parameter. So each request's reply is
  determined by the request alone; timing and retries are not modelled.
- Base64 (section 4 of RFC 4648) and the platform charset of `getBytes`. They are
  the `base64` parameter of type `Base64Encoder`.
- Percent-encoding by `UriUtils.encode` (section 2.1 of RFC 3986). It is the
  `encode` parameter of type `UrlEncoder`.
- SpotifyController.LoginQueryParses: the parameter never emits `&`, and this is
  assumed rather than proved, because the encoder is not modelled.
- The wording of JVM `ClassCastException` messages. It is the `cast` parameter.
- The exact text of `WebClient` error messages, for example for 4xx/5xx replies.
  It is carried as the reply's message.
- How the framework renders an `Unhandled` exception, or a handler that completes
  without a value.
- The form's `application/x-www-form-urlencoded` serialisation.
- JSON numbers other than integers.
- A 2xx reply whose body is not a JSON object. It counts as `Failure`, even for
  the bodiless calls, which would accept it.
- Logging to standard output and standard error, including the stack trace and
  the echoed tokens.
- Concurrent callbacks racing on the unsynchronised static fields. The model is
  sequential.
- SpotifyController.Login: the claim that the response does not depend on the
  token store holds because `Login` takes no token argument. No contract states it.
- Token.TokenStorage.HasValidToken: it is the liveness predicate itself and has
  no contract of its own. Its behaviour is stated through the constructor,
  `ClearTokens`, `SetRefreshToken`, `HandleCallback` and the guard lemmas.
