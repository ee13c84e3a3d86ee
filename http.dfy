/**
 * The vocabulary shared by the controllers: JSON values as the JSON library
 * decodes them into Java maps, the calls the relay makes to the provider's
 * Web API, what those calls come back with, and the responses it sends.
 */
module Http {
  import opened Wrappers

  /** A decoded JSON value (numbers are limited to integers in this model). */
  datatype Json =
    | JNull
    | JBool(b: bool)
    | JNumber(n: int)
    | JString(s: string)
    | JArray(items: seq<Json>)
    | JObject(fields: map<string, Json>)

  /** A JSON object, decoded into a `Map<String, Object>`. */
  type JsonObject = map<string, Json>

  const OK: int := 200
  const FOUND: int := 302
  const UNAUTHORIZED: int := 401
  const INTERNAL_SERVER_ERROR: int := 500

  datatype Verb = GET | POST | PUT

  /** One outbound request: verb, URL and the value of its Authorization header. */
  datatype Call = Call(verb: Verb, url: string, authorization: string)

  /**
   * What an outbound request comes back with:
   * - `Success`: a 2xx status with a body that decodes to a JSON object;
   * - `NoContent`: status 204, which the provider sends when nothing plays;
   * - `EmptyBody`: any other 2xx status that comes without a body;
   * - `Failure`: every other outcome (transport error, 4xx/5xx status, undecodable body),
   *   carrying the exception's `getMessage()`, which Java allows to be null.
   */
  datatype UpstreamReply =
    | Success(body: JsonObject)
    | NoContent
    | EmptyBody
    | Failure(message: Option<string>)

  /** The provider's Web API, seen as the reply it gives to each request. */
  type Upstream = Call -> UpstreamReply

  /**
   * The message of the `ClassCastException` the JVM raises when a decoded value
   * is cast to the named class; its wording belongs to the JVM.
   */
  type CastMessage = (Json, string) -> string

  /**
   * What a gateway handler answers with:
   * - `JsonResponse`: a status and a JSON object body;
   * - `NoEntity`: the handler's `Mono` completed without a response entity;
   * - `Unhandled`: an exception escaped the handler's own error recovery and is
   *   left to the web framework.
   */
  datatype Response =
    | JsonResponse(status: int, body: JsonObject)
    | NoEntity
    | Unhandled

  /** A handler's response together with the outbound requests it issued, in order. */
  datatype Handled = Handled(response: Response, calls: seq<Call>)

  /** A nullable Java string as string concatenation renders it. */
  function Rendered(m: Option<string>): (s: string)
    ensures m == Some(s) || (m.None? && s == "null")
  {
    m.GetOr("null")
  }

  /** `Map.get`: `None` when the key is absent. */
  function Lookup(obj: JsonObject, key: string): (v: Option<Json>)
    ensures v.Some? <==> key in obj
    ensures v.Some? ==> v.value == obj[key]
  {
    if key in obj then Some(obj[key]) else None
  }

  /**
   * The cast `(String) map.get(key)`: an absent key or a JSON null give null, a
   * JSON string gives that string, any other value raises a `ClassCastException`
   * (reported as the offending value).
   */
  function CastToString(v: Option<Json>): (r: Result<Option<string>, Json>)
    ensures r.Ok? <==> v.None? || v.value.JNull? || v.value.JString?
    ensures r.Ok? ==> (r.value.Some? <==> v.Some? && v.value.JString?)
    ensures r.Ok? && r.value.Some? ==> v == Some(JString(r.value.value))
    ensures r.Err? ==> v == Some(r.error)
  {
    match v
    case None => Ok(None)
    case Some(JNull) => Ok(None)
    case Some(JString(s)) => Ok(Some(s))
    case Some(other) => Err(other)
  }

  /** The cast `(Boolean) map.get(key)`, with the same treatment of null. */
  function CastToBoolean(v: Option<Json>): (r: Result<Option<bool>, Json>)
    ensures r.Ok? <==> v.None? || v.value.JNull? || v.value.JBool?
    ensures r.Ok? ==> (r.value.Some? <==> v.Some? && v.value.JBool?)
    ensures r.Ok? && r.value.Some? ==> v == Some(JBool(r.value.value))
    ensures r.Err? ==> v == Some(r.error)
  {
    match v
    case None => Ok(None)
    case Some(JNull) => Ok(None)
    case Some(JBool(b)) => Ok(Some(b))
    case Some(other) => Err(other)
  }
}
