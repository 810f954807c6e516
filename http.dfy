/** What the dashboard sees of HTTP: JSON bodies, responses, the errors axios
    rejects with, and an outgoing request whose headers the interceptors edit. */
module Http {
  import opened Wrappers
  import opened Text

  datatype Json =
    | JNull
    | JBool(b: bool)
    | JNumber(n: real)
    | JString(s: string)
    | JArray(items: seq<Json>)
    | JObject(fields: map<string, Json>)

  /** JavaScript truthiness of a JSON value (NaN is not modelled). */
  predicate JsonTruthy(j: Json) {
    match j
    case JNull => false
    case JBool(b) => b
    case JNumber(n) => n != 0.0
    case JString(s) => s != ""
    case JArray(_) => true
    case JObject(_) => true
  }

  /** `j?.name`: None when j is not an object or has no such field. */
  function Field(j: Option<Json>, name: string): Option<Json> {
    if j.Some? && j.value.JObject? && name in j.value.fields then Some(j.value.fields[name]) else None
  }

  predicate OptionalTruthy(j: Option<Json>) {
    j.Some? && JsonTruthy(j.value)
  }

  datatype HttpResponse = HttpResponse(status: int, data: Json)

  /** An axios error: a message and, when the server answered, its response. */
  datatype HttpError = HttpError(message: string, response: Option<HttpResponse>)

  /** `err.response?.status === 401` */
  predicate IsUnauthorized(e: HttpError) {
    e.response.Some? && e.response.value.status == 401
  }

  type Headers = map<string, string>

  const Authorization := "Authorization"

  /** The headers every request of the axios instance starts with. */
  const DefaultHeaders: Headers := map["Content-Type" := "application/json"]

  function BearerValue(token: string): string {
    "Bearer " + token
  }

  /** `config.headers = config.headers || {}; config.headers.Authorization = `Bearer ${token}``:
      sets the Authorization header and keeps every other header as it was. */
  function WithBearer(headers: Option<Headers>, token: string): (r: Headers)
    ensures Authorization in r && r[Authorization] == BearerValue(token)
    ensures forall k :: k != Authorization ==> (k in r <==> headers.Some? && k in headers.value)
    ensures forall k :: k != Authorization && k in r ==> r[k] == headers.value[k]
  {
    (if headers.Some? then headers.value else map[])[Authorization := BearerValue(token)]
  }

  /** What a request interceptor does with the token it read: attach it when it is
      truthy, otherwise leave the headers exactly as they were. */
  function Authorize(headers: Option<Headers>, token: Option<string>): (r: Option<Headers>)
    ensures Truthy(token) ==> r.Some? && Authorization in r.value && r.value[Authorization] == BearerValue(token.value)
    ensures !Truthy(token) ==> r == headers
  {
    if Truthy(token) then Some(WithBearer(headers, token.value)) else headers
  }

  /** A request as it leaves the client. */
  datatype SentRequest = SentRequest(verb: string, url: string, data: Json, headers: Option<Headers>)

  /** An axios request config; the interceptors change its headers in place. */
  class Request {
    const verb: string
    const url: string
    const data: Json
    var headers: Option<Headers>

    constructor (verb: string, url: string, data: Json)
      ensures this.verb == verb && this.url == url && this.data == data
      ensures headers == Some(DefaultHeaders)
    {
      this.verb := verb;
      this.url := url;
      this.data := data;
      headers := Some(DefaultHeaders);
    }

    function Sent(): SentRequest
      reads this
    {
      SentRequest(verb, url, data, headers)
    }
  }
}
