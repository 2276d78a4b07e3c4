/** The pieces of the web framework the system reads and writes: requests with
    their `state` attributes, responses with headers and cookies, and the
    `HTTPException` a handler raises. Header names are kept in lower case, the
    way the framework's case-insensitive header mappings compare them. */
module Http {
  import opened Outcomes
  import opened Json

  /** The `detail` of an `HTTPException`: a message, or the rate limiter's body. */
  datatype Detail =
    | Message(text: string)
    | TooManyRequests(error: string, message: string, retryAfter: int)

  /** `HTTPException(status_code, detail, headers)` */
  datatype HttpException = HttpException(status: int, detail: Detail, headers: map<string, string>)

  /** An `HTTPException` with a plain message and no extra headers. */
  function Failure(status: int, text: string): (e: HttpException)
    ensures e.status == status && e.detail == Message(text) && e.headers == map[]
  {
    HttpException(status, Message(text), map[])
  }

  /** The attributes of one `Set-Cookie` directive. */
  datatype Cookie = Cookie(value: string, maxAge: int, httpOnly: bool, secure: bool, sameSite: string)

  /** What an outgoing HTTP call yields: a status code and the parsed JSON
      body, a status code with a body that is not JSON at all (reading it
      with `response.json()` raises), or the transport error the client
      raises (no connection, timeout). */
  datatype ApiReply = ApiReply(status: int, body: Json) | Unparsable(status: int) | RequestError

  /** `headers.get(name)` */
  function Header(headers: map<string, string>, name: string): Option<string> {
    if name in headers then Some(headers[name]) else None
  }

  /** Python truthiness of an optional string. */
  predicate Present(s: Option<string>) {
    s.Some? && s.value != ""
  }

  /** An incoming request. The `state` attributes are `None` until something sets them. */
  class Request {
    const verb: string
    const path: string
    const scheme: string
    const clientHost: Option<string>
    const cookies: map<string, string>
    var headers: map<string, string>
    var rateLimitRemaining: Option<int>
    var rateLimitReset: Option<int>
    var orizonUser: Option<Json>
    var orizonEmail: Option<string>

    constructor (verb: string, path: string, scheme: string, clientHost: Option<string>,
                 headers: map<string, string>, cookies: map<string, string>)
      ensures this.verb == verb && this.path == path && this.scheme == scheme
      ensures this.clientHost == clientHost && this.headers == headers && this.cookies == cookies
      ensures rateLimitRemaining == None && rateLimitReset == None
      ensures orizonUser == None && orizonEmail == None
    {
      this.verb, this.path, this.scheme := verb, path, scheme;
      this.clientHost, this.headers, this.cookies := clientHost, headers, cookies;
      rateLimitRemaining, rateLimitReset := None, None;
      orizonUser, orizonEmail := None, None;
    }
  }

  /** An outgoing response: its headers and the cookies it sets. */
  class Response {
    var status: int
    var headers: map<string, string>
    var cookies: map<string, Cookie>

    constructor (status: int, headers: map<string, string>)
      ensures this.status == status && this.headers == headers && cookies == map[]
    {
      this.status, this.headers, cookies := status, headers, map[];
    }
  }
}
