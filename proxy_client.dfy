/** Forwarding an authenticated API call to the LLM gateway: which virtual
    key speaks for the caller, the headers and target of the outgoing call,
    and how the gateway's answer (or its failure) becomes the response. */
module ProxyClient {
  import opened Outcomes
  import opened Text
  import opened Json
  import opened Http
  import opened KvStore
  import opened Sessions
  import opened AuthUtils

  /** `LITELLM_BASE_URL` when the deployment does not set one. */
  const DefaultBaseUrl := "http://localhost:4000"

  /** The key list the middleware recorded for an internal user, when it is a
      non-empty list. */
  function InternalKeys(request: Request): (keys: seq<Json>)
    reads request
    ensures keys != [] ==> request.orizonUser.Some?
  {
    if request.orizonUser.None? then []
    else
      var listed := Get(request.orizonUser.value, "keys");
      if Truthy(listed) && listed.Array? then listed.items else []
  }

  /** `get_user_virtual_key_from_request` (`Null` for none): an internal
      user's first key entry wins; otherwise the session cookie's record
      supplies `virtual_key`; otherwise there is none. */
  function VirtualKeyFromRequest(request: Request, store: Store): (key: Json)
    reads request, store
    ensures InternalKeys(request) != [] ==> key == Get(InternalKeys(request)[0], "key")
    ensures InternalKeys(request) == [] && CurrentSession(request, store).Some? ==>
      var s := CurrentSession(request, store).value;
      key == (if "virtual_key" in s then String(s["virtual_key"]) else Null)
    ensures InternalKeys(request) == [] && CurrentSession(request, store).None? ==> key == Null
  {
    var keys := InternalKeys(request);
    if keys != [] then Get(keys[0], "key")
    else
      var session := CurrentSession(request, store);
      if session.Some? then
        (if "virtual_key" in session.value then String(session.value["virtual_key"]) else Null)
      else Null
  }

  /** An internal user with an empty key list falls through to the session:
      with a session holding a key, that key is used. */
  lemma EmptyKeysFallThrough(request: Request, store: Store)
    requires request.orizonUser.Some? && Get(request.orizonUser.value, "keys") == Array([])
    requires CurrentSession(request, store).Some? && "virtual_key" in CurrentSession(request, store).value
    ensures VirtualKeyFromRequest(request, store) == String(CurrentSession(request, store).value["virtual_key"])
  {
  }

  /** Without the middleware's record and without a session cookie there is no key. */
  lemma NoIdentityNoKey(request: Request, store: Store)
    requires request.orizonUser.None? && SessionCookieName !in request.cookies
    ensures !Truthy(VirtualKeyFromRequest(request, store))
  {
  }

  /** The body is read for POST, PUT and PATCH only. */
  predicate ReadsBody(verb: string) {
    verb == "POST" || verb == "PUT" || verb == "PATCH"
  }

  /** The incoming headers without `host`, with `authorization` carrying the key. */
  function ForwardedHeaders(incoming: map<string, string>, key: string): (h: map<string, string>)
    ensures "host" !in h
    ensures "authorization" in h && h["authorization"] == "Bearer " + key
    ensures forall name :: name in incoming && name != "host" && name != "authorization" ==>
      name in h && h[name] == incoming[name]
    ensures h.Keys == incoming.Keys - {"host"} + {"authorization"}
  {
    (incoming - {"host"})["authorization" := "Bearer " + key]
  }

  /** Builds the outgoing headers the way `forward_request` does: copy, drop
      `host`, set `authorization`. */
  method BuildHeaders(incoming: map<string, string>, key: string) returns (h: map<string, string>)
    ensures h == ForwardedHeaders(incoming, key)
  {
    h := incoming;
    h := h - {"host"};
    h := h["authorization" := "Bearer " + key];
  }

  /** The call the proxy makes on the gateway. */
  datatype Outgoing = Outgoing(verb: string, url: string, params: map<string, string>,
                               headers: map<string, string>, body: Option<string>)

  /** What the gateway call ends in: an answer (status, headers, whether the
      content is non-empty, the parsed content), a timeout, another transport
      error, or any other exception (an unparsable body, say). */
  datatype Upstream =
    | Answered(status: int, headers: map<string, string>, hasContent: bool, content: Json)
    | Timeout
    | TransportError
    | Failed

  /** The response the proxy returns. */
  datatype ProxyResponse =
    | Streamed(status: int, headers: map<string, string>, mediaType: string)
    | JsonReply(status: int, content: Json, headers: map<string, string>)

  /** A JSON error response `{"error": text}`. */
  function ErrorReply(status: int, text: string): ProxyResponse {
    JsonReply(status, Object(map["error" := String(text)]), map[])
  }

  const BodyUnreadable := ErrorReply(400, "Failed to read request body")

  /** `content-type` of the answer, "" when absent. */
  function ContentType(headers: map<string, string>): string {
    Header(headers, "content-type").GetOr("")
  }

  /** An answer is streamed exactly when its content type names server-sent events. */
  predicate IsStreaming(contentType: string) {
    Contains(contentType, "text/event-stream")
  }

  /** How the gateway's answer becomes the response: an answer keeps its
      status and headers, streamed or as JSON (`{}` for empty content); a
      timeout is 504, another transport error 502, anything else 500. */
  function ResponseFor(u: Upstream): (r: ProxyResponse)
    ensures u.Answered? ==> r.status == u.status
    ensures u.Answered? ==> (r.Streamed? <==> IsStreaming(ContentType(u.headers)))
    ensures u.Answered? && r.JsonReply? ==> r.content == (if u.hasContent then u.content else Object(map[]))
    ensures u.Answered? ==> r.headers == u.headers
    ensures u.Timeout? ==> r == ErrorReply(504, "Gateway timeout - request to LiteLLM timed out")
    ensures u.TransportError? ==> r == ErrorReply(502, "Bad gateway - failed to connect to LiteLLM")
    ensures u.Failed? ==> r == ErrorReply(500, "Internal proxy error")
  {
    match u
    case Answered(status, headers, hasContent, content) =>
      var contentType := ContentType(headers);
      if IsStreaming(contentType) then Streamed(status, headers, contentType)
      else JsonReply(status, if hasContent then content else Object(map[]), headers)
    case Timeout => ErrorReply(504, "Gateway timeout - request to LiteLLM timed out")
    case TransportError => ErrorReply(502, "Bad gateway - failed to connect to LiteLLM")
    case Failed => ErrorReply(500, "Internal proxy error")
  }

  /** A failed gateway call never passes for an answer: its status is one of
      the three error statuses, each naming one kind of failure. */
  lemma FailureStatuses(u: Upstream)
    requires !u.Answered?
    ensures ResponseFor(u).JsonReply? && ResponseFor(u).status in {500, 502, 504}
    ensures ResponseFor(u).status == 504 <==> u.Timeout?
    ensures ResponseFor(u).status == 502 <==> u.TransportError?
  {
  }

  /** The outcome of the next gateway call of a script; once the script runs
      out the gateway cannot be reached. */
  function NextUpstream(replies: seq<Upstream>): Upstream {
    if replies == [] then TransportError else replies[0]
  }

  /** The LLM gateway as the proxy sees it: the outcomes of successive calls
      and the calls received so far. */
  class Backend {
    var replies: seq<Upstream>
    var received: seq<Outgoing>

    constructor (replies: seq<Upstream>)
      ensures this.replies == replies && received == []
    {
      this.replies, received := replies, [];
    }

    method Send(call: Outgoing) returns (u: Upstream)
      modifies this
      ensures u == NextUpstream(old(replies))
      ensures replies == Drop(old(replies), 1) && received == old(received) + [call]
    {
      u := NextUpstream(replies);
      replies := Drop(replies, 1);
      received := received + [call];
    }
  }

  /** What forwarding a `verb` call with `headers` to `url` under `key` does to
      a gateway that had received `before` and had `replies` left: an
      unreadable body ends it with 400 and no call; otherwise exactly one call
      goes out and its outcome becomes the response. */
  predicate Forwarded(verb: string, headers: map<string, string>, url: string, key: string,
                      query: map<string, string>, body: Option<string>,
                      before: seq<Outgoing>, replies: seq<Upstream>,
                      after: seq<Outgoing>, repliesAfter: seq<Upstream>, r: ProxyResponse)
  {
    if ReadsBody(verb) && body.None? then
      r == BodyUnreadable && after == before && repliesAfter == replies
    else
      && after == before + [Outgoing(verb, url, query, ForwardedHeaders(headers, key), if ReadsBody(verb) then body else None)]
      && repliesAfter == Drop(replies, 1)
      && r == ResponseFor(NextUpstream(replies))
  }

  /** `forward_request`. `body` is the request body as read, none when
      reading it fails; `query` the query parameters, passed on unchanged. */
  method ForwardRequest(request: Request, backend: Backend, baseUrl: string, path: string, key: string,
                        query: map<string, string>, body: Option<string>)
    returns (r: ProxyResponse)
    modifies backend
    ensures Forwarded(request.verb, request.headers, baseUrl + path, key, query, body,
                      old(backend.received), old(backend.replies), backend.received, backend.replies, r)
  {
    var content: Option<string> := None;
    if ReadsBody(request.verb) {
      if body.None? {
        return BodyUnreadable;
      }
      content := body;
    }
    var headers := BuildHeaders(request.headers, key);
    var u := backend.Send(Outgoing(request.verb, baseUrl + path, query, headers, content));
    r := ResponseFor(u);
  }
}
