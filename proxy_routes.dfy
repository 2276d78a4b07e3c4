/** The OpenAI-compatible endpoints: each finds the caller's virtual key and,
    only when there is one, forwards the call to the LLM gateway under it. */
module ProxyRoutes {
  import opened Outcomes
  import opened Json
  import opened Http
  import opened KvStore
  import Sessions
  import opened ProxyClient

  const AuthRequiredV1 := "Authentication required. Please login or provide valid credentials."
  const AuthRequired := "Authentication required"

  /** What a handler that forwards to `target` does: without a (truthy) key
      it refuses with 401 and `refusal`, and the gateway sees nothing; with
      one, the call is forwarded under the key's text. */
  predicate Handled(request: Request, store: Store, target: string, refusal: string,
                    baseUrl: string, query: map<string, string>, body: Option<string>,
                    before: seq<Outgoing>, replies: seq<Upstream>,
                    after: seq<Outgoing>, repliesAfter: seq<Upstream>,
                    r: Result<ProxyResponse, HttpException>)
    reads request, store
  {
    var key := VirtualKeyFromRequest(request, store);
    if !Truthy(key) then
      r == Err(Failure(401, refusal)) && after == before && repliesAfter == replies
    else
      && r.Ok?
      && Forwarded(request.verb, request.headers, baseUrl + target, Str(key), query, body,
                   before, replies, after, repliesAfter, r.value)
  }

  /** `proxy_v1_endpoint`: any `/v1/{path}` call, forwarded to the same path. */
  method ProxyV1(request: Request, store: Store, backend: Backend, baseUrl: string, path: string,
                 query: map<string, string>, body: Option<string>)
    returns (r: Result<ProxyResponse, HttpException>)
    modifies backend
    ensures Handled(request, store, "/v1/" + path, AuthRequiredV1, baseUrl, query, body,
                    old(backend.received), old(backend.replies), backend.received, backend.replies, r)
  {
    var key := VirtualKeyFromRequest(request, store);
    if !Truthy(key) {
      return Err(Failure(401, AuthRequiredV1));
    }
    var answer := ForwardRequest(request, backend, baseUrl, "/v1/" + path, Str(key), query, body);
    r := Ok(answer);
  }

  /** `list_models`: `GET /models`, forwarded to `/models`. */
  method ListModels(request: Request, store: Store, backend: Backend, baseUrl: string,
                    query: map<string, string>)
    returns (r: Result<ProxyResponse, HttpException>)
    modifies backend
    ensures Handled(request, store, "/models", AuthRequired, baseUrl, query, None,
                    old(backend.received), old(backend.replies), backend.received, backend.replies, r)
  {
    var key := VirtualKeyFromRequest(request, store);
    if !Truthy(key) {
      return Err(Failure(401, AuthRequired));
    }
    var answer := ForwardRequest(request, backend, baseUrl, "/models", Str(key), query, None);
    r := Ok(answer);
  }

  /** `list_models_v1`: `GET /v1/models`, forwarded to `/v1/models`. */
  method ListModelsV1(request: Request, store: Store, backend: Backend, baseUrl: string,
                      query: map<string, string>)
    returns (r: Result<ProxyResponse, HttpException>)
    modifies backend
    ensures Handled(request, store, "/v1/models", AuthRequired, baseUrl, query, None,
                    old(backend.received), old(backend.replies), backend.received, backend.replies, r)
  {
    var key := VirtualKeyFromRequest(request, store);
    if !Truthy(key) {
      return Err(Failure(401, AuthRequired));
    }
    var answer := ForwardRequest(request, backend, baseUrl, "/v1/models", Str(key), query, None);
    r := Ok(answer);
  }

  /** An anonymous call (no identity record, no session cookie) to the v1
      endpoints is refused and the gateway is never contacted. */
  method AnonymousV1(request: Request, store: Store, backend: Backend, baseUrl: string, path: string,
                     query: map<string, string>, body: Option<string>)
    returns (r: Result<ProxyResponse, HttpException>)
    requires request.orizonUser.None? && Sessions.SessionCookieName !in request.cookies
    modifies backend
    ensures r == Err(Failure(401, AuthRequiredV1))
    ensures backend.received == old(backend.received) && backend.replies == old(backend.replies)
  {
    NoIdentityNoKey(request, store);
    r := ProxyV1(request, store, backend, baseUrl, path, query, body);
  }

  /** A GET for a keyed caller goes out as exactly one call to the gateway,
      without a body, with the caller's key as the Bearer credential. */
  method KeyedGet(request: Request, store: Store, backend: Backend, baseUrl: string, path: string,
                  query: map<string, string>)
    returns (r: Result<ProxyResponse, HttpException>)
    requires request.verb == "GET" && Truthy(VirtualKeyFromRequest(request, store))
    modifies backend
    ensures r.Ok? && |backend.received| == |old(backend.received)| + 1
    ensures var sent := backend.received[|backend.received| - 1];
      && sent.url == baseUrl + "/v1/" + path && sent.body == None
      && "authorization" in sent.headers
      && sent.headers["authorization"] == "Bearer " + Str(VirtualKeyFromRequest(request, store))
      && "host" !in sent.headers
  {
    r := ProxyV1(request, store, backend, baseUrl, path, query, None);
  }
}
