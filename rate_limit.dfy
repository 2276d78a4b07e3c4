/** Fixed-window rate limiting of the authentication endpoints: one counter
    per (action, client) key, whose window is anchored to the first request
    and expires a fixed time after it. */
module RateLimit {
  import opened Outcomes
  import opened Text
  import opened Http
  import opened KvStore

  /** `(max_requests, window_seconds)` */
  datatype Limit = Limit(maxRequests: int, windowSeconds: int)

  /** The per-action limits; unlisted actions use the "default" row. */
  const RateLimits: map<string, Limit> := map[
    "login" := Limit(5, 60),
    "signup" := Limit(3, 300),
    "magic_link" := Limit(3, 60),
    "oauth" := Limit(10, 60),
    "default" := Limit(30, 60)
  ]

  /** `RATE_LIMITS.get(action, RATE_LIMITS["default"])` */
  function LimitFor(action: string): (l: Limit)
    ensures l.maxRequests > 0 && l.windowSeconds > 0
  {
    if action in RateLimits then RateLimits[action] else RateLimits["default"]
  }

  /** The per-email action name `"<action>:email"` is never a row of the
      table, so per-email counting always uses the default limit. */
  lemma EmailActionUsesDefault(action: string)
    ensures action + ":email" !in RateLimits
    ensures LimitFor(action + ":email") == Limit(30, 60)
  {
    var name := action + ":email";
    assert name[|action|] == ':';
    forall k | k in RateLimits
      ensures k != name
    {
      assert k == "login" || k == "signup" || k == "magic_link" || k == "oauth" || k == "default";
      if |action| < |k| {
        assert k[|action|] != ':';
      }
    }
  }

  /** The client address: the first entry of X-Forwarded-For (stripped), then
      X-Real-IP, then the peer's host, then "unknown". Empty headers count as absent. */
  function ClientIp(headers: map<string, string>, clientHost: Option<string>): string {
    var forwardedFor := Header(headers, "x-forwarded-for");
    var realIp := Header(headers, "x-real-ip");
    if Present(forwardedFor) then Strip(FirstField(forwardedFor.value, ','))
    else if Present(realIp) then realIp.value
    else if clientHost.Some? then clientHost.value
    else "unknown"
  }

  /** A non-empty X-Forwarded-For decides the address alone: the result is its
      first comma-separated entry without surrounding whitespace, whatever
      X-Real-IP and the peer say. */
  lemma ForwardedForDecides(headers: map<string, string>, clientHost: Option<string>,
                            realIp: string, otherHost: Option<string>)
    requires Present(Header(headers, "x-forwarded-for"))
    ensures var ip := ClientIp(headers, clientHost);
      && ip == Strip(FirstField(headers["x-forwarded-for"], ','))
      && !HasChar(ip, ',')
      && (ip == [] || (!IsSpace(ip[0]) && !IsSpace(ip[|ip| - 1])))
      && ip == ClientIp(headers["x-real-ip" := realIp], otherHost)
  {
    var first := FirstField(headers["x-forwarded-for"], ',');
    FirstFieldExcludesSeparator(headers["x-forwarded-for"], ',');
    StripKeepsOnlyOwnChars(first, ',');
    StripTrims(first);
    assert Header(headers["x-real-ip" := realIp], "x-forwarded-for") == Header(headers, "x-forwarded-for");
  }

  /** Without X-Forwarded-For the address falls back in turn: a non-empty
      X-Real-IP whatever the peer, then the peer's host, then "unknown". */
  lemma ClientIpFallbacks(headers: map<string, string>, clientHost: Option<string>)
    requires !Present(Header(headers, "x-forwarded-for"))
    ensures Present(Header(headers, "x-real-ip")) ==>
      forall peer: Option<string> :: ClientIp(headers, peer) == headers["x-real-ip"]
    ensures !Present(Header(headers, "x-real-ip")) && clientHost.Some? ==> ClientIp(headers, clientHost) == clientHost.value
    ensures !Present(Header(headers, "x-real-ip")) && clientHost.None? ==> ClientIp(headers, clientHost) == "unknown"
  {
  }

  /** `identifier or get_client_ip(request)` */
  function ClientId(identifier: Option<string>, headers: map<string, string>, clientHost: Option<string>): string {
    if Present(identifier) then identifier.value else ClientIp(headers, clientHost)
  }

  /** `f"ratelimit:{action}:{client_id}"` */
  function CounterKey(action: string, clientId: string): string {
    "ratelimit:" + action + ":" + clientId
  }

  /** `(allowed, remaining, reset_seconds)` */
  datatype Verdict = Verdict(allowed: bool, remaining: int, resetSeconds: int)

  /** The verdict for the `count`-th request of a window whose key has `ttl` left. */
  function Judge(count: int, maxRequests: int, ttl: int): (v: Verdict)
    ensures v.allowed <==> count <= maxRequests
    ensures v.remaining >= 0 && v.resetSeconds >= 0
    ensures !v.allowed ==> v.remaining == 0
    ensures v.allowed ==> v.remaining == maxRequests - count
    ensures ttl > 0 ==> v.resetSeconds == ttl
    ensures ttl <= 0 ==> v.resetSeconds == 0
  {
    Verdict(count <= maxRequests, if maxRequests - count > 0 then maxRequests - count else 0,
            if ttl > 0 then ttl else 0)
  }

  /** The verdict when the store raises: allow, with the full allowance and no reset time. */
  function FailOpen(limit: Limit): Verdict {
    Verdict(true, limit.maxRequests, 0)
  }

  /** What one request does to its counter: the entry written under the key
      (none when nothing is written) and the verdict. */
  datatype Tally = Tally(written: Option<Entry>, verdict: Verdict)

  /** One counted request against the counter `before` (as the store shows it
      at clock reading `now`): INCR, EXPIRE when the count has just become 1,
      TTL. A store that raises, at any of the three commands, fails open. */
  function Count(before: Option<Entry>, failing: bool, now: int, limit: Limit): Tally
    requires limit.windowSeconds > 0
  {
    if failing || (before.Some? && !before.value.value.Counter?) then Tally(None, FailOpen(limit))
    else
      var count := if before.None? then 1 else before.value.value.n + 1;
      var expiresAt := if count == 1 then Some(now + limit.windowSeconds) else before.value.expiresAt;
      var ttl := if expiresAt.None? then -1 else expiresAt.value - now;
      Tally(Some(Entry(Counter(count), expiresAt)), Judge(count, limit.maxRequests, ttl))
  }

  /** `check_rate_limit`: counts the request under its key and returns the verdict. */
  method CheckRateLimit(store: Store, request: Request, action: string, identifier: Option<string>)
    returns (v: Verdict)
    modifies store
    ensures store.now == old(store.now) && store.failing == old(store.failing)
    ensures var key := CounterKey(action, ClientId(identifier, request.headers, request.clientHost));
      var t := Count(old(store.Lookup(key)), store.failing, store.now, LimitFor(action));
      v == t.verdict && store.data == Apply(old(store.data), key, t.written)
  {
    var limit := LimitFor(action);
    var key := CounterKey(action, ClientId(identifier, request.headers, request.clientHost));
    var current := store.Incr(key);
    if current.StoreError? {
      return FailOpen(limit);
    }
    if current.value == 1 {
      var expired := store.Expire(key, limit.windowSeconds);
      if expired.StoreError? {
        return FailOpen(limit);
      }
    }
    var ttl := store.Ttl(key);
    if ttl.StoreError? {
      return FailOpen(limit);
    }
    v := Judge(current.value, limit.maxRequests, ttl.value);
  }

  /** The last tally after requests at clock readings `times` (oldest first)
      against a key that starts out empty; none for no requests. */
  function Replay(times: seq<int>, limit: Limit): Option<Tally>
    requires limit.windowSeconds > 0
  {
    if times == [] then None
    else
      var previous := Replay(times[..|times| - 1], limit);
      var stored := if previous.Some? then previous.value.written else None;
      var before := if stored.Some? && Alive(stored.value, times[|times| - 1]) then stored else None;
      Some(Count(before, false, times[|times| - 1], limit))
  }

  /** Within one window (every request before the first one's time plus the
      window length) the k-th request sees count k, the window stays anchored
      to the first request, and the k-th request is allowed exactly when k is
      at most the maximum. */
  lemma {:induction false} WindowCounting(times: seq<int>, limit: Limit)
    requires limit.windowSeconds > 0 && |times| > 0
    requires forall i :: 0 <= i < |times| ==> times[i] < times[0] + limit.windowSeconds
    ensures var end := times[0] + limit.windowSeconds;
      Replay(times, limit) == Some(Tally(Some(Entry(Counter(|times|), Some(end))),
                                         Judge(|times|, limit.maxRequests, end - times[|times| - 1])))
    ensures Replay(times, limit).value.verdict.allowed <==> |times| <= limit.maxRequests
  {
    if |times| > 1 {
      var prefix := times[..|times| - 1];
      assert prefix[0] == times[0];
      WindowCounting(prefix, limit);
    }
  }

  /** Once the window has run out, the next request starts a new window: it
      counts as the first, is allowed, and anchors a fresh expiry. */
  lemma ExpiredWindowStartsOver(stored: Entry, now: int, limit: Limit)
    requires limit.windowSeconds > 0 && limit.maxRequests >= 1
    requires !Alive(stored, now)
    ensures var before := if Alive(stored, now) then Some(stored) else None;
      Count(before, false, now, limit)
        == Tally(Some(Entry(Counter(1), Some(now + limit.windowSeconds))),
                 Verdict(true, limit.maxRequests - 1, limit.windowSeconds))
  {
  }

  /** The HTTP 429 raised for a refused request (status code per section 4 of RFC 6585). */
  function TooManyRequests(resetSeconds: int): HttpException {
    var reset := IntToString(resetSeconds);
    HttpException(429,
      Detail.TooManyRequests("Too many requests", "Rate limit exceeded. Try again in " + reset + " seconds.", resetSeconds),
      map["Retry-After" := reset, "X-RateLimit-Remaining" := "0", "X-RateLimit-Reset" := reset])
  }

  /** `rate_limit`: records remaining and reset on the request, then raises 429
      exactly when the check refuses. */
  method ApplyRateLimit(store: Store, request: Request, action: string, identifier: Option<string>)
    returns (r: Result<(), HttpException>)
    modifies store, request
    ensures store.now == old(store.now) && store.failing == old(store.failing)
    ensures request.headers == old(request.headers)
    ensures request.orizonUser == old(request.orizonUser) && request.orizonEmail == old(request.orizonEmail)
    ensures var key := CounterKey(action, ClientId(identifier, request.headers, request.clientHost));
      var t := Count(old(store.Lookup(key)), store.failing, store.now, LimitFor(action));
      && store.data == Apply(old(store.data), key, t.written)
      && request.rateLimitRemaining == Some(t.verdict.remaining)
      && request.rateLimitReset == Some(t.verdict.resetSeconds)
      && r == if t.verdict.allowed then Ok(()) else Err(TooManyRequests(t.verdict.resetSeconds))
  {
    var v := CheckRateLimit(store, request, action, identifier);
    request.rateLimitRemaining := Some(v.remaining);
    request.rateLimitReset := Some(v.resetSeconds);
    if !v.allowed {
      return Err(TooManyRequests(v.resetSeconds));
    }
    r := Ok(());
  }

  /** `rate_limit_by_email`: the client-address counter first; when that
      passes, the counter of the lower-cased email under `"<action>:email"`. */
  method RateLimitByEmail(store: Store, request: Request, email: string, action: string)
    returns (r: Result<(), HttpException>)
    modifies store, request
    ensures store.now == old(store.now) && store.failing == old(store.failing)
    ensures request.headers == old(request.headers)
    ensures request.orizonUser == old(request.orizonUser) && request.orizonEmail == old(request.orizonEmail)
    ensures var ipKey := CounterKey(action, ClientIp(request.headers, request.clientHost));
      var first := Count(old(store.Lookup(ipKey)), store.failing, store.now, LimitFor(action));
      var middle := Apply(old(store.data), ipKey, first.written);
      var emailKey := CounterKey(action + ":email", ClientId(Some(Lower(email)), request.headers, request.clientHost));
      var second := Count(At(middle, emailKey, store.now), store.failing, store.now, Limit(30, 60));
      if !first.verdict.allowed then
        && r == Err(TooManyRequests(first.verdict.resetSeconds))
        && store.data == middle
        && request.rateLimitRemaining == Some(0)
        && request.rateLimitReset == Some(first.verdict.resetSeconds)
      else
        && r == (if second.verdict.allowed then Ok(()) else Err(TooManyRequests(second.verdict.resetSeconds)))
        && store.data == Apply(middle, emailKey, second.written)
        && request.rateLimitRemaining == Some(second.verdict.remaining)
        && request.rateLimitReset == Some(second.verdict.resetSeconds)
  {
    EmailActionUsesDefault(action);
    r := ApplyRateLimit(store, request, action, None);
    if r.Err? {
      return;
    }
    r := ApplyRateLimit(store, request, action + ":email", Some(Lower(email)));
  }
}
