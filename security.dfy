/** Security headers added to every response: a Content-Security-Policy
    (strict for pages, a locked-down one for API paths), the anti-sniffing,
    framing, XSS, referrer and permissions headers, and HSTS (section 6.1 of
    RFC 6797) on HTTPS connections. */
module Security {
  import opened Outcomes
  import opened Text
  import opened Http

  /** The deployment settings read from the environment. `directives` is
      the CSP table in its fixed order, each value as configured. */
  datatype SecurityConfig = SecurityConfig(enabled: bool, hstsEnabled: bool, hstsMaxAge: int,
                                           directives: seq<(string, string)>)

  /** The CSP table with its default values. */
  const DefaultDirectives: seq<(string, string)> := [
    ("default-src", "'self'"),
    ("script-src", "'self'"),
    ("style-src", "'self' 'unsafe-inline'"),
    ("img-src", "'self' data: https:"),
    ("font-src", "'self'"),
    ("connect-src", "'self'"),
    ("frame-ancestors", "'none'"),
    ("form-action", "'self'"),
    ("base-uri", "'self'"),
    ("object-src", "'none'")
  ]

  /** One year. */
  const DefaultHstsMaxAge := 31536000

  const DefaultConfig := SecurityConfig(true, true, DefaultHstsMaxAge, DefaultDirectives)

  /** The policy for API paths: nothing may load and nothing may frame. */
  const RelaxedCsp := "default-src 'none'; frame-ancestors 'none'"

  /** The path prefixes that get the relaxed policy. */
  const RelaxedPaths := ["/v1/", "/health", "/metrics"]

  const PermissionsPolicy :=
    "accelerometer=(), camera=(), geolocation=(), gyroscope=(), magnetometer=(), microphone=(), payment=(), usb=()"

  /** The names `get_security_headers` may set. */
  const SecurityHeaderNames := {
    "Content-Security-Policy", "X-Content-Type-Options", "X-Frame-Options", "X-XSS-Protection",
    "Referrer-Policy", "Permissions-Policy", "Strict-Transport-Security"
  }

  /** `directive value` for every directive with a non-empty value, in table order. */
  function CspEntries(directives: seq<(string, string)>): (entries: seq<string>)
    ensures |entries| <= |directives|
    ensures (forall i :: 0 <= i < |directives| ==> directives[i].1 != "") ==>
      |entries| == |directives| &&
      forall i :: 0 <= i < |directives| ==> entries[i] == directives[i].0 + " " + directives[i].1
  {
    if directives == [] then []
    else
      var rest := CspEntries(directives[1..]);
      if directives[0].1 != "" then [directives[0].0 + " " + directives[0].1] + rest else rest
  }

  /** An entry is in the policy exactly when it comes from a directive with
      a value; directives without one are dropped. */
  lemma {:induction false} CspEntriesFromTable(directives: seq<(string, string)>, e: string)
    ensures e in CspEntries(directives) <==>
      exists i :: 0 <= i < |directives| && directives[i].1 != "" && e == directives[i].0 + " " + directives[i].1
  {
    if directives != [] {
      CspEntriesFromTable(directives[1..], e);
      var rest := directives[1..];
      assert forall i :: 0 <= i < |rest| ==> rest[i] == directives[i + 1];
      if exists i :: 0 <= i < |directives| && directives[i].1 != "" && e == directives[i].0 + " " + directives[i].1 {
        var i :| 0 <= i < |directives| && directives[i].1 != "" && e == directives[i].0 + " " + directives[i].1;
        if i > 0 {
          assert rest[i - 1] == directives[i];
        }
      }
    }
  }

  /** The positions from `i` on whose directive has a value, in increasing order. */
  function KeptFrom(directives: seq<(string, string)>, i: nat): (ks: seq<nat>)
    requires i <= |directives|
    decreases |directives| - i
    ensures forall j :: 0 <= j < |ks| ==> i <= ks[j] < |directives|
  {
    if i == |directives| then []
    else (if directives[i].1 != "" then [i] else []) + KeptFrom(directives, i + 1)
  }

  /** `KeptFrom` lists only positions whose directive has a value. */
  lemma {:induction false} KeptHaveValues(directives: seq<(string, string)>, i: nat)
    requires i <= |directives|
    decreases |directives| - i
    ensures forall j :: 0 <= j < |KeptFrom(directives, i)| ==> directives[KeptFrom(directives, i)[j]].1 != ""
  {
    if i < |directives| {
      KeptHaveValues(directives, i + 1);
      var ks, later := KeptFrom(directives, i), KeptFrom(directives, i + 1);
      if directives[i].1 != "" {
        assert ks == [i] + later;
        forall j | 1 <= j < |ks| ensures ks[j] == later[j - 1] { }
      } else {
        assert ks == later;
      }
    }
  }

  /** `KeptFrom` lists its positions each once, in increasing order. */
  lemma {:induction false} KeptIncreasing(directives: seq<(string, string)>, i: nat)
    requires i <= |directives|
    decreases |directives| - i
    ensures forall j, l :: 0 <= j < l < |KeptFrom(directives, i)| ==> KeptFrom(directives, i)[j] < KeptFrom(directives, i)[l]
  {
    if i < |directives| {
      KeptIncreasing(directives, i + 1);
      var ks, later := KeptFrom(directives, i), KeptFrom(directives, i + 1);
      if directives[i].1 != "" {
        assert ks == [i] + later;
        forall j | 1 <= j < |ks| ensures ks[j] == later[j - 1] && i < ks[j] { }
      } else {
        assert ks == later;
      }
    }
  }

  /** `KeptFrom` lists every position from `i` on whose directive has a value. */
  lemma {:induction false} KeptComplete(directives: seq<(string, string)>, i: nat)
    requires i <= |directives|
    decreases |directives| - i
    ensures forall k :: i <= k < |directives| && directives[k].1 != "" ==> k in KeptFrom(directives, i)
  {
    if i < |directives| {
      KeptComplete(directives, i + 1);
      var later := KeptFrom(directives, i + 1);
      assert KeptFrom(directives, i) == (if directives[i].1 != "" then [i] else []) + later;
    }
  }

  /** Whatever values are empty, the policy has one entry per directive with
      a value, in table order: the `j`-th entry comes from the `j`-th such
      directive. */
  lemma {:induction false} CspEntriesInOrder(directives: seq<(string, string)>, i: nat)
    requires i <= |directives|
    decreases |directives| - i
    ensures var entries, ks := CspEntries(directives[i..]), KeptFrom(directives, i);
      && |entries| == |ks|
      && forall j :: 0 <= j < |ks| ==> entries[j] == directives[ks[j]].0 + " " + directives[ks[j]].1
  {
    if i < |directives| {
      CspEntriesInOrder(directives, i + 1);
      var entries, ks := CspEntries(directives[i..]), KeptFrom(directives, i);
      var rest, later := CspEntries(directives[i + 1..]), KeptFrom(directives, i + 1);
      assert directives[i..][1..] == directives[i + 1..];
      assert directives[i..][0] == directives[i];
      if directives[i].1 != "" {
        assert entries == [directives[i].0 + " " + directives[i].1] + rest;
        assert ks == [i] + later;
        forall j | 1 <= j < |ks|
          ensures entries[j] == directives[ks[j]].0 + " " + directives[ks[j]].1
        {
          assert entries[j] == rest[j - 1] && ks[j] == later[j - 1];
        }
      } else {
        assert entries == rest && ks == later;
      }
    }
  }

  /** The strict policy: the entries joined by `; `. */
  function StrictCsp(directives: seq<(string, string)>): string {
    Join(CspEntries(directives), "; ")
  }

  /** `build_csp_header(strict)`: the relaxed policy when not strict;
      otherwise the table's entries, built the way the source does. */
  method BuildCspHeader(directives: seq<(string, string)>, strict: bool) returns (csp: string)
    ensures !strict ==> csp == RelaxedCsp
    ensures strict ==> csp == StrictCsp(directives)
  {
    if !strict {
      return RelaxedCsp;
    }
    var entries: seq<string> := [];
    var i := |directives|;
    while i > 0
      invariant 0 <= i <= |directives|
      invariant entries == CspEntries(directives[i..])
    {
      i := i - 1;
      assert directives[i..][1..] == directives[i + 1..];
      if directives[i].1 != "" {
        entries := [directives[i].0 + " " + directives[i].1] + entries;
      }
    }
    csp := Join(entries, "; ");
  }

  /** The default table yields all ten directives, in order. */
  lemma DefaultCsp()
    ensures |CspEntries(DefaultDirectives)| == 10
    ensures CspEntries(DefaultDirectives)[0] == "default-src 'self'"
    ensures CspEntries(DefaultDirectives)[9] == "object-src 'none'"
  {
    var t := DefaultDirectives;
    assert |t| == 10;
    forall i | 0 <= i < |t| ensures t[i].1 != "" {
      assert |t[i].1| > 0;
    }
    assert t[0].0 + " " + t[0].1 == "default-src 'self'";
    assert t[9].0 + " " + t[9].1 == "object-src 'none'";
  }

  /** The paths under the relaxed policy. */
  predicate IsApiPath(path: string) {
    exists i :: 0 <= i < |RelaxedPaths| && StartsWith(path, RelaxedPaths[i])
  }

  /** The HSTS value. */
  function HstsValue(maxAge: int): string {
    "max-age=" + IntToString(maxAge) + "; includeSubDomains; preload"
  }

  /** `get_security_headers(path, is_https)`. */
  function GetSecurityHeaders(config: SecurityConfig, path: string, isHttps: bool): (h: map<string, string>)
    ensures !config.enabled ==> h == map[]
    ensures h.Keys <= SecurityHeaderNames
    ensures config.enabled ==>
      && "Content-Security-Policy" in h
      && h["Content-Security-Policy"] == (if IsApiPath(path) then RelaxedCsp else StrictCsp(config.directives))
      && "X-Content-Type-Options" in h && h["X-Content-Type-Options"] == "nosniff"
      && "X-Frame-Options" in h && h["X-Frame-Options"] == "DENY"
      && "X-XSS-Protection" in h && h["X-XSS-Protection"] == "1; mode=block"
      && "Referrer-Policy" in h && h["Referrer-Policy"] == "strict-origin-when-cross-origin"
      && "Permissions-Policy" in h && h["Permissions-Policy"] == PermissionsPolicy
    ensures "Strict-Transport-Security" in h <==> config.enabled && config.hstsEnabled && isHttps
    ensures "Strict-Transport-Security" in h ==> h["Strict-Transport-Security"] == HstsValue(config.hstsMaxAge)
  {
    if !config.enabled then map[]
    else
      var csp := if IsApiPath(path) then RelaxedCsp else StrictCsp(config.directives);
      var base := map[
        "Content-Security-Policy" := csp,
        "X-Content-Type-Options" := "nosniff",
        "X-Frame-Options" := "DENY",
        "X-XSS-Protection" := "1; mode=block",
        "Referrer-Policy" := "strict-origin-when-cross-origin",
        "Permissions-Policy" := PermissionsPolicy
      ];
      if config.hstsEnabled && isHttps then base["Strict-Transport-Security" := HstsValue(config.hstsMaxAge)]
      else base
  }

  /** API and health paths get the relaxed policy, pages the strict one. */
  lemma PolicyByPath(config: SecurityConfig)
    requires config.enabled
    ensures GetSecurityHeaders(config, "/v1/chat/completions", true)["Content-Security-Policy"] == RelaxedCsp
    ensures GetSecurityHeaders(config, "/health", true)["Content-Security-Policy"] == RelaxedCsp
    ensures GetSecurityHeaders(config, "/metrics", false)["Content-Security-Policy"] == RelaxedCsp
    ensures GetSecurityHeaders(config, "/", true)["Content-Security-Policy"] == StrictCsp(config.directives)
    ensures GetSecurityHeaders(config, "/v1", true)["Content-Security-Policy"] == StrictCsp(config.directives)
  {
    assert StartsWith("/v1/chat/completions", RelaxedPaths[0]);
    assert StartsWith("/health", RelaxedPaths[1]);
    assert StartsWith("/metrics", RelaxedPaths[2]);
    assert !IsApiPath("/") by {
      forall i | 0 <= i < |RelaxedPaths| ensures !StartsWith("/", RelaxedPaths[i]) {
        assert |RelaxedPaths[i]| > 1;
      }
    }
    assert !IsApiPath("/v1") by {
      assert !StartsWith("/v1", RelaxedPaths[0]);
      assert "/v1"[1] != RelaxedPaths[1][1];
      assert !StartsWith("/v1", RelaxedPaths[1]);
      assert "/v1"[1] != RelaxedPaths[2][1];
      assert !StartsWith("/v1", RelaxedPaths[2]);
    }
  }

  /** An API path stays one whatever follows it. */
  lemma ApiPathExtends(path: string, suffix: string)
    requires IsApiPath(path)
    ensures IsApiPath(path + suffix)
  {
    var i :| 0 <= i < |RelaxedPaths| && StartsWith(path, RelaxedPaths[i]);
    StartsWithAppend(path, suffix, RelaxedPaths[i]);
  }

  /** Everything under `/v1/`, `/health` or `/metrics` gets the relaxed policy,
      whatever the rest of the path and the scheme. */
  lemma RelaxedUnderEveryPrefix(config: SecurityConfig, suffix: string, isHttps: bool)
    requires config.enabled
    ensures GetSecurityHeaders(config, "/v1/" + suffix, isHttps)["Content-Security-Policy"] == RelaxedCsp
    ensures GetSecurityHeaders(config, "/health" + suffix, isHttps)["Content-Security-Policy"] == RelaxedCsp
    ensures GetSecurityHeaders(config, "/metrics" + suffix, isHttps)["Content-Security-Policy"] == RelaxedCsp
  {
    assert StartsWith("/v1/", RelaxedPaths[0]);
    assert StartsWith("/health", RelaxedPaths[1]);
    assert StartsWith("/metrics", RelaxedPaths[2]);
    ApiPathExtends("/v1/", suffix);
    ApiPathExtends("/health", suffix);
    ApiPathExtends("/metrics", suffix);
  }

  /** Different security header names stay different once lower-cased, so
      writing them into a response never overwrites one with another. */
  lemma NamesDistinctWhenLowered(a: string, b: string)
    requires a in SecurityHeaderNames && b in SecurityHeaderNames && a != b
    ensures Lower(a) != Lower(b)
  {
    if |a| == |b| {
      assert Lower(a)[0] != Lower(b)[0];
    }
  }

  /** The middleware's test for HTTPS: the scheme, or the proxy's
      `X-Forwarded-Proto`. */
  function IsHttps(request: Request): (secure: bool)
    reads request
    ensures secure <==> request.scheme == "https" || Header(request.headers, "x-forwarded-proto") == Some("https")
  {
    request.scheme == "https" || Header(request.headers, "x-forwarded-proto") == Some("https")
  }

  /** The lower-cased forms of a set of header names. */
  function LoweredNames(names: set<string>): set<string> {
    set k | k in names :: Lower(k)
  }

  /** The response headers after the security headers `h` are written over
      them (under lower-case names): each security header holds its value,
      every other header is as it was, and no other name appears. */
  predicate SecuredHeaders(before: map<string, string>, h: map<string, string>, after: map<string, string>) {
    && after.Keys == before.Keys + LoweredNames(h.Keys)
    && (forall k :: k in h ==> Lower(k) in after && after[Lower(k)] == h[k])
    && (forall n :: n in before && n !in LoweredNames(h.Keys) ==> after[n] == before[n])
  }

  /** `SecurityHeadersMiddleware.dispatch` once the handler has produced
      `response`: every security header is written, the handler's other
      headers, status and cookies are kept. */
  method Dispatch(config: SecurityConfig, request: Request, response: Response)
    modifies response
    ensures SecuredHeaders(old(response.headers), GetSecurityHeaders(config, request.path, IsHttps(request)),
                           response.headers)
    ensures response.status == old(response.status) && response.cookies == old(response.cookies)
  {
    var h := GetSecurityHeaders(config, request.path, IsHttps(request));
    WriteHeaders(response, h);
  }

  /** The loop of `dispatch`: writes each security header into the
      response, under its lower-case name. */
  method WriteHeaders(response: Response, h: map<string, string>)
    requires h.Keys <= SecurityHeaderNames
    modifies response
    ensures SecuredHeaders(old(response.headers), h, response.headers)
    ensures response.status == old(response.status) && response.cookies == old(response.cookies)
  {
    var pending := h.Keys;
    ghost var done: set<string> := {};
    while pending != {}
      invariant done == h.Keys - pending
      invariant response.headers.Keys == old(response.headers).Keys + LoweredNames(done)
      invariant forall k :: k in done ==> Lower(k) in response.headers && response.headers[Lower(k)] == h[k]
      invariant forall n :: n in old(response.headers) && n !in LoweredNames(done) ==>
        response.headers[n] == old(response.headers)[n]
      invariant response.status == old(response.status) && response.cookies == old(response.cookies)
      decreases pending
    {
      var name :| name in pending;
      forall k | k in done ensures Lower(k) != Lower(name) {
        NamesDistinctWhenLowered(k, name);
      }
      assert LoweredNames(done + {name}) == LoweredNames(done) + {Lower(name)};
      response.headers := response.headers[Lower(name) := h[name]];
      pending := pending - {name};
      done := done + {name};
    }
  }
}
