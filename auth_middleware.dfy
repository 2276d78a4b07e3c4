/** The authentication middleware: for a request that carries an identity
    from the authenticating proxy, provisions the account and injects its
    virtual key as a Bearer credential (section 2.1 of RFC 6750) before the
    request goes on; everything else passes through untouched. */
module AuthMiddleware {
  import opened Outcomes
  import opened Text
  import opened Json
  import opened Http
  import opened AuthUtils

  /** The path prefixes that skip authentication. */
  const SkipAuthPaths := ["/health", "/v1/health", "/docs", "/openapi.json", "/redoc"]

  predicate Skipped(path: string) {
    exists i :: 0 <= i < |SkipAuthPaths| && StartsWith(path, SkipAuthPaths[i])
  }

  /** The rest of the application: it records the headers of every request
      handed to it and answers with a fixed status. */
  class Downstream {
    const status: int
    var seen: seq<map<string, string>>

    constructor (status: int)
      ensures this.status == status && seen == []
    {
      this.status, seen := status, [];
    }

    /** `call_next(request)` */
    method Handle(request: Request) returns (answer: int)
      modifies this
      ensures answer == status
      ensures seen == old(seen) + [request.headers]
    {
      seen := seen + [request.headers];
      answer := status;
    }
  }

  /** `OrizonAuthMiddleware.dispatch`. The downstream handler runs exactly once
      on every path. A skipped path, a request without an identity email, a
      provisioning exception and an empty key all leave the request as it came;
      only a non-empty key rewrites Authorization and records the user. */
  method Dispatch(request: Request, gateway: Gateway, downstream: Downstream) returns (answer: int)
    modifies request, gateway, downstream
    ensures answer == downstream.status
    ensures downstream.seen == old(downstream.seen) + [request.headers]
    ensures gateway.replies == old(gateway.replies)
    ensures var email := GetUserEmail(old(request.headers));
      if Skipped(request.path) || !Present(email) then
        && gateway.calls == old(gateway.calls) && gateway.provisions == old(gateway.provisions)
        && request.headers == old(request.headers)
        && request.orizonUser == old(request.orizonUser) && request.orizonEmail == old(request.orizonEmail)
      else
        var p := NextProvision(old(gateway.provisions));
        && gateway.calls == old(gateway.calls) + [ProvisionCall(email.value)]
        && gateway.provisions == Drop(old(gateway.provisions), 1)
        && if p.Provisioned? && Truthy(p.key) then
             && request.headers == old(request.headers)["authorization" := "Bearer " + Str(p.key)]
             && request.orizonUser == Some(p.userData) && request.orizonEmail == email
           else
             && request.headers == old(request.headers)
             && request.orizonUser == old(request.orizonUser) && request.orizonEmail == old(request.orizonEmail)
  {
    if Skipped(request.path) {
      answer := downstream.Handle(request);
      return;
    }
    var email := GetUserEmail(request.headers);
    if Present(email) {
      var p := gateway.ProvisionUserKey(email.value);
      if p.Provisioned? && Truthy(p.key) {
        request.headers := request.headers["authorization" := "Bearer " + Str(p.key)];
        request.orizonUser := Some(p.userData);
        request.orizonEmail := email;
      }
    }
    answer := downstream.Handle(request);
  }

  /** The skipped prefixes cover the health and documentation endpoints. */
  lemma SkippedPaths()
    ensures Skipped("/health") && Skipped("/v1/health/liveliness") && Skipped("/docs") && Skipped("/openapi.json")
    ensures Skipped("/redoc")
  {
    assert StartsWith("/health", SkipAuthPaths[0]);
    assert StartsWith("/v1/health/liveliness", SkipAuthPaths[1]);
    assert StartsWith("/docs", SkipAuthPaths[2]);
    assert StartsWith("/openapi.json", SkipAuthPaths[3]);
    assert StartsWith("/redoc", SkipAuthPaths[4]);
  }

  /** The rule is a prefix test, not an exact match: whatever follows a
      skipped path is skipped as well. */
  lemma SkipExtendsToLongerPaths(path: string, suffix: string)
    requires Skipped(path)
    ensures Skipped(path + suffix)
  {
    var i :| 0 <= i < |SkipAuthPaths| && StartsWith(path, SkipAuthPaths[i]);
    StartsWithAppend(path, suffix, SkipAuthPaths[i]);
  }

  /** Every path that begins with one of the five table entries skips
      authentication, so `/healthz`, `/docs-internal` or `/redocs/x` do too. */
  lemma SkippedUnderEveryEntry(suffix: string)
    ensures Skipped("/health" + suffix) && Skipped("/v1/health" + suffix) && Skipped("/docs" + suffix)
    ensures Skipped("/openapi.json" + suffix) && Skipped("/redoc" + suffix)
  {
    SkippedPaths();
    assert StartsWith("/v1/health", SkipAuthPaths[1]);
    SkipExtendsToLongerPaths("/health", suffix);
    SkipExtendsToLongerPaths("/v1/health", suffix);
    SkipExtendsToLongerPaths("/docs", suffix);
    SkipExtendsToLongerPaths("/openapi.json", suffix);
    SkipExtendsToLongerPaths("/redoc", suffix);
  }

  /** Nothing under the API proper or the account endpoints skips authentication. */
  lemma ApiPathsNotSkipped()
    ensures !Skipped("/v1/chat/completions") && !Skipped("/api/auth/login")
  {
    var api, login := "/v1/chat/completions", "/api/auth/login";
    forall i | 0 <= i < |SkipAuthPaths| ensures !StartsWith(api, SkipAuthPaths[i]) {
      DiffersAt(api, SkipAuthPaths[i], if i == 1 then 4 else 1);
    }
    forall i | 0 <= i < |SkipAuthPaths| ensures !StartsWith(login, SkipAuthPaths[i]) {
      DiffersAt(login, SkipAuthPaths[i], 1);
    }
  }

  lemma DiffersAt(s: string, prefix: string, k: nat)
    requires k < |s| && k < |prefix| && s[k] != prefix[k]
    ensures !StartsWith(s, prefix)
  {
    if |prefix| <= |s| {
      assert s[..|prefix|][k] == s[k];
    }
  }
}
