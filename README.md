# Orizon authentication and proxy layer, modelled in Dafny

Orizon sits in front of an LLM gateway (LiteLLM). It resolves every caller to a gateway account and a
virtual key, and then forwards OpenAI-compatible API calls under that key. There are two kinds of caller:

- **Internal users** come through an authenticating reverse proxy. The proxy sets identity headers;
  `OrizonAuthMiddleware` provisions their account and injects their key as a Bearer credential.
- **External users** sign up or log in by magic link. A single-use token lives 15 minutes in Redis
  and is mailed as a link. Sessions are kept in Redis and carried in an `orizon_session` cookie.
  GitHub sign-in uses a single-use OAuth `state` value.

A fixed-window rate limiter counts requests per action and per client in Redis. Around this core
are three more parts:

- log redaction, and a logging context variable that nested scopes stack and restore;
- the security-header middleware (CSP, HSTS and the other hardening headers);
- the secret lookup: Azure Key Vault, then the environment, then a default.

The model has one Dafny module per source file, plus shared modules:

| module | contents |
|---|---|
| `Outcomes` | `Option` and `Result` |
| `Text` | string helpers |
| `Json` | parsed JSON with Python truthiness |
| `Http` | requests, responses and `HTTPException` |
| `KvStore` | Redis: one map from key to value and expiry, an integer clock, and a flag for an unreachable server |
| `UrlEncoding` | `quote_plus` and `urlencode` |

Collaborators the code calls over the network are classes whose replies are scripted and which log
the calls they receive:

- the LiteLLM user API and the `get_or_create_user_key` collaborator (`AuthUtils.Gateway`);
- the LiteLLM proxy (`ProxyClient.Backend`);
- the SMTP server (`Email.SmtpServer`);
- the rest of the application (`AuthMiddleware.Downstream`).

Randomness (`secrets.token_urlsafe`), the clock's ISO timestamps and SHA-256 are parameters.

The account endpoints are modelled as `orizon/auth/routes.py` has them:

- `verify_token` answers with the email and the virtual key and creates no session. The code has a
  TODO where the session would be created, so `AuthRoutes.VerifyToken` writes no session.
- An unknown, expired or used token is answered with 400.
- The GitHub callback route that the module docstring lists (`orizon/auth/routes.py:9`) is not
  defined in that file. Neither is a logout or profile route.
- None of the handlers calls the rate limiter.

## Model

| member | source | states |
|---|---|---|
| KvStore.Fields | orizon/auth/sessions.py:110-113 | an HGETALL reply counts as a record exactly when it is an answer with at least one field |
| KvStore.Store.Incr | orizon/auth/ratelimit.py:110 | INCR starts a missing or expired key at 1 with no expiry, adds one to a live counter and keeps its expiry, and raises on a non-counter or an unreachable store |
| KvStore.Store.Expire | orizon/auth/ratelimit.py:114 | EXPIRE answers whether the key is live; it sets the expiry to now plus the seconds, and a non-positive time deletes the key |
| KvStore.Store.Ttl | orizon/auth/ratelimit.py:117 | TTL is -2 for a missing key, -1 for a key without expiry, and otherwise the positive number of seconds left |
| KvStore.Store.HSet | orizon/auth/tokens.py:79 | HSET merges the mapping into a live hash and keeps its expiry, or creates a hash without expiry; it answers the number of new fields, and refuses an empty mapping or a non-hash key |
| KvStore.Store.HGetAll | orizon/auth/tokens.py:111 | HGETALL gives the fields of a live hash, no fields for a missing or expired key, and an error for another type |
| KvStore.Store.Delete | orizon/auth/tokens.py:119 | DEL removes the key and answers 1 exactly when it was live |
| KvStore.Store.SetEx | orizon/auth/oauth.py:79 | SETEX stores a string that expires after the given seconds |
| KvStore.HSetThenExpire | orizon/auth/tokens.py:79-80 | writing a record and then its lifetime either fails with nothing changed, or leaves the merged hash expiring exactly `seconds` from now; a lifetime that is not positive deletes the record |
| RateLimit.LimitFor | orizon/auth/ratelimit.py:25-31 | every action gets a positive limit and window; unlisted actions get the default row |
| RateLimit.EmailActionUsesDefault | orizon/auth/ratelimit.py:100 | `"<action>:email"` is never a table row, so counting by email always uses 30 requests per 60 seconds |
| RateLimit.ForwardedForDecides | orizon/auth/ratelimit.py:65-71 | a non-empty X-Forwarded-For alone decides the client address: its first comma-separated entry, stripped, so with no comma and no surrounding whitespace, whatever X-Real-IP and the peer say |
| RateLimit.ClientIpFallbacks | orizon/auth/ratelimit.py:73-81 | without X-Forwarded-For, a non-empty X-Real-IP is the address whatever the peer; with neither header the peer's host, and "unknown" when there is no peer |
| RateLimit.Judge | orizon/auth/ratelimit.py:117-130 | a request is allowed exactly when its count is at most the maximum; remaining is the unused allowance (0 when refused); reset is the TTL when that is positive and 0 otherwise |
| RateLimit.CheckRateLimit | orizon/auth/ratelimit.py:84-135 | the counter under `ratelimit:<action>:<client>` takes one more request, and the verdict follows from it; a store error at any command fails open |
| RateLimit.WindowCounting | orizon/auth/ratelimit.py:109-122 | inside one window the k-th request counts k, the expiry stays anchored to the first request, and the k-th request is allowed exactly when k is at most the maximum |
| RateLimit.ExpiredWindowStartsOver | orizon/auth/ratelimit.py:110-114 | after the window has expired, the next request counts as the first, is allowed, and anchors a fresh window |
| RateLimit.ApplyRateLimit | orizon/auth/ratelimit.py:138-181 | records remaining and reset on the request, and raises 429 with Retry-After exactly when the check refuses |
| RateLimit.RateLimitByEmail | orizon/auth/ratelimit.py:184-201 | the address counter is checked first; only when it passes is the lower-cased email counted under `"<action>:email"`, so a refusal leaves the email counter untouched; the remaining and reset recorded on the request are those of the last check made, and headers and user are unchanged |
| Tokens.TokenRecord | orizon/auth/tokens.py:63-72 | the record holds the email, the creation time and the signup flag "1"/"0"; it holds name and company exactly when they are non-empty |
| Tokens.Redeem | orizon/auth/tokens.py:111-126 | a non-empty reply redeems to its fields without the stored flag, and is signup exactly when that flag is "1"; an empty reply or an error redeems to nothing |
| Tokens.RedeemRecord | orizon/auth/tokens.py:63-123 | a written record reads back with the same email, creation time, optional fields and signup flag |
| Tokens.CreateMagicLinkToken | orizon/auth/tokens.py:40-90 | the token is returned whether or not the store accepted the record; the record is written for 900 seconds, or nothing changes when the store fails |
| Tokens.IssueFresh | orizon/auth/tokens.py:79-80 | issuing into a store without a live record under the key writes exactly the new record with the full 900-second lifetime |
| Tokens.VerifyMagicLinkToken | orizon/auth/tokens.py:93-130 | a token with a record yields its data and the record is deleted; otherwise, or on an error, the result is none and the store is unchanged |
| Tokens.InvalidateToken | orizon/auth/tokens.py:133-154 | the record is deleted, and the answer is true exactly when it was live |
| Tokens.VerifyTwice | orizon/auth/tokens.py:118-119 | a token redeems at most once: a second verification yields nothing |
| Tokens.IssueThenVerify | orizon/auth/tokens.py:40-130 | a fresh token redeems to exactly what was stored when it is used within 900 seconds, and to nothing afterwards; the key is gone either way |
| Tokens.InvalidateThenVerify | orizon/auth/tokens.py:133-154 | once invalidated, a token no longer verifies |
| Sessions.SessionRecord | orizon/auth/sessions.py:65-73 | the session record holds email, user id, virtual key and creation time, and holds the name exactly when it is non-empty |
| Sessions.CreateSession | orizon/auth/sessions.py:31-90 | the record is written for the configured number of hours and the token returned; a lifetime that is not positive leaves no record; a store failure is raised with nothing written |
| Sessions.SessionIn | orizon/auth/sessions.py:102-117 | a session read is the live non-empty hash under the token, and nothing when the store fails |
| Sessions.GetSession | orizon/auth/sessions.py:93-117 | reads the session without changing the store |
| Sessions.DeleteSession | orizon/auth/sessions.py:120-141 | the record is removed, and the answer is true exactly when it was live |
| Sessions.RefreshSession | orizon/auth/sessions.py:144-165 | a live record gets a full configured lifetime again with unchanged content (a lifetime that is not positive deletes it); the answer is false, with nothing changed, for a missing record or a failing store |
| Sessions.SetSessionCookie | orizon/auth/sessions.py:168-182 | sets the session cookie HttpOnly, Secure and SameSite=Lax, with the record's configured lifetime |
| Sessions.GetSessionCookie | orizon/auth/sessions.py:185-194 | the token is present exactly when the cookie is |
| Sessions.ClearSessionCookie | orizon/auth/sessions.py:197-203 | replaces the cookie with an empty one of zero lifetime |
| Sessions.CurrentSession | orizon/auth/sessions.py:206-222 | without a non-empty cookie there is no session; otherwise the session is the one the cookie's token names |
| Sessions.GetCurrentSession | orizon/auth/sessions.py:206-222 | reads the current session without changing the store |
| Sessions.CreateThenGet | orizon/auth/sessions.py:31-117 | a new session reads back as its record for its whole lifetime, and as nothing afterwards; with a lifetime that is not positive it never reads back |
| Sessions.DeleteThenGet | orizon/auth/sessions.py:120-141 | a deleted session can no longer be read |
| Sessions.RefreshThenGet | orizon/auth/sessions.py:144-165 | a refreshed session stays readable, unchanged, for a full lifetime from the refresh; with a lifetime that is not positive the refresh deletes it |
| OAuth.StoreOAuthState | orizon/auth/oauth.py:67-85 | the state is stored for 600 seconds; the answer is false, with nothing written, exactly when the store fails |
| OAuth.VerifyOAuthState | orizon/auth/oauth.py:88-113 | the state is consumed, and it is valid exactly when it was live |
| OAuth.StateRoundTrip | orizon/auth/oauth.py:67-113 | a stored state verifies once if the callback comes within 600 seconds, and never a second time |
| OAuth.AuthorizeUrl | orizon/auth/oauth.py:116-131 | the authorization URL is GitHub's authorize endpoint followed by a query |
| OAuth.AuthorizeUrlCarriesState | orizon/auth/oauth.py:125-131 | for ASCII settings and state, the query reads back as exactly client_id, redirect_uri, scope and state, in order, with the values unchanged |
| UrlEncoding.QuotePlusRoundTrip | orizon/auth/oauth.py:131 | decoding a `quote_plus` encoding of an ASCII string gives the string back |
| UrlEncoding.QuotePlusHasNoDelimiters | orizon/auth/oauth.py:131 | an encoded key or value contains no `&` and no `=` |
| UrlEncoding.ParseUrlencode | orizon/auth/oauth.py:131 | parsing the output of `urlencode` on ASCII pairs gives back the pairs, in order |
| OAuth.FirstPrimaryVerified | orizon/auth/oauth.py:227-229 | finds the first email entry that is both primary and verified, and no earlier entry is |
| OAuth.FirstVerified | orizon/auth/oauth.py:231-233 | finds the first verified email entry, and no earlier entry is verified |
| OAuth.GetGithubPrimaryEmail | orizon/auth/oauth.py:204-241 | the result is the first primary and verified address, else the first verified one, else none; a non-200 reply gives none |
| OAuth.CompleteGithubAuth | orizon/auth/oauth.py:244-280 | an identity is produced exactly when there is a token, a non-empty profile and an email; the email is the profile's, or the email list's when the profile has none; the name falls back to the login; the id is `str(id)` |
| OAuth.EmailListOnlyWhenNeeded | orizon/auth/oauth.py:265-268 | when the profile carries an email, the email endpoint's reply makes no difference |
| OAuth.ExchangeCodeForToken | orizon/auth/oauth.py:134-167 | a token only from a 200 reply whose `access_token` is non-empty, and then that token; none otherwise |
| OAuth.GetGithubUser | orizon/auth/oauth.py:170-201 | a profile exactly for a 200 reply, and then the reply's body |
| OAuth.GithubRepliesOnlyOn200 | orizon/auth/oauth.py:134-201 | a reply with any other status, or a failed request, yields neither a token nor a profile, whatever its body |
| OAuth.NoTokenNoIdentity | orizon/auth/oauth.py:256-258 | without a successful token exchange the flow fails, whatever the other replies are |
| AuthUtils.GetUserEmail | orizon/auth/utils.py:25-48 | X-Auth-Request-Email when it is non-empty, otherwise X-Email; an email is found exactly when one of the two carries a value |
| AuthUtils.GetUserName | orizon/auth/utils.py:51-72 | X-Auth-Request-User when it is non-empty, otherwise X-User; a name is found exactly when one of the two carries a value |
| AuthUtils.FirstPresent | orizon/auth/utils.py:38-41 | Python's `a or b`: the first header when it is non-empty, otherwise the second; the result is non-empty exactly when one of them is |
| AuthUtils.IdentityHeaderPrecedence | orizon/auth/utils.py:25-72 | the proxy's X-Auth-Request-Email and X-Auth-Request-User win over X-Email and X-User whenever they are non-empty |
| AuthUtils.GetAuthHeaders | orizon/auth/utils.py:75-89 | email and user come from the fallback rules; groups and access token are present exactly when their headers are, and are those headers' values |
| AuthUtils.GenerateUserId | orizon/auth/utils.py:92-104 | the id is `orizon-` followed by 12 lower-case hexadecimal digits |
| AuthUtils.UserIdIgnoresCase | orizon/auth/utils.py:103 | emails that agree after lower-casing get the same id, and so does an email and its lower-cased form |
| AuthUtils.UserFrom | orizon/auth/utils.py:107-138 | a user is found exactly from a 200 reply whose body is a JSON object with non-empty `user_info`, and is that body; a 200 reply that is not a JSON object raises; a 404, another status or a transport error gives none |
| AuthUtils.CreatedFrom | orizon/auth/utils.py:141-179 | creation succeeds exactly on a 200 reply with a JSON body, and returns that body; a 200 reply that is not JSON raises |
| AuthUtils.Gateway.GetUser | orizon/auth/utils.py:107-138 | one user-info call is made and logged, and its reply decides the result |
| AuthUtils.Gateway.CreateUser | orizon/auth/utils.py:141-179 | one user-creation call is made and logged, and its reply decides the result |
| AuthUtils.Gateway.ProvisionUserKey | orizon/auth/middleware.py:64 | one provisioning call is made and logged, and its scripted outcome is returned |
| AuthUtils.GetOrCreateUser | orizon/auth/utils.py:182-211 | an existing user is returned after a single lookup; otherwise the user is created exactly once and, when creation returned data, looked up again; a failed creation gives none; a malformed reply raises out with no further call |
| Email.MagicLinkCarriesToken | orizon/auth/email.py:153 | for a URL-safe token, the link is the verify endpoint with the query `token=<token>`, and that query reads back as the token |
| Email.Greeting | orizon/auth/email.py:155-162 | a signup email with a non-empty name greets by name; every other email says "Hi," |
| Email.LoginGreetingIsAnonymous | orizon/auth/email.py:159-162 | a login email greets everyone the same way, whatever name is passed |
| Email.LoginButtonDropsWord | orizon/auth/email.py:182 | the button label as written reads "Log to Orizon" for a login, which is not the subject, and "Complete Signup" for a signup |
| Email.SentButtonLabelIsAsWritten | orizon/auth/email.py:182 | the label on the button of every sent email, spelt out, is the label as written: the subject's first word, then "to Orizon" or "Signup" |
| Email.ButtonLabel | orizon/auth/email.py:182 | the login button repeats the login subject |
| Email.ButtonLabelCorrected | orizon/auth/email.py:182 | the corrected label equals the label as written for a signup, and differs from it only for a login |
| Email.CorrectedMailDiffersOnlyInLoginButton | orizon/auth/email.py:182 | with the corrected label a signup email is unchanged, and a login email keeps its subject, addresses and plain part while its HTML part grows by the missing word |
| Email.BodiesCarryLink | orizon/auth/email.py:164-212 | both the plain-text body and the HTML body contain the link |
| Email.Parts | orizon/auth/email.py:61-75 | the message has a plain part only for a non-empty text body, and its HTML part always comes last |
| Email.CreateMessage | orizon/auth/email.py:53-75 | the message carries the subject, `Name <address>` as sender, the recipient and those parts |
| Email.Plan | orizon/auth/email.py:98-111 | the SMTP conversation connects first, uses STARTTLS exactly when TLS is configured, logs in exactly when user and password are both non-empty, and ends with sending and QUIT |
| Email.PlanDeliveries | orizon/auth/email.py:110-114 | the mail is delivered exactly when every step up to and including the send went through; a refused QUIT still leaves it delivered |
| Email.Converse | orizon/auth/email.py:98-121 | the steps run in order up to the first refused one, and success means none was refused |
| Email.SendEmail | orizon/auth/email.py:77-121 | sending reports success exactly when no step was refused; the server sees the steps up to the refusal and accepts the mail exactly when the send step went through |
| Email.MagicLinkMessage | orizon/auth/email.py:136-212 | the magic-link email has the subject of its kind and two parts, plain then HTML, and both carry the link |
| Email.SendMagicLinkEmail | orizon/auth/email.py:136-215 | sends the magic-link email built for the token, name and kind, with the button label as written, through that conversation |
| AuthRoutes.Signup | orizon/auth/routes.py:67-121 | the account is provisioned before anything else; a provisioning exception gives the generic 500 and missing user data its own 500, both with no token written and no mail sent; otherwise a signup token is written, the link is mailed, and the answer names the user id whether or not the mail went out |
| AuthRoutes.Login | orizon/auth/routes.py:124-171 | the answer and the token store are the same whether or not the account exists; the link is mailed only to an existing account; a malformed lookup reply gives the generic 500 with no token written and no mail sent |
| AuthRoutes.VerifyToken | orizon/auth/routes.py:174-220 | an unknown, expired or used token is a 400 with no provisioning; a redeemed token is consumed and its email provisioned; a provisioning exception gives the generic 500, missing data or key their own 500, and otherwise the email and key are returned |
| AuthRoutes.VerifyTokenTwice | orizon/auth/routes.py:174-190 | a magic link works at most once: the second attempt is a 400 |
| AuthRoutes.SignupThenVerify | orizon/auth/routes.py:67-220 | with a reachable store and a provisioning gateway, the link authenticates the email that signed up if followed within 15 minutes, and gets a 400 afterwards |
| AuthMiddleware.Dispatch | orizon/auth/middleware.py:46-94 | the handler runs exactly once; skipped paths and requests without an identity email are not touched and nothing is provisioned; a provisioning exception or an empty key leaves the request as it was; only a non-empty key sets `authorization: Bearer <key>` and records the user |
| AuthMiddleware.SkippedPaths | orizon/auth/middleware.py:38-53 | examples only: the health and documentation paths, `/redoc` included, skip authentication (the general rule is `SkippedUnderEveryEntry`) |
| AuthMiddleware.ApiPathsNotSkipped | orizon/auth/middleware.py:38-53 | examples only: API calls and the account endpoints do not skip authentication |
| AuthMiddleware.SkipExtendsToLongerPaths | orizon/auth/middleware.py:52 | the skip test is a prefix test: whatever follows a skipped path is skipped too |
| AuthMiddleware.SkippedUnderEveryEntry | orizon/auth/middleware.py:38-52 | every path that begins with one of the five table entries skips authentication, e.g. `/healthz` and `/docs-internal` |
| ProxyClient.InternalKeys | orizon/proxy/client.py:176-180 | a key list can only come from the record the middleware left |
| ProxyClient.VirtualKeyFromRequest | orizon/proxy/client.py:164-189 | an internal user's first key entry wins; otherwise the session's `virtual_key` is used; otherwise there is no key |
| ProxyClient.EmptyKeysFallThrough | orizon/proxy/client.py:179-187 | an internal user with an empty key list falls through to the session's key |
| ProxyClient.NoIdentityNoKey | orizon/proxy/client.py:175-189 | without the middleware's record and without a session cookie there is no key |
| ProxyClient.ForwardedHeaders | orizon/proxy/client.py:104-108 | the outgoing headers are the incoming ones without `host`, with `authorization: Bearer <key>` and nothing else changed |
| ProxyClient.BuildHeaders | orizon/proxy/client.py:104-108 | the copy, drop and set steps build exactly those headers |
| ProxyClient.ResponseFor | orizon/proxy/client.py:124-161 | an answer keeps its status and headers and is streamed exactly when its content type is `text/event-stream` (`{}` for empty content); a timeout gives 504, another transport error 502, and anything else 500 |
| ProxyClient.FailureStatuses | orizon/proxy/client.py:144-161 | a failed gateway call always gives a JSON error with status 500, 502 or 504, and each status identifies one kind of failure |
| ProxyClient.Backend.Send | orizon/proxy/client.py:116-122 | the call is logged at the gateway and the next scripted outcome is returned |
| ProxyClient.ForwardRequest | orizon/proxy/client.py:73-161 | an unreadable POST/PUT/PATCH body gives a 400 and no call; otherwise exactly one call goes to base URL plus path, with the query unchanged, the forwarded headers and the body only for POST/PUT/PATCH, and its outcome becomes the response |
| ProxyRoutes.ProxyV1 | orizon/proxy/routes.py:18-39 | without a key the answer is 401 and the gateway sees nothing; with one, the call is forwarded to `/v1/<path>` under that key |
| ProxyRoutes.ListModels | orizon/proxy/routes.py:42-56 | the same rule, forwarded to `/models` without a body |
| ProxyRoutes.ListModelsV1 | orizon/proxy/routes.py:59-73 | the same rule, forwarded to `/v1/models` without a body |
| ProxyRoutes.AnonymousV1 | orizon/proxy/routes.py:29-35 | an anonymous call is refused with 401 and the gateway is never contacted |
| ProxyRoutes.KeyedGet | orizon/proxy/routes.py:18-39 | a keyed GET goes out as exactly one call, without a body, with the caller's key as Bearer credential and without `host` |
| Logging.NormalizeKey | orizon/logging.py:64 | a normalised key has the same length, no `-`, no space and no capital letter; every other character is lower-cased |
| Logging.HyphenatedFragment | orizon/logging.py:41 | the `x-api-key` entry never matches a normalised key, yet an `X-API-Key` field is still sensitive through `api_key` |
| Logging.Mask | orizon/logging.py:66-69 | a masked value always ends in `***` and has at most 7 characters; only a string longer than 4 keeps its first four characters |
| Logging.MaskIdempotent | orizon/logging.py:66-69 | masking a masked value changes nothing |
| Logging.Redacted | orizon/logging.py:48-77 | with redaction off or past depth 10 the data is returned as is; objects keep their keys and lists their lengths; every value under a sensitive key is masked |
| Logging.RedactIdempotent | orizon/logging.py:48-77 | redacting already-redacted data at the same depth changes nothing |
| Logging.SensitiveValueMasked | orizon/logging.py:63-69 | a value under a sensitive key never survives in the clear: at most its first four characters remain, followed by `***` |
| Logging.RedactSensitive | orizon/logging.py:48-77 | the loop-based redaction computes exactly the redacted value |
| Logging.RedactFields | orizon/logging.py:61-72 | the dictionary loop keeps every key, masks the sensitive ones and redacts the others one level deeper |
| Logging.RedactItems | orizon/logging.py:74-75 | the list pass redacts each element one level deeper, in order |
| Logging.LogScope.SetRequestId | orizon/logging.py:277-283 | sets the request id and leaves the context alone |
| Logging.LogScope.RequestId | orizon/logging.py:286-288 | reads the request id that was last set |
| Logging.LogContext.Enter | orizon/logging.py:261-265 | entering merges the fields over the current context and keeps what is needed to restore it |
| Logging.LogContext.Exit | orizon/logging.py:267-269 | exiting restores exactly the context from before entering; exiting without having entered does nothing; a second exit is refused |
| Logging.Nested | orizon/logging.py:247-274 | nested contexts behave as a stack: the inner fields win inside both, and leaving each one restores what was there before it |
| Security.CspEntries | orizon/security.py:67-70 | at most one entry per directive; when every directive has a value, exactly one `directive value` entry per directive, in table order |
| Security.CspEntriesInOrder | orizon/security.py:67-70 | whatever values are empty, the entries are `directive value` for the directives with a value, one each and in table order: the j-th entry comes from the j-th such directive |
| Security.KeptHaveValues | orizon/security.py:69 | the positions the policy keeps all have a non-empty value |
| Security.KeptIncreasing | orizon/security.py:67-70 | the kept positions are in increasing table order, each once |
| Security.KeptComplete | orizon/security.py:69 | every directive with a non-empty value is kept |
| Security.CspEntriesFromTable | orizon/security.py:67-70 | an entry is in the policy exactly when it comes from a directive with a non-empty value |
| Security.BuildCspHeader | orizon/security.py:54-72 | a relaxed request gets the fixed lock-down policy; a strict one gets the entries joined by `; ` |
| Security.DefaultCsp | orizon/security.py:33-44 | example: the default table yields all ten directives, from `default-src 'self'` to `object-src 'none'` |
| Security.GetSecurityHeaders | orizon/security.py:75-129 | disabled means no headers; enabled means CSP (relaxed exactly on API paths) and the five fixed headers; HSTS is set exactly when it is enabled and the request is HTTPS, and no other header appears |
| Security.PolicyByPath | orizon/security.py:47-51 | examples only (the general rule is `RelaxedUnderEveryPrefix`): `/v1/…`, `/health` and `/metrics` get the relaxed policy; `/` and `/v1` without a slash get the strict one |
| Security.ApiPathExtends | orizon/security.py:47-51 | the relaxed-path test is a prefix test: whatever follows an API path keeps it one |
| Security.RelaxedUnderEveryPrefix | orizon/security.py:47-51 | every path under `/v1/`, `/health` or `/metrics` gets the relaxed policy, whatever the scheme |
| Security.NamesDistinctWhenLowered | orizon/security.py:161-162 | different security header names stay different after lower-casing, so writing one never overwrites another |
| Security.IsHttps | orizon/security.py:149-152 | a request is HTTPS when its scheme is https or the proxy says so in X-Forwarded-Proto |
| Security.Dispatch | orizon/security.py:140-164 | every security header is written into the response, and the handler's other headers, status and cookies are kept |
| Security.WriteHeaders | orizon/security.py:160-162 | the header loop writes each value under its lower-case name and nothing else |
| Secrets.KeyVaultName | orizon/secrets.py:38-48 | a vault name has the same length, no capitals and no `_`: each `_` becomes `-` and every other character is lower-cased |
| Secrets.KeyVaultNameExamples | orizon/secrets.py:43-46 | the docstring's examples: `REDIS_PASSWORD` becomes `redis-password` and `DATABASE_URL` becomes `database-url` |
| Secrets.KeyVaultNameIdempotent | orizon/secrets.py:38-48 | a name already in vault form converts to itself |
| Secrets.VaultValue | orizon/secrets.py:125-150 | the vault yields a value exactly when there is a client and the converted name holds a secret |
| Secrets.GetSecret | orizon/secrets.py:85-122 | the vault value wins when the vault is enabled and allowed; otherwise the environment; otherwise the default |
| Secrets.SecretSource | orizon/secrets.py:100-122 | the answer always comes from one of the three sources, and with the vault off or not allowed it is the environment-or-default lookup |
| Secrets.StandardSecretsDistinct | orizon/secrets.py:249-256 | no standard secret is listed twice |
| Secrets.LoadSecretsToEnv | orizon/secrets.py:235-272 | with the vault off the answer is empty and nothing changes; otherwise each standard secret is reported, true exactly when it was missing and the vault had a non-empty value; those are copied, no existing variable is overwritten, and nothing else is added |
| Secrets.LoadEach | orizon/secrets.py:258-270 | the loop reports every name, copies exactly the names it reports true, and never overwrites a variable |

## Left out

- Partial store failure is not modelled. The store is either reachable for a whole operation or
  failing for all of it: HSET succeeding and the following EXPIRE raising is not represented.
- The random token and state values (`secrets.token_urlsafe`), the ISO creation timestamps and
  SHA-256 are parameters. Their entropy and format are not modelled.
- Concurrency is not modelled. Operations run one at a time. In the code, reading and deleting a
  token are two commands, and concurrent redemptions of one token could both succeed.
- `get_or_create_user_key`, which the middleware and the account endpoints import from
  `orizon/auth/utils.py`, is not defined there. It is not part of this model; it is the scripted
  collaborator `AuthUtils.Gateway.ProvisionUserKey`.
- AuthRoutes.Login, AuthUtils.UserFrom and Json.Get: only `get_user` and `create_user` turn a
  malformed 200 reply into an exception, as the code does; `login` answers that with its generic
  500. Elsewhere `Json.Get` reads a missing field of a non-object as `null`. So for the GitHub calls
  (`OAuth.CompleteGithubAuth`, `OAuth.GetGithubPrimaryEmail`) a 200 reply that is not JSON, or not
  of the shape read, counts as "no identity" or "no email", where the code raises out of
  `complete_github_auth`.
- Sessions.CreateSession: `SESSION_EXPIRY_HOURS` is read from the environment with `int()` at
  import. The model takes the resulting number as `expiryHours` (24 by default); a setting that is
  not an integer, which fails at import, is not modelled.
- ProxyClient.ForwardRequest: the streamed bytes, the connection pool and the 300-second timeout
  are not modelled. `get_http_client` and `close_http_client` are left out. The `{virtual_key[:10]}`
  log line is left out too, so a non-string key, which makes that slice raise, is not modelled.
- ProxyClient.VirtualKeyFromRequest: the recorded user data is read as JSON. A `None` record or a
  non-list `keys` value, where the code raises or indexes differently, counts here as "no keys".
  The key is passed on as its text (`Json.Str`).
- Redis connection set-up and closing (`get_redis`, `close_redis`, `get_redis_client`) are left out.
  So are metrics recording and every log line.
- Logging: the JSON and text formatters, `setup_logging`, `get_logger`, `OrizonLogger` and
  `TimedOperation` are left out. They format output and read the clock. Neither formatter reads
  `LogContext`'s context variable (only the request id and a record's own extra fields), so the
  fields a `LogContext` sets never reach a log line, although its docstring
  (`orizon/logging.py:248-253`) says they do. The model has only the context variable itself.
- ProxyRoutes.ListModelsV1: request routing is not modelled. In `orizon/proxy/routes.py` the
  catch-all `/v1/{path:path}` route (lines 18-21, GET included) is registered before `/v1/models`
  (line 59). Going by the framework's first-match routing, a GET of `/v1/models` reaches
  `proxy_v1_endpoint`, which forwards it to the same `/v1/models` target but refuses an anonymous
  caller with the longer 401 text. So `list_models_v1` appears unreachable. The model keeps the
  handler as written.
- Logging.RedactSensitive: keys are strings (JSON objects). Redaction's handling of non-string keys
  is not modelled.
- Logging.LogContext.Exit: a context variable reset from a different context, which the runtime
  refuses, is not represented. The model has one context per flow.
- `NormalizeKey`, `KeyVaultName` and `Lower` lower-case ASCII letters only; Python's full Unicode
  `lower()` is not modelled.
- UrlEncoding.QuotePlusRoundTrip and OAuth.AuthorizeUrlCarriesState: the round trip is proved for
  ASCII text only. Encoding is defined for all characters, but decoding reads back single bytes.
- Dictionary order is not modelled. Objects and headers are maps; only the CSP table keeps its order.
- Secrets: the Key Vault client is a map of names to values, or none when no client can be made.
  Every retrieval error reads as "absent", as in the code. `get_secret_sync` decides the same way as
  `get_secret` and shares `Secrets.GetSecret`.
- Security: `setup_security_middleware` only registers the middleware with the application. It is
  left out.
- Email: the HTML styling is left out; `Email.HtmlBody` keeps the text and the links. `get_email_service`
  is a singleton accessor and is represented by passing `SmtpConfig`. SMTP and other exceptions are
  both refusals of a step.
- Email.FirstWord: a blank subject, where `split()[0]` raises, gives the empty word. The subjects
  the code uses are never blank.

## Findings

| source | as written | input that shows it | evidently intended | confidence | as-written member | corrected member |
|---|---|---|---|---|---|---|
| orizon/auth/email.py:182 | the button label is the subject's first word followed by "to Orizon"; the mail sent (`Email.MagicLinkEnvelope`, `Email.SendMagicLinkEmail`) carries this label, spelt out as `Email.SentButtonLabel` | any login email: `subject.split()[0]` of "Log in to Orizon" is "Log", so the button reads "Log to Orizon" | the login button reads "Log in to Orizon" (`Email.CorrectedMagicLinkEnvelope`) | not executed | Email.LoginButtonDropsWord | Email.ButtonLabelCorrected |
