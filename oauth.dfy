/** GitHub sign-in with the authorization-code grant (section 4.1 of RFC 6749):
    the single-use `state` value that ties the callback to the request
    (section 10.12 of RFC 6749), the authorization URL, and the choice of the
    user's identity from GitHub's replies. */
module OAuth {
  import opened Outcomes
  import opened Text
  import opened Json
  import opened Http
  import opened KvStore
  import opened UrlEncoding

  const OAuthStatePrefix := "orizon:oauth_state:"
  /** The state's lifetime in seconds: 10 minutes. */
  const OAuthStateExpirySeconds := 600
  const GithubAuthorizeUrl := "https://github.com/login/oauth/authorize"
  /** The redirect URI used when the deployment does not configure one. */
  const DefaultRedirectUri := "http://localhost:4010/api/auth/github/callback"

  function StateKey(state: string): string {
    OAuthStatePrefix + state
  }

  /** `store_oauth_state`: SETEX of "1" for 600 seconds; false when the store fails. */
  method StoreOAuthState(store: Store, state: string) returns (stored: bool)
    modifies store
    ensures store.now == old(store.now) && store.failing == old(store.failing)
    ensures stored <==> !old(store.failing)
    ensures stored ==> store.data == old(store.data)[StateKey(state) := Entry(Text("1"), Some(store.now + OAuthStateExpirySeconds))]
    ensures !stored ==> store.data == old(store.data)
  {
    var r := store.SetEx(StateKey(state), OAuthStateExpirySeconds, "1");
    stored := r.Answer?;
  }

  /** `verify_oauth_state`: deletes the state; valid exactly when it was there. */
  method VerifyOAuthState(store: Store, state: string) returns (valid: bool)
    modifies store
    ensures store.now == old(store.now) && store.failing == old(store.failing)
    ensures valid <==> !old(store.failing) && old(store.Live(StateKey(state)))
    ensures old(store.failing) ==> store.data == old(store.data)
    ensures !old(store.failing) ==> store.data == old(store.data) - {StateKey(state)}
  {
    var r := store.Delete(StateKey(state));
    valid := r.Answer? && r.value > 0;
  }

  /** A stored state verifies once, if the callback comes within 600 seconds,
      and never again. */
  method StateRoundTrip(store: Store, state: string, wait: nat) returns (first: bool, second: bool)
    requires !store.failing
    modifies store
    ensures first <==> wait < OAuthStateExpirySeconds
    ensures !second
  {
    var _ := StoreOAuthState(store, state);
    store.Tick(wait);
    first := VerifyOAuthState(store, state);
    second := VerifyOAuthState(store, state);
  }

  /** `GITHUB_CLIENT_ID` and `GITHUB_REDIRECT_URI` as configured. */
  datatype GithubConfig = GithubConfig(clientId: string, redirectUri: string)

  /** The query parameters of the authorization request (section 4.1.1 of RFC 6749), in order. */
  function AuthorizeParams(config: GithubConfig, state: string): seq<(string, string)> {
    [("client_id", config.clientId), ("redirect_uri", config.redirectUri), ("scope", "user:email"), ("state", state)]
  }

  /** `get_github_authorize_url` */
  function AuthorizeUrl(config: GithubConfig, state: string): (url: string)
    ensures StartsWith(url, GithubAuthorizeUrl + "?")
  {
    GithubAuthorizeUrl + "?" + Urlencode(AuthorizeParams(config, state))
  }

  /** The authorization URL's query reads back as exactly the four parameters,
      in order, with the state unchanged (for ASCII configuration and state). */
  lemma AuthorizeUrlCarriesState(config: GithubConfig, state: string)
    requires Ascii(config.clientId) && Ascii(config.redirectUri) && Ascii(state)
    ensures var url := AuthorizeUrl(config, state);
      ParseQuery(url[|GithubAuthorizeUrl| + 1..]) == AuthorizeParams(config, state)
  {
    var params := AuthorizeParams(config, state);
    ParamsAscii(config, state);
    ParseUrlencode(params);
    var prefix := GithubAuthorizeUrl + "?";
    assert |prefix| == |GithubAuthorizeUrl| + 1;
    assert (prefix + Urlencode(params))[|prefix|..] == Urlencode(params);
  }

  lemma ParamsAscii(config: GithubConfig, state: string)
    requires Ascii(config.clientId) && Ascii(config.redirectUri) && Ascii(state)
    ensures var params := AuthorizeParams(config, state);
      forall i :: 0 <= i < |params| ==> Ascii(params[i].0) && Ascii(params[i].1)
  {
    assert Ascii("client_id");
    assert Ascii("redirect_uri");
    assert Ascii("scope");
    assert Ascii("user:email");
    assert Ascii("state");
  }

  /** `exchange_code_for_token` over the token endpoint's reply: the
      `access_token` of a 200 reply when it is non-empty. */
  function ExchangeCodeForToken(reply: ApiReply): (r: Option<Json>)
    ensures r.Some? ==> Truthy(r.value)
    ensures r.Some? <==> reply.ApiReply? && reply.status == 200 && Truthy(Get(reply.body, "access_token"))
    ensures r.Some? ==> r.value == Get(reply.body, "access_token")
  {
    if reply.ApiReply? && reply.status == 200 && Truthy(Get(reply.body, "access_token"))
    then Some(Get(reply.body, "access_token")) else None
  }

  /** `get_github_user` over the user endpoint's reply: the body of a 200 reply. */
  function GetGithubUser(reply: ApiReply): (r: Option<Json>)
    ensures r.Some? <==> reply.ApiReply? && reply.status == 200
    ensures r.Some? ==> r.value == reply.body
  {
    if reply.ApiReply? && reply.status == 200 then Some(reply.body) else None
  }

  /** Only a 200 reply yields a token or a profile: any other status, or a
      request that failed, gives none whatever the body says. */
  lemma GithubRepliesOnlyOn200(reply: ApiReply)
    requires reply.RequestError? || reply.status != 200
    ensures ExchangeCodeForToken(reply) == None
    ensures GetGithubUser(reply) == None
  {
  }

  /** The entries of the email list (a body that is not a list has none here). */
  function Items(body: Json): seq<Json> {
    if body.Array? then body.items else []
  }

  predicate IsVerified(entry: Json) {
    Truthy(Get(entry, "verified"))
  }

  predicate IsPrimaryVerified(entry: Json) {
    Truthy(Get(entry, "primary")) && IsVerified(entry)
  }

  /** The index of the first primary and verified entry, `|items|` when there is none. */
  function FirstPrimaryVerified(items: seq<Json>): (k: nat)
    ensures k <= |items|
    ensures k < |items| ==> IsPrimaryVerified(items[k])
    ensures forall j :: 0 <= j < k ==> !IsPrimaryVerified(items[j])
  {
    if items == [] then 0
    else if IsPrimaryVerified(items[0]) then 0
    else 1 + FirstPrimaryVerified(items[1..])
  }

  /** The index of the first verified entry, `|items|` when there is none. */
  function FirstVerified(items: seq<Json>): (k: nat)
    ensures k <= |items|
    ensures k < |items| ==> IsVerified(items[k])
    ensures forall j :: 0 <= j < k ==> !IsVerified(items[j])
  {
    if items == [] then 0
    else if IsVerified(items[0]) then 0
    else 1 + FirstVerified(items[1..])
  }

  /** The address the email endpoint's reply yields (`Null` for none). */
  function PrimaryEmail(reply: ApiReply): Json {
    if !(reply.ApiReply? && reply.status == 200) then Null
    else
      var items := Items(reply.body);
      var p := FirstPrimaryVerified(items);
      var v := FirstVerified(items);
      if p < |items| then Get(items[p], "email")
      else if v < |items| then Get(items[v], "email")
      else Null
  }

  /** `get_github_primary_email`: the first primary and verified entry's
      address; failing that, the first verified entry's; otherwise none. Any
      status other than 200 gives none. */
  method GetGithubPrimaryEmail(reply: ApiReply) returns (email: Json)
    ensures email == PrimaryEmail(reply)
    ensures !(reply.ApiReply? && reply.status == 200) ==> email == Null
    ensures reply.ApiReply? && reply.status == 200 ==>
      var items := Items(reply.body);
      && ((exists i :: 0 <= i < |items| && IsPrimaryVerified(items[i])) ==>
            exists i :: 0 <= i < |items| && IsPrimaryVerified(items[i]) && email == Get(items[i], "email")
                        && forall j :: 0 <= j < i ==> !IsPrimaryVerified(items[j]))
      && ((forall i :: 0 <= i < |items| ==> !IsPrimaryVerified(items[i])) && (exists i :: 0 <= i < |items| && IsVerified(items[i])) ==>
            exists i :: 0 <= i < |items| && IsVerified(items[i]) && email == Get(items[i], "email")
                        && forall j :: 0 <= j < i ==> !IsVerified(items[j]))
      && ((forall i :: 0 <= i < |items| ==> !IsVerified(items[i])) ==> email == Null)
  {
    if !(reply.ApiReply? && reply.status == 200) {
      return Null;
    }
    var items := Items(reply.body);
    var i := 0;
    while i < |items|
      invariant 0 <= i <= |items|
      invariant forall j :: 0 <= j < i ==> !IsPrimaryVerified(items[j])
    {
      if IsPrimaryVerified(items[i]) {
        return Get(items[i], "email");
      }
      i := i + 1;
    }
    i := 0;
    while i < |items|
      invariant 0 <= i <= |items|
      invariant forall j :: 0 <= j < i ==> !IsVerified(items[j])
    {
      if IsVerified(items[i]) {
        return Get(items[i], "email");
      }
      i := i + 1;
    }
    email := Null;
  }

  /** What `complete_github_auth` returns on success. */
  datatype GithubIdentity = GithubIdentity(email: Json, name: Json, githubId: string, githubLogin: Json, avatarUrl: Json)

  /** The profile's email when it has one, otherwise the email list's choice. */
  function ChosenEmail(profile: Json, emailsReply: ApiReply): Json {
    Or(Get(profile, "email"), PrimaryEmail(emailsReply))
  }

  /** `complete_github_auth` over the replies of the token, user and email
      endpoints, in the order the flow asks them. */
  function CompleteGithubAuth(tokenReply: ApiReply, userReply: ApiReply, emailsReply: ApiReply): (r: Option<GithubIdentity>)
    ensures r.Some? <==>
      && ExchangeCodeForToken(tokenReply).Some?
      && GetGithubUser(userReply).Some? && Truthy(GetGithubUser(userReply).value)
      && Truthy(ChosenEmail(GetGithubUser(userReply).value, emailsReply))
    ensures r.Some? ==>
      var profile := GetGithubUser(userReply).value;
      && Truthy(r.value.email)
      && (Truthy(Get(profile, "email")) ==> r.value.email == Get(profile, "email"))
      && (!Truthy(Get(profile, "email")) ==> r.value.email == PrimaryEmail(emailsReply))
      && (Truthy(Get(profile, "name")) ==> r.value.name == Get(profile, "name"))
      && (!Truthy(Get(profile, "name")) ==> r.value.name == Get(profile, "login"))
      && r.value.githubId == Str(Get(profile, "id"))
      && r.value.githubLogin == Get(profile, "login")
      && r.value.avatarUrl == Get(profile, "avatar_url")
  {
    var token := ExchangeCodeForToken(tokenReply);
    var user := GetGithubUser(userReply);
    if token.None? || user.None? || !Truthy(user.value) then None
    else
      var profile := user.value;
      var email := ChosenEmail(profile, emailsReply);
      if !Truthy(email) then None
      else Some(GithubIdentity(email, Or(Get(profile, "name"), Get(profile, "login")), Str(Get(profile, "id")),
                               Get(profile, "login"), Get(profile, "avatar_url")))
  }

  /** The email list is consulted only when the profile has no email: with
      one, the email endpoint's reply makes no difference. */
  lemma EmailListOnlyWhenNeeded(tokenReply: ApiReply, userReply: ApiReply, emails1: ApiReply, emails2: ApiReply)
    requires GetGithubUser(userReply).Some? && Truthy(Get(GetGithubUser(userReply).value, "email"))
    ensures CompleteGithubAuth(tokenReply, userReply, emails1) == CompleteGithubAuth(tokenReply, userReply, emails2)
  {
  }

  /** Without an access token nothing else matters: the flow fails. */
  lemma NoTokenNoIdentity(tokenReply: ApiReply, userReply: ApiReply, emailsReply: ApiReply)
    requires !(tokenReply.ApiReply? && tokenReply.status == 200)
    ensures CompleteGithubAuth(tokenReply, userReply, emailsReply) == None
  {
  }
}
