/** The account resolver: identity headers set by the authenticating proxy in
    front of the service, the deterministic account id derived from an email,
    and the get-or-create conversation with the LLM gateway's user API. */
module AuthUtils {
  import opened Outcomes
  import opened Text
  import opened Json
  import opened Http

  /** Python's `a or b` on optional strings: `a` when it is non-empty, otherwise `b`. */
  function FirstPresent(a: Option<string>, b: Option<string>): (r: Option<string>)
    ensures Present(a) ==> r == a
    ensures !Present(a) ==> r == b
    ensures Present(r) <==> Present(a) || Present(b)
  {
    if Present(a) then a else b
  }

  /** `get_user_email`: X-Auth-Request-Email when non-empty, otherwise X-Email. */
  function GetUserEmail(headers: map<string, string>): (e: Option<string>)
    ensures Present(Header(headers, "x-auth-request-email")) ==> e == Header(headers, "x-auth-request-email")
    ensures !Present(Header(headers, "x-auth-request-email")) ==> e == Header(headers, "x-email")
    ensures Present(e) <==> Present(Header(headers, "x-auth-request-email")) || Present(Header(headers, "x-email"))
  {
    FirstPresent(Header(headers, "x-auth-request-email"), Header(headers, "x-email"))
  }

  /** `get_user_name`: X-Auth-Request-User when non-empty, otherwise X-User. */
  function GetUserName(headers: map<string, string>): (n: Option<string>)
    ensures Present(Header(headers, "x-auth-request-user")) ==> n == Header(headers, "x-auth-request-user")
    ensures !Present(Header(headers, "x-auth-request-user")) ==> n == Header(headers, "x-user")
    ensures Present(n) <==> Present(Header(headers, "x-auth-request-user")) || Present(Header(headers, "x-user"))
  {
    FirstPresent(Header(headers, "x-auth-request-user"), Header(headers, "x-user"))
  }

  /** The proxy's header wins whenever it is non-empty; the short form is
      read only in its absence, and an identity is found exactly when one of
      the two carries a value. */
  lemma IdentityHeaderPrecedence(headers: map<string, string>, shortEmail: string, shortUser: string)
    requires Present(Header(headers, "x-auth-request-email")) && Present(Header(headers, "x-auth-request-user"))
    ensures GetUserEmail(headers["x-email" := shortEmail]) == Some(headers["x-auth-request-email"])
    ensures GetUserName(headers["x-user" := shortUser]) == Some(headers["x-auth-request-user"])
  {
    assert Header(headers["x-email" := shortEmail], "x-auth-request-email") == Header(headers, "x-auth-request-email");
    assert Header(headers["x-user" := shortUser], "x-auth-request-user") == Header(headers, "x-auth-request-user");
  }

  /** The four fields `get_auth_headers` returns. */
  datatype AuthHeaders = AuthHeaders(email: Option<string>, user: Option<string>,
                                     groups: Option<string>, accessToken: Option<string>)

  /** `get_auth_headers`: a missing header maps to none. */
  function GetAuthHeaders(headers: map<string, string>): (a: AuthHeaders)
    ensures a.email == GetUserEmail(headers) && a.user == GetUserName(headers)
    ensures a.groups.Some? <==> "x-auth-request-groups" in headers
    ensures a.groups.Some? ==> a.groups.value == headers["x-auth-request-groups"]
    ensures a.accessToken.Some? <==> "x-auth-request-access-token" in headers
    ensures a.accessToken.Some? ==> a.accessToken.value == headers["x-auth-request-access-token"]
  {
    AuthHeaders(GetUserEmail(headers), GetUserName(headers),
                Header(headers, "x-auth-request-groups"), Header(headers, "x-auth-request-access-token"))
  }

  /** A SHA-256 digest (FIPS 180-4): 32 bytes. */
  type Digest = d: seq<bv8> | |d| == 32 witness seq(32, _ => 0 as bv8)

  const UserIdPrefix := "orizon-"

  /** `generate_user_id`: "orizon-" and the first 12 hexadecimal digits of the
      SHA-256 of the lower-cased email. The hash function is a parameter. */
  function GenerateUserId(sha256: string -> Digest, email: string): (id: string)
    ensures |id| == 19 && StartsWith(id, UserIdPrefix)
    ensures forall i :: 7 <= i < 19 ==> IsLowerHex(id[i])
  {
    var digest := HexOf(sha256(Lower(email)));
    UserIdPrefix + digest[..12]
  }

  lemma {:induction false} LowerIdempotent(s: string)
    ensures Lower(Lower(s)) == Lower(s)
  {
    forall i | 0 <= i < |s| ensures Lower(Lower(s))[i] == Lower(s)[i] {
      assert Lower(s)[i] == LowerChar(s[i]);
    }
  }

  /** The id ignores the case of the email: two addresses that agree after
      lower-casing get the same id, and so does an address and its lower-cased form. */
  lemma UserIdIgnoresCase(sha256: string -> Digest, a: string, b: string)
    requires Lower(a) == Lower(b)
    ensures GenerateUserId(sha256, a) == GenerateUserId(sha256, b)
    ensures GenerateUserId(sha256, a) == GenerateUserId(sha256, Lower(a))
  {
    LowerIdempotent(a);
  }

  /** The exception a 200 reply raises when its body is not what the caller
      reads from it: `response.json()` on a body that is not JSON, or `.get`
      on JSON that is not an object. Only `httpx.RequestError` is caught
      where the gateway is called, so this one reaches the caller. */
  datatype Fault = MalformedReply

  /** `get_user` over the gateway's reply: the body of a 200 reply whose
      `user_info` is non-empty; a 404, any other status or a transport error
      gives none; a 200 reply that is not a JSON object raises. */
  function UserFrom(reply: ApiReply): (u: Result<Option<Json>, Fault>)
    ensures u.Err? <==> !reply.RequestError? && reply.status == 200 && !(reply.ApiReply? && reply.body.Object?)
    ensures u.Ok? && u.value.Some? <==>
      reply.ApiReply? && reply.status == 200 && reply.body.Object? && Truthy(Get(reply.body, "user_info"))
    ensures u.Ok? && u.value.Some? ==> u.value.value == reply.body && Truthy(reply.body)
    ensures reply.RequestError? || reply.status != 200 ==> u == Ok(None)
  {
    if reply.RequestError? || reply.status != 200 then Ok(None)
    else if reply.Unparsable? || !reply.body.Object? then Err(MalformedReply)
    else if Truthy(Get(reply.body, "user_info")) then Ok(Some(reply.body))
    else Ok(None)
  }

  /** `create_user` over the gateway's reply: the body of a 200 reply, none
      for another status or a transport error; a 200 reply whose body is not
      JSON raises. */
  function CreatedFrom(reply: ApiReply): (c: Result<Option<Json>, Fault>)
    ensures c.Err? <==> reply.Unparsable? && reply.status == 200
    ensures c.Ok? && c.value.Some? <==> reply.ApiReply? && reply.status == 200
    ensures c.Ok? && c.value.Some? ==> c.value.value == reply.body
  {
    if reply.RequestError? || reply.status != 200 then Ok(None)
    else if reply.Unparsable? then Err(MalformedReply)
    else Ok(Some(reply.body))
  }

  /** A call the service makes on the gateway. */
  datatype Call =
    | GetUserCall(userId: string)
    | CreateUserCall(email: string, userId: string)
    | ProvisionCall(email: string)

  /** The outcome of the gateway-side `get_or_create_user_key` collaborator:
      the user data and the virtual key, or an exception. */
  datatype Provision = Provisioned(userData: Json, key: Json) | ProvisionRaises

  /** The outcome of the next provisioning call of a script; once the script
      runs out the collaborator raises. */
  function NextProvision(provisions: seq<Provision>): Provision {
    if provisions == [] then ProvisionRaises else provisions[0]
  }

  /** The `i`-th reply of a script; once the script runs out the gateway is unreachable. */
  function ReplyAt(replies: seq<ApiReply>, i: nat): ApiReply {
    if i < |replies| then replies[i] else RequestError
  }

  function Drop<T>(s: seq<T>, n: nat): seq<T> {
    if n <= |s| then s[n..] else []
  }

  /** The LLM gateway as the service sees it: the replies it will give to
      successive user-API calls, the outcomes of successive provisioning
      calls, and the log of calls made so far. */
  class Gateway {
    var replies: seq<ApiReply>
    var provisions: seq<Provision>
    var calls: seq<Call>

    constructor (replies: seq<ApiReply>, provisions: seq<Provision>)
      ensures this.replies == replies && this.provisions == provisions && calls == []
    {
      this.replies, this.provisions, calls := replies, provisions, [];
    }

    /** `get_user(user_id)` */
    method GetUser(userId: string) returns (u: Result<Option<Json>, Fault>)
      modifies this
      ensures u == UserFrom(ReplyAt(old(replies), 0))
      ensures replies == Drop(old(replies), 1) && provisions == old(provisions)
      ensures calls == old(calls) + [GetUserCall(userId)]
    {
      u := UserFrom(ReplyAt(replies, 0));
      replies := Drop(replies, 1);
      calls := calls + [GetUserCall(userId)];
    }

    /** `create_user(email, user_id)` */
    method CreateUser(email: string, userId: string) returns (c: Result<Option<Json>, Fault>)
      modifies this
      ensures c == CreatedFrom(ReplyAt(old(replies), 0))
      ensures replies == Drop(old(replies), 1) && provisions == old(provisions)
      ensures calls == old(calls) + [CreateUserCall(email, userId)]
    {
      c := CreatedFrom(ReplyAt(replies, 0));
      replies := Drop(replies, 1);
      calls := calls + [CreateUserCall(email, userId)];
    }

    /** `get_or_create_user_key(email)`: the next scripted outcome (an
        exception once the script runs out). */
    method ProvisionUserKey(email: string) returns (p: Provision)
      modifies this
      ensures p == NextProvision(old(provisions))
      ensures provisions == Drop(old(provisions), 1) && replies == old(replies)
      ensures calls == old(calls) + [ProvisionCall(email)]
    {
      p := NextProvision(provisions);
      provisions := Drop(provisions, 1);
      calls := calls + [ProvisionCall(email)];
    }
  }

  /** `get_or_create_user`: an existing user is returned after one lookup and
      no create; otherwise the user is created exactly once and, when the
      creation answered with data, looked up again; a failed create gives
      none. A malformed reply at any step raises out of it, and no further
      call is made. */
  method GetOrCreateUser(gateway: Gateway, sha256: string -> Digest, email: string)
    returns (u: Result<Option<Json>, Fault>)
    modifies gateway
    ensures gateway.provisions == old(gateway.provisions)
    ensures var id := GenerateUserId(sha256, email);
      var rs := old(gateway.replies);
      var found := UserFrom(ReplyAt(rs, 0));
      var created := CreatedFrom(ReplyAt(rs, 1));
      if found.Err? || (found.value.Some? && Truthy(found.value.value)) then
        && u == found
        && gateway.calls == old(gateway.calls) + [GetUserCall(id)]
        && gateway.replies == Drop(rs, 1)
      else if created.Err? || created.value.None? || !Truthy(created.value.value) then
        && u == (if created.Err? then Err(MalformedReply) else Ok(None))
        && gateway.calls == old(gateway.calls) + [GetUserCall(id), CreateUserCall(email, id)]
        && gateway.replies == Drop(rs, 2)
      else
        && u == UserFrom(ReplyAt(rs, 2))
        && gateway.calls == old(gateway.calls) + [GetUserCall(id), CreateUserCall(email, id), GetUserCall(id)]
        && gateway.replies == Drop(rs, 3)
  {
    var id := GenerateUserId(sha256, email);
    var found := gateway.GetUser(id);
    if found.Err? || (found.value.Some? && Truthy(found.value.value)) {
      return found;
    }
    var created := gateway.CreateUser(email, id);
    if created.Err? {
      return Err(MalformedReply);
    }
    if created.value.Some? && Truthy(created.value.value) {
      u := gateway.GetUser(id);
      return;
    }
    u := Ok(None);
  }
}
