/** The account endpoints: signup (provision the account, issue a signup
    link), login (issue a login link without revealing whether the account
    exists) and verify (redeem a link for the account's virtual key). The
    gateway, the key-value store and the mail server are the collaborators;
    the random token and the creation time are passed in. */
module AuthRoutes {
  import opened Outcomes
  import opened Json
  import opened Http
  import opened KvStore
  import opened Tokens
  import opened AuthUtils
  import opened Email

  /** The body of a signup or login answer. */
  datatype AuthResponse = AuthResponse(success: bool, message: string, userId: Option<string>)

  /** The body of a verify answer. */
  datatype TokenVerifyResponse = TokenVerifyResponse(success: bool, email: Option<string>,
                                                     virtualKey: Option<Json>, message: string)

  const CheckEmailMessage := "Check your email for the magic link"

  /** `signup`: provisions the account first; only then issues a signup token
      (with the name and company) and mails the link. The answer does not
      depend on whether the mail went out. A provisioning exception becomes a
      generic 500, missing user data a 500 of its own, and in both cases no
      token is written and no mail is sent. */
  method Signup(store: Store, gateway: Gateway, server: SmtpServer, config: SmtpConfig, appUrl: string,
                sha256: string -> Digest, token: string, createdAt: string,
                email: string, name: string, company: Option<string>)
    returns (r: Result<AuthResponse, HttpException>)
    modifies store, gateway, server
    ensures store.now == old(store.now) && store.failing == old(store.failing)
    ensures gateway.calls == old(gateway.calls) + [ProvisionCall(email)]
    ensures gateway.replies == old(gateway.replies) && gateway.provisions == Drop(old(gateway.provisions), 1)
    ensures var p := NextProvision(old(gateway.provisions));
      if p.ProvisionRaises? || !Truthy(p.userData) then
        && r == Err(Failure(500, if p.ProvisionRaises? then "Signup failed. Please try again."
                                 else "Failed to create user account"))
        && store.data == old(store.data)
      else
        && r == Ok(AuthResponse(true, CheckEmailMessage, Some(GenerateUserId(sha256, email))))
        && store.data == AfterIssue(old(store.failing), old(store.data), store.now, token,
                                    TokenRecord(email, createdAt, Some(name), company, true))
    ensures var p := NextProvision(old(gateway.provisions));
      p.Provisioned? && Truthy(p.userData) && !old(store.failing) && !old(store.Live(TokenKey(token))) ==>
        store.data == old(store.data)[TokenKey(token) := Entry(Hash(TokenRecord(email, createdAt, Some(name), company, true)),
                                                                Some(store.now + TokenTtl))]
    ensures var p := NextProvision(old(gateway.provisions));
      if p.ProvisionRaises? || !Truthy(p.userData) then
        server.transcript == old(server.transcript) && server.delivered == old(server.delivered)
      else
        var a := AttemptOf(config, MagicLinkEnvelope(config, appUrl, email, token, Some(name), true), server.refuses);
        && server.transcript == old(server.transcript) + a.transcript
        && server.delivered == old(server.delivered) + a.delivered
  {
    var userId := GenerateUserId(sha256, email);
    var p := gateway.ProvisionUserKey(email);
    if p.ProvisionRaises? {
      return Err(Failure(500, "Signup failed. Please try again."));
    }
    if !Truthy(p.userData) {
      return Err(Failure(500, "Failed to create user account"));
    }
    IssueAndMail(store, server, config, appUrl, token, createdAt, email, Some(name), company, true);
    r := Ok(AuthResponse(true, CheckEmailMessage, Some(userId)));
  }

  /** The tail of `signup` once the account exists: store the token, then
      mail its link. */
  method IssueAndMail(store: Store, server: SmtpServer, config: SmtpConfig, appUrl: string,
                      token: string, createdAt: string, email: string, name: Option<string>,
                      company: Option<string>, isSignup: bool)
    modifies store, server
    ensures store.now == old(store.now) && store.failing == old(store.failing)
    ensures store.data == AfterIssue(old(store.failing), old(store.data), store.now, token,
                                     TokenRecord(email, createdAt, name, company, isSignup))
    ensures !old(store.failing) && !old(store.Live(TokenKey(token))) ==>
      store.data == old(store.data)[TokenKey(token) := Entry(Hash(TokenRecord(email, createdAt, name, company, isSignup)),
                                                              Some(store.now + TokenTtl))]
    ensures var a := AttemptOf(config, MagicLinkEnvelope(config, appUrl, email, token, name, isSignup), server.refuses);
      && server.transcript == old(server.transcript) + a.transcript
      && server.delivered == old(server.delivered) + a.delivered
  {
    var record := TokenRecord(email, createdAt, name, company, isSignup);
    if !store.Live(TokenKey(token)) {
      IssueFresh(store.data, store.now, token, record);
    }
    var t := CreateMagicLinkToken(store, token, createdAt, email, name, company, isSignup);
    var _ := SendMagicLinkEmail(config, appUrl, server, email, t, name, isSignup);
  }

  /** `login`: looks the account up, always issues a login token, and mails
      the link only when the account exists. The answer and the token store
      come out the same whether or not the account exists; only the mail
      server can tell the two apart. The lookup is the one step that can
      raise (a malformed gateway reply); the handler turns that into its
      generic 500 before any token is written or mail is sent. */
  method Login(store: Store, gateway: Gateway, server: SmtpServer, config: SmtpConfig, appUrl: string,
               sha256: string -> Digest, token: string, createdAt: string, email: string)
    returns (r: Result<AuthResponse, HttpException>)
    modifies store, gateway, server
    ensures store.now == old(store.now) && store.failing == old(store.failing)
    ensures gateway.calls == old(gateway.calls) + [GetUserCall(GenerateUserId(sha256, email))]
    ensures gateway.replies == Drop(old(gateway.replies), 1) && gateway.provisions == old(gateway.provisions)
    ensures var found := UserFrom(ReplyAt(old(gateway.replies), 0));
      if found.Err? then
        && r == Err(Failure(500, "Login failed. Please try again."))
        && store.data == old(store.data)
        && server.transcript == old(server.transcript) && server.delivered == old(server.delivered)
      else
        && r == Ok(AuthResponse(true, CheckEmailMessage, None))
        && store.data == AfterIssue(old(store.failing), old(store.data), store.now, token,
                                    TokenRecord(email, createdAt, None, None, false))
        && (found.value.Some? ==>
              var a := AttemptOf(config, MagicLinkEnvelope(config, appUrl, email, token, None, false), server.refuses);
              && server.transcript == old(server.transcript) + a.transcript
              && server.delivered == old(server.delivered) + a.delivered)
        && (found.value.None? ==>
              server.transcript == old(server.transcript) && server.delivered == old(server.delivered))
  {
    var userId := GenerateUserId(sha256, email);
    var user := gateway.GetUser(userId);
    if user.Err? {
      return Err(Failure(500, "Login failed. Please try again."));
    }
    var t := CreateMagicLinkToken(store, token, createdAt, email, None, None, false);
    if user.value.Some? && Truthy(user.value.value) {
      var _ := SendMagicLinkEmail(config, appUrl, server, email, t, None, false);
    }
    r := Ok(AuthResponse(true, CheckEmailMessage, None));
  }

  /** `verify_token`: redeems the token (consuming it), then provisions the
      account of the token's email. An unknown, expired or used token is a
      400; a record without an email or a provisioning exception a generic
      500; missing user data or key a 500 of its own. */
  method VerifyToken(store: Store, gateway: Gateway, token: string)
    returns (r: Result<TokenVerifyResponse, HttpException>)
    modifies store, gateway
    ensures store.now == old(store.now) && store.failing == old(store.failing)
    ensures gateway.replies == old(gateway.replies)
    ensures var d := RedeemIn(old(store.failing), old(store.data), store.now, token);
      && store.data == (if d.Some? then old(store.data) - {TokenKey(token)} else old(store.data))
      && (d.None? ==>
            && r == Err(Failure(400, "Invalid or expired magic link"))
            && gateway.calls == old(gateway.calls) && gateway.provisions == old(gateway.provisions))
      && (d.Some? && "email" !in d.value.fields ==>
            && r == Err(Failure(500, "Verification failed. Please try again."))
            && gateway.calls == old(gateway.calls) && gateway.provisions == old(gateway.provisions))
      && (d.Some? && "email" in d.value.fields ==>
            var email := d.value.fields["email"];
            var p := NextProvision(old(gateway.provisions));
            && gateway.calls == old(gateway.calls) + [ProvisionCall(email)]
            && gateway.provisions == Drop(old(gateway.provisions), 1)
            && r == (if p.ProvisionRaises? then Err(Failure(500, "Verification failed. Please try again."))
                     else if !Truthy(p.userData) || !Truthy(p.key) then Err(Failure(500, "Failed to create session"))
                     else Ok(TokenVerifyResponse(true, Some(email), Some(p.key), "Successfully authenticated"))))
  {
    var d := VerifyMagicLinkToken(store, token);
    if d.None? {
      return Err(Failure(400, "Invalid or expired magic link"));
    }
    if "email" !in d.value.fields {
      return Err(Failure(500, "Verification failed. Please try again."));
    }
    var email := d.value.fields["email"];
    var p := gateway.ProvisionUserKey(email);
    if p.ProvisionRaises? {
      return Err(Failure(500, "Verification failed. Please try again."));
    }
    if !Truthy(p.userData) || !Truthy(p.key) {
      return Err(Failure(500, "Failed to create session"));
    }
    r := Ok(TokenVerifyResponse(true, Some(email), Some(p.key), "Successfully authenticated"));
  }

  /** A magic link works at most once: following it a second time is refused
      with 400, whatever the first attempt gave. */
  method VerifyTokenTwice(store: Store, gateway: Gateway, token: string)
    returns (first: Result<TokenVerifyResponse, HttpException>,
             second: Result<TokenVerifyResponse, HttpException>)
    modifies store, gateway
    ensures second == Err(Failure(400, "Invalid or expired magic link"))
  {
    ghost var d := RedeemIn(store.failing, store.data, store.now, token);
    first := VerifyToken(store, gateway, token);
    if d.Some? {
      assert !store.Live(TokenKey(token));
      assert HGetAllOf(store.data, TokenKey(token), store.now) == Answer(map[]);
    }
    assert RedeemIn(store.failing, store.data, store.now, token).None?;
    second := VerifyToken(store, gateway, token);
  }

  /** A signup that provisions the account writes the signup token's record
      with the full token lifetime and consumes one provisioning outcome. */
  method SignupStoresToken(store: Store, gateway: Gateway, server: SmtpServer, config: SmtpConfig,
                           appUrl: string, sha256: string -> Digest, token: string, createdAt: string,
                           email: string, name: string, company: Option<string>)
    returns (signedUp: Result<AuthResponse, HttpException>)
    requires !store.failing && !store.Live(TokenKey(token))
    requires |gateway.provisions| >= 1
    requires gateway.provisions[0].Provisioned? && Truthy(gateway.provisions[0].userData)
    modifies store, gateway, server
    ensures signedUp == Ok(AuthResponse(true, CheckEmailMessage, Some(GenerateUserId(sha256, email))))
    ensures store.now == old(store.now) && !store.failing
    ensures store.data == old(store.data)[TokenKey(token) := Entry(Hash(TokenRecord(email, createdAt, Some(name), company, true)),
                                                                    Some(store.now + TokenTtl))]
    ensures gateway.provisions == old(gateway.provisions[1..])
  {
    signedUp := Signup(store, gateway, server, config, appUrl, sha256, token, createdAt, email, name, company);
  }

  /** The whole signup flow: with a reachable store, a fresh token and a
      gateway that provisions the account both times, following the link
      within 15 minutes authenticates the email that signed up, with the key
      the second provisioning gave; later it is refused with 400. */
  method SignupThenVerify(store: Store, gateway: Gateway, server: SmtpServer, config: SmtpConfig,
                          appUrl: string, sha256: string -> Digest, token: string, createdAt: string,
                          email: string, name: string, company: Option<string>, wait: nat)
    returns (signedUp: Result<AuthResponse, HttpException>,
             first: Result<TokenVerifyResponse, HttpException>)
    requires !store.failing && !store.Live(TokenKey(token))
    requires |gateway.provisions| >= 2
    requires gateway.provisions[0].Provisioned? && Truthy(gateway.provisions[0].userData)
    requires gateway.provisions[1].Provisioned? && Truthy(gateway.provisions[1].userData)
    requires Truthy(gateway.provisions[1].key)
    modifies store, gateway, server
    ensures signedUp == Ok(AuthResponse(true, CheckEmailMessage, Some(GenerateUserId(sha256, email))))
    ensures wait < TokenTtl ==>
      first == Ok(TokenVerifyResponse(true, Some(email), Some(old(gateway.provisions[1].key)), "Successfully authenticated"))
    ensures wait >= TokenTtl ==> first == Err(Failure(400, "Invalid or expired magic link"))
  {
    var record := TokenRecord(email, createdAt, Some(name), company, true);
    signedUp := SignupStoresToken(store, gateway, server, config, appUrl, sha256, token, createdAt, email, name, company);
    store.Tick(wait);
    if wait < TokenTtl {
      assert HGetAllOf(store.data, TokenKey(token), store.now) == Answer(record);
      assert (record - {"is_signup"})["email"] == email;
    } else {
      assert HGetAllOf(store.data, TokenKey(token), store.now) == Answer(map[]);
    }
    first := VerifyToken(store, gateway, token);
  }
}
