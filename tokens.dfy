/** Magic-link tokens: a single-use, time-limited record in the key-value
    store, written when a link is sent and consumed when it is followed. */
module Tokens {
  import opened Outcomes
  import opened Http
  import opened KvStore

  const TokenPrefix := "orizon:magic:"
  const TokenExpiryMinutes := 15
  /** The record's lifetime in seconds: 15 minutes. */
  const TokenTtl := TokenExpiryMinutes * 60

  function TokenKey(token: string): string {
    TokenPrefix + token
  }

  /** The hash written for a new token. `createdAt` is the creation timestamp
      as the clock renders it. */
  function TokenRecord(email: string, createdAt: string, name: Option<string>,
                       company: Option<string>, isSignup: bool): (r: map<string, string>)
    ensures "email" in r && r["email"] == email
    ensures "created_at" in r && r["created_at"] == createdAt
    ensures "is_signup" in r && r["is_signup"] == (if isSignup then "1" else "0")
    ensures "name" in r <==> Present(name)
    ensures "name" in r ==> r["name"] == name.value
    ensures "company" in r <==> Present(company)
    ensures "company" in r ==> r["company"] == company.value
    ensures r.Keys <= {"email", "created_at", "is_signup", "name", "company"}
  {
    var base := map["email" := email, "created_at" := createdAt, "is_signup" := if isSignup then "1" else "0"];
    var withName := if Present(name) then base["name" := name.value] else base;
    if Present(company) then withName["company" := company.value] else withName
  }

  /** A redeemed token's data: the stored fields other than `is_signup`, and
      `is_signup` read back as a boolean. */
  datatype TokenData = TokenData(fields: map<string, string>, isSignup: bool)

  /** What verifying makes of an HGETALL reply: nothing for an error or an
      empty hash; otherwise the data, signup exactly when the stored flag is "1". */
  function Redeem(r: Reply<map<string, string>>): (d: Option<TokenData>)
    ensures d.Some? <==> r.Answer? && r.value != map[]
    ensures d.Some? ==> d.value.fields == r.value - {"is_signup"}
    ensures d.Some? ==> (d.value.isSignup <==> "is_signup" in r.value && r.value["is_signup"] == "1")
  {
    match Fields(r)
    case None => None
    case Some(h) => Some(TokenData(h - {"is_signup"}, "is_signup" in h && h["is_signup"] == "1"))
  }

  /** Writing a record and reading it back gives the same email, the same
      optional fields and the same signup flag. */
  lemma RedeemRecord(email: string, createdAt: string, name: Option<string>,
                     company: Option<string>, isSignup: bool)
    ensures var rec := TokenRecord(email, createdAt, name, company, isSignup);
      var d := Redeem(Answer(rec));
      && d.Some?
      && d.value.isSignup == isSignup
      && d.value.fields["email"] == email
      && d.value.fields["created_at"] == createdAt
      && ("name" in d.value.fields <==> Present(name))
      && ("company" in d.value.fields <==> Present(company))
  {
  }

  /** The store contents after the record for `token` is written (HSET, then
      EXPIRE of 900 seconds) into a store holding `data` at clock reading
      `now`: merged into a live hash, created otherwise; nothing changes when
      the store fails or the key holds a live value of another type. */
  function AfterIssue(failing: bool, data: map<string, Entry>, now: int, token: string,
                      record: map<string, string>): map<string, Entry> {
    var key := TokenKey(token);
    var e := At(data, key, now);
    if failing || (e.Some? && !e.value.value.Hash?) then data
    else data[key := Entry(Hash(HashIn(data, key, now) + record), Some(now + TokenTtl))]
  }

  /** Into a store without a live record under the token's key, issuing
      writes exactly the new record, with the full token lifetime. */
  lemma IssueFresh(data: map<string, Entry>, now: int, token: string, record: map<string, string>)
    requires At(data, TokenKey(token), now) == None
    ensures AfterIssue(false, data, now, token, record)
         == data[TokenKey(token) := Entry(Hash(record), Some(now + TokenTtl))]
  {
    assert HashIn(data, TokenKey(token), now) + record == record;
  }

  /** `create_magic_link_token`: stores the record under the token's key and
      returns the token whether or not the store accepted it. `token` is the
      fresh random value. */
  method CreateMagicLinkToken(store: Store, token: string, createdAt: string, email: string,
                              name: Option<string>, company: Option<string>, isSignup: bool)
    returns (t: string)
    modifies store
    ensures t == token
    ensures store.now == old(store.now) && store.failing == old(store.failing)
    ensures store.data == AfterIssue(old(store.failing), old(store.data), store.now, token,
                                     TokenRecord(email, createdAt, name, company, isSignup))
  {
    var key := TokenKey(token);
    var record := TokenRecord(email, createdAt, name, company, isSignup);
    assert "email" in record;
    var _ := HSetThenExpire(store, key, record, TokenTtl);
    t := token;
  }

  /** What verifying `token` yields from a store in the given state. */
  function RedeemIn(failing: bool, data: map<string, Entry>, now: int, token: string): Option<TokenData> {
    if failing then None else Redeem(HGetAllOf(data, TokenKey(token), now))
  }

  /** `verify_magic_link_token`: reads the record; when there is one, deletes
      it and returns its data. Errors yield none. */
  method VerifyMagicLinkToken(store: Store, token: string) returns (d: Option<TokenData>)
    modifies store
    ensures store.now == old(store.now) && store.failing == old(store.failing)
    ensures d == RedeemIn(old(store.failing), old(store.data), store.now, token)
    ensures store.data == (if d.Some? then old(store.data) - {TokenKey(token)} else old(store.data))
    ensures old(store.failing) ==> d == None && store.data == old(store.data)
    ensures !old(store.failing) ==>
      var reply := HGetAllOf(old(store.data), TokenKey(token), store.now);
      && d == Redeem(reply)
      && store.data == (if d.Some? then old(store.data) - {TokenKey(token)} else old(store.data))
  {
    var key := TokenKey(token);
    var reply := store.HGetAll(key);
    if reply.StoreError? || reply.value == map[] {
      return None;
    }
    var _ := store.Delete(key);
    d := Redeem(reply);
  }

  /** `invalidate_token`: deletes the record; true exactly when one was there. */
  method InvalidateToken(store: Store, token: string) returns (removed: bool)
    modifies store
    ensures store.now == old(store.now) && store.failing == old(store.failing)
    ensures old(store.failing) ==> !removed && store.data == old(store.data)
    ensures !old(store.failing) ==>
      (removed <==> old(store.Live(TokenKey(token)))) && store.data == old(store.data) - {TokenKey(token)}
  {
    var r := store.Delete(TokenKey(token));
    removed := r.Answer? && r.value > 0;
  }

  /** A token redeems at most once: verifying it a second time finds nothing. */
  method VerifyTwice(store: Store, token: string) returns (first: Option<TokenData>, second: Option<TokenData>)
    modifies store
    ensures second == None
  {
    first := VerifyMagicLinkToken(store, token);
    second := VerifyMagicLinkToken(store, token);
  }

  /** A fresh token (one whose key holds nothing) redeems to what was stored
      when followed within 900 seconds, and to nothing afterwards; the key is
      gone in both cases. */
  method IssueThenVerify(store: Store, token: string, createdAt: string, email: string,
                         name: Option<string>, company: Option<string>, isSignup: bool, wait: nat)
    returns (d: Option<TokenData>)
    requires !store.failing && !store.Live(TokenKey(token))
    modifies store
    ensures wait < TokenTtl ==> d == Some(TokenData(TokenRecord(email, createdAt, name, company, isSignup) - {"is_signup"}, isSignup))
    ensures wait >= TokenTtl ==> d == None
    ensures !store.Live(TokenKey(token))
  {
    var record := TokenRecord(email, createdAt, name, company, isSignup);
    assert store.HashAt(TokenKey(token)) + record == record;
    var t := CreateMagicLinkToken(store, token, createdAt, email, name, company, isSignup);
    assert store.data[TokenKey(token)] == Entry(Hash(record), Some(store.now + TokenTtl));
    store.Tick(wait);
    d := VerifyMagicLinkToken(store, t);
  }

  /** After `invalidate_token`, the link no longer verifies. */
  method InvalidateThenVerify(store: Store, token: string) returns (removed: bool, d: Option<TokenData>)
    modifies store
    ensures d == None
  {
    removed := InvalidateToken(store, token);
    d := VerifyMagicLinkToken(store, token);
  }
}
