/** User sessions: a record in the key-value store under a random session
    token, and the cookie that carries the token. */
module Sessions {
  import opened Outcomes
  import opened Http
  import opened KvStore

  const SessionPrefix := "orizon:session:"
  const SessionCookieName := "orizon_session"
  /** The session lifetime in hours when the deployment does not set one;
      every operation below takes the configured value as `expiryHours`. */
  const DefaultSessionExpiryHours := 24

  /** The session lifetime in seconds, used for the record and the cookie alike. */
  function SessionTtl(expiryHours: int): int {
    expiryHours * 3600
  }

  function SessionKey(token: string): string {
    SessionPrefix + token
  }

  /** The hash written for a new session; `name` only when it is non-empty. */
  function SessionRecord(email: string, userId: string, virtualKey: string, createdAt: string,
                         name: Option<string>): (r: map<string, string>)
    ensures "email" in r && r["email"] == email
    ensures "user_id" in r && r["user_id"] == userId
    ensures "virtual_key" in r && r["virtual_key"] == virtualKey
    ensures "created_at" in r && r["created_at"] == createdAt
    ensures "name" in r <==> Present(name)
    ensures "name" in r ==> r["name"] == name.value
    ensures r.Keys <= {"email", "user_id", "virtual_key", "created_at", "name"}
  {
    var base := map["email" := email, "user_id" := userId, "virtual_key" := virtualKey, "created_at" := createdAt];
    if Present(name) then base["name" := name.value] else base
  }

  /** The exception `create_session` re-raises when the store fails. */
  datatype StoreFailure = StoreFailure

  /** `create_session`: writes the record (HSET, then EXPIRE of the session
      lifetime) and returns the token; a store failure propagates. `token` is
      the fresh random value. A lifetime that is not positive makes the
      EXPIRE delete the record just written. */
  method CreateSession(store: Store, expiryHours: int, token: string, createdAt: string, email: string,
                       userId: string, virtualKey: string, name: Option<string>)
    returns (r: Result<string, StoreFailure>)
    modifies store
    ensures store.now == old(store.now) && store.failing == old(store.failing)
    ensures var key := SessionKey(token);
      if old(store.failing) || (old(store.Live(key)) && !old(store.data[key].value.Hash?)) then
        r == Err(StoreFailure) && store.data == old(store.data)
      else
        && r == Ok(token)
        && store.data == if expiryHours <= 0 then old(store.data) - {key} else
             old(store.data)[key := Entry(Hash(old(store.HashAt(key)) + SessionRecord(email, userId, virtualKey, createdAt, name)),
                                          Some(store.now + SessionTtl(expiryHours)))]
  {
    var record := SessionRecord(email, userId, virtualKey, createdAt, name);
    assert "email" in record;
    var written := HSetThenExpire(store, SessionKey(token), record, SessionTtl(expiryHours));
    if written.StoreError? {
      return Err(StoreFailure);
    }
    r := Ok(token);
  }

  /** What `get_session` returns from a store in the given state: nothing on
      an error or for a missing, expired or empty record; otherwise the record. */
  function SessionIn(failing: bool, data: map<string, Entry>, now: int, token: string): (s: Option<map<string, string>>)
    ensures s.Some? ==> s.value != map[] && s.value == HashIn(data, SessionKey(token), now)
    ensures failing ==> s == None
  {
    if failing then None else Fields(HGetAllOf(data, SessionKey(token), now))
  }

  /** `get_session`: reads the record, touching nothing. */
  method GetSession(store: Store, token: string) returns (s: Option<map<string, string>>)
    ensures s == SessionIn(store.failing, store.data, store.now, token)
  {
    var reply := store.HGetAll(SessionKey(token));
    s := Fields(reply);
  }

  /** `delete_session`: true exactly when a record was removed. */
  method DeleteSession(store: Store, token: string) returns (removed: bool)
    modifies store
    ensures store.now == old(store.now) && store.failing == old(store.failing)
    ensures old(store.failing) ==> !removed && store.data == old(store.data)
    ensures !old(store.failing) ==>
      (removed <==> old(store.Live(SessionKey(token)))) && store.data == old(store.data) - {SessionKey(token)}
  {
    var r := store.Delete(SessionKey(token));
    removed := r.Answer? && r.value > 0;
  }

  /** `refresh_session`: restarts the lifetime of a live record and changes
      nothing else; false when there is no record or the store fails. A
      lifetime that is not positive deletes the record (and still answers true). */
  method RefreshSession(store: Store, expiryHours: int, token: string) returns (refreshed: bool)
    modifies store
    ensures store.now == old(store.now) && store.failing == old(store.failing)
    ensures refreshed <==> !old(store.failing) && old(store.Live(SessionKey(token)))
    ensures !refreshed ==> store.data == old(store.data)
    ensures refreshed && expiryHours > 0 ==>
      var key := SessionKey(token);
      store.data == old(store.data)[key := old(store.data[key]).(expiresAt := Some(store.now + SessionTtl(expiryHours)))]
    ensures refreshed && expiryHours <= 0 ==> store.data == old(store.data) - {SessionKey(token)}
    ensures expiryHours > 0 ==> store.HashAt(SessionKey(token)) == old(store.HashAt(SessionKey(token)))
  {
    var r := store.Expire(SessionKey(token), SessionTtl(expiryHours));
    refreshed := r.Answer? && r.value;
  }

  /** `set_session_cookie`: HttpOnly, Secure, SameSite=Lax, living as long as the record. */
  method SetSessionCookie(response: Response, expiryHours: int, token: string)
    modifies response
    ensures response.cookies == old(response.cookies)[SessionCookieName := Cookie(token, SessionTtl(expiryHours), true, true, "lax")]
    ensures response.headers == old(response.headers) && response.status == old(response.status)
  {
    response.cookies := response.cookies[SessionCookieName := Cookie(token, SessionTtl(expiryHours), true, true, "lax")];
  }

  /** `get_session_cookie` */
  function GetSessionCookie(request: Request): (c: Option<string>)
    reads request
    ensures c.Some? <==> SessionCookieName in request.cookies
    ensures c.Some? ==> c.value == request.cookies[SessionCookieName]
  {
    Header(request.cookies, SessionCookieName)
  }

  /** `clear_session_cookie`: the framework's `delete_cookie`, an empty value
      with a zero max-age and the default attributes. */
  method ClearSessionCookie(response: Response)
    modifies response
    ensures response.cookies == old(response.cookies)[SessionCookieName := Cookie("", 0, false, false, "lax")]
    ensures response.headers == old(response.headers) && response.status == old(response.status)
  {
    response.cookies := response.cookies[SessionCookieName := Cookie("", 0, false, false, "lax")];
  }

  /** The session a request's cookie names in a store in the given state:
      nothing without a (non-empty) session cookie. */
  function CurrentSession(request: Request, store: Store): (s: Option<map<string, string>>)
    reads request, store
    ensures !Present(GetSessionCookie(request)) ==> s == None
    ensures Present(GetSessionCookie(request)) ==>
      s == SessionIn(store.failing, store.data, store.now, GetSessionCookie(request).value)
  {
    var token := GetSessionCookie(request);
    if Present(token) then SessionIn(store.failing, store.data, store.now, token.value) else None
  }

  /** `get_current_session`: reads the session the cookie names, touching
      nothing; without a cookie the store is not consulted. */
  method GetCurrentSession(store: Store, request: Request) returns (s: Option<map<string, string>>)
    ensures s == CurrentSession(request, store)
  {
    var token := GetSessionCookie(request);
    if !Present(token) {
      return None;
    }
    s := GetSession(store, token.value);
  }

  /** A session just created (under a fresh token) reads back as its record
      for the whole lifetime and as nothing afterwards; with a lifetime that
      is not positive it cannot be read at all. */
  method CreateThenGet(store: Store, expiryHours: int, token: string, createdAt: string, email: string,
                       userId: string, virtualKey: string, name: Option<string>, wait: nat)
    returns (s: Option<map<string, string>>)
    requires !store.failing && !store.Live(SessionKey(token))
    modifies store
    ensures expiryHours > 0 && wait < SessionTtl(expiryHours) ==>
      s == Some(SessionRecord(email, userId, virtualKey, createdAt, name))
    ensures expiryHours <= 0 || wait >= SessionTtl(expiryHours) ==> s == None
  {
    var record := SessionRecord(email, userId, virtualKey, createdAt, name);
    assert store.HashAt(SessionKey(token)) + record == record;
    var _ := CreateSession(store, expiryHours, token, createdAt, email, userId, virtualKey, name);
    store.Tick(wait);
    s := GetSession(store, token);
  }

  /** After `delete_session`, the token names no session. */
  method DeleteThenGet(store: Store, token: string) returns (removed: bool, s: Option<map<string, string>>)
    modifies store
    ensures s == None
  {
    removed := DeleteSession(store, token);
    s := GetSession(store, token);
  }

  /** Refreshing keeps a session readable for a full lifetime from the refresh,
      with unchanged content. */
  method RefreshThenGet(store: Store, expiryHours: int, token: string, wait: nat)
    returns (before: Option<map<string, string>>, after: Option<map<string, string>>)
    requires !store.failing
    modifies store
    ensures before.Some? && expiryHours > 0 && wait < SessionTtl(expiryHours) ==> after == before
    ensures expiryHours <= 0 ==> after == None
  {
    before := GetSession(store, token);
    var _ := RefreshSession(store, expiryHours, token);
    store.Tick(wait);
    after := GetSession(store, token);
  }
}
