/** The key-value store (Redis) behind the rate limiter, the magic-link tokens,
    the sessions and the OAuth state: one map from key to value and expiry
    time, with an explicit integer clock. A key whose expiry time has been
    reached is gone, exactly as if it had been deleted. */
module KvStore {
  import opened Outcomes

  /** What a key holds: an INCR counter, a plain string, or a hash of fields. */
  datatype Value = Counter(n: int) | Text(s: string) | Hash(fields: map<string, string>)

  /** A stored value and the clock reading at which it expires (none: never). */
  datatype Entry = Entry(value: Value, expiresAt: Option<int>)

  /** The reply to one command: an answer, or the error the client raises
      (the store is unreachable, or the command does not fit the key's type). */
  datatype Reply<+T> = Answer(value: T) | StoreError

  /** The entry has not reached its expiry time at clock reading `now`. */
  predicate Alive(e: Entry, now: int) {
    e.expiresAt.None? || now < e.expiresAt.value
  }

  /** What a store holding `data` shows under `key` at clock reading `now`. */
  function At(data: map<string, Entry>, key: string, now: int): Option<Entry> {
    if key in data && Alive(data[key], now) then Some(data[key]) else None
  }

  /** `data` with `key` overwritten by `written`, or left as it is when nothing was written. */
  function Apply(data: map<string, Entry>, key: string, written: Option<Entry>): map<string, Entry> {
    if written.Some? then data[key := written.value] else data
  }

  /** The fields of a live hash under `key` at `now`; none for a missing,
      expired or non-hash key. */
  function HashIn(data: map<string, Entry>, key: string, now: int): map<string, string> {
    var e := At(data, key, now);
    if e.Some? && e.value.value.Hash? then e.value.value.fields else map[]
  }

  /** What HGETALL answers from a reachable store: the fields of the hash
      (none for a missing key), or an error for a live key of another type. */
  function HGetAllOf(data: map<string, Entry>, key: string, now: int): Reply<map<string, string>> {
    var e := At(data, key, now);
    if e.Some? && !e.value.value.Hash? then StoreError else Answer(HashIn(data, key, now))
  }

  /** The hash a successful HGETALL returned, when it is non-empty (`if not data: return None`). */
  function Fields(r: Reply<map<string, string>>): (f: Option<map<string, string>>)
    ensures f.Some? <==> r.Answer? && r.value != map[]
    ensures f.Some? ==> f.value == r.value
  {
    if r.Answer? && r.value != map[] then Some(r.value) else None
  }

  class Store {
    var data: map<string, Entry>
    /** The clock, in whole seconds. */
    var now: int
    /** When set, every command raises (connection refused, timeout). */
    var failing: bool

    constructor (now: int)
      ensures data == map[] && this.now == now && !failing
    {
      data, this.now, failing := map[], now, false;
    }

    /** The key exists and has not expired. */
    predicate Live(key: string)
      reads this
    {
      key in data && Alive(data[key], now)
    }

    /** What the store holds under `key` right now. */
    function Lookup(key: string): Option<Entry>
      reads this
    {
      At(data, key, now)
    }

    /** The fields of a live hash under `key`, otherwise none. */
    function HashAt(key: string): map<string, string>
      reads this
    {
      HashIn(data, key, now)
    }

    /** The expiry of the live entry under `key`; none when there is no such entry. */
    function ExpiryAt(key: string): Option<int>
      reads this
    {
      if Live(key) then data[key].expiresAt else None
    }

    /** Lets `seconds` of time pass. */
    method Tick(seconds: nat)
      modifies this
      ensures now == old(now) + seconds && data == old(data) && failing == old(failing)
    {
      now := now + seconds;
    }

    /** INCR: a missing key starts from 0 and gets no expiry; a live counter
        keeps its expiry. */
    method Incr(key: string) returns (r: Reply<int>)
      modifies this
      ensures now == old(now) && failing == old(failing)
      ensures failing ==> r == StoreError && data == old(data)
      ensures !failing && !old(Live(key)) ==>
        r == Answer(1) && data == old(data)[key := Entry(Counter(1), None)]
      ensures !failing && old(Live(key)) && old(data[key].value.Counter?) ==>
        && r == Answer(old(data[key].value.n) + 1)
        && data == old(data)[key := Entry(Counter(old(data[key].value.n) + 1), old(data[key].expiresAt))]
      ensures !failing && old(Live(key)) && !old(data[key].value.Counter?) ==>
        r == StoreError && data == old(data)
    {
      if failing {
        return StoreError;
      }
      if !Live(key) {
        data := data[key := Entry(Counter(1), None)];
        return Answer(1);
      }
      var e := data[key];
      if !e.value.Counter? {
        return StoreError;
      }
      data := data[key := Entry(Counter(e.value.n + 1), e.expiresAt)];
      r := Answer(e.value.n + 1);
    }

    /** EXPIRE: answers whether the key exists; a non-positive time deletes it. */
    method Expire(key: string, seconds: int) returns (r: Reply<bool>)
      modifies this
      ensures now == old(now) && failing == old(failing)
      ensures failing ==> r == StoreError && data == old(data)
      ensures !failing && !old(Live(key)) ==> r == Answer(false) && data == old(data)
      ensures !failing && old(Live(key)) && seconds <= 0 ==>
        r == Answer(true) && data == old(data) - {key}
      ensures !failing && old(Live(key)) && seconds > 0 ==>
        r == Answer(true) && data == old(data)[key := old(data[key]).(expiresAt := Some(now + seconds))]
    {
      if failing {
        return StoreError;
      }
      if !Live(key) {
        return Answer(false);
      }
      if seconds <= 0 {
        data := data - {key};
      } else {
        data := data[key := data[key].(expiresAt := Some(now + seconds))];
      }
      r := Answer(true);
    }

    /** TTL: -2 for a missing key, -1 for a key without expiry, otherwise the
        seconds left (always positive for a live key). */
    method Ttl(key: string) returns (r: Reply<int>)
      ensures failing ==> r == StoreError
      ensures !failing && !Live(key) ==> r == Answer(-2)
      ensures !failing && Live(key) && data[key].expiresAt.None? ==> r == Answer(-1)
      ensures !failing && Live(key) && data[key].expiresAt.Some? ==>
        r == Answer(data[key].expiresAt.value - now) && r.value > 0
    {
      if failing {
        return StoreError;
      }
      if !Live(key) {
        return Answer(-2);
      }
      match data[key].expiresAt
      case None => r := Answer(-1);
      case Some(t) => r := Answer(t - now);
    }

    /** HSET with a mapping: merges the fields into a live hash (keeping its
        expiry) or creates a fresh hash without expiry; answers how many fields
        are new. The client refuses an empty mapping. */
    method HSet(key: string, fields: map<string, string>) returns (r: Reply<nat>)
      modifies this
      ensures now == old(now) && failing == old(failing)
      ensures failing || fields == map[] ==> r == StoreError && data == old(data)
      ensures !failing && fields != map[] && !old(Live(key)) ==>
        r == Answer(|fields.Keys|) && data == old(data)[key := Entry(Hash(fields), None)]
      ensures !failing && fields != map[] && old(Live(key)) && old(data[key].value.Hash?) ==>
        && r == Answer(|fields.Keys - old(data[key].value.fields.Keys)|)
        && data == old(data)[key := Entry(Hash(old(data[key].value.fields) + fields), old(data[key].expiresAt))]
      ensures !failing && fields != map[] && old(Live(key)) && !old(data[key].value.Hash?) ==>
        r == StoreError && data == old(data)
      ensures r.Answer? ==>
        data == old(data)[key := Entry(Hash(old(HashAt(key)) + fields), old(ExpiryAt(key)))]
      ensures r.StoreError? <==> failing || fields == map[] || (old(Live(key)) && !old(data[key].value.Hash?))
      ensures r.StoreError? ==> data == old(data)
    {
      if failing || fields == map[] {
        return StoreError;
      }
      if !Live(key) {
        assert map[] + fields == fields;
        data := data[key := Entry(Hash(fields), None)];
        return Answer(|fields.Keys|);
      }
      var e := data[key];
      if !e.value.Hash? {
        return StoreError;
      }
      data := data[key := Entry(Hash(e.value.fields + fields), e.expiresAt)];
      r := Answer(|fields.Keys - e.value.fields.Keys|);
    }

    /** HGETALL: the fields of a live hash, none for a missing key. */
    method HGetAll(key: string) returns (r: Reply<map<string, string>>)
      ensures failing ==> r == StoreError
      ensures !failing ==> r == HGetAllOf(data, key, now)
      ensures !failing && Live(key) && !data[key].value.Hash? ==> r == StoreError
      ensures !failing && !(Live(key) && !data[key].value.Hash?) ==> r == Answer(HashAt(key))
    {
      if failing || (Live(key) && !data[key].value.Hash?) {
        return StoreError;
      }
      r := Answer(HashAt(key));
    }

    /** DEL: removes the key; answers 1 if it was there, 0 otherwise. */
    method Delete(key: string) returns (r: Reply<nat>)
      modifies this
      ensures now == old(now) && failing == old(failing)
      ensures failing ==> r == StoreError && data == old(data)
      ensures !failing ==> r == Answer(if old(Live(key)) then 1 else 0) && data == old(data) - {key}
    {
      if failing {
        return StoreError;
      }
      r := Answer(if Live(key) then 1 else 0);
      data := data - {key};
    }

    /** SETEX: stores a string that expires after `seconds` (which must be positive). */
    method SetEx(key: string, seconds: int, value: string) returns (r: Reply<()>)
      modifies this
      ensures now == old(now) && failing == old(failing)
      ensures failing || seconds <= 0 ==> r == StoreError && data == old(data)
      ensures !failing && seconds > 0 ==>
        r == Answer(()) && data == old(data)[key := Entry(Text(value), Some(now + seconds))]
    {
      if failing || seconds <= 0 {
        return StoreError;
      }
      data := data[key := Entry(Text(value), Some(now + seconds))];
      r := Answer(());
    }
  }

  /** HSET of `fields` followed by EXPIRE of `seconds`, the way records with a
      lifetime are written. The second command runs only when the first
      succeeds; a lifetime that is not positive deletes the record at once. */
  method HSetThenExpire(store: Store, key: string, fields: map<string, string>, seconds: int)
    returns (r: Reply<nat>)
    modifies store
    ensures store.now == old(store.now) && store.failing == old(store.failing)
    ensures r.StoreError? <==>
      old(store.failing) || fields == map[] || (old(store.Live(key)) && !old(store.data[key].value.Hash?))
    ensures r.StoreError? ==> store.data == old(store.data)
    ensures r.Answer? && seconds > 0 ==>
      store.data == old(store.data)[key := Entry(Hash(old(store.HashAt(key)) + fields), Some(store.now + seconds))]
    ensures r.Answer? && seconds <= 0 ==> store.data == old(store.data) - {key}
  {
    ghost var before := store.data;
    ghost var merged := Entry(Hash(store.HashAt(key) + fields), store.ExpiryAt(key));
    assert Alive(merged, store.now);
    r := store.HSet(key, fields);
    if r.StoreError? {
      return;
    }
    assert store.data == before[key := merged];
    ExpireWritten(store, key, seconds, before, merged);
  }

  /** The EXPIRE that follows a successful HSET: the merged entry gets its
      lifetime, or is deleted when the lifetime is not positive. */
  method ExpireWritten(store: Store, key: string, seconds: int, ghost before: map<string, Entry>, ghost merged: Entry)
    requires !store.failing && Alive(merged, store.now) && store.data == before[key := merged]
    modifies store
    ensures store.now == old(store.now) && store.failing == old(store.failing)
    ensures seconds > 0 ==> store.data == before[key := merged.(expiresAt := Some(store.now + seconds))]
    ensures seconds <= 0 ==> store.data == before - {key}
  {
    assert store.Live(key);
    var _ := store.Expire(key, seconds);
    if seconds <= 0 {
      assert before[key := merged] - {key} == before - {key};
    }
  }
}
