/** The Python API's session table (`app/services/session_manager.py`): the
    booking site's cookies kept in Redis under a prefixed random token, with a
    sliding expiry. Redis is a class over a map from key to (data, TTL); time
    does not pass in this model, so a TTL is only a number that is set,
    refreshed and read back. */
module SessionStore {
  import opened Wrappers
  import opened Strings

  const KeyPrefix := "session:"
  const DefaultTtl := 1800

  /** What a session holds: the site's cookies, its base URL, the creation stamp. */
  datatype SessionData = SessionData(cookies: map<string, string>, baseUrl: string, createdAt: string)

  /** A Redis value and its time to live (`None`: the key never expires). */
  datatype Entry = Entry(data: SessionData, ttl: Option<int>)

  type Db = map<string, Entry>

  datatype SessionError = NotFound(message: string) | StoreError(message: string)

  const NotFoundMessage := "Session not found or expired"
  const InvalidExpireMessage := "invalid expire time in 'setex' command"

  /** `_key`. */
  function Key(token: string): (k: string)
    ensures HasPrefix(k, KeyPrefix) && k[|KeyPrefix|..] == token
  {
    KeyPrefix + token
  }

  /** Distinct tokens never share a key. */
  lemma KeyInjective(a: string, b: string)
    ensures Key(a) == Key(b) ==> a == b
  {
    if Key(a) == Key(b) {
      assert a == Key(a)[|KeyPrefix|..];
    }
  }

  // ---------------------------------------------------------------------------
  // The Redis commands used, as transitions of the table

  /** `SETEX key ttl value` with a positive TTL. */
  function AfterSetEx(db: Db, key: string, ttl: int, data: SessionData): Db {
    db[key := Entry(data, Some(ttl))]
  }

  /** `EXPIRE key ttl`: sets a new TTL on a present key, and deletes it when
      the TTL is not positive; a missing key is left missing. */
  function AfterExpire(db: Db, key: string, ttl: int): Db {
    if key !in db then db
    else if ttl <= 0 then db - {key}
    else db[key := db[key].(ttl := Some(ttl))]
  }

  /** `DEL key`. */
  function AfterDel(db: Db, key: string): Db {
    db - {key}
  }

  /** Refreshing a key keeps its data and every other key. */
  lemma ExpireKeepsData(db: Db, key: string, ttl: int)
    requires key in db && ttl > 0
    ensures key in AfterExpire(db, key, ttl) && AfterExpire(db, key, ttl)[key].data == db[key].data
    ensures AfterExpire(db, key, ttl)[key].ttl == Some(ttl)
    ensures forall k :: k != key ==> (k in AfterExpire(db, key, ttl) <==> k in db)
    ensures forall k :: k != key && k in db ==> AfterExpire(db, key, ttl)[k] == db[k]
  {
  }

  /** With a TTL that is not positive, reading a session also removes it:
      `EXPIRE` with such a TTL deletes the key. */
  lemma NonPositiveRefreshDeletes(db: Db, key: string, ttl: int)
    requires ttl <= 0
    ensures key !in AfterExpire(db, key, ttl)
    ensures forall k :: k != key ==> (k in AfterExpire(db, key, ttl) <==> k in db)
  {
  }

  /** A stored session reads back as stored until it is deleted; deleting one
      token's session leaves every other token's as it was. */
  lemma StoreGetDelete(db: Db, token: string, other: string, ttl: int, data: SessionData)
    requires token != other
    ensures Key(token) in AfterSetEx(db, Key(token), ttl, data) && AfterSetEx(db, Key(token), ttl, data)[Key(token)].data == data
    ensures Key(token) !in AfterDel(AfterSetEx(db, Key(token), ttl, data), Key(token))
    ensures Key(other) in db ==> Key(other) in AfterDel(db, Key(token)) && AfterDel(db, Key(token))[Key(other)] == db[Key(other)]
  {
    KeyInjective(token, other);
  }

  class Redis {
    var entries: Db

    constructor(initial: Db)
      ensures entries == initial
    {
      entries := initial;
    }

    /** `SETEX`; Redis refuses a TTL that is not positive. */
    method SetEx(key: string, ttl: int, data: SessionData) returns (err: Option<string>)
      modifies this
      ensures ttl > 0 ==> err == None && entries == AfterSetEx(old(entries), key, ttl, data)
      ensures ttl <= 0 ==> err == Some(InvalidExpireMessage) && entries == old(entries)
    {
      if ttl <= 0 {
        return Some(InvalidExpireMessage);
      }
      entries := AfterSetEx(entries, key, ttl, data);
      err := None;
    }

    method Get(key: string) returns (r: Option<SessionData>)
      ensures r.Some? <==> key in entries
      ensures r.Some? ==> r.value == entries[key].data
    {
      r := if key in entries then Some(entries[key].data) else None;
    }

    method Expire(key: string, ttl: int)
      modifies this
      ensures entries == AfterExpire(old(entries), key, ttl)
    {
      entries := AfterExpire(entries, key, ttl);
    }

    /** `DEL`: the number of keys removed. */
    method Del(key: string) returns (removed: nat)
      modifies this
      ensures removed == (if key in old(entries) then 1 else 0)
      ensures entries == AfterDel(old(entries), key)
    {
      removed := if key in entries then 1 else 0;
      entries := AfterDel(entries, key);
    }

    /** `EXISTS`: the number of the given keys present. */
    method Exists(key: string) returns (count: nat)
      ensures count == (if key in entries then 1 else 0)
    {
      count := if key in entries then 1 else 0;
    }

    /** `TTL`: -2 for a missing key, -1 for a key without expiry. */
    method Ttl(key: string) returns (t: int)
      ensures key !in entries ==> t == -2
      ensures key in entries && entries[key].ttl.None? ==> t == -1
      ensures key in entries && entries[key].ttl.Some? ==> t == entries[key].ttl.value
    {
      if key !in entries {
        return -2;
      }
      t := if entries[key].ttl.None? then -1 else entries[key].ttl.value;
    }
  }

  class SessionManager {
    const redis: Redis
    const ttl: int

    constructor(redis: Redis, ttl: int)
      ensures this.redis == redis && this.ttl == ttl
    {
      this.redis := redis;
      this.ttl := ttl;
    }

    /** The manager built without a `ttl` argument: half an hour. */
    constructor WithDefaultTtl(redis: Redis)
      ensures this.redis == redis && this.ttl == DefaultTtl
    {
      this.redis := redis;
      this.ttl := DefaultTtl;
    }

    /** `store_session`: writes the session under the token's key with the
        manager's TTL and returns the token. The token and the creation stamp
        come from outside (`uuid4` and the clock). */
    method StoreSession(cookies: map<string, string>, baseUrl: string, token: string, createdAt: string)
      returns (r: Result<string, SessionError>)
      modifies redis
      ensures ttl > 0 ==>
        r == Ok(token) && redis.entries == AfterSetEx(old(redis.entries), Key(token), ttl, SessionData(cookies, baseUrl, createdAt))
      ensures ttl <= 0 ==> r == Err(StoreError(InvalidExpireMessage)) && redis.entries == old(redis.entries)
    {
      var err := redis.SetEx(Key(token), ttl, SessionData(cookies, baseUrl, createdAt));
      if err.Some? {
        return Err(StoreError(err.value));
      }
      r := Ok(token);
    }

    /** `get_session`: a missing session raises and changes nothing; a
        present one is returned unchanged and its TTL is reset. */
    method GetSession(token: string) returns (r: Result<SessionData, SessionError>)
      modifies redis
      ensures Key(token) !in old(redis.entries) ==> r == Err(NotFound(NotFoundMessage)) && redis.entries == old(redis.entries)
      ensures Key(token) in old(redis.entries) ==>
        r == Ok(old(redis.entries)[Key(token)].data) && redis.entries == AfterExpire(old(redis.entries), Key(token), ttl)
    {
      var key := Key(token);
      var data := redis.Get(key);
      if data.None? {
        return Err(NotFound(NotFoundMessage));
      }
      redis.Expire(key, ttl);
      r := Ok(data.value);
    }

    /** `delete_session`: true iff a session was removed. */
    method DeleteSession(token: string) returns (deleted: bool)
      modifies redis
      ensures deleted <==> Key(token) in old(redis.entries)
      ensures redis.entries == AfterDel(old(redis.entries), Key(token))
    {
      var removed := redis.Del(Key(token));
      deleted := removed > 0;
    }

    /** `session_exists`: presence only; no TTL is touched. */
    method SessionExists(token: string) returns (present: bool)
      ensures present <==> Key(token) in redis.entries
    {
      var count := redis.Exists(Key(token));
      present := count > 0;
    }

    /** `get_ttl`. */
    method GetTtl(token: string) returns (t: int)
      ensures Key(token) !in redis.entries ==> t == -2
      ensures Key(token) in redis.entries && redis.entries[Key(token)].ttl.None? ==> t == -1
      ensures Key(token) in redis.entries && redis.entries[Key(token)].ttl.Some? ==> t == redis.entries[Key(token)].ttl.value
    {
      t := redis.Ttl(Key(token));
    }
  }
}
