/** Redis, the external key-value store: a map from keys to values with an optional
    expiry instant. Time is a caller-supplied `now` in milliseconds, and a key whose
    expiry has passed reads as absent. `up` is the connection: while it is false,
    every command fails. */
module Redis {
  import opened Wrappers
  import opened Json

  datatype Entry = Entry(value: Json, expiresAt: Option<int>)

  const CONNECTION_ERROR := ErrorThrown("Connection is closed.")
  const NOT_AN_INTEGER := ErrorThrown("ERR value is not an integer or out of range")
  const INVALID_EXPIRE := ErrorThrown("ERR invalid expire time in 'setex' command")

  predicate Live(e: Entry, now: int) {
    e.expiresAt.None? || now < e.expiresAt.value
  }

  /** `GET`: the value of a live key. */
  function Lookup(m: map<string, Entry>, key: string, now: int): (r: Option<Json>)
    ensures r.Some? <==> key in m && Live(m[key], now)
    ensures r.Some? ==> r.value == m[key].value
  {
    if key in m && Live(m[key], now) then Some(m[key].value) else None
  }

  /** `GET` followed by `JSON.parse`, as its callers do: a miss reads as `null`. */
  function Read(m: map<string, Entry>, key: string, now: int): (r: Json)
    ensures key in m && Live(m[key], now) ==> r == m[key].value
    ensures !(key in m && Live(m[key], now)) ==> r == JNull
  {
    match Lookup(m, key, now)
    case Some(v) => v
    case None => JNull
  }

  /** `SETEX key seconds value`, for a positive number of seconds. */
  function SetExEntries(m: map<string, Entry>, key: string, seconds: int, v: Json, now: int): map<string, Entry> {
    m[key := Entry(v, Some(now + 1000 * seconds))]
  }

  /** `INCR`: the new counter value, when the key is absent or holds an integer. */
  function IncrValue(m: map<string, Entry>, key: string, now: int): Option<int> {
    match Lookup(m, key, now)
    case None => Some(1)
    case Some(JNum(n)) => Some(n + 1)
    case Some(_) => None
  }

  /** `INCR` keeps the key's expiry; on an absent key it starts a counter with none. */
  function IncrEntries(m: map<string, Entry>, key: string, now: int): map<string, Entry>
    requires IncrValue(m, key, now).Some?
  {
    var exp := if Lookup(m, key, now).Some? then m[key].expiresAt else None;
    m[key := Entry(JNum(IncrValue(m, key, now).value), exp)]
  }

  /** `PEXPIRE`: arms the expiry of a live key. */
  function PExpireEntries(m: map<string, Entry>, key: string, ms: int, now: int): map<string, Entry> {
    if Lookup(m, key, now).Some? then m[key := Entry(m[key].value, Some(now + ms))] else m
  }

  /** The `*` / `?` glob patterns of `KEYS`. */
  predicate GlobMatch(p: string, s: string)
    decreases |p| + |s|
  {
    if |p| == 0 then |s| == 0
    else if p[0] == '*' then GlobMatch(p[1..], s) || (|s| > 0 && GlobMatch(p, s[1..]))
    else |s| > 0 && (p[0] == '?' || p[0] == s[0]) && GlobMatch(p[1..], s[1..])
  }

  function MatchingKeys(m: map<string, Entry>, pattern: string, now: int): (r: set<string>)
    ensures forall k :: k in r <==> k in m && Live(m[k], now) && GlobMatch(pattern, k)
  {
    set k | k in m && Live(m[k], now) && GlobMatch(pattern, k)
  }

  class RedisStore {
    var entries: map<string, Entry>
    var up: bool

    constructor ()
      ensures entries == map[] && up
    {
      entries := map[];
      up := true;
    }

    method Get(key: string, now: int) returns (r: Result<Option<Json>>)
      ensures up ==> r == Ok(Lookup(entries, key, now))
      ensures !up ==> r == Err(CONNECTION_ERROR)
    {
      if !up { return Err(CONNECTION_ERROR); }
      r := Ok(Lookup(entries, key, now));
    }

    /** `SET key value` without options: no expiry. */
    method Set(key: string, v: Json) returns (r: Result<bool>)
      modifies this`entries
      ensures up ==> r == Ok(true) && entries == old(entries)[key := Entry(v, None)]
      ensures !up ==> r == Err(CONNECTION_ERROR) && entries == old(entries)
    {
      if !up { return Err(CONNECTION_ERROR); }
      entries := entries[key := Entry(v, None)];
      r := Ok(true);
    }

    /** `SETEX`, and `SET` with the `EX` option, which behave alike. */
    method SetEx(key: string, seconds: int, v: Json, now: int) returns (r: Result<bool>)
      modifies this`entries
      ensures up && seconds > 0 ==> r == Ok(true) && entries == SetExEntries(old(entries), key, seconds, v, now)
      ensures up && seconds <= 0 ==> r == Err(INVALID_EXPIRE) && entries == old(entries)
      ensures !up ==> r == Err(CONNECTION_ERROR) && entries == old(entries)
    {
      if !up { return Err(CONNECTION_ERROR); }
      if seconds <= 0 { return Err(INVALID_EXPIRE); }
      entries := SetExEntries(entries, key, seconds, v, now);
      r := Ok(true);
    }

    method Del(keys: set<string>) returns (r: Result<bool>)
      modifies this`entries
      ensures up ==> r == Ok(true) && entries == old(entries) - keys
      ensures !up ==> r == Err(CONNECTION_ERROR) && entries == old(entries)
    {
      if !up { return Err(CONNECTION_ERROR); }
      entries := entries - keys;
      r := Ok(true);
    }

    method Keys(pattern: string, now: int) returns (r: Result<set<string>>)
      ensures up ==> r == Ok(MatchingKeys(entries, pattern, now))
      ensures !up ==> r == Err(CONNECTION_ERROR)
    {
      if !up { return Err(CONNECTION_ERROR); }
      r := Ok(MatchingKeys(entries, pattern, now));
    }

    method Incr(key: string, now: int) returns (r: Result<int>)
      modifies this`entries
      ensures up && IncrValue(old(entries), key, now).Some? ==>
                r == Ok(IncrValue(old(entries), key, now).value) && entries == IncrEntries(old(entries), key, now)
      ensures up && IncrValue(old(entries), key, now).None? ==> r == Err(NOT_AN_INTEGER) && entries == old(entries)
      ensures !up ==> r == Err(CONNECTION_ERROR) && entries == old(entries)
    {
      if !up { return Err(CONNECTION_ERROR); }
      var n := IncrValue(entries, key, now);
      if n.None? { return Err(NOT_AN_INTEGER); }
      entries := IncrEntries(entries, key, now);
      r := Ok(n.value);
    }

    method PExpire(key: string, ms: int, now: int) returns (r: Result<bool>)
      modifies this`entries
      ensures up ==> r == Ok(Lookup(old(entries), key, now).Some?) && entries == PExpireEntries(old(entries), key, ms, now)
      ensures !up ==> r == Err(CONNECTION_ERROR) && entries == old(entries)
    {
      if !up { return Err(CONNECTION_ERROR); }
      r := Ok(Lookup(entries, key, now).Some?);
      entries := PExpireEntries(entries, key, ms, now);
    }
  }
}
