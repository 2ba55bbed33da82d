/** The general-purpose JSON cache over Redis (`lib/services/cache.ts`). Every method
    catches and logs store errors, so a failing store turns reads into misses and
    writes into no-ops. */
module CacheServiceModel {
  import opened Wrappers
  import opened Json
  import opened Redis

  const DEFAULT_TTL := 3600

  /** `if (ttl)`: an absent or zero ttl falls back to the one-hour default. */
  function EffectiveTtl(ttl: Option<int>): (r: int)
    ensures ttl.None? || ttl == Some(0) ==> r == DEFAULT_TTL
    ensures ttl.Some? && ttl.value != 0 ==> r == ttl.value
  {
    if ttl.Some? && ttl.value != 0 then ttl.value else DEFAULT_TTL
  }

  /** What `get` answers when the connection is `up` or not. */
  function CachedValue(m: map<string, Entry>, up: bool, key: string, now: int): Json {
    if up then Read(m, key, now) else JNull
  }

  /** The store after `set`: SETEX fails on a non-positive ttl and the error is swallowed. */
  function AfterSet(m: map<string, Entry>, up: bool, key: string, v: Json, ttl: Option<int>, now: int): map<string, Entry> {
    if up && EffectiveTtl(ttl) > 0 then SetExEntries(m, key, EffectiveTtl(ttl), v, now) else m
  }

  function AfterDelete(m: map<string, Entry>, up: bool, key: string): map<string, Entry> {
    if up then m - {key} else m
  }

  /** The store after `invalidatePattern`: KEYS, then DEL when something matched. */
  function AfterInvalidate(m: map<string, Entry>, up: bool, pattern: string, now: int): map<string, Entry> {
    if up && MatchingKeys(m, pattern, now) != {} then m - MatchingKeys(m, pattern, now) else m
  }

  class CacheService {
    const redis: RedisStore
    const defaultTTL: int

    constructor (redis: RedisStore)
      ensures this.redis == redis && defaultTTL == DEFAULT_TTL
    {
      this.redis := redis;
      defaultTTL := DEFAULT_TTL;
    }

    /** `get`: the stored value, or `null` on a miss or a store error. */
    method Get(key: string, now: int) returns (r: Json)
      ensures r == CachedValue(redis.entries, redis.up, key, now)
    {
      var data := redis.Get(key, now);
      if data.Err? { return JNull; }
      r := if data.value.Some? then data.value.value else JNull;
    }

    method Set(key: string, v: Json, ttl: Option<int>, now: int)
      requires defaultTTL == DEFAULT_TTL
      modifies redis`entries
      ensures redis.entries == AfterSet(old(redis.entries), redis.up, key, v, ttl, now)
    {
      var done;
      if ttl.Some? && ttl.value != 0 {
        done := redis.SetEx(key, ttl.value, v, now);
      } else {
        done := redis.SetEx(key, defaultTTL, v, now);
      }
    }

    method Delete(key: string)
      modifies redis`entries
      ensures redis.entries == AfterDelete(old(redis.entries), redis.up, key)
    {
      var done := redis.Del({key});
    }

    method InvalidatePattern(pattern: string, now: int)
      modifies redis`entries
      ensures redis.entries == AfterInvalidate(old(redis.entries), redis.up, pattern, now)
    {
      var keys := redis.Keys(pattern, now);
      if keys.Ok? && keys.value != {} {
        var done := redis.Del(keys.value);
      }
    }
  }

  /** The lazily created process-wide instance of `CacheService.getInstance`. */
  class CacheServiceSingleton {
    const redis: RedisStore
    var instance: CacheService?

    constructor (redis: RedisStore)
      ensures this.redis == redis && instance == null
    {
      this.redis := redis;
      instance := null;
    }

    predicate Valid()
      reads this
    {
      instance != null ==> instance.redis == redis && instance.defaultTTL == DEFAULT_TTL
    }

    method GetInstance() returns (c: CacheService)
      requires Valid()
      modifies this`instance
      ensures Valid() && instance == c
      ensures old(instance) != null ==> c == old(instance)
      ensures old(instance) == null ==> fresh(c)
      ensures c.redis == redis && c.defaultTTL == DEFAULT_TTL
    {
      if instance == null {
        instance := new CacheService(redis);
      }
      c := instance;
    }

    /** Every call hands out the same object. */
    method GetInstanceTwice() returns (a: CacheService, b: CacheService)
      requires Valid()
      modifies this`instance
      ensures Valid() && a == b
    {
      a := GetInstance();
      b := GetInstance();
    }
  }

  /** `set` then `get` before the entry expires gives the value back (JSON round trip). */
  lemma SetThenGet(m: map<string, Entry>, key: string, v: Json, ttl: Option<int>, now: int, later: int)
    requires EffectiveTtl(ttl) > 0
    requires now <= later < now + 1000 * EffectiveTtl(ttl)
    ensures CachedValue(AfterSet(m, true, key, v, ttl, now), true, key, later) == v
  {
  }

  /** A default-ttl entry lives exactly one hour. */
  lemma DefaultTtlLivesOneHour(m: map<string, Entry>, key: string, v: Json, now: int, later: int)
    ensures CachedValue(AfterSet(m, true, key, v, None, now), true, key, later) ==
            (if later < now + 3600000 then v else JNull)
    ensures AfterSet(m, true, key, v, Some(0), now) == AfterSet(m, true, key, v, None, now)
  {
  }

  /** A negative ttl makes SETEX fail; the failure is swallowed and nothing is stored. */
  lemma NegativeTtlStoresNothing(m: map<string, Entry>, up: bool, key: string, v: Json, n: int, now: int)
    requires n < 0
    ensures AfterSet(m, up, key, v, Some(n), now) == m
  {
  }

  /** `set` touches no other key. */
  lemma SetLeavesOtherKeys(m: map<string, Entry>, up: bool, key: string, v: Json, ttl: Option<int>, now: int, other: string, t: int)
    requires other != key
    ensures Lookup(AfterSet(m, up, key, v, ttl, now), other, t) == Lookup(m, other, t)
  {
  }

  /** `delete` removes exactly that key. */
  lemma DeleteRemovesExactlyKey(m: map<string, Entry>, key: string, k: string, t: int)
    ensures Lookup(AfterDelete(m, true, key), k, t) == if k == key then None else Lookup(m, k, t)
  {
  }

  /** `invalidatePattern` removes exactly the live keys the pattern matches. */
  lemma InvalidateRemovesExactlyMatching(m: map<string, Entry>, pattern: string, now: int, k: string)
    ensures Lookup(AfterInvalidate(m, true, pattern, now), k, now) ==
            if GlobMatch(pattern, k) then None else Lookup(m, k, now)
  {
    if GlobMatch(pattern, k) && Lookup(m, k, now).Some? {
      assert k in MatchingKeys(m, pattern, now);
    }
  }

  /** With the connection down, every operation leaves the store as it was and reads miss. */
  lemma FailuresAreSwallowed(m: map<string, Entry>, key: string, v: Json, ttl: Option<int>, pattern: string, now: int)
    ensures CachedValue(m, false, key, now) == JNull
    ensures AfterSet(m, false, key, v, ttl, now) == m
    ensures AfterDelete(m, false, key) == m
    ensures AfterInvalidate(m, false, pattern, now) == m
  {
  }
}
