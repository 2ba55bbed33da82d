/** The audit-result cache of `lib/cache/redis.ts`: entries under `audit:<id>` with a
    24-hour expiry. Unlike the general cache, store errors reach the caller. */
module AuditCache {
  import opened Wrappers
  import opened Json
  import opened Redis

  const AUDIT_PREFIX := "audit:"
  const CACHE_TTL := 60 * 60 * 24

  /** The snapshot seeded under `audit:<id>` when an audit is admitted:
      `{ status: 'PENDING', progress: 0, currentStep: 'Initializing' }`. */
  const PENDING_SNAPSHOT := JObj(map["status" := JStr("PENDING"), "progress" := JNum(0),
                                     "currentStep" := JStr("Initializing")])

  function AuditKey(auditId: string): (k: string)
    ensures |k| == |auditId| + 6 && k[6..] == auditId
  {
    AUDIT_PREFIX + auditId
  }

  /** Distinct ids have distinct keys. */
  lemma AuditKeyInjective(a: string, b: string)
    ensures AuditKey(a) == AuditKey(b) ==> a == b
  {
    if AuditKey(a) == AuditKey(b) {
      assert a == AuditKey(a)[6..];
    }
  }

  class AuditResultCache {
    const redis: RedisStore

    constructor (redis: RedisStore)
      ensures this.redis == redis
    {
      this.redis := redis;
    }

    method GetAuditResult(auditId: string, now: int) returns (r: Result<Json>)
      ensures redis.up ==> r == Ok(Read(redis.entries, AuditKey(auditId), now))
      ensures !redis.up ==> r == Err(CONNECTION_ERROR)
    {
      var cached := redis.Get(AuditKey(auditId), now);
      if cached.Err? { return Err(cached.error); }
      r := Ok(if cached.value.Some? then cached.value.value else JNull);
    }

    /** `SET key value EX 86400`. */
    method SetAuditResult(auditId: string, result: Json, now: int) returns (r: Result<bool>)
      modifies redis`entries
      ensures redis.up ==> r.Ok? && redis.entries == SetExEntries(old(redis.entries), AuditKey(auditId), CACHE_TTL, result, now)
      ensures !redis.up ==> r == Err(CONNECTION_ERROR) && redis.entries == old(redis.entries)
    {
      r := redis.SetEx(AuditKey(auditId), CACHE_TTL, result, now);
    }

    method InvalidateAudit(auditId: string) returns (r: Result<bool>)
      modifies redis`entries
      ensures redis.up ==> r.Ok? && redis.entries == old(redis.entries) - {AuditKey(auditId)}
      ensures !redis.up ==> r == Err(CONNECTION_ERROR) && redis.entries == old(redis.entries)
    {
      r := redis.Del({AuditKey(auditId)});
    }
  }

  /** A stored result reads back for 24 hours and is gone afterwards. */
  lemma GetAfterSet(m: map<string, Entry>, auditId: string, result: Json, now: int, later: int)
    requires now <= later
    ensures Read(SetExEntries(m, AuditKey(auditId), CACHE_TTL, result, now), AuditKey(auditId), later) ==
            if later < now + 86400000 then result else JNull
  {
  }

  lemma GetAfterInvalidate(m: map<string, Entry>, auditId: string, t: int)
    ensures Read(m - {AuditKey(auditId)}, AuditKey(auditId), t) == JNull
  {
  }

  /** Writing or invalidating one audit leaves every other audit's entry alone. */
  lemma DistinctAuditsDoNotInterfere(m: map<string, Entry>, auditId: string, other: string, result: Json, now: int, t: int)
    requires other != auditId
    ensures Read(SetExEntries(m, AuditKey(auditId), CACHE_TTL, result, now), AuditKey(other), t) == Read(m, AuditKey(other), t)
    ensures Read(m - {AuditKey(auditId)}, AuditKey(other), t) == Read(m, AuditKey(other), t)
  {
    AuditKeyInjective(auditId, other);
  }
}
