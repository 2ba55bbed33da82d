/** The GraphQL `createAudit` resolver of `lib/graphql/resolvers/audit.ts`: validate,
    return an audit of the last hour if there is one, else create a `PENDING` audit,
    seed its progress snapshot and launch the lifecycle in the background. */
module AuditResolver {
  import opened Wrappers
  import opened Json
  import opened Validation
  import opened AuditStore
  import opened Redis
  import opened AuditCache

  /** One hour, in milliseconds. */
  const DEDUP_WINDOW := 1000 * 60 * 60
  const FAILED_TO_START := "Failed to start audit. Please try again later."

  /** The database's answer to the `findFirst` and the `create`. */
  datatype AdmissionFaults = AdmissionFaults(find: Option<Thrown>, create: Option<Thrown>)

  /** `validation.error || 'Invalid URL'`. */
  function RejectionMessage(v: ValidationResult): (m: string)
    ensures Truthy(v.error) ==> m == v.error.value
    ensures !Truthy(v.error) ==> m == "Invalid URL"
  {
    if Truthy(v.error) then v.error.value else "Invalid URL"
  }

  /** The fallback message is never used: a refused url always carries its reason. */
  lemma RejectionCarriesReason(url: string)
    requires !ValidateUrl(url).isValid
    ensures RejectionMessage(ValidateUrl(url)) == INVALID_URL_MESSAGE ||
            RejectionMessage(ValidateUrl(url)) == UNSUPPORTED_TLD_MESSAGE
  {
  }

  /** The guard under which a new row is created: a valid url, a lookup that answers and
      finds nothing recent, a url to store, and a `create` that succeeds. */
  predicate Creates(m: map<string, Audit>, key: Option<string>, url: string, now: int, faults: AdmissionFaults) {
    ValidateUrl(url).isValid && faults.find.None? && !AnyMatch(m, key, now - DEDUP_WINDOW) && key.Some? &&
    faults.create.None?
  }

  /** The resolver's body with `key` as the url it deduplicates on and stores;
      `launched` is the id handed to `startAuditProcess`, which runs on its own. */
  method CreateWith(store: AuditStore, redis: RedisStore, key: Option<string>, url: string, user: Option<string>,
                    now: int, faults: AdmissionFaults)
    returns (r: Result<Audit>, launched: Option<string>)
    requires store.Valid()
    modifies store`audits, store`log, redis`entries
    ensures store.Valid()
    ensures !ValidateUrl(url).isValid ==> r == Err(ErrorThrown(RejectionMessage(ValidateUrl(url))))
    ensures ValidateUrl(url).isValid && r.Err? ==> r == Err(ErrorThrown(FAILED_TO_START))
    ensures launched.Some? ==> r.Ok? && launched.value == r.value.id
    ensures ValidateUrl(url).isValid && faults.find.None? && AnyMatch(old(store.audits), key, now - DEDUP_WINDOW) ==>
              r.Ok? && launched.None?
    ensures r.Ok? && launched.None? ==>
              r.value.id in old(store.audits) && old(store.audits)[r.value.id] == r.value &&
              Matches(r.value, key, now - DEDUP_WINDOW)
    ensures Creates(old(store.audits), key, url, now, faults) ==>
              CreatedLast(old(store.log), store.log) &&
              var a := store.log[|old(store.log)|].audit;
              a.id !in old(store.audits) && a == NewAudit(a.id, key.value, user, now) &&
              store.audits == old(store.audits)[a.id := a] &&
              (redis.up ==> r == Ok(a) && launched == Some(a.id) &&
                            redis.entries == old(redis.entries)[AuditKey(a.id) := Entry(PENDING_SNAPSHOT, None)]) &&
              (!redis.up ==> r == Err(ErrorThrown(FAILED_TO_START)) && launched.None? &&
                             redis.entries == old(redis.entries))
    ensures !Creates(old(store.audits), key, url, now, faults) ==>
              store.audits == old(store.audits) && store.log == old(store.log) &&
              redis.entries == old(redis.entries) && launched.None?
  {
    launched := None;
    var validation := ValidateUrl(url);
    if !validation.isValid {
      return Err(ErrorThrown(RejectionMessage(validation))), None;
    }
    var recent := store.FindFirst(key, now - DEDUP_WINDOW, faults.find);
    if recent.Err? {
      return Err(ErrorThrown(FAILED_TO_START)), None;
    }
    if recent.value.Some? {
      return Ok(recent.value.value), None;
    }
    var created := store.Create(key, user, now, faults.create);
    if created.Err? {
      return Err(ErrorThrown(FAILED_TO_START)), None;
    }
    var audit := created.value;
    var seeded := redis.Set(AuditKey(audit.id), PENDING_SNAPSHOT);
    if seeded.Err? {
      return Err(ErrorThrown(FAILED_TO_START)), None;
    }
    return Ok(audit), Some(audit.id);
  }

  /** `createAudit` as written: it filters and creates with `validation.normalizedUrl`,
      a field the validation result never has, so the key is always undefined. */
  method CreateAudit(store: AuditStore, redis: RedisStore, url: string, user: Option<string>, now: int,
                     faults: AdmissionFaults)
    returns (r: Result<Audit>, launched: Option<string>)
    requires store.Valid()
    modifies store`audits, store`log, redis`entries
    ensures store.Valid()
    ensures store.audits == old(store.audits) && store.log == old(store.log) && redis.entries == old(redis.entries)
    ensures launched.None?
    ensures r.Ok? ==> r.value.id in old(store.audits) && r.value.createdAt >= now - DEDUP_WINDOW
    ensures ValidateUrl(url).isValid && faults.find.None? ==>
              (r.Ok? <==> AnyMatch(old(store.audits), None, now - DEDUP_WINDOW))
  {
    r, launched := CreateWith(store, redis, None, url, user, now, faults);
  }

  /** `createAudit` with the url it evidently means, the prefixed input. */
  method CreateAuditCorrected(store: AuditStore, redis: RedisStore, url: string, user: Option<string>, now: int,
                              faults: AdmissionFaults)
    returns (r: Result<Audit>, launched: Option<string>)
    requires store.Valid()
    modifies store`audits, store`log, redis`entries
    ensures store.Valid()
    ensures r.Ok? ==> r.value.url == WithProtocol(url)
    ensures r.Ok? && launched.None? ==> r.value.id in old(store.audits) && r.value.createdAt >= now - DEDUP_WINDOW
    ensures ValidateUrl(url).isValid && faults.find.None? && faults.create.None? && redis.up ==> r.Ok?
    ensures launched.Some? ==> r.Ok? && r.value.id !in old(store.audits) && r.value.status == Pending &&
                               r.value.userId == user &&
                               redis.entries == old(redis.entries)[AuditKey(r.value.id) := Entry(PENDING_SNAPSHOT, None)]
  {
    r, launched := CreateWith(store, redis, Some(WithProtocol(url)), url, user, now, faults);
  }

  /** The undefined key matches every audit of the last hour, whatever its url: an
      audit of `https://example.org` is returned for a request for `example.com`. */
  lemma AsWrittenDedupIgnoresUrl()
    ensures var a := NewAudit("c", "https://example.org", None, 0);
            Matches(a, None, 0) && a.url != WithProtocol("example.com") &&
            !Matches(a, Some(WithProtocol("example.com")), 0)
  {
    assert "example.com"[..4][0] != "http"[0];
    assert WithProtocol("example.com") == "https://example.com";
    assert "https://example.org"[18] != "https://example.com"[18];
  }

  /** With the prefixed url as key, a returned recent audit is one of that url only. */
  lemma CorrectedDedupMatchesUrl(a: Audit, url: string, since: int)
    ensures Matches(a, Some(WithProtocol(url)), since) <==> a.url == WithProtocol(url) && a.createdAt >= since
  {
  }
}
