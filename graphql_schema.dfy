/** The resolvers of the GraphYoga schema in `lib/graphql/schema.ts`: the `audit` and
    `audits` queries, the `createAudit` and `cancelAudit` mutations, the progress
    subscription, and `publishAuditProgress`. */
module GraphqlSchema {
  import opened Wrappers
  import opened Json
  import opened AuditStore
  import opened Redis
  import opened AuditCache
  import opened EdgeRoute

  const NOT_FOUND_OR_UNAUTHORIZED := ErrorThrown("Audit not found or unauthorized")
  const CANCELLED_BY_USER := "Cancelled by user"
  const DEFAULT_PAGE_SIZE := 10

  /** `audit(id)`: the row, or `null`. */
  method AuditById(store: AuditStore, id: string, fault: Option<Thrown>) returns (r: Result<Option<Audit>>)
    ensures fault.Some? ==> r == Err(fault.value)
    ensures fault.None? ==> r.Ok? && (r.value.Some? <==> id in store.audits)
    ensures fault.None? && r.value.Some? ==> r.value.value == store.audits[id]
  {
    r := store.FindUnique(id, fault);
  }

  datatype Edge = Edge(node: Audit, cursor: string)
  datatype PageInfo = PageInfo(hasNextPage: bool, endCursor: Option<string>)
  datatype Connection = Connection(edges: seq<Edge>, pageInfo: PageInfo)

  /** `take: first || 10`: an omitted or zero `first` takes ten. */
  function Take(first: Option<int>): (n: int)
    ensures first.None? || first.value == 0 ==> n == DEFAULT_PAGE_SIZE
    ensures first.Some? && first.value != 0 ==> n == first.value
  {
    if first.Some? && first.value != 0 then first.value else DEFAULT_PAGE_SIZE
  }

  /** The connection built from the rows `findMany` returned, in their order. */
  function ToConnection(audits: seq<Audit>, first: Option<int>): (c: Connection)
    ensures |c.edges| == |audits|
    ensures forall i :: 0 <= i < |audits| ==> c.edges[i].node == audits[i] && c.edges[i].cursor == audits[i].id
    ensures c.pageInfo.endCursor.None? <==> |audits| == 0
    ensures |audits| > 0 ==> c.pageInfo.endCursor == Some(audits[|audits| - 1].id)
    ensures c.pageInfo.hasNextPage <==> first.Some? && |audits| == first.value
  {
    var edges := seq(|audits|, i requires 0 <= i < |audits| => Edge(audits[i], audits[i].id));
    Connection(edges, PageInfo(first.Some? && |audits| == first.value,
                               if |audits| == 0 then None else Some(audits[|audits| - 1].id)))
  }

  /** Without `first` there is never a next page, however many rows remain. */
  lemma OmittedFirstHasNoNextPage(audits: seq<Audit>)
    ensures !ToConnection(audits, None).pageInfo.hasNextPage
  {
  }

  /** `first: 0` takes ten rows, yet reports a next page exactly when none came back. */
  lemma ZeroFirstInvertsNextPage(audits: seq<Audit>)
    ensures Take(Some(0)) == 10
    ensures ToConnection(audits, Some(0)).pageInfo.hasNextPage <==> audits == []
  {
  }

  /** What calling a name the module neither declares nor imports throws. */
  const START_NOT_DEFINED := ErrorThrown("startAuditProcess is not defined")

  /** The first two steps of `createAudit`, with no validation and no dedup: the
      `PENDING` row, then its initial snapshot under `audit:<id>`. */
  method CreateAndSeed(store: AuditStore, redis: RedisStore, url: string, user: Option<string>, now: int,
                       fault: Option<Thrown>)
    returns (r: Result<Audit>)
    requires store.Valid()
    modifies store`audits, store`log, redis`entries
    ensures store.Valid()
    ensures fault.Some? ==> r == Err(fault.value) && store.audits == old(store.audits) &&
                            store.log == old(store.log) && redis.entries == old(redis.entries)
    ensures fault.None? ==>
              CreatedLast(old(store.log), store.log) &&
              var a := store.log[|old(store.log)|].audit;
              a.id !in old(store.audits) && a == NewAudit(a.id, url, user, now) &&
              store.audits == old(store.audits)[a.id := a] &&
              (redis.up ==> r == Ok(a) &&
                            redis.entries == old(redis.entries)[AuditKey(a.id) := Entry(PENDING_SNAPSHOT, None)]) &&
              (!redis.up ==> r == Err(CONNECTION_ERROR) && redis.entries == old(redis.entries))
  {
    var created := store.Create(Some(url), user, now, fault);
    if created.Err? {
      return Err(created.error);
    }
    var seeded := redis.Set(AuditKey(created.value.id), PENDING_SNAPSHOT);
    if seeded.Err? {
      return Err(seeded.error);
    }
    return Ok(created.value);
  }

  /** The schema's `createAudit` as written: the launch calls `startAuditProcess`, which
      the module never imports, so once the row and the snapshot exist the mutation
      rejects with that error and no audit is started. */
  method CreateAudit(store: AuditStore, redis: RedisStore, url: string, user: Option<string>, now: int,
                     fault: Option<Thrown>)
    returns (r: Result<Audit>, launched: Option<string>)
    requires store.Valid()
    modifies store`audits, store`log, redis`entries
    ensures store.Valid()
    ensures fault.Some? ==> r == Err(fault.value) && launched.None? && store.audits == old(store.audits) &&
                            store.log == old(store.log) && redis.entries == old(redis.entries)
    ensures fault.None? ==>
              CreatedLast(old(store.log), store.log) &&
              var a := store.log[|old(store.log)|].audit;
              a.id !in old(store.audits) && a == NewAudit(a.id, url, user, now) &&
              store.audits == old(store.audits)[a.id := a] &&
              (redis.up ==> redis.entries == old(redis.entries)[AuditKey(a.id) := Entry(PENDING_SNAPSHOT, None)]) &&
              (!redis.up ==> r == Err(CONNECTION_ERROR) && launched.None? && redis.entries == old(redis.entries))
    ensures r.Err? && launched.None?
    ensures fault.None? && redis.up ==> r == Err(START_NOT_DEFINED)
  {
    var seeded := CreateAndSeed(store, redis, url, user, now, fault);
    if seeded.Err? {
      return Err(seeded.error), None;
    }
    return Err(START_NOT_DEFINED), None;
  }

  /** `createAudit` with `startAuditProcess` imported: the row is returned and its id
      handed to the process, whose rejection nobody handles. */
  method CreateAuditCorrected(store: AuditStore, redis: RedisStore, url: string, user: Option<string>, now: int,
                              fault: Option<Thrown>)
    returns (r: Result<Audit>, launched: Option<string>)
    requires store.Valid()
    modifies store`audits, store`log, redis`entries
    ensures store.Valid()
    ensures fault.Some? ==> r == Err(fault.value) && launched.None? && store.audits == old(store.audits) &&
                            store.log == old(store.log) && redis.entries == old(redis.entries)
    ensures fault.None? ==>
              CreatedLast(old(store.log), store.log) &&
              var a := store.log[|old(store.log)|].audit;
              a.id !in old(store.audits) && a == NewAudit(a.id, url, user, now) &&
              store.audits == old(store.audits)[a.id := a] &&
              (redis.up ==> redis.entries == old(redis.entries)[AuditKey(a.id) := Entry(PENDING_SNAPSHOT, None)]) &&
              (!redis.up ==> r == Err(CONNECTION_ERROR) && launched.None? && redis.entries == old(redis.entries))
    ensures fault.None? && redis.up ==>
              r.Ok? && r.value == store.log[|old(store.log)|].audit && launched == Some(r.value.id)
  {
    var seeded := CreateAndSeed(store, redis, url, user, now, fault);
    if seeded.Err? {
      return Err(seeded.error), None;
    }
    return seeded, Some(seeded.value.id);
  }

  /** `audit.userId !== user?.id` is false only for a signed-in owner: a `null` owner
      never equals an `undefined` caller. */
  predicate Owns(owner: Option<string>, user: Option<string>) {
    owner.Some? && user.Some? && owner.value == user.value
  }

  const CANCEL_PATCH := Patch(Some(Failed), None, Some(CANCELLED_BY_USER), None, None)

  /** `cancelAudit(id)`. */
  method CancelAudit(store: AuditStore, id: string, user: Option<string>, findFault: Option<Thrown>,
                     updateFault: Option<Thrown>)
    returns (r: Result<bool>)
    requires store.Valid()
    modifies store`audits, store`log
    ensures store.Valid()
    ensures findFault.Some? ==> r == Err(findFault.value)
    ensures findFault.None? && (id !in old(store.audits) || !Owns(old(store.audits)[id].userId, user)) ==>
              r == Err(NOT_FOUND_OR_UNAUTHORIZED)
    ensures r.Err? ==> store.audits == old(store.audits) && store.log == old(store.log)
    ensures r.Ok? ==> r.value && id in old(store.audits) && Owns(old(store.audits)[id].userId, user) &&
                      store.audits == old(store.audits)[id := Apply(old(store.audits)[id], CANCEL_PATCH)] &&
                      store.log == old(store.log) + [Updated(id, CANCEL_PATCH)]
    ensures findFault.None? && updateFault.None? && id in old(store.audits) && Owns(old(store.audits)[id].userId, user) ==>
              r == Ok(true)
  {
    var found := store.FindUnique(id, findFault);
    if found.Err? {
      return Err(found.error);
    }
    if found.value.None? || !Owns(found.value.value.userId, user) {
      return Err(NOT_FOUND_OR_UNAUTHORIZED);
    }
    var updated := store.Update(id, CANCEL_PATCH, updateFault);
    if updated.Err? {
      return Err(updated.error);
    }
    return Ok(true);
  }

  /** A cancelled audit is `FAILED` with the cancellation message, even if it had
      already completed; every other field is kept. */
  lemma CancelOverridesAnyStatus(a: Audit)
    ensures var b := Apply(a, CANCEL_PATCH);
            b.status == Failed && b.error == Some(CANCELLED_BY_USER) &&
            b == a.(status := Failed, error := Some(CANCELLED_BY_USER))
  {
  }

  /** Nobody may cancel an audit without owner, and an anonymous caller nothing. */
  lemma AnonymousNeverCancels(owner: Option<string>, user: Option<string>)
    requires owner.None? || user.None?
    ensures !Owns(owner, user)
  {
  }

  /** The `data` of `publishAuditProgress`; an absent optional field is left out of
      the stored JSON. */
  datatype ProgressData = ProgressData(status: AuditStatus, progress: int, currentStep: Option<string>,
                                       error: Option<string>)

  /** The published event `{ id, ...data }`. */
  datatype ProgressEvent = ProgressEvent(id: string, data: ProgressData)

  datatype Published = Published(topic: string, payload: ProgressEvent)

  function Optional(fields: map<string, Json>, key: string, v: Option<string>): (r: map<string, Json>)
    ensures forall k :: k in fields && k != key ==> k in r && r[k] == fields[k]
    ensures key in r <==> key in fields || v.Some?
    ensures v.Some? ==> r[key] == JStr(v.value)
    ensures r.Keys <= fields.Keys + {key}
  {
    if v.Some? then fields[key := JStr(v.value)] else fields
  }

  /** `JSON.stringify(data)`, which drops `undefined` fields. */
  function ProgressJson(d: ProgressData): (j: Json)
    ensures j.JObj? && "status" in j.fields && "progress" in j.fields
    ensures j.fields["status"] == JStr(StatusName(d.status)) && j.fields["progress"] == JNum(d.progress)
    ensures "currentStep" in j.fields <==> d.currentStep.Some?
    ensures "error" in j.fields <==> d.error.Some?
    ensures d.currentStep.Some? ==> j.fields["currentStep"] == JStr(d.currentStep.value)
    ensures d.error.Some? ==> j.fields["error"] == JStr(d.error.value)
    ensures j.fields.Keys <= {"status", "progress", "currentStep", "error"}
  {
    JObj(Optional(Optional(map["status" := JStr(StatusName(d.status)), "progress" := JNum(d.progress)],
                           "currentStep", d.currentStep), "error", d.error))
  }

  /** The in-process pub/sub channel: every event published, in order. */
  class PubSub {
    var events: seq<Published>

    constructor ()
      ensures events == []
    {
      events := [];
    }

    method Publish(topic: string, payload: ProgressEvent)
      modifies this`events
      ensures events == old(events) + [Published(topic, payload)]
    {
      events := events + [Published(topic, payload)];
    }
  }

  /** What a subscriber to `auditProgress(id)` receives: the payloads on `audit:<id>`. */
  function Delivered(events: seq<Published>, id: string): (r: seq<ProgressEvent>)
    ensures |r| <= |events|
  {
    if |events| == 0 then []
    else
      var last := events[|events| - 1];
      Delivered(events[..|events| - 1], id) + (if last.topic == AuditKey(id) then [last.payload] else [])
  }

  lemma DeliveredAppend(events: seq<Published>, e: Published, id: string)
    ensures Delivered(events + [e], id) ==
            Delivered(events, id) + (if e.topic == AuditKey(id) then [e.payload] else [])
  {
    assert (events + [e])[..|events + [e]| - 1] == events;
  }

  /** `publishAuditProgress(id, data)`: store the snapshot, then publish it with the id.
      A failed store write throws before anything is published. */
  method PublishAuditProgress(redis: RedisStore, pubSub: PubSub, id: string, d: ProgressData)
    returns (r: Result<bool>)
    modifies redis`entries, pubSub`events
    ensures redis.up ==> r.Ok? && redis.entries == old(redis.entries)[AuditKey(id) := Entry(ProgressJson(d), None)] &&
                         pubSub.events == old(pubSub.events) + [Published(AuditKey(id), ProgressEvent(id, d))]
    ensures !redis.up ==> r == Err(CONNECTION_ERROR) && redis.entries == old(redis.entries) &&
                          pubSub.events == old(pubSub.events)
  {
    var stored := redis.Set(AuditKey(id), ProgressJson(d));
    if stored.Err? {
      return Err(stored.error);
    }
    pubSub.Publish(AuditKey(id), ProgressEvent(id, d));
    return Ok(true);
  }

  /** A publish reaches exactly the subscribers of its own audit, carrying its id. */
  lemma PublishReachesOnlyItsAudit(events: seq<Published>, id: string, d: ProgressData, other: string)
    ensures Delivered(events + [Published(AuditKey(id), ProgressEvent(id, d))], id) ==
            Delivered(events, id) + [ProgressEvent(id, d)]
    ensures other != id ==>
              Delivered(events + [Published(AuditKey(id), ProgressEvent(id, d))], other) == Delivered(events, other)
  {
    DeliveredAppend(events, Published(AuditKey(id), ProgressEvent(id, d)), id);
    DeliveredAppend(events, Published(AuditKey(id), ProgressEvent(id, d)), other);
    AuditKeyInjective(id, other);
  }

  /** Every event delivered for `id` is an event about `id`, when only publishes made
      it into the channel. */
  predicate Wellformed(events: seq<Published>) {
    forall i :: 0 <= i < |events| ==> events[i].topic == AuditKey(events[i].payload.id)
  }

  lemma {:induction false} DeliveredAreAboutIt(events: seq<Published>, id: string)
    requires Wellformed(events)
    ensures forall i :: 0 <= i < |Delivered(events, id)| ==> Delivered(events, id)[i].id == id
  {
    if |events| > 0 {
      var last := events[|events| - 1];
      assert Wellformed(events[..|events| - 1]);
      DeliveredAreAboutIt(events[..|events| - 1], id);
      if last.topic == AuditKey(id) {
        AuditKeyInjective(last.payload.id, id);
      }
    }
  }

  /** Publishing then reading the edge endpoint round-trips the snapshot. */
  lemma PublishThenGetRoundTrips(m: map<string, Entry>, id: string, d: ProgressData, now: int)
    requires id != ""
    ensures HandleGet(m[AuditKey(id) := Entry(ProgressJson(d), None)], true, Some(id), now) ==
            Response(200, ProgressJson(d))
  {
  }
}
