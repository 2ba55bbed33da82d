/** The `audit` table as the lifecycle and admission code see it through Prisma:
    unique lookup, the recent-audit `findFirst`, `create` and `update`, with a log of
    the writes. Every call takes the error the database answers it with, if any. */
module AuditStore {
  import opened Wrappers
  import opened Json

  datatype AuditStatus = Pending | Running | Completed | Failed

  function StatusName(s: AuditStatus): string {
    match s
    case Pending => "PENDING"
    case Running => "RUNNING"
    case Completed => "COMPLETED"
    case Failed => "FAILED"
  }

  /** An analyzer's resolved `{ score, report }`. */
  datatype Scored = Scored(score: int, report: Json)

  /** How one analyzer's promise settled. */
  datatype Outcome<+T> = Fulfilled(value: T) | Rejected(reason: Thrown)

  /** The five analyzers in dispatch order: SEO, performance, accessibility,
      security headers, technologies. */
  datatype Outcomes = Outcomes(seo: Outcome<Scored>, performance: Outcome<Scored>, accessibility: Outcome<Scored>,
                               security: Outcome<Scored>, technologies: Outcome<Json>)

  /** The `results` column `startAuditProcess` writes: each value, or `null`. */
  datatype ProcessResults = ProcessResults(seo: Option<Scored>, performance: Option<Scored>,
                                           accessibility: Option<Scored>, security: Option<Scored>,
                                           technologies: Option<Json>)

  /** The score and report columns `startAudit` writes. */
  datatype ScoreColumns = ScoreColumns(seo: Scored, performance: Scored, accessibility: Scored, security: Scored,
                                       technologies: Json)

  /** An audit row; `website` is the url of the related website record, if any. */
  datatype Audit = Audit(id: string, url: string, status: AuditStatus, userId: Option<string>, createdAt: int,
                         completedAt: Option<int>, error: Option<string>, results: Option<ProcessResults>,
                         columns: Option<ScoreColumns>, website: Option<string>)

  /** The `data` of an `update`: the fields it sets. */
  datatype Patch = Patch(status: Option<AuditStatus>, completedAt: Option<int>, error: Option<string>,
                         results: Option<ProcessResults>, columns: Option<ScoreColumns>)

  datatype Write = Created(audit: Audit) | Updated(id: string, patch: Patch)

  /** The effect of one lifecycle run: the rows after it, the writes it made in
      order, and the error its promise rejects with, if any. */
  datatype Run = Run(audits: map<string, Audit>, writes: seq<Write>, escaped: Option<Thrown>)

  /** `data: { status: 'RUNNING' }`. */
  const RUNNING_PATCH := Patch(Some(Running), None, None, None, None)

  const RECORD_NOT_FOUND := ErrorThrown("Record to update not found.")
  const MISSING_URL := ErrorThrown("Argument `url` is missing.")

  function Pick<T>(update: Option<T>, current: T): (r: T)
    ensures update.Some? ==> r == update.value
    ensures update.None? ==> r == current
  {
    if update.Some? then update.value else current
  }

  /** The row after an `update`: the patched fields are replaced, the others kept. */
  function Apply(a: Audit, p: Patch): (b: Audit)
    ensures b.id == a.id && b.url == a.url && b.userId == a.userId && b.createdAt == a.createdAt &&
            b.website == a.website
    ensures b.status == Pick(p.status, a.status) && b.completedAt == (if p.completedAt.Some? then p.completedAt else a.completedAt)
    ensures b.error == (if p.error.Some? then p.error else a.error)
    ensures b.results == (if p.results.Some? then p.results else a.results)
    ensures b.columns == (if p.columns.Some? then p.columns else a.columns)
  {
    a.(status := Pick(p.status, a.status),
       completedAt := if p.completedAt.Some? then p.completedAt else a.completedAt,
       error := if p.error.Some? then p.error else a.error,
       results := if p.results.Some? then p.results else a.results,
       columns := if p.columns.Some? then p.columns else a.columns)
  }

  /** A patch that gives no field leaves the row as it was. */
  lemma EmptyPatchKeepsRow(a: Audit)
    ensures Apply(a, Patch(None, None, None, None, None)) == a
  {
  }

  /** Updates are idempotent: applying the same patch twice is applying it once. */
  lemma ApplyTwiceIsApplyOnce(a: Audit, p: Patch)
    ensures Apply(Apply(a, p), p) == Apply(a, p)
  {
  }

  /** A fresh `PENDING` row. */
  function NewAudit(id: string, url: string, userId: Option<string>, now: int): (a: Audit)
    ensures a.id == id && a.url == url && a.status == Pending && a.userId == userId && a.createdAt == now
    ensures a.completedAt.None? && a.error.None? && a.results.None? && a.columns.None? && a.website.None?
  {
    Audit(id, url, Pending, userId, now, None, None, None, None, None)
  }

  /** The `findFirst` filter `{ url, createdAt: { gte: since } }`; an `undefined`
      url (`None`) puts no condition on the url. */
  predicate Matches(a: Audit, url: Option<string>, since: int) {
    (url.None? || a.url == url.value) && a.createdAt >= since
  }

  /** Some row satisfies the filter. */
  predicate AnyMatch(m: map<string, Audit>, url: Option<string>, since: int) {
    exists k :: k in m && Matches(m[k], url, since)
  }

  function Lookup(m: map<string, Audit>, id: string): (r: Option<Audit>)
    ensures r.Some? <==> id in m
    ensures r.Some? ==> r.value == m[id]
  {
    if id in m then Some(m[id]) else None
  }

  /** An id no row has yet: one character longer than every id in use. */
  method FreshId(m: map<string, Audit>) returns (id: string)
    ensures id !in m
  {
    var n: nat := 0;
    var rest := m.Keys;
    while rest != {}
      invariant rest <= m.Keys
      invariant forall k :: k in m && k !in rest ==> |k| < n
      decreases rest
    {
      var k :| k in rest;
      if |k| >= n {
        n := |k| + 1;
      }
      rest := rest - {k};
    }
    id := seq(n, i => 'c');
  }

  class AuditStore {
    var audits: map<string, Audit>
    var log: seq<Write>

    /** Every row is filed under its own id. */
    predicate Valid()
      reads this
    {
      forall k :: k in audits ==> audits[k].id == k
    }

    constructor ()
      ensures audits == map[] && log == [] && Valid()
    {
      audits := map[];
      log := [];
    }

    /** `findUnique({ where: { id } })`. */
    method FindUnique(id: string, fault: Option<Thrown>) returns (r: Result<Option<Audit>>)
      ensures fault.Some? ==> r == Err(fault.value)
      ensures fault.None? ==> r == Ok(Lookup(audits, id))
    {
      if fault.Some? { return Err(fault.value); }
      r := Ok(Lookup(audits, id));
    }

    /** `findFirst` over the recent-audit filter: some matching row, or none. */
    method FindFirst(url: Option<string>, since: int, fault: Option<Thrown>) returns (r: Result<Option<Audit>>)
      requires Valid()
      ensures fault.Some? ==> r == Err(fault.value)
      ensures fault.None? ==> r.Ok?
      ensures fault.None? && r.value.Some? ==>
                r.value.value.id in audits && audits[r.value.value.id] == r.value.value &&
                Matches(r.value.value, url, since)
      ensures fault.None? && r.value.None? ==> forall k :: k in audits ==> !Matches(audits[k], url, since)
    {
      if fault.Some? { return Err(fault.value); }
      if AnyMatch(audits, url, since) {
        var k :| k in audits && Matches(audits[k], url, since);
        return Ok(Some(audits[k]));
      }
      r := Ok(None);
    }

    /** `create({ data: { url, status: 'PENDING', userId } })`; a missing url is
        refused before the query is sent. */
    method Create(url: Option<string>, userId: Option<string>, now: int, fault: Option<Thrown>)
      returns (r: Result<Audit>)
      requires Valid()
      modifies this`audits, this`log
      ensures Valid()
      ensures url.None? ==> r == Err(MISSING_URL)
      ensures url.Some? && fault.Some? ==> r == Err(fault.value)
      ensures r.Err? ==> audits == old(audits) && log == old(log)
      ensures url.Some? && fault.None? ==>
                r.Ok? && r.value.id !in old(audits) && r.value == NewAudit(r.value.id, url.value, userId, now) &&
                audits == old(audits)[r.value.id := r.value] && log == old(log) + [Created(r.value)]
    {
      if url.None? { return Err(MISSING_URL); }
      if fault.Some? { return Err(fault.value); }
      var id := FreshId(audits);
      var a := NewAudit(id, url.value, userId, now);
      audits := audits[id := a];
      log := log + [Created(a)];
      r := Ok(a);
    }

    /** `update({ where: { id }, data })`; a missing row is an error. */
    method Update(id: string, patch: Patch, fault: Option<Thrown>) returns (r: Result<Audit>)
      requires Valid()
      modifies this`audits, this`log
      ensures Valid()
      ensures fault.Some? ==> r == Err(fault.value)
      ensures fault.None? && id !in old(audits) ==> r == Err(RECORD_NOT_FOUND)
      ensures r.Err? ==> audits == old(audits) && log == old(log)
      ensures fault.None? && id in old(audits) ==>
                r == Ok(Apply(old(audits)[id], patch)) && audits == old(audits)[id := r.value] &&
                log == old(log) + [Updated(id, patch)]
    {
      if fault.Some? { return Err(fault.value); }
      if id !in audits { return Err(RECORD_NOT_FOUND); }
      var a := Apply(audits[id], patch);
      audits := audits[id := a];
      log := log + [Updated(id, patch)];
      r := Ok(a);
    }
  }

  /** The log grew by exactly one write, a creation. */
  predicate CreatedLast(before: seq<Write>, after: seq<Write>) {
    |after| == |before| + 1 && after[..|before|] == before && after[|before|].Created?
  }

  /** A row whose filter-relevant fields are unchanged by a patch keeps matching. */
  lemma PatchKeepsMatch(a: Audit, p: Patch, url: Option<string>, since: int)
    ensures Matches(Apply(a, p), url, since) <==> Matches(a, url, since)
  {
  }
}
