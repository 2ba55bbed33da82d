/** `startAudit`: the all-or-nothing lifecycle. The audit (with its website) is looked
    up outside the try; the analyzers are joined with `Promise.all`, so one rejection
    fails the whole audit. */
module AuditService {
  import opened Wrappers
  import opened Json
  import opened AuditStore

  /** What reading `audit.website.url` throws when the audit has no website. */
  const WEBSITE_MISSING := ErrorThrown("Cannot read properties of null (reading 'url')")

  /** The database's answer to `findUnique`, the `RUNNING` update, the `COMPLETED`
      update and the `FAILED` update. */
  datatype ServiceFaults = ServiceFaults(find: Option<Thrown>, running: Option<Thrown>, completed: Option<Thrown>,
                                         failed: Option<Thrown>)

  predicate AllFulfilled(o: Outcomes) {
    o.seo.Fulfilled? && o.performance.Fulfilled? && o.accessibility.Fulfilled? && o.security.Fulfilled? &&
    o.technologies.Fulfilled?
  }

  /** The reason `Promise.all` rejects with: the first rejected analyzer in dispatch order. */
  function FirstRejection(o: Outcomes): (r: Option<Thrown>)
    ensures r.None? <==> AllFulfilled(o)
    ensures o.seo.Rejected? ==> r == Some(o.seo.reason)
    ensures o.seo.Fulfilled? && o.performance.Rejected? ==> r == Some(o.performance.reason)
    ensures o.seo.Fulfilled? && o.performance.Fulfilled? && o.accessibility.Rejected? ==>
              r == Some(o.accessibility.reason)
    ensures o.seo.Fulfilled? && o.performance.Fulfilled? && o.accessibility.Fulfilled? && o.security.Rejected? ==>
              r == Some(o.security.reason)
    ensures (o.seo.Fulfilled? && o.performance.Fulfilled? && o.accessibility.Fulfilled? && o.security.Fulfilled? &&
             o.technologies.Rejected?) ==> r == Some(o.technologies.reason)
  {
    if o.seo.Rejected? then Some(o.seo.reason)
    else if o.performance.Rejected? then Some(o.performance.reason)
    else if o.accessibility.Rejected? then Some(o.accessibility.reason)
    else if o.security.Rejected? then Some(o.security.reason)
    else if o.technologies.Rejected? then Some(o.technologies.reason)
    else None
  }

  /** The score and report columns taken from the five resolved values. */
  function Columns(o: Outcomes): (c: ScoreColumns)
    requires AllFulfilled(o)
    ensures c.seo == o.seo.value && c.performance == o.performance.value &&
            c.accessibility == o.accessibility.value && c.security == o.security.value &&
            c.technologies == o.technologies.value
  {
    ScoreColumns(o.seo.value, o.performance.value, o.accessibility.value, o.security.value, o.technologies.value)
  }

  function CompletedPatch(c: ScoreColumns): Patch {
    Patch(Some(Completed), None, None, None, Some(c))
  }

  function FailedPatch(e: Thrown): Patch {
    Patch(Some(Failed), None, Some(ErrorMessage(e)), None, None)
  }

  /** The catch block; an error of its own `FAILED` write escapes. */
  function CatchRun(m: map<string, Audit>, id: string, e: Thrown, writes: seq<Write>, f: ServiceFaults): Run {
    if f.failed.Some? then Run(m, writes, f.failed)
    else if id !in m then Run(m, writes, Some(RECORD_NOT_FOUND))
    else Run(m[id := Apply(m[id], FailedPatch(e))], writes + [Updated(id, FailedPatch(e))], None)
  }

  /** What `startAudit(id)` does to the table. */
  function ServiceRun(m: map<string, Audit>, id: string, o: Outcomes, f: ServiceFaults): Run {
    if f.find.Some? then Run(m, [], f.find)
    else if id !in m then Run(m, [], None)
    else if f.running.Some? then CatchRun(m, id, f.running.value, [], f)
    else
      var m1 := m[id := Apply(m[id], RUNNING_PATCH)];
      var w1 := [Updated(id, RUNNING_PATCH)];
      if m[id].website.None? then CatchRun(m1, id, WEBSITE_MISSING, w1, f)
      else if FirstRejection(o).Some? then CatchRun(m1, id, FirstRejection(o).value, w1, f)
      else if f.completed.Some? then CatchRun(m1, id, f.completed.value, w1, f)
      else
        var done := CompletedPatch(Columns(o));
        Run(m1[id := Apply(m1[id], done)], w1 + [Updated(id, done)], None)
  }

  /** `startAudit(auditId)`; `escaped` is what its promise rejects with. */
  method StartAudit(store: AuditStore, auditId: string, outcomes: Outcomes, faults: ServiceFaults)
    returns (escaped: Option<Thrown>)
    requires store.Valid()
    modifies store`audits, store`log
    ensures store.Valid()
    ensures var run := ServiceRun(old(store.audits), auditId, outcomes, faults);
            store.audits == run.audits && store.log == old(store.log) + run.writes && escaped == run.escaped
  {
    var found := store.FindUnique(auditId, faults.find);
    if found.Err? {
      return Some(found.error);
    }
    if found.value.None? {
      return None;
    }
    var audit := found.value.value;
    var thrown: Option<Thrown> := None;
    var running := store.Update(auditId, RUNNING_PATCH, faults.running);
    if running.Err? {
      thrown := Some(running.error);
    } else if audit.website.None? {
      thrown := Some(WEBSITE_MISSING);
    } else {
      var rejection := FirstRejection(outcomes);
      if rejection.Some? {
        thrown := rejection;
      } else {
        var completed := store.Update(auditId, CompletedPatch(Columns(outcomes)), faults.completed);
        if completed.Err? {
          thrown := Some(completed.error);
        }
      }
    }
    if thrown.Some? {
      var failed := store.Update(auditId, FailedPatch(thrown.value), faults.failed);
      if failed.Err? {
        return Some(failed.error);
      }
    }
    return None;
  }

  /** A missing audit is a silent no-op. */
  lemma MissingAuditWritesNothing(m: map<string, Audit>, id: string, o: Outcomes, f: ServiceFaults)
    requires f.find.None? && id !in m
    ensures ServiceRun(m, id, o, f) == Run(m, [], None)
  {
  }

  /** The lookup is outside the try: its error escapes and nothing is written. */
  lemma LookupErrorEscapes(m: map<string, Audit>, id: string, o: Outcomes, f: ServiceFaults)
    requires f.find.Some?
    ensures ServiceRun(m, id, o, f) == Run(m, [], f.find)
  {
  }

  /** When every analyzer resolves, the audit is `COMPLETED` with all five columns. */
  lemma AllFulfilledCompletes(m: map<string, Audit>, id: string, o: Outcomes, f: ServiceFaults)
    requires id in m && m[id].website.Some? && AllFulfilled(o)
    requires f.find.None? && f.running.None? && f.completed.None?
    ensures var run := ServiceRun(m, id, o, f);
            run.escaped.None? && id in run.audits && run.audits[id].status == Completed &&
            run.audits[id].columns == Some(ScoreColumns(o.seo.value, o.performance.value, o.accessibility.value,
                                                        o.security.value, o.technologies.value))
  {
  }

  /** All or nothing: one rejected analyzer fails the audit with its message, and no
      score column is written. */
  lemma AnyRejectionFails(m: map<string, Audit>, id: string, o: Outcomes, f: ServiceFaults)
    requires id in m && m[id].website.Some? && !AllFulfilled(o)
    requires f.find.None? && f.running.None? && f.failed.None?
    ensures FirstRejection(o).Some?
    ensures var run := ServiceRun(m, id, o, f);
            run.escaped.None? && id in run.audits && run.audits[id].status == Failed &&
            run.audits[id].error == Some(ErrorMessage(FirstRejection(o).value)) &&
            run.audits[id].columns == m[id].columns && run.audits[id].results == m[id].results
  {
  }

  /** An audit without a website always fails, whatever the analyzers would do. */
  lemma NoWebsiteFails(m: map<string, Audit>, id: string, o: Outcomes, f: ServiceFaults)
    requires id in m && m[id].website.None? && f.find.None? && f.running.None? && f.failed.None?
    ensures var run := ServiceRun(m, id, o, f);
            id in run.audits && run.audits[id].status == Failed &&
            run.audits[id].error == Some("Cannot read properties of null (reading 'url')")
  {
  }

  /** The rows a run leaves: the same keys, `completedAt` kept, every other row as it was. */
  predicate KeepsRows(m: map<string, Audit>, id: string, after: map<string, Audit>) {
    after.Keys == m.Keys &&
    forall k :: k in m ==> after[k].completedAt == m[k].completedAt && (k != id ==> after[k] == m[k])
  }

  lemma CatchKeepsRows(m: map<string, Audit>, id: string, e: Thrown, writes: seq<Write>, f: ServiceFaults)
    ensures KeepsRows(m, id, CatchRun(m, id, e, writes, f).audits)
  {
  }

  /** `startAudit` never sets `completedAt`, touches no other row and creates none. */
  lemma CompletedAtNeverSet(m: map<string, Audit>, id: string, o: Outcomes, f: ServiceFaults)
    ensures KeepsRows(m, id, ServiceRun(m, id, o, f).audits)
  {
    if f.find.None? && id in m {
      CatchKeepsRows(m, id, if f.running.Some? then f.running.value else WEBSITE_MISSING, [], f);
      if f.running.None? {
        var m1 := m[id := Apply(m[id], RUNNING_PATCH)];
        assert KeepsRows(m, id, m1);
        var e := if m[id].website.None? then WEBSITE_MISSING
                 else if FirstRejection(o).Some? then FirstRejection(o).value
                 else if f.completed.Some? then f.completed.value else WEBSITE_MISSING;
        CatchKeepsRows(m1, id, e, [Updated(id, RUNNING_PATCH)], f);
      }
    }
  }
}
