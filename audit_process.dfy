/** `startAuditProcess`: the partial-failure-tolerant lifecycle. The audit is marked
    `RUNNING`, the five analyzers are joined with `allSettled`, and the audit is marked
    `COMPLETED` with every fulfilled value; any exception marks it `FAILED`. */
module AuditProcess {
  import opened Wrappers
  import opened Json
  import opened AuditStore

  const AUDIT_NOT_FOUND := ErrorThrown("Audit not found")

  /** The database's answer to each call the process makes: `findUnique`, the
      `RUNNING` update, the `COMPLETED` update and the `FAILED` update. */
  datatype ProcessFaults = ProcessFaults(find: Option<Thrown>, running: Option<Thrown>, completed: Option<Thrown>,
                                         failed: Option<Thrown>)

  /** `status === 'fulfilled' ? value : null`. */
  function Settled<T>(o: Outcome<T>): (r: Option<T>)
    ensures o.Fulfilled? <==> r.Some?
    ensures o.Fulfilled? ==> r.value == o.value
  {
    match o
    case Fulfilled(v) => Some(v)
    case Rejected(_) => None
  }

  /** The `results` object built from the settled analyzers. */
  function ResultsOf(o: Outcomes): (r: ProcessResults)
    ensures r.seo == Settled(o.seo) && r.performance == Settled(o.performance) &&
            r.accessibility == Settled(o.accessibility) && r.security == Settled(o.security) &&
            r.technologies == Settled(o.technologies)
  {
    ProcessResults(Settled(o.seo), Settled(o.performance), Settled(o.accessibility), Settled(o.security),
                   Settled(o.technologies))
  }

  function CompletedPatch(results: ProcessResults, now: int): Patch {
    Patch(Some(Completed), Some(now), None, Some(results), None)
  }

  function FailedPatch(e: Thrown, now: int): Patch {
    Patch(Some(Failed), Some(now), Some(ErrorMessage(e)), None, None)
  }

  /** The catch block: write `FAILED` with the message; if that write fails, the
      promise rejects with its error. */
  function CatchRun(m: map<string, Audit>, id: string, e: Thrown, writes: seq<Write>, f: ProcessFaults, now: int): Run {
    if f.failed.Some? then Run(m, writes, f.failed)
    else if id !in m then Run(m, writes, Some(RECORD_NOT_FOUND))
    else Run(m[id := Apply(m[id], FailedPatch(e, now))], writes + [Updated(id, FailedPatch(e, now))], None)
  }

  /** What `startAuditProcess(id)` does to the table. */
  function ProcessRun(m: map<string, Audit>, id: string, o: Outcomes, f: ProcessFaults, now: int): Run {
    if f.find.Some? then CatchRun(m, id, f.find.value, [], f, now)
    else if id !in m then CatchRun(m, id, AUDIT_NOT_FOUND, [], f, now)
    else if f.running.Some? then CatchRun(m, id, f.running.value, [], f, now)
    else
      var m1 := m[id := Apply(m[id], RUNNING_PATCH)];
      var w1 := [Updated(id, RUNNING_PATCH)];
      if f.completed.Some? then CatchRun(m1, id, f.completed.value, w1, f, now)
      else
        var done := CompletedPatch(ResultsOf(o), now);
        Run(m1[id := Apply(m1[id], done)], w1 + [Updated(id, done)], None)
  }

  /** `startAuditProcess(auditId)`; `escaped` is what its promise rejects with. */
  method StartAuditProcess(store: AuditStore, auditId: string, outcomes: Outcomes, faults: ProcessFaults, now: int)
    returns (escaped: Option<Thrown>)
    requires store.Valid()
    modifies store`audits, store`log
    ensures store.Valid()
    ensures var run := ProcessRun(old(store.audits), auditId, outcomes, faults, now);
            store.audits == run.audits && store.log == old(store.log) + run.writes && escaped == run.escaped
  {
    var thrown: Option<Thrown> := None;
    var found := store.FindUnique(auditId, faults.find);
    if found.Err? {
      thrown := Some(found.error);
    } else if found.value.None? {
      thrown := Some(AUDIT_NOT_FOUND);
    } else {
      var running := store.Update(auditId, RUNNING_PATCH, faults.running);
      if running.Err? {
        thrown := Some(running.error);
      } else {
        var results := ResultsOf(outcomes);
        var completed := store.Update(auditId, CompletedPatch(results, now), faults.completed);
        if completed.Err? {
          thrown := Some(completed.error);
        }
      }
    }
    if thrown.Some? {
      var failed := store.Update(auditId, FailedPatch(thrown.value, now), faults.failed);
      if failed.Err? {
        return Some(failed.error);
      }
    }
    return None;
  }

  /** `RUNNING` is the first write, and no write before the join carries results. */
  lemma RunningIsWrittenFirst(m: map<string, Audit>, id: string, o: Outcomes, f: ProcessFaults, now: int)
    requires f.find.None? && f.running.None? && id in m
    ensures var run := ProcessRun(m, id, o, f, now);
            |run.writes| >= 1 && run.writes[0] == Updated(id, RUNNING_PATCH) &&
            forall i :: 0 <= i < |run.writes| && run.writes[i].Updated? && run.writes[i].patch.results.Some? ==>
              0 < i && run.writes[i].patch.status == Some(Completed)
  {
  }

  /** Whatever the analyzers did, a clean run ends `COMPLETED` with every settled value
      in its slot and `completedAt` set. */
  lemma CompletedWhateverRejected(m: map<string, Audit>, id: string, o: Outcomes, f: ProcessFaults, now: int)
    requires id in m && f.find.None? && f.running.None? && f.completed.None?
    ensures var run := ProcessRun(m, id, o, f, now);
            run.escaped.None? && id in run.audits &&
            run.audits[id].status == Completed && run.audits[id].completedAt == Some(now) &&
            run.audits[id].results == Some(ResultsOf(o)) &&
            run.writes == [Updated(id, RUNNING_PATCH), Updated(id, CompletedPatch(ResultsOf(o), now))]
  {
  }

  /** A rejected analyzer leaves its own slot `null` and every other slot as it was. */
  lemma RejectionIsIsolated(o: Outcomes, e: Thrown)
    ensures ResultsOf(o.(seo := Rejected(e))) == ResultsOf(o).(seo := None)
    ensures ResultsOf(o.(performance := Rejected(e))) == ResultsOf(o).(performance := None)
    ensures ResultsOf(o.(accessibility := Rejected(e))) == ResultsOf(o).(accessibility := None)
    ensures ResultsOf(o.(security := Rejected(e))) == ResultsOf(o).(security := None)
    ensures ResultsOf(o.(technologies := Rejected(e))) == ResultsOf(o).(technologies := None)
  {
  }

  /** The first fault among the process's own calls. */
  function FirstFault(f: ProcessFaults): Option<Thrown> {
    if f.find.Some? then f.find else if f.running.Some? then f.running else f.completed
  }

  /** An exception inside the try marks the audit `FAILED` with its message and
      `completedAt`, when that write itself succeeds. */
  lemma ExceptionMarksFailed(m: map<string, Audit>, id: string, o: Outcomes, f: ProcessFaults, now: int)
    requires id in m && f.failed.None? && FirstFault(f).Some?
    ensures var run := ProcessRun(m, id, o, f, now);
            run.escaped.None? && id in run.audits && run.audits[id].status == Failed &&
            run.audits[id].error == Some(ErrorMessage(FirstFault(f).value)) &&
            run.audits[id].completedAt == Some(now)
  {
  }

  /** For a missing audit nothing is written or created: the `FAILED` write to the
      absent id is itself refused, and the promise rejects. */
  lemma MissingAuditCreatesNothing(m: map<string, Audit>, id: string, o: Outcomes, f: ProcessFaults, now: int)
    requires id !in m
    ensures var run := ProcessRun(m, id, o, f, now);
            run.audits == m && run.writes == [] && run.escaped.Some?
    ensures f.failed.None? ==> ProcessRun(m, id, o, f, now).escaped == Some(RECORD_NOT_FOUND)
  {
  }

  /** Only the row `id` is ever written; no row appears or disappears. */
  lemma OnlyItsAuditIsTouched(m: map<string, Audit>, id: string, o: Outcomes, f: ProcessFaults, now: int)
    ensures var run := ProcessRun(m, id, o, f, now);
            run.audits.Keys == m.Keys &&
            (forall k :: k in m && k != id ==> run.audits[k] == m[k]) &&
            (forall i :: 0 <= i < |run.writes| ==> run.writes[i].Updated? && run.writes[i].id == id)
  {
  }
}
