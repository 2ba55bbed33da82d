/** The tRPC `audit` router: `create` (input schema, validation, the one-hour dedup on
    the raw input url, creation with the session user) and `getStatus`. */
module AuditRouter {
  import opened Wrappers
  import opened Url
  import opened Validation
  import opened AuditStore
  import opened AuditResolver

  datatype Code = BadRequest | NotFound | InternalServerError
  datatype TrpcError = TrpcError(code: Code, message: string)

  /** A procedure's answer: a value, a `TRPCError`, or another error that escapes. */
  datatype Reply<+T> = Done(value: T) | Refused(error: TrpcError) | Escaped(thrown: Thrown)

  /** zod's message for a string that is not a url. */
  const ZOD_INVALID_URL := "Invalid url"
  const FAILED_TO_CREATE := "Failed to create audit"
  const AUDIT_NOT_FOUND := "Audit not found"

  /** The input schema `z.object({ url: z.string().url() })`. */
  predicate InputIsUrl(input: string) {
    ParseUrl(input).Some?
  }

  /** The guard under which `create` makes a new row. */
  predicate RouterCreates(m: map<string, Audit>, input: string, now: int, faults: AdmissionFaults) {
    InputIsUrl(input) && ValidateUrl(input).isValid && faults.find.None? &&
    !AnyMatch(m, Some(input), now - DEDUP_WINDOW) && faults.create.None?
  }

  /** `create`; `launched` is the id handed to `startAuditProcess` in the background. */
  method Create(store: AuditStore, input: string, session: Option<string>, now: int, faults: AdmissionFaults)
    returns (r: Reply<Audit>, launched: Option<string>)
    requires store.Valid()
    modifies store`audits, store`log
    ensures store.Valid()
    ensures !r.Escaped?
    ensures !InputIsUrl(input) ==> r == Refused(TrpcError(BadRequest, ZOD_INVALID_URL))
    ensures InputIsUrl(input) && !ValidateUrl(input).isValid ==>
              r == Refused(TrpcError(BadRequest, RejectionMessage(ValidateUrl(input))))
    ensures InputIsUrl(input) && ValidateUrl(input).isValid && r.Refused? ==>
              r.error == TrpcError(InternalServerError, FAILED_TO_CREATE)
    ensures (InputIsUrl(input) && ValidateUrl(input).isValid && faults.find.None? &&
             AnyMatch(old(store.audits), Some(input), now - DEDUP_WINDOW)) ==> r.Done? && launched.None?
    ensures r.Done? && launched.None? ==>
              r.value.id in old(store.audits) && old(store.audits)[r.value.id] == r.value &&
              r.value.url == input && r.value.createdAt >= now - DEDUP_WINDOW
    ensures RouterCreates(old(store.audits), input, now, faults) ==>
              r.Done? && launched == Some(r.value.id) && r.value.id !in old(store.audits) &&
              r.value == NewAudit(r.value.id, input, session, now) &&
              store.audits == old(store.audits)[r.value.id := r.value] && store.log == old(store.log) + [Created(r.value)]
    ensures !RouterCreates(old(store.audits), input, now, faults) ==>
              store.audits == old(store.audits) && store.log == old(store.log) && launched.None?
  {
    launched := None;
    if !InputIsUrl(input) {
      return Refused(TrpcError(BadRequest, ZOD_INVALID_URL)), None;
    }
    var validation := ValidateUrl(input);
    if !validation.isValid {
      return Refused(TrpcError(BadRequest, RejectionMessage(validation))), None;
    }
    var recent := store.FindFirst(Some(input), now - DEDUP_WINDOW, faults.find);
    if recent.Err? {
      return Refused(TrpcError(InternalServerError, FAILED_TO_CREATE)), None;
    }
    if recent.value.Some? {
      return Done(recent.value.value), None;
    }
    var created := store.Create(Some(input), session, now, faults.create);
    if created.Err? {
      return Refused(TrpcError(InternalServerError, FAILED_TO_CREATE)), None;
    }
    return Done(created.value), Some(created.value.id);
  }

  /** `getStatus`: the stored row, or `NOT_FOUND`; nothing is written. */
  method GetStatus(store: AuditStore, id: string, fault: Option<Thrown>) returns (r: Reply<Audit>)
    ensures fault.Some? ==> r == Escaped(fault.value)
    ensures fault.None? ==> (r.Done? <==> id in store.audits)
    ensures fault.None? && r.Done? ==> r.value == store.audits[id]
    ensures fault.None? && !r.Done? ==> r == Refused(TrpcError(NotFound, AUDIT_NOT_FOUND))
  {
    var found := store.FindUnique(id, fault);
    if found.Err? {
      return Escaped(found.error);
    }
    if found.value.None? {
      return Refused(TrpcError(NotFound, AUDIT_NOT_FOUND));
    }
    return Done(found.value.value);
  }

  /** The window is inclusive: an audit exactly one hour old still counts as recent. */
  lemma WindowIsInclusive(a: Audit, input: string, now: int)
    requires a.url == input && a.createdAt == now - DEDUP_WINDOW
    ensures Matches(a, Some(input), now - DEDUP_WINDOW)
    ensures !Matches(a, Some(input), now + 1 - DEDUP_WINDOW)
  {
  }
}
