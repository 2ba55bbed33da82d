/** The edge `GET /api/edge/audit?id=…` handler: a read-only snapshot lookup. */
module EdgeRoute {
  import opened Wrappers
  import opened Json
  import opened Redis
  import opened AuditCache

  datatype Response = Response(status: int, body: Json)

  const MISSING_ID := Response(400, JObj(map["error" := JStr("Audit ID is required")]))
  const NOT_FOUND := Response(404, JObj(map["status" := JStr("NOT_FOUND")]))
  const SERVER_ERROR := Response(500, JObj(map["error" := JStr("Internal Server Error")]))

  /** `id` is `searchParams.get('id')`; `up` is whether the store answers. */
  function HandleGet(m: map<string, Entry>, up: bool, id: Option<string>, now: int): (r: Response)
    ensures !Truthy(id) ==> r == MISSING_ID
    ensures Truthy(id) && !up ==> r == SERVER_ERROR
    ensures Truthy(id) && up ==>
              match Lookup(m, AuditKey(id.value), now)
              case Some(v) => r == Response(200, v)
              case None => r == NOT_FOUND
  {
    if !Truthy(id) then MISSING_ID
    else if !up then SERVER_ERROR
    else match Lookup(m, AuditKey(id.value), now)
      case Some(v) => Response(200, v)
      case None => NOT_FOUND
  }

  /** The status is one of the four the handler writes, and 200 carries a stored snapshot. */
  lemma ResponsesAreClassified(m: map<string, Entry>, up: bool, id: Option<string>, now: int)
    ensures HandleGet(m, up, id, now).status in {200, 400, 404, 500}
    ensures HandleGet(m, up, id, now).status == 200 <==>
              Truthy(id) && up && Lookup(m, AuditKey(id.value), now).Some?
  {
  }
}
