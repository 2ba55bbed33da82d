/** JSON values. Redis holds `JSON.stringify` output; `JSON.parse` of it gives the
    value back, so the model stores the values themselves. */
module Json {

  datatype Json =
    | JNull
    | JBool(b: bool)
    | JNum(n: int)
    | JStr(s: string)
    | JArr(items: seq<Json>)
    | JObj(fields: map<string, Json>)
}
