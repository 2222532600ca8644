/**
 * JSON values as the web handlers emit them, and the HTTP response a
 * handler produces (a status code and a JSON body).
 */
module Json {
  import opened Common

  datatype Json =
    | JNull
    | JBool(b: bool)
    | JNum(n: int)
    | JStr(s: string)
    | JArr(items: seq<Json>)
    | JObj(fields: map<string, Json>)

  datatype Http = Http(status: int, body: Json)

  /** `None` serialises as `null`. */
  function OptStr(o: Option<string>): Json {
    if o.Some? then JStr(o.value) else JNull
  }

  /** A body holding one message under `key` (`{"detail": ...}`, `{"error": ...}`). */
  function MessageBody(key: string, msg: string): (j: Json)
    ensures j.JObj? && j.fields.Keys == {key} && j.fields[key] == JStr(msg)
  {
    JObj(map[key := JStr(msg)])
  }

  predicate IsSuccess(h: Http) {
    200 <= h.status < 300
  }
}
