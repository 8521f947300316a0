/** `ResponseUtil`: the two shapes every HTTP handler answers with. Only the
    dictionary handed to `jsonify` and the status code are modelled. */
module ResponseUtil {
  import opened Records

  datatype Json =
    | JNull
    | JBool(b: bool)
    | JInt(i: int)
    | JString(s: string)
    | JList(items: seq<Json>)
    | JObject(fields: map<string, Json>)

  datatype Response = Response(body: map<string, Json>, status: int)

  /** `ResponseUtil.success(data)`: status 200, `success` true, and `data`
      passed through, with `None` replaced by an empty object. */
  function Success(data: Json): (r: Response)
    ensures r.status == 200
    ensures r.body.Keys == {"success", "data"}
    ensures r.body["success"] == JBool(true)
    ensures data != JNull ==> r.body["data"] == data
    ensures data == JNull ==> r.body["data"] == JObject(map[])
  {
    var payload := if data == JNull then JObject(map[]) else data;
    Response(map["success" := JBool(true), "data" := payload], 200)
  }

  /** The cause `error` supplies when the caller gives none. */
  function DefaultCause(status: int): (cause: string)
    ensures status == 400 ==> cause == "Missing one or more fields"
    ensures status == 403 ==> cause == "Invalid API key"
    ensures status == 422 ==> cause == "Malformed parameter"
    ensures status !in {400, 403, 422} ==> cause == "InternalError"
  {
    if status == 400 then "Missing one or more fields"
    else if status == 403 then "Invalid API key"
    else if status == 422 then "Malformed parameter"
    else "InternalError"
  }

  /** `ResponseUtil.error(status, cause)`: the status unchanged, `success`
      false, and the cause given or else the default for the status. */
  function Error(status: int, cause: Option<string>): (r: Response)
    ensures r.status == status
    ensures r.body.Keys == {"success", "cause"}
    ensures r.body["success"] == JBool(false)
    ensures cause.Some? ==> r.body["cause"] == JString(cause.value)
    ensures cause.None? ==> r.body["cause"] == JString(DefaultCause(status))
  {
    var text := if cause.Some? then cause.value else DefaultCause(status);
    Response(map["success" := JBool(false), "cause" := JString(text)], status)
  }

  /** A client tells the two shapes apart by the `success` key alone, and an
      error never carries `data`. */
  lemma ShapesDistinguishable(data: Json, status: int, cause: Option<string>)
    ensures Success(data).body["success"] != Error(status, cause).body["success"]
    ensures "data" !in Error(status, cause).body && "cause" !in Success(data).body
  {
  }

  /** Only the three documented statuses get a specific default cause. */
  lemma DefaultCauseTable(status: int)
    ensures DefaultCause(status) != "InternalError" <==> status in {400, 403, 422}
  {
  }
}
