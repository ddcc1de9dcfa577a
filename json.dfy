/**
 * JavaScript values as the pages see them after `response.json()`, the
 * truthiness tests the code applies to them, and the request helpers
 * `apiGet`/`apiPost` reduced to how they classify a reply.
 */
module Json {
  import opened Wrappers

  datatype JsValue =
    | JUndefined
    | JNull
    | JBool(b: bool)
    | JNumber(n: int)
    | JString(s: string)
    | JArray(items: seq<JsValue>)
    | JObject(members: map<string, JsValue>)

  /** JavaScript's `if (v)` (integers only, so no NaN). */
  predicate Truthy(v: JsValue) {
    match v
    case JUndefined => false
    case JNull => false
    case JBool(b) => b
    case JNumber(n) => n != 0
    case JString(s) => s != ""
    case _ => true
  }

  /** `v.key` for a member the prototype chain does not supply. */
  function Member(v: JsValue, key: string): (r: JsValue)
    ensures r != JUndefined ==> v.JObject? && key in v.members && r == v.members[key]
  {
    if v.JObject? && key in v.members then v.members[key] else JUndefined
  }

  /** What `fetch` hands back: a thrown network error, or a status and a body that may not parse as JSON. */
  datatype HttpReply =
    | NetworkFailure
    | Response(status: int, body: Option<JsValue>)

  datatype ApiError = FetchFailed | HttpStatus(status: int) | BadBody

  /** `Response.ok` */
  predicate StatusOk(status: int) { 200 <= status <= 299 }

  /** The shared shape of `apiGet` and `apiPost`: throw on a failed fetch or a non-2xx status, else parse JSON. */
  function ApiCall(reply: HttpReply): (r: Result<JsValue, ApiError>)
    ensures r.Ok? <==> reply.Response? && StatusOk(reply.status) && reply.body.Some?
    ensures r.Ok? ==> r.value == reply.body.value
    ensures r == Err(FetchFailed) <==> reply.NetworkFailure?
    ensures r.Err? && r.error.HttpStatus? <==> reply.Response? && !StatusOk(reply.status)
    ensures r.Err? && r.error.HttpStatus? ==> r.error.status == reply.status
  {
    match reply
    case NetworkFailure => Err(FetchFailed)
    case Response(status, body) =>
      if !StatusOk(status) then Err(HttpStatus(status))
      else if body.None? then Err(BadBody)
      else Ok(body.value)
  }
}
