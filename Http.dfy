/** What a `fetch` gives back, as the app reads it. */
module Http {
  import opened Wrappers
  import opened Js

  /**
   * `NoResponse`: the promise rejected (network failure). Otherwise the status and the
   * outcome of `res.json()`: `None` when the body is not JSON (the promise rejects).
   */
  datatype Reply = NoResponse | Response(status: int, body: Option<Value>)

  /** `res.ok` */
  predicate IsOk(status: int)
  {
    200 <= status <= 299
  }

  /** The parsed body of a successful reply, if the app gets that far. */
  function OkBody(reply: Reply): (r: Option<Value>)
    ensures r.Some? <==> reply.Response? && IsOk(reply.status) && reply.body.Some?
    ensures r.Some? ==> r == reply.body
  {
    if reply.Response? && IsOk(reply.status) then reply.body else None
  }
}
