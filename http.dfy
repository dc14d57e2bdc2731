/**
 * The slice of Express the handlers use: the authenticated user `authenticateToken` puts on
 * `req.user`, the route and query parameters, the parsed JSON body, and a response that can
 * be sent once.
 */
module Http {
  import opened Wrappers
  import opened Json
  import opened Store

  /** `req.user`: the `_id` and `role` of the account behind the bearer token. */
  datatype Actor = Actor(id: Id, role: string)

  /**
   * A request: `user` is `None` when no account is attached; route and query parameters are
   * strings (an absent one is `undefined`).
   */
  datatype Request = Request(
    user: Option<Actor>,
    params: map<string, string>,
    query: map<string, string>,
    body: Object)

  /** `!req.user || !req.user._id`. */
  predicate Anonymous(req: Request) {
    req.user.None? || req.user.value.id == ""
  }

  /** `req.params[k]` or `req.query[k]` read as a truthy string. */
  predicate Given(m: map<string, string>, k: string) {
    k in m && m[k] != ""
  }

  /** `res`: `headersSent` turns true with the first `res.status(..).json(..)`. */
  datatype Response = Response(headersSent: bool, status: int, body: Json)

  const Unsent := Response(false, 0, Null)

  /** `res.status(status).json(body)`; sending a second time is a programming error. */
  function Send(res: Response, status: int, body: Json): (r: Response)
    requires !res.headersSent
    ensures r.headersSent
  {
    Response(true, status, body)
  }

  /** `{ message }`. */
  function Message(m: string): Json {
    Obj(map["message" := Str(m)])
  }

  /** `{ message, data }`. */
  function MessageData(m: string, data: Json): Json {
    Obj(map["message" := Str(m), "data" := data])
  }

  /** The body every `catch` block answers with (the exception's own text is not modelled). */
  const ServerError: Json := Message("Error in server")

  /** A 500 response from a handler's `catch`. */
  function Failed(): (r: Response)
    ensures r.headersSent && r.status == 500
  {
    Send(Unsent, 500, ServerError)
  }
}
