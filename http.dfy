/**
 * What a route handler sends back and what its single upstream call can
 * come back with.  The upstream call itself is not modelled: its outcome is
 * an input of every handler.
 */
module Http {
  import opened Wrappers
  import opened Js

  /** `res.status(status).json(body)`; `res.json(body)` is status 200. */
  datatype Reply = Reply(status: int, body: Json)

  /**
   * The settled `axios.get` promise.  axios rejects on every non-2xx status,
   * with `error.response` carrying it (ErrorResponse), and rejects without
   * a response when the request never got one (NoResponse).
   */
  datatype AxiosOutcome =
    | Resolved(data: Json)
    | ErrorResponse(status: int, statusText: string, data: Json)
    | NoResponse(message: string)

  /**
   * `fetch` followed by `response.json()`: either both succeed, giving
   * `response.ok` and the decoded body, or one of them rejects with `message`
   * (network failure, body that is not JSON).
   */
  datatype FetchOutcome =
    | Received(ok: bool, data: Json)
    | Rejected(message: string)

  /** `${process.env.X}` inside a template literal: an unset variable prints "undefined". */
  function EnvText(v: Option<string>): string {
    match v
    case None => "undefined"
    case Some(s) => s
  }

  /** `!process.env.X` is false: the variable is set and not empty. */
  predicate EnvSet(v: Option<string>) {
    v.Some? && v.value != ""
  }
}
