/** The network as the client sees it: the request it sends and the single
    outcome one `fetch` attempt ends in. Clocks, sockets and cancellation
    timers are not modelled; their effect is the outcome value. */
module Http {
  import opened Wrappers
  import opened Json

  /** Why a `fetch` promise rejected. */
  datatype Rejection =
    | AbortedByTimeout   // the abort controller fired before a response arrived
    | NetworkFailure     // connection refused, DNS failure, and the like

  /** One attempt: either `fetch` rejects, or a response arrives with a
      status, and reading its body with `response.json()` either yields a
      value (`Some`) or rejects because the body is not JSON (`None`). */
  datatype FetchOutcome =
    | Rejected(reason: Rejection)
    | Responded(status: int, body: Option<Json>)

  /** `response.ok`: the status is in the 200-299 range, that is, its
      hundreds digit is 2. */
  function IsOk(status: int): (ok: bool)
    ensures ok <==> status / 100 == 2
  {
    200 <= status <= 299
  }

  datatype HttpRequest = HttpRequest(
    verb: string,
    url: string,
    headers: map<string, string>,
    body: Option<Json>)
}
