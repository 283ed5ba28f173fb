/**
 * What a `fetch` of a geolocation endpoint can come back with. The
 * widgets never see the network itself; each run of a widget is given the
 * outcome of its request(s) as an input.
 */
module Network {
  import opened JsValues

  /** The body of a response as `response.json()` sees it. */
  datatype Body = Json(value: Value) | NotJson

  /** A response: its HTTP status and its body. */
  datatype Reply = Reply(status: int, body: Body)

  datatype FetchOutcome =
    | TimedOut              // the abort timer fired before the response arrived
    | Rejected              // `fetch` rejected: no network, DNS, CORS, ...
    | Settled(reply: Reply) // a response arrived in time

  /** `response.ok`: the status lies in 200..299. */
  predicate IsOk(status: int) {
    200 <= status <= 299
  }
}
