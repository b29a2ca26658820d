/**
 * What the scrapers see of HTTP. A `GET` either comes back with a status
 * code, a body and the URL it ended at, or raises a
 * `requests.RequestException` (connection error, timeout, ...). Whether the
 * HTML holds an `article` element or the `data-box-name='items'` box is a
 * fact about the page that the model does not parse, so it travels with the
 * reply.
 */
module Http {
  import opened Text

  datatype Response =
    | Reply(status: int, body: string, finalUrl: string, listingMarkup: bool)
    | Failure(message: string)

  /** The answers of the network: the response to the `k`-th request sent,
      counted from 0. */
  type Network = nat -> Response

  /** `raise_for_status()` raises for client and server errors. */
  predicate RaisesForStatus(status: int) {
    400 <= status < 600
  }

  /** `marker in resp.text.lower()`. */
  predicate BodyHas(body: string, marker: string) {
    Contains(Lower(body), marker)
  }
}
