// How a `fetch` from the React pages can end, as the handlers branch on it.
// The network is not modelled: each handler is given the outcome.

module Http {
  import opened Common

  /**
   * How the request ended: it threw (no reply, or a body that is not JSON),
   * a non-ok status with the `message` of its body if any, or an ok reply's
   * `status` and `message`.
   */
  datatype Outcome =
    | Thrown
    | HttpError(code: int, message: Option<string>)
    | Replied(status: string, message: Option<string>)

  /** Whether the reply reports success: an ok status whose body says `success`. */
  predicate Succeeded(outcome: Outcome) { outcome.Replied? && outcome.status == "success" }
}
