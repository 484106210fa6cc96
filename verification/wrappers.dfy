/** Optional values and success/failure results, in the functional style the
    rest of the model uses for JavaScript's `null`/`undefined` and for
    handlers that either go through or stop with an alert. */
module Wrappers {

  datatype Option<+T> = None | Some(value: T) {

    /** The value if present, otherwise `default` (JavaScript's `x || default`
        for an optional array). */
    function GetOr(default: T): T {
      match this
      case Some(v) => v
      case None => default
    }
  }

  datatype Result<+R, +E> = Success(value: R) | Failure(error: E)
}

/** The outside world of a screen handler: what the backend answered, and
    which request (if any) the handler sent. */
module Net {

  /** The settled outcome of one awaited HTTP call: `Ok` carries the part of
      the response body the handler reads; `Failed` is every rejection
      (network error, non-2xx status, or a thrown access on the body). */
  datatype Reply<+T> = Ok(body: T) | Failed

  /** What a handler put on the wire. */
  datatype Request<+P> = NoRequest | Send(payload: P)

  /** The state a handler leaves behind, together with the request it issued. */
  datatype Handled<+S, +P> = Handled(next: S, request: Request<P>)
}
