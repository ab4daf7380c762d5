/**
  Error kinds and the failure-carrying wrappers every WireStack operation returns.

  The Go sources return `error` values built with `fmt.Errorf`; the model keeps only the
  kind of each error, which is what callers branch on.
 */
module Results {

  datatype Error =
    | NotFound            // missing profile, client or file
    | AlreadyExists       // duplicate server or client name
    | InvalidInput        // empty required field, nil record, malformed endpoint
    | CapacityExceeded    // the client subnet is exhausted
    | CorruptData         // a stored profile that does not decode
    | IOFailure           // a filesystem operation refused by the operating system
    | ExternalToolFailure // a non-zero exit of `wg` or `wg-quick`

  datatype Option<+T> = None | Some(value: T)

  datatype Result<+T> = Ok(value: T) | Err(error: Error)

  /** The result of an operation that returns only an `error` in Go. */
  datatype Outcome = Pass | Fail(error: Error)
}
