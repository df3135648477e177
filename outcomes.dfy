/** Error values and call outcomes shared by the payments table and the service. */
module Outcomes {

  /** The Go `error` values the core can return, one constructor per source of error. */
  datatype Error =
    | Transport               // http.Client.Do (with its 20 s timeout) or http.Post (no timeout) failed
    | BodyRead                // reading the response body failed
    | Decode                  // the body is not JSON of the expected shape
    | Upstream(message: string) // createPayment's own error for a non-200 answer
    | InvalidUrl              // http.NewRequest could not parse the request URL
    | NoRows                  // sql.ErrNoRows: a single-row query matched nothing
    | UniqueViolation         // the PRIMARY KEY constraint on payments.id rejected an INSERT

  /** A Go call `(T, error)`, plus the run-time panic of indexing an empty slice. */
  datatype Result<T> = Ok(value: T) | Err(error: Error) | Panic
}
