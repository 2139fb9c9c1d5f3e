/** The error codes of the data-plane contract and the result types built on them. */
module Results {
  datatype Option<+T> = None | Some(value: T)

  datatype ErrorCode =
    | Invalid
    | NotFound
    | Conflict
    | Precondition
    | Unauthorized
    | Forbidden
    | ResourceExceeded
    | Unavailable
    | Internal

  datatype Result<+T> = Ok(value: T) | Err(code: ErrorCode)
}
