/** Failure-carrying results shared by the models. */
module Base {

  datatype Option<+T> = None | Some(value: T)

  /** How a request ends when it does not succeed; its transaction is rolled back. */
  datatype Error = NotFound | Conflict | InvariantViolation | ProviderFailure | IntegrityFailure

  datatype Outcome<+T> = Ok(value: T) | Err(error: Error)
}
