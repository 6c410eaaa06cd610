/** Values shared by every part of the authentication model. */
module Common {

  /** A value that may be absent (a JavaScript `null` or `undefined`). */
  datatype Option<+T> = None | Some(value: T)

  /** The outcome of an operation that either yields a value or fails. */
  datatype Result<+T> = Ok(value: T) | Err(error: Failure)

  /** The outcome of an operation that yields nothing when it succeeds. */
  datatype Outcome = Pass | Fail(error: Failure)

  /**
   * A failure as the service raises it: an HTTP status (or, on the
   * internal RPC channel, the `statusCode` of the fault) and its message.
   */
  datatype Failure = Failure(status: int, message: string)

  /** The failure of every token check that rejects a token or finds no user for it. */
  const NotAuthorized := Failure(401, "Not authorized")

  /** JavaScript truthiness of an optional string: absent and "" are falsy. */
  predicate Present(s: Option<string>)
  {
    s.Some? && s.value != ""
  }
}
