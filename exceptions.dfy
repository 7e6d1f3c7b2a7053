/** Exceptions that the session package raises or lets through, and the
    Result and Option wrappers used to return them instead of raising. */
module Exceptions {

  datatype Exception =
    | SessionNotFoundException    // no registered implementation knows the caller
    | SessionClosedException      // the session closed while the caller waited
    | RuntimeError(message: string)
    | AssertionError(message: string)
    | KeyError(key: string)       // a missing key in a client event dict
    | OtherException(name: string) // raised by code outside this model

  /** Both session exceptions derive from SessionException. */
  predicate IsSessionException(e: Exception) {
    e.SessionNotFoundException? || e.SessionClosedException?
  }

  datatype Result<+T> = Ok(value: T) | Err(error: Exception)

  datatype Option<+T> = None | Some(value: T)
}
