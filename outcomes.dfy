/** Option and Result values, and the error kinds of the chat core.
    The service funnels every failure into an HTTP status; the model keeps
    the kinds apart so that contracts can say which failure happened. */
module Outcomes {

  datatype Option<+T> = None | Some(value: T)

  /** Why an operation failed. */
  datatype Error =
    | InvalidId              // a text id is not a well-formed ObjectId
    | NotFound               // no chat session has that id
    | Forbidden              // the caller does not own the session
    | DuplicateKey           // the store already holds a record with the new id
    | CompletionUnavailable  // the completion engine failed

  datatype Result<+T> = Success(value: T) | Failure(error: Error)
}
