/**
 * What a service call can throw, and the two catch blocks the service layer is built from.
 */
module Errors {
  import opened Wrappers
  import opened Domain

  /** A thrown value: one of the two service error classes, or anything else
      (a database driver error, a failed ObjectId conversion, a hashing failure). */
  datatype Error = NotFoundError(message: string) | ServerError(message: string) | ForeignError

  /** The HTTP codes the two error classes declare (src/service/errors/notFound.error.ts:13,
      src/service/errors/server.error.ts:13). */
  const NotFoundHttpCode := 404
  const ServerErrorHttpCode := 500

  /** The outcome of an awaited service call: its value, or what it threw. */
  datatype Result<+T> = Ok(value: T) | Err(error: Error)

  /** The service layer's promise: nothing but its own two error classes escapes it. */
  predicate Classified<T>(r: Result<T>) {
    r.Ok? || !r.error.ForeignError?
  }

  /** The catch block of the lookups, updates and deletions, applied to what the try block
      produced: a NotFoundError is rethrown, anything else is replaced by a ServerError. */
  function RethrowNotFound<T>(attempt: Result<T>, serverMessage: string): (r: Result<T>)
    ensures Classified(r)
    ensures attempt.Ok? || attempt.error.NotFoundError? ==> r == attempt
    ensures attempt.Err? && !attempt.error.NotFoundError? ==> r == Err(ServerError(serverMessage))
  {
    match attempt
    case Ok(_) => attempt
    case Err(NotFoundError(_)) => attempt
    case Err(_) => Err(ServerError(serverMessage))
  }

  /** The catch block of the creations: whatever was thrown is replaced by a ServerError. */
  function WrapAll<T>(attempt: Result<T>, serverMessage: string): (r: Result<T>)
    ensures Classified(r)
    ensures attempt.Ok? ==> r == attempt
    ensures attempt.Err? ==> r == Err(ServerError(serverMessage))
  {
    match attempt
    case Ok(_) => attempt
    case Err(_) => Err(ServerError(serverMessage))
  }

  /** The try block of a list query: the repository's answer, with an empty list thrown as a
      NotFoundError and a throw from the repository passed on as it is. */
  function ListAttempt<T>(outcome: Outcome<seq<T>>, notFound: string): Result<seq<T>> {
    match outcome
    case Threw => Err(ForeignError)
    case Returned(items) => if items == [] then Err(NotFoundError(notFound)) else Ok(items)
  }

  /** The try block of a single-record query: `null` is thrown as a NotFoundError. */
  function RecordAttempt<T>(outcome: Outcome<Option<T>>, notFound: string): Result<T> {
    match outcome
    case Threw => Err(ForeignError)
    case Returned(None) => Err(NotFoundError(notFound))
    case Returned(Some(item)) => Ok(item)
  }
}
