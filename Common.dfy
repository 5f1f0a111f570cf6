/** Values shared by the three resource adapters: optional values, results,
    what a lookup by ID returns, and the errors an adapter reports. */
module Common {

  /** Some(v), or None for a Go nil. */
  datatype Option<+T> = None | Some(value: T) {
    /** The value, or the given default when there is none (a Go zero value). */
    function GetOr(default: T): T {
      match this
      case Some(v) => v
      case None => default
    }
  }

  datatype Result<+T, +E> = Success(value: T) | Failure(error: E)

  /** What a remote `GetByID` call hands back: an error, a nil object
      (the object no longer exists), or the object. */
  datatype Fetched<+T> = FetchFailed(cause: string) | Missing | Found(value: T)

  /** The operation named in a wrapped remote error. */
  datatype Operation =
    | CreatingVariable | ReadingVariable | UpdatingVariable | DeletingVariable
    | CreatingProjectTrigger | ReadingProjectTrigger | UpdatingProjectTrigger | DeletingProjectTrigger

  /** The diagnostics an adapter returns to the configuration engine. */
  datatype Error =
    /** A validation failure with a fixed message, found before any remote call. */
    | Invalid(message: string)
    /** A list attribute holds a value outside its allow-list. */
    | InvalidValue(attribute: string, value: string, allowed: seq<string>)
    /** A remote failure wrapped with the operation and the resource it concerned. */
    | OperationError(operation: Operation, subject: string, cause: string)
    /** A variable could not be found in the collection returned for its project. */
    | NotLocated(projectID: string)
    /** An error passed on unchanged. */
    | Cause(message: string)
}
