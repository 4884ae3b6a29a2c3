/** Small shared vocabulary: optional values, results, bytes, thrown JavaScript values
    and HTTP error replies. */
module Common {

  datatype Option<T> = None | Some(value: T) {
    /** JavaScript's `x ?? d` on a value that is either present or undefined. */
    function GetOr(default: T): T {
      match this
      case Some(v) => v
      case None => default
    }
  }

  datatype Result<T, E> = Ok(value: T) | Err(error: E)

  newtype byte = x: int | 0 <= x < 256

  /** Point in time in milliseconds, as produced by `new Date()`. */
  type Time = int

  /** A value thrown by JavaScript code: an `Error` with its message, or anything else. */
  datatype Thrown = ErrorObject(message: string) | NonError

  /** The message recorded for a caught value: `err instanceof Error ? err.message : "Unknown error"`. */
  function ErrorMessage(t: Thrown): (m: string)
    ensures t.ErrorObject? ==> m == t.message
    ensures t.NonError? ==> m == "Unknown error"
  {
    match t
    case ErrorObject(msg) => msg
    case NonError => "Unknown error"
  }

  /** A JSON error reply `{ error }` with its HTTP status. */
  datatype HttpError = HttpError(status: nat, error: string)

  const Unauthorized := HttpError(401, "Unauthorized")

  /** `session?.user?.id` is truthy: a session user id that is present and not empty. */
  predicate SignedIn(userId: Option<string>) {
    userId.Some? && userId.value != ""
  }
}
