/** Optional values, results and the outcome of a call into the hosted backend. */
module Outcomes {

  /** A value that may be absent: TypeScript's `T | null`. */
  datatype Option<+T> = None | Some(value: T) {
    function GetOr(default: T): T {
      match this
      case Some(v) => v
      case None => default
    }
  }

  /** What a failed backend call throws: an `Error` object (which carries a
      message) or any other value. */
  datatype Thrown = ErrorObject(message: string) | OtherValue

  /** A call that either returns a value or throws. */
  datatype Result<+T> = Ok(value: T) | Err(error: Thrown)

  /** A call that returns nothing or throws. */
  datatype Outcome = Done | Threw(error: Thrown)

  /** `err instanceof Error ? err.message : fallback`, as the admin forms
      compute the text they show after a failed save. */
  function MessageOr(t: Thrown, fallback: string): (m: string)
    ensures t.ErrorObject? ==> m == t.message
    ensures t.OtherValue? ==> m == fallback
  {
    match t
    case ErrorObject(msg) => msg
    case OtherValue => fallback
  }
}
