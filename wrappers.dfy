/** Small result types shared by the model. */
module Wrappers {

  /** A value that may be absent (a JSON field that is missing, a parse that failed). */
  datatype Option<+T> = None | Some(value: T)

  /** The outcome of a JavaScript call that either returns a value or throws. */
  datatype Try<+T> = Ok(value: T) | Threw {

    /** The returned value, or `default` when the call threw. */
    function GetOr(default: T): T
    {
      match this
      case Ok(v) => v
      case Threw => default
    }
  }
}
