/** The Some/None datatype that stands in for JavaScript's `null`/`undefined`. */
module Wrappers {

  datatype Option<+T> = None | Some(value: T) {

    /** Returns the value held in Some, or the given default if None. */
    function GetOr(default: T): T
    {
      match this
      case Some(v) => v
      case None => default
    }
  }
}
