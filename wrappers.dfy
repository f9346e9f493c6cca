/** The optional value used throughout the model for JavaScript's null / undefined. */
module Wrappers {

  datatype Option<+T> = None | Some(value: T) {

    /** The value held, or the given default for None. */
    function GetOr(default: T): T {
      match this
      case Some(v) => v
      case None => default
    }
  }
}
