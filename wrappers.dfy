/** The optional-value datatype used throughout the model in place of Go's nil. */
module Wrappers {

  datatype Option<+T> = None | Some(value: T) {

    /** Returns the value if there is one, `default` otherwise. */
    function GetOr(default: T): T {
      match this
      case Some(v) => v
      case None => default
    }
  }
}
