/** The optional value used throughout the model for fields and results that the
    program leaves undefined or null. */
module Wrappers {

  datatype Option<+T> = None | Some(value: T) {

    function GetOr(default: T): T {
      match this
      case None => default
      case Some(v) => v
    }
  }
}
