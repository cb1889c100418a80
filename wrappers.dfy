/** Small helper datatypes shared by the modules of this project. */
module Wrappers {

  /** A value that may be missing: JavaScript's `null` / `undefined`. */
  datatype Option<+T> = None | Some(value: T) {

    /** The value, or `default` when there is none. */
    function GetOr(default: T): T {
      match this
      case Some(v) => v
      case None => default
    }
  }
}
