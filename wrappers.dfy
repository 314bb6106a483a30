/** Option type shared by the modules of this model. */
module Wrappers {

  /** A value that may be absent, like a null pointer or a missing dictionary key. */
  datatype Option<+T> = None | Some(value: T) {

    /** The wrapped value, or `default` when absent. */
    function GetOr(default: T): T {
      match this
      case Some(v) => v
      case None => default
    }
  }
}
