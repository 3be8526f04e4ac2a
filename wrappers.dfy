/** The optional-value datatype shared by the other modules. */
module Wrappers {

  datatype Option<T> = None | Some(value: T) {

    /** The wrapped value, or `default` when there is none (JavaScript's parameter defaults). */
    function GetOr(default: T): T {
      match this
      case Some(v) => v
      case None => default
    }
  }
}
