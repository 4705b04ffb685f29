/** The optional value that Kotlin writes as a nullable type `T?`. */
module Wrappers {

  datatype Option<+T> = None | Some(value: T) {

    /** Kotlin's elvis operator `x ?: default`. */
    function GetOr(default: T): T {
      match this
      case Some(v) => v
      case None => default
    }
  }
}
