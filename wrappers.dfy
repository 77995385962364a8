/** Kotlin's nullable values (`T?`) and the `?:` operator. */
module Wrappers {

  datatype Option<+T> = None | Some(value: T) {

    /** `this ?: default` */
    function GetOr(default: T): T {
      match this
      case Some(v) => v
      case None => default
    }

    /** `this ?: other` for an `other` that may itself be null. */
    function Or(other: Option<T>): Option<T> {
      if Some? then this else other
    }
  }
}
