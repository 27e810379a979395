/** The optional value used throughout the model: a cache miss, a probe that
    found no file, a number that did not parse (JavaScript's NaN). */
module Wrappers {

  datatype Option<+T> = None | Some(value: T) {

    /** The wrapped value, or `default` when there is none. */
    function GetOr(default: T): T {
      match this
      case Some(v) => v
      case None => default
    }
  }
}
