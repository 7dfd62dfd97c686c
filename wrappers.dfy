/** Option and Result, for Ruby's nil and for the exceptions the model raises. */
module Wrappers {

  /** A value that may be nil: a hash key that is missing or holds nil. */
  datatype Option<+T> = None | Some(value: T) {

    /** Ruby's `this || other` for a value whose only falsy state is nil. */
    function Or(other: Option<T>): Option<T> {
      if Some? then this else other
    }

    /** The value, or the given default when nil. */
    function GetOr(default: T): T {
      match this
      case Some(v) => v
      case None => default
    }
  }

  /** The outcome of a call that either returns a value or raises. */
  datatype Result<+R, +E> = Success(value: R) | Failure(error: E)

  /** Ruby truthiness of a flag that may be nil: only `true` counts. */
  predicate Truthy(b: Option<bool>) {
    b == Some(true)
  }
}
