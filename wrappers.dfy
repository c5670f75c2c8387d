/** Rust's `Option`, with the one combinator the builder relies on. */
module Wrappers {

  datatype Option<T> = None | Some(value: T) {

    /** `Option::unwrap_or`: the held value, or `default` when there is none. */
    function UnwrapOr(default: T): T {
      match this
      case Some(v) => v
      case None => default
    }
  }
}
