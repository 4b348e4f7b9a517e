/** Small failure-carrying datatypes and a mutable cell standing for a Go pointer. */
module Wrappers {

  /** A value that may be absent (a Go nil pointer or an absent JSON member). */
  datatype Option<+T> = None | Some(value: T)

  /** Either a value or an error, for Go's `(value, error)` pairs where the value is unused on error. */
  datatype Result<+T, +E> = Ok(value: T) | Err(error: E)

  /** A heap cell: the target of a Go pointer receiver such as `*Int` or `*Time`. */
  class Ref<T> {
    var value: T

    constructor (v: T)
      ensures value == v
    {
      value := v;
    }
  }
}
