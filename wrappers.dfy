/** Option and Result values used for JavaScript's `undefined` and for
    rejected operations throughout the model. */
module Wrappers {

  /** A value that may be absent (`undefined` or `null` in the source). */
  datatype Option<+T> = None | Some(value: T) {

    /** The value, or `default` when absent. */
    function GetOr(default: T): T {
      match this
      case Some(v) => v
      case None => default
    }
  }

  /** `a` when present, else `b`: how a spread `{ ...b, ...a }` settles one key. */
  function Or<T>(a: Option<T>, b: Option<T>): (r: Option<T>)
    ensures r.Some? <==> a.Some? || b.Some?
    ensures a.Some? ==> r == a
  {
    if a.Some? then a else b
  }

  /** The outcome of an operation that can be rejected with an error. */
  datatype Result<+T, +E> = Ok(value: T) | Err(error: E)
}
