/** A value that may be missing: JavaScript's `null`/`undefined` next to a present value. */
module Wrappers {
  datatype Option<T> = None | Some(value: T)
  {
    /** The present value, or `default` when missing (`x ?? default`). */
    function GetOr(default: T): (r: T)
      ensures Some? ==> r == value
      ensures None? ==> r == default
    {
      match this
      case Some(v) => v
      case None => default
    }
  }
}
