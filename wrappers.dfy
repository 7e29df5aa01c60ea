/** Optional values, used for JavaScript's `undefined`/`null`/`NaN` and Python's `None`. */
module Wrappers {

  datatype Option<T> = None | Some(value: T)
  {
    /** The `x ?? d` default (also `x || d` when the payload is never falsy). */
    function GetOr(d: T): T
    {
      if Some? then value else d
    }
  }
}
