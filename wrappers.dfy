/** Optional values, standing in for JavaScript's `undefined` / `null` where the source tests for them. */
module Wrappers {
  datatype Option<T> = None | Some(value: T)
  {
    /** The value when present, otherwise `default` (JavaScript's `x ?? default`). */
    function GetOr(default: T): (r: T)
      ensures this.Some? ==> r == value
      ensures this.None? ==> r == default
    {
      match this
      case Some(v) => v
      case None => default
    }
  }
}
