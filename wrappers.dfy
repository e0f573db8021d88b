/** Optional values: the model's stand-in for a JavaScript value that may be
    missing (an absent storage key, an absent query parameter, an object key
    left unset). */
module Wrappers {

  datatype Option<+T> = None | Some(value: T) {

    /** The value if present, else `default` (JavaScript's `v || default`
        when the only falsy value in play is "missing"). */
    function GetOr(default: T): (r: T)
      ensures Some? ==> r == value
      ensures None? ==> r == default
    {
      match this
      case Some(v) => v
      case None => default
    }
  }
}
