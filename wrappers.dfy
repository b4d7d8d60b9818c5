/** Optional values, the Kotlin `T?` of the modelled code. */
module Wrappers {
  datatype Option<T> = None | Some(value: T)
  {
    /** Kotlin's elvis operator `x ?: default`. */
    function GetOr(default: T): T
    {
      match this
      case None => default
      case Some(v) => v
    }
  }
}
