/** Optional values, standing for Kotlin's nullable types. */
module Wrappers {

  datatype Option<+T> = None | Some(value: T)

  /** Kotlin's `String?.orEmpty()`. */
  function OrEmpty(s: Option<string>): (r: string)
    ensures s.Some? ==> r == s.value
    ensures s.None? ==> r == ""
  {
    match s
    case Some(v) => v
    case None => ""
  }
}
