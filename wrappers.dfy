/** Optional values, results, and the truth value of an optional string. */
module Wrappers {

  datatype Option<+T> = None | Some(value: T)

  /** Either a value, or the error that was raised instead. */
  datatype Result<+R, +E> = Success(value: R) | Failure(error: E)

  /** The truth value of an optional string: absent and empty are both false. */
  predicate Truthy(s: Option<string>)
  {
    s.Some? && s.value != ""
  }
}
