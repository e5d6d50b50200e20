/** Optional values and results shared by the tool models, and the JavaScript
    truthiness test the source applies to optional strings. */
module Wrappers {

  datatype Option<+T> = None | Some(value: T)

  datatype Result<+R, +E> = Success(value: R) | Failure(error: E)

  /** `if (s)` on an optional string in JavaScript: an absent string and the
      empty string are both falsy, every other string is truthy. */
  predicate Truthy(s: Option<string>): (b: bool)
    ensures b <==> s.Some? && |s.value| > 0
  {
    s.Some? && s.value != ""
  }
}
