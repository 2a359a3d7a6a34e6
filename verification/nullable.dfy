/** JavaScript's nullable values and the `||` fallback the handlers use on them. */
module Nullable {

  /** A value that may be `null`/`undefined` (None) or present (Some). */
  datatype Option<+T> = None | Some(value: T)

  /** A nullable string is truthy when it is present and not the empty string. */
  predicate Truthy(x: Option<string>) {
    x.Some? && x.value != ""
  }

  /** `x || fallback` on a nullable string: the empty string counts as missing. */
  function Or(x: Option<string>, fallback: string): (r: string)
    ensures Truthy(x) ==> r == x.value
    ensures !Truthy(x) ==> r == fallback
    ensures fallback != "" ==> r != ""
  {
    if Truthy(x) then x.value else fallback
  }
}
