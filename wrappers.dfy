/** JavaScript values the source leans on: `undefined` as an optional value,
    and the truthiness test `if (x)` / `!x` applied to an optional string. */
module Wrappers {

  /** A value that may be `undefined` (or `null`). */
  datatype Option<+T> = None | Some(value: T)

  /** `!!x` for `x: string | undefined`: present and not the empty string. */
  predicate Truthy(x: Option<string>)
  {
    x.Some? && x.value != ""
  }

  /** `x ?? fallback`: only a missing value is replaced; the empty string is kept. */
  function OrElse<T>(x: Option<T>, fallback: T): T
  {
    if x.Some? then x.value else fallback
  }
}
