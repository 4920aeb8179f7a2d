/** Optional values and the JavaScript/Python "falsy or default" idioms the
    source leans on (`x or d` in Python, `x || d` in JavaScript). */
module Wrappers {

  /** A value that may be absent: a missing document field, a `None`, an
      `undefined`. */
  datatype Option<+T> = None | Some(value: T) {

    /** The value, or `default` when absent. */
    function GetOr(default: T): T {
      match this
      case Some(v) => v
      case None => default
    }
  }

  /** `x || d` on a string: an absent or empty string is falsy. */
  function StrOr(x: Option<string>, d: string): string {
    if x.Some? && x.value != "" then x.value else d
  }

  /** `x || d` on a number: an absent value and 0 are both falsy. */
  function IntOr(x: Option<int>, d: int): int {
    if x.Some? && x.value != 0 then x.value else d
  }

  function Max(a: int, b: int): int {
    if a < b then b else a
  }

  function Min(a: int, b: int): int {
    if a < b then a else b
  }
}
