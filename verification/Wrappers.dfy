/** Small shared vocabulary: optional values and Python's truthiness rules for them. */
module Wrappers {

  datatype Option<+T> = None | Some(value: T)

  /** A timestamp column: seconds as a float, or SQL NULL. */
  type Timestamp = Option<real>

  /** Python's `column or fallback`: NULL and 0.0 are both falsy. */
  function OrElse(t: Timestamp, fallback: real): real {
    if t.Some? && t.value != 0.0 then t.value else fallback
  }

  function Max(a: int, b: int): int {
    if a < b then b else a
  }

  function Min(a: int, b: int): int {
    if a < b then a else b
  }

  /** Python's list indexing, negative indices counting from the end. */
  function PyIndex<T>(s: seq<T>, i: int): T
    requires -|s| <= i < |s|
  {
    if i < 0 then s[|s| + i] else s[i]
  }
}
