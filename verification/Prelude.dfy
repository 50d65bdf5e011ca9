/** Small shared vocabulary: optional values and integer bounds. */
module Prelude {

  datatype Option<+T> = None | Some(value: T)

  function Min(a: int, b: int): int {
    if a <= b then a else b
  }

  function Max(a: int, b: int): int {
    if a <= b then b else a
  }
}
