/** An optional value, used where the program has a null pointer, npos or "nothing found". */
module Wrappers {
  datatype Option<+T> = None | Some(value: T)

  const TWO_64: int := 0x1_0000_0000_0000_0000

  function Min(a: int, b: int): int {
    if a <= b then a else b
  }
}
