/** What several modules share. */
module Basics {

  const U16: nat := 0x10000
  const U32: nat := 0x1_0000_0000

  datatype Option<T> = None | Some(value: T)

  function Least(a: nat, b: nat): nat {
    if a < b then a else b
  }
}
