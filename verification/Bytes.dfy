/** Bytes and a few facts every component uses. */
module Bytes {
  type byte = x: int | 0 <= x < 256

  function Min(a: nat, b: nat): nat {
    if a < b then a else b
  }
}
