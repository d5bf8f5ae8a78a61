/** Small types shared by the components. */
module Basics {
  datatype Option<+T> = None | Some(value: T)

  datatype Result<+T, +E> = Success(value: T) | Failure(error: E)

  type Byte = b: int | 0 <= b < 256

  type Bytes = seq<Byte>

  /** Two bytes in network order. */
  function BigEndian(high: Byte, low: Byte): (n: nat)
    ensures n < 0x1_0000
  {
    high * 0x100 + low
  }

  function Max(a: int, b: int): int { if a < b then b else a }

  function Min(a: int, b: int): int { if a < b then a else b }

  function Pow2(k: nat): (p: nat)
    ensures p > 0
  {
    if k == 0 then 1 else 2 * Pow2(k - 1)
  }

  lemma Scales(a: int, b: int, p: nat)
    ensures a <= b ==> a * p <= b * p
  {}
}
