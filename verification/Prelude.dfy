/** Small shared vocabulary: optional values, bytes, and machine-width constants. */
module Prelude {

  datatype Option<+T> = None | Some(value: T)

  /** An 8-bit wire byte. */
  type Byte = x: int | 0 <= x < 256

  /** Number of distinct values of a 32-bit and of a 64-bit unsigned counter. */
  const TWO_32: nat := 0x1_0000_0000
  const TWO_64: nat := 0x1_0000_0000_0000_0000

  lemma Assoc<T>(a: seq<T>, b: seq<T>, c: seq<T>)
    ensures a + b + c == a + (b + c)
  {
  }

  lemma MoveHead<T>(a: seq<T>, b: seq<T>)
    requires b != []
    ensures a + [b[0]] + b[1..] == a + b
  {
  }
}
