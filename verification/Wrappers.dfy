/** The failure datatypes and the numbers every other module uses. */
module Wrappers {

  datatype Option<+T> = None | Some(value: T)

  datatype Result<+R, +E> = Success(value: R) | Failure(error: E)

  type Uuid = nat

  /** Instants and durations, in one unit; the source's `SystemTime` and `Duration`. */
  type Time = nat

  type byte = b: int | 0 <= b < 256

  type Bytes = seq<byte>

  function Concat(chunks: seq<Bytes>): Bytes {
    if chunks == [] then [] else chunks[0] + Concat(chunks[1..])
  }

  lemma Regroup(a: Bytes, b: Bytes, c: Bytes)
    ensures (a + b) + c == a + (b + c)
  {
  }

  const U64_MAX: nat := 0xFFFF_FFFF_FFFF_FFFF
}
