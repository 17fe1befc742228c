/** Bytes and byte strings. */
module ByteStrings {
  type Byte = n: int | 0 <= n < 256
  type Bytes = seq<Byte>

  predicate IsZero(value: Bytes) { forall i :: 0 <= i < |value| ==> value[i] == 0 }
}
