/** Bytes as Python's `bytes` holds them: sequences of values 0..255. */
module Octets {

  newtype byte = x: int | 0 <= x < 256

  type Bytes = seq<byte>
}
