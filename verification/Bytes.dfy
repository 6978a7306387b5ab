/** Octets, as files and digests have them. */
module Bytes {
  newtype Byte = x: int | 0 <= x < 256
}
