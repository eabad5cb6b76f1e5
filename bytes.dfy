/** Raw bytes, as read from a file. */
module Bytes {
  newtype byte = x: int | 0 <= x < 256

  /** The UTF-8 byte order mark, EF BB BF. */
  const Utf8Bom: seq<byte> := [0xEF, 0xBB, 0xBF]
}
