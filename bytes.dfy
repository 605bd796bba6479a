/** Python `bytes` are sequences of values 0 to 255. */
module Bytes {

  type byte = b: int | 0 <= b < 256
}
