/**
 Bytes, and the size of the agent's line and name buffers.
 */
module Util {
  type Byte = b: int | 0 <= b < 256

  const BFSZ := 128
}
