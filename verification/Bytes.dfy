/** The byte of the buffers that the C code works on. */
module Bytes {

  newtype byte = x: int | 0 <= x < 256
}
