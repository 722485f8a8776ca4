/** Bytes, shared by the driver and the relay. */
module Octets {
  newtype byte = x: int | 0 <= x < 256
}
