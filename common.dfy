/** Go's conventions that every part of the client shares: an error or a
    value (Option and Result), raw bytes, and the 64-bit signed integers
    the wire structs use. */
module Common {

  datatype Option<+T> = None | Some(value: T)

  datatype Result<+T, +E> = Success(value: T) | Failure(error: E)

  /** A Go `byte`. */
  newtype byte = x: int | 0 <= x < 0x100

  /** A Go `[]byte`: an HTTP body or a websocket frame. */
  type Bytes = seq<byte>

  const Int64Min: int := -0x8000_0000_0000_0000
  const Int64Max: int := 0x7FFF_FFFF_FFFF_FFFF

  /** A Go `int64`. */
  newtype int64 = x: int | -0x8000_0000_0000_0000 <= x < 0x8000_0000_0000_0000

  /** The result of an int64 operation whose exact value is x: Go's
      two's-complement wrap-around. */
  function WrapInt64(x: int): (r: int64)
    ensures Int64Min <= x <= Int64Max ==> r as int == x
    ensures (x - r as int) % 0x1_0000_0000_0000_0000 == 0
  {
    ((x + 0x8000_0000_0000_0000) % 0x1_0000_0000_0000_0000 - 0x8000_0000_0000_0000) as int64
  }
}
