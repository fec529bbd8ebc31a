/** The source's `Option` and `Result`, its ports, bytes and ids. */
module Basics {
  datatype Option<+T> = None | Some(value: T)

  datatype Result<+T, +E> = Ok(value: T) | Err(error: E)

  type Port = x: int | 0 <= x < 0x10000

  /** A database id or column: 64 bits, signed. */
  type I64 = x: int | -0x8000_0000_0000_0000 <= x < 0x8000_0000_0000_0000

  type Byte = x: int | 0 <= x < 0x100

  type Bytes = seq<Byte>

  /** The random id of a control channel. */
  type ChannelId = nat
}
