/** Machine integers, results and error codes shared by every part of the model. */
module Prelude {

  type byte = x: int | 0 <= x < 0x100
  type u16 = x: int | 0 <= x < 0x1_0000
  type u32 = x: int | 0 <= x < 0x1_0000_0000

  /** A `std::string` or a `std::vector<uint8_t>`: MQTT treats both as bytes. */
  type Bytes = seq<byte>

  datatype Option<+T> = None | Some(value: T)

  datatype Result<+T> = Ok(value: T) | Err(error: ErrorCode)

  /** The codes of `ErrorCode` that the modelled code can produce. */
  datatype ErrorCode =
    | ConnectionLost
    | NotConnected
    | DeserializationFailed

  datatype ConnectionState =
    | Disconnected
    | Connecting
    | Connected
    | Reconnecting
    | Disconnecting
    | Failed
}
