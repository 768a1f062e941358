/** Small shared vocabulary of the model: optional values, the wire's integer
    widths and the two builds of the gateway. */
module Common {

  /** A value that may be absent (Python's None, JavaScript's null/undefined). */
  datatype Option<+T> = None | Some(value: T) {
    function GetOr(default: T): T {
      match this
      case Some(v) => v
      case None => default
    }
  }

  /** One unsigned byte on the wire (struct code 'B'). */
  type uint8 = x: int | 0 <= x < 0x100

  /** One unsigned little-endian 16-bit word on the wire (struct code 'H'). */
  type uint16 = x: int | 0 <= x < 0x1_0000

  /** A byte buffer: an encoded frame, a datagram, one multipart body part. */
  type Bytes = seq<uint8>

  /** The two builds of the server: main.py (single player, 7-byte packet,
      DirectShow capture) and main_linux.py (two players, 8-byte packet, V4L2). */
  datatype Variant = Windows | Linux

  function Max(a: real, b: real): real {
    if a < b then b else a
  }
}
