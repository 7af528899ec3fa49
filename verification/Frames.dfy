/** The vocabulary of the WebSocket wire (sections 5.2 and 7.4 of RFC 6455) and
    the frame encoder. */
module Frames {
  import opened Bytes
  import opened Masking
  import opened Utf8
  import opened Wrappers

  datatype Opcode = Continuation | Text | Binary | Close | Ping | Pong
  {
    function Number(): (n: byte)
      ensures n < 16
    {
      match this
      case Continuation => 0x0
      case Text => 0x1
      case Binary => 0x2
      case Close => 0x8
      case Ping => 0x9
      case Pong => 0xA
    }

    predicate IsControl() {
      Close? || Ping? || Pong?
    }
  }

  /** `Opcode(n)`; None is the ValueError of a reserved opcode. */
  function OpcodeOf(n: nat): (r: Option<Opcode>)
    ensures forall op: Opcode :: op.Number() == n <==> r == Some(op)
  {
    if n == 0x0 then Some(Continuation)
    else if n == 0x1 then Some(Text)
    else if n == 0x2 then Some(Binary)
    else if n == 0x8 then Some(Close)
    else if n == 0x9 then Some(Ping)
    else if n == 0xA then Some(Pong)
    else None
  }

  const MAX_CONTROL_PAYLOAD := 125
  const MAX_CLOSE_REASON_BYTES := 123

  const CLOSE_NORMAL := 1000
  const CLOSE_GOING_AWAY := 1001
  const CLOSE_PROTOCOL_ERROR := 1002
  const CLOSE_NO_STATUS := 1005
  const CLOSE_ABNORMAL := 1006
  const CLOSE_INVALID_PAYLOAD := 1007
  const CLOSE_MESSAGE_TOO_BIG := 1009
  const CLOSE_INTERNAL_ERROR := 1011

  const TWO_63 := 0x8000_0000_0000_0000
  const TWO_64 := 0x1_0000_0000_0000_0000

  /** `_is_valid_close_code`: what may travel in a close frame. */
  predicate IsValidCloseCode(code: int) {
    3000 <= code <= 4999 || 1000 <= code < 1004 || 1007 <= code < 1015
  }

  /** `str` or `bytes` messages, control events and the peer's close. */
  datatype FrameEvent =
    | TextMessage(text: Utf8.Text)
    | BinaryMessage(data: Bytes)
    | PingReceived(data: Bytes)
    | PongReceived(data: Bytes)
    | CloseReceived(code: int, reason: Utf8.Text)

  datatype EncodeError = BadMask | ControlTooLong | ControlFragmented | StructError | UnicodeError
  datatype Encoded = Ok(bytes: Bytes) | Err(error: EncodeError)

  function FirstByte(opcode: Opcode, fin: bool): byte {
    (if fin then 0x80 else 0) + opcode.Number()
  }

  function LengthHeader(length: nat, masked: bool): Bytes
    requires length < TWO_64
  {
    Pow256Values();
    var maskBit: byte := if masked then 0x80 else 0;
    if length < 126 then [maskBit + length]
    else if length < 65536 then [maskBit + 126] + ToBig(length, 2)
    else [maskBit + 127] + ToBig(length, 8)
  }

  /** `encode_frame`. A payload of 2^64 octets or more makes `struct.pack` fail. */
  function EncodeFrame(opcode: Opcode, payload: Bytes, fin: bool, mask: Option<Bytes>): Encoded
  {
    if mask.Some? && |mask.value| != 4 then Err(BadMask)
    else if opcode.IsControl() && |payload| > MAX_CONTROL_PAYLOAD then Err(ControlTooLong)
    else if opcode.IsControl() && !fin then Err(ControlFragmented)
    else if |payload| >= TWO_64 then Err(StructError)
    else
      var header := [FirstByte(opcode, fin)] + LengthHeader(|payload|, mask.Some?);
      if mask.None? then Ok(header + payload)
      else Ok(header + mask.value + ApplyMask(payload, mask.value))
  }
}
