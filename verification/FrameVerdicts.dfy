/** What a decoder makes of any input, read off its bits (sections 5.2, 5.4 and 5.5 of RFC 6455):
    when it waits, when it refuses and with which code, and what it takes. */
module FrameVerdicts {
  import opened Bytes
  import opened Masking
  import opened Utf8
  import opened Wrappers
  import opened Frames
  import opened FrameDecoding
  import opened FrameRoundTrip
  import opened FrameOctets
  import opened CloseCodes

  // ---- the header, bit by bit

  /** A reserved bit or a reserved opcode, or the MASK bit other than the peer must set it. */
  predicate BadStart(cfg: Config, buffer: Bytes)
    requires |buffer| >= 2
  {
    || Bit(buffer[0], 6) || Bit(buffer[0], 5) || Bit(buffer[0], 4)
    || 3 <= buffer[0] % 16 <= 7 || 11 <= buffer[0] % 16
    || Bit(buffer[1], 7) != cfg.requireMask
  }

  /** The octets up to the end of the length. */
  function HeaderSize(buffer: Bytes): nat
    requires |buffer| >= 2
  {
    if buffer[1] % 128 <= 125 then 2 else if buffer[1] % 128 == 126 then 4 else 10
  }

  /** 7 bits, or the 16 or 64 bits behind them. */
  function DeclaredSize(buffer: Bytes): nat
    requires |buffer| >= 2 && |buffer| >= HeaderSize(buffer)
  {
    if buffer[1] % 128 <= 125 then buffer[1] % 128 else Number(buffer[2..HeaderSize(buffer)])
  }

  predicate ForControl(buffer: Bytes)
    requires |buffer| >= 2
  {
    buffer[0] % 16 >= 8
  }

  /** A length of 64 bits with the highest one set, or a control frame that is long or not whole. */
  predicate BadLength(buffer: Bytes)
    requires |buffer| >= 2 && |buffer| >= HeaderSize(buffer)
  {
    || (HeaderSize(buffer) == 10 && Bit(buffer[2], 7))
    || (ForControl(buffer) && (DeclaredSize(buffer) > 125 || !Bit(buffer[0], 7)))
  }

  /** A data frame that would make the message in progress too long. */
  predicate TooBig(cfg: Config, buffer: Bytes, size: nat)
    requires |buffer| >= 2 && |buffer| >= HeaderSize(buffer)
  {
    !ForControl(buffer) && size + DeclaredSize(buffer) > cfg.maxMessageSize
  }

  /** All of the frame that a good header announces. */
  predicate IsFrame(cfg: Config, buffer: Bytes, frame: Frame, length: nat)
    requires |buffer| >= 2 && |buffer| >= HeaderSize(buffer)
  {
    var start, n := HeaderSize(buffer) + (if cfg.requireMask then 4 else 0), DeclaredSize(buffer);
    && frame.fin == Bit(buffer[0], 7) && OpcodeBits(frame.opcode) == buffer[0] % 16
    && length == start + n <= |buffer| && |frame.payload| == n
    && if cfg.requireMask then frame.payload == ApplyMask(buffer[start..length], buffer[start - 4..start])
       else frame.payload == buffer[start..length]
  }

  predicate IsTake(cfg: Config, buffer: Bytes, size: nat, r: Take) {
    if |buffer| < 2 then r == Starved
    else if BadStart(cfg, buffer) then r == Violation(1002)
    else if |buffer| < HeaderSize(buffer) then r == Starved
    else if BadLength(buffer) then r == Violation(1002)
    else if TooBig(cfg, buffer, size) then r == Violation(1009)
    else if |buffer| < HeaderSize(buffer) + (if cfg.requireMask then 4 else 0) + DeclaredSize(buffer) then r == Starved
    else r.Taken? && IsFrame(cfg, buffer, r.frame, r.length)
  }

  lemma OctetBits(b: byte)
    ensures Bit(b, 7) <==> b >= 128
    ensures Bit(b, 6) || Bit(b, 5) || Bit(b, 4) <==> b / 16 % 8 != 0
  {
    assert Pow2(4) == 16 && Pow2(5) == 32 && Pow2(6) == 64 && Pow2(7) == 128;
  }

  lemma OpcodeIsKnown(n: nat)
    requires n < 16
    ensures OpcodeOf(n).None? <==> 3 <= n <= 7 || 11 <= n
    ensures OpcodeOf(n).Some? ==> OpcodeBits(OpcodeOf(n).value) == n && (OpcodeOf(n).value.IsControl() <==> n >= 8)
  {
  }

  /** The length field holds that number, and its highest bit is the first octet's. */
  lemma LengthIsNumber(buffer: Bytes)
    requires |buffer| >= 2
    ensures TakeLength(buffer).LengthStarved? <==> |buffer| < HeaderSize(buffer)
    ensures |buffer| >= HeaderSize(buffer) ==>
      && (TakeLength(buffer).LengthTooWide? <==> HeaderSize(buffer) == 10 && Bit(buffer[2], 7))
      && (TakeLength(buffer).Length? ==> TakeLength(buffer) == Length(DeclaredSize(buffer), HeaderSize(buffer)))
  {
    if |buffer| >= HeaderSize(buffer) > 2 {
      BigIsNumber(buffer[2..HeaderSize(buffer)]);
      if HeaderSize(buffer) == 10 {
        HighBit(buffer[2..10]);
      }
    }
    hide FromBig, Number, Bit;
  }

  lemma HighBit(b: Bytes)
    requires |b| == 8
    ensures Number(b) >= TWO_63 <==> Bit(b[0], 7)
  {
    var low := Number(b[1..]);
    OctetBits(b[0]);
    BigIsNumber(b[1..]);
    assert low < Pow256(7);
    Pow256Values();
    assert Pow256(7) == 0x100_0000_0000_0000;
    assert Number(b) == b[0] * Pow256(7) + low;
    hide Number, Pow256, Bit;
  }

  lemma TakePayloadExact(cfg: Config, buffer: Bytes, opcode: Opcode)
    requires |buffer| >= 2 && |buffer| >= HeaderSize(buffer) && OpcodeBits(opcode) == buffer[0] % 16
    ensures var fin, offset, n := buffer[0] >= 128, HeaderSize(buffer), DeclaredSize(buffer);
      var r := TakePayload(cfg.requireMask, buffer, fin, opcode, n, offset);
      if |buffer| < offset + (if cfg.requireMask then 4 else 0) + n then r == Starved
      else r.Taken? && IsFrame(cfg, buffer, r.frame, r.length)
  {
    OctetBits(buffer[0]);
    if cfg.requireMask && |buffer| >= HeaderSize(buffer) + 4 + DeclaredSize(buffer) {
      var start := HeaderSize(buffer) + 4;
      MaskLength(buffer[start..start + DeclaredSize(buffer)], buffer[start - 4..start]);
    }
    hide Bit, DeclaredSize, HeaderSize, ApplyMask;
  }

  lemma MaskLength(payload: Bytes, mask: Bytes)
    requires |mask| == 4
    ensures |ApplyMask(payload, mask)| == |payload|
  {
    MaskIsBytewise(payload, mask);
  }

  /** What the front of any buffer is taken for. */
  lemma TakeFrameExact(cfg: Config, buffer: Bytes, size: nat)
    ensures IsTake(cfg, buffer, size, TakeFrame(cfg, buffer, size))
  {
    if |buffer| >= 2 {
      OctetBits(buffer[0]);
      OctetBits(buffer[1]);
      OpcodeIsKnown(buffer[0] % 16);
      LengthIsNumber(buffer);
      if OpcodeOf(buffer[0] % 16).Some? && |buffer| >= HeaderSize(buffer) {
        TakePayloadExact(cfg, buffer, OpcodeOf(buffer[0] % 16).value);
      }
      hide Bit, OpcodeOf, TakeLength, DeclaredSize, HeaderSize, IsFrame, TakePayload;
    }
  }

  // ---- the message in progress

  /** What one frame does to the message in progress: control frames leave it alone; a data frame
      must go on with it exactly when there is one, and the last one delivers the whole. */
  predicate ReadsAs(asm: Assembly, frame: Frame, next: Assembly, effect: Effect) {
    match frame.opcode
    case Ping => next == asm && effect == Emit(PingReceived(frame.payload))
    case Pong => next == asm && effect == Emit(PongReceived(frame.payload))
    case Close => next == asm.(closed := true) && CloseReadsAs(frame.payload, effect)
    case _ =>
      if frame.opcode.Continuation? == (asm.fragments == []) then next == asm && effect == Breach(1002)
      else
        var kind := if asm.fragments == [] then frame.opcode else Opened(asm);
        var whole := Join(asm.fragments) + frame.payload;
        if !frame.fin then
          && effect.Quiet? && Join(next.fragments) == whole && next.size == |whole|
          && next.opcode == Some(kind) && next.closed == asm.closed
        else next == FRESH.(closed := asm.closed) && Delivers(kind, whole, effect)
  }

  function Opened(asm: Assembly): Opcode {
    if asm.opcode.Some? then asm.opcode.value else Opcode.Text
  }

  /** A text must be UTF-8 as a whole, and is then what encodes to that. */
  predicate Delivers(kind: Opcode, whole: Bytes, effect: Effect) {
    if kind.Binary? then effect == Emit(BinaryMessage(whole))
    else if ValidUtf8(whole) then
      effect.Emit? && effect.event.TextMessage? && Encodable(effect.event.text) && Encode(effect.event.text) == whole
    else effect == Breach(1007)
  }

  lemma FinishedExact(kind: Opcode, whole: Bytes)
    requires kind.Text? || kind.Binary?
    ensures Delivers(kind, whole, Finished(kind, whole))
  {
    if kind.Text? && ValidUtf8(whole) {
      EncodeDecode(whole);
    }
    hide Encode, Decode;
  }

  lemma HandleFrameExact(cfg: Config, asm: Assembly, frame: Frame)
    requires asm.Valid(cfg)
    ensures var (next, effect) := HandleFrame(asm, frame); ReadsAs(asm, frame, next, effect)
  {
    var (next, effect) := HandleFrame(asm, frame);
    JoinLast(asm.fragments, frame.payload);
    DecodeCloseExact(frame.payload);
    var kind := if asm.fragments == [] then frame.opcode else Opened(asm);
    if kind.Text? || kind.Binary? {
      FinishedExact(kind, Join(asm.fragments) + frame.payload);
    }
    hide Join, Finished, Delivers, DecodeClose, CloseReadsAs;
  }

  // ---- behind a stream

  /** Whatever well-formed messages come first, they are all reported, and then a frame that its
      first octets refuse ends the decoding with that code. */
  lemma StreamThenRefused(cfg: Config, items: seq<Item>, rest: Bytes, code: int)
    requires forall i :: 0 <= i < |items| ==> ItemOk(cfg, items[i])
    requires IsTake(cfg, rest, 0, Violation(code))
    ensures Feed(cfg, State([], FRESH), EncodeItems(items) + rest) ==
      Outcome(State(rest, FRESH), StreamEvents(cfg, items), Some(code))
  {
    TakeFrameExact(cfg, rest, 0);
    assert TakeFrame(cfg, rest, 0) == Violation(code);
    assert [] + (EncodeItems(items) + rest) == EncodeItems(items) + rest;
    StreamThenRest(cfg, items, rest);
    hide IsTake, TakeFrame, EncodeItems, StreamEvents;
    assert StreamEvents(cfg, items) + [] == StreamEvents(cfg, items);
  }
}
