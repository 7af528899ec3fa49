/** Which closes a decoder takes from its peer, code by code and octet by octet (sections 5.5.1 and
    7.4 of RFC 6455). */
module CloseCodes {
  import opened Bytes
  import opened Utf8
  import opened Wrappers
  import opened Frames
  import opened FrameDecoding
  import opened FrameRoundTrip

  /** A code that an endpoint may send: those of the protocol that may travel, and those left to
      frameworks and applications. */
  predicate MayTravel(code: int) {
    || 1000 <= code <= 1003 || 1007 <= code <= 1014
    || 3000 <= code <= 4999
  }

  lemma CodesAreNumbered()
    ensures CLOSE_NORMAL == 1000 && CLOSE_GOING_AWAY == 1001 && CLOSE_PROTOCOL_ERROR == 1002
    ensures CLOSE_NO_STATUS == 1005 && CLOSE_ABNORMAL == 1006 && CLOSE_INVALID_PAYLOAD == 1007
    ensures CLOSE_MESSAGE_TOO_BIG == 1009 && CLOSE_INTERNAL_ERROR == 1011
  {
  }

  /** The two octets of a code, the high one first. */
  function CodeOf(payload: Bytes): int
    requires |payload| >= 2
  {
    payload[0] as int * 256 + payload[1] as int
  }

  lemma FirstTwoOctets(payload: Bytes)
    requires |payload| >= 2
    ensures FromBig(payload[..2]) == CodeOf(payload)
  {
    var two := payload[..2];
    assert two[..1][..0] == [] && two[..1][0] == payload[0] && two[1] == payload[1];
    assert FromBig(two[..1]) == payload[0];
  }

  /** What a close payload is taken for: an empty one as 1005, one octet as a violation, and else
      a code that may travel with a reason in UTF-8, or a violation of one of two kinds. */
  predicate CloseReadsAs(payload: Bytes, effect: Effect) {
    if payload == [] then effect == Emit(CloseReceived(1005, []))
    else if |payload| == 1 || !MayTravel(CodeOf(payload)) then effect == Breach(1002)
    else if ValidUtf8(payload[2..]) then
      && effect.Emit? && effect.event.CloseReceived? && effect.event.code == CodeOf(payload)
      && Encodable(effect.event.reason) && Encode(effect.event.reason) == payload[2..]
    else effect == Breach(1007)
  }

  lemma CloseDrains(cfg: Config, asm: Assembly, payload: Bytes, mask: Option<Bytes>, rest: Bytes)
    requires MaskFits(cfg, mask) && !asm.closed && |payload| <= 125
    ensures var effect := DecodeClose(payload);
      Drain(cfg, State(FrameBytes(Opcode.Close, payload, true, mask) + rest, asm)) ==
        if effect.Breach? then Outcome(State(rest, asm.(closed := true)), [], Some(effect.code))
        else Outcome(State(rest, asm.(closed := true)), if effect.Emit? then [effect.event] else [], None)
  {
    DrainsEncoded(cfg, asm, Opcode.Close, payload, true, mask, rest);
    hide FrameBytes, DecodeClose;
  }

  /** Any close frame, whatever its payload, in any state of a decoder that is still open. */
  lemma CloseFrameExact(cfg: Config, asm: Assembly, payload: Bytes, mask: Option<Bytes>, rest: Bytes) returns (effect: Effect)
    requires MaskFits(cfg, mask) && !asm.closed && |payload| <= 125
    ensures CloseReadsAs(payload, effect)
    ensures Drain(cfg, State(FrameBytes(Opcode.Close, payload, true, mask) + rest, asm)) ==
      if effect.Breach? then Outcome(State(rest, asm.(closed := true)), [], Some(effect.code))
      else Outcome(State(rest, asm.(closed := true)), [effect.event], None)
  {
    effect := DecodeClose(payload);
    CloseDrains(cfg, asm, payload, mask, rest);
    DecodeCloseExact(payload);
    hide FrameBytes, DecodeClose, CloseReadsAs, Drain;
  }

  lemma DecodeCloseExact(payload: Bytes)
    ensures CloseReadsAs(payload, DecodeClose(payload)) && !DecodeClose(payload).Quiet?
  {
    if |payload| >= 2 {
      FirstTwoOctets(payload);
      if ValidUtf8(payload[2..]) {
        EncodeDecode(payload[2..]);
      }
      hide FromBig, Encode, Decode;
    }
  }

  /** A close of two octets is refused with 1002 exactly for the codes below 1000, 1004 to 1006,
      1015 to 2999 and above 4999. */
  lemma TwoOctetCloseExact(cfg: Config, asm: Assembly, high: byte, low: byte, mask: Option<Bytes>, rest: Bytes)
    requires MaskFits(cfg, mask) && !asm.closed
    ensures var code, r := high as int * 256 + low as int, Drain(cfg, State(FrameBytes(Opcode.Close, [high, low], true, mask) + rest, asm));
      if code < 1000 || 1004 <= code <= 1006 || 1015 <= code <= 2999 || 4999 < code then
        r == Outcome(State(rest, asm.(closed := true)), [], Some(1002))
      else r == Outcome(State(rest, asm.(closed := true)), [CloseReceived(code, [])], None)
  {
    var payload := [high, low];
    var effect := CloseFrameExact(cfg, asm, payload, mask, rest);
    assert payload[2..] == [] && ValidUtf8([]);
    if effect.Emit? {
      EncodesToNothing(effect.event.reason);
    }
    hide Drain, FrameBytes, Encode;
  }

  lemma EncodesToNothing(s: Utf8.Text)
    requires Encodable(s)
    ensures Encode(s) == [] <==> s == []
  {
  }
}
