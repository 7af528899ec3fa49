/** Close frames: encoding with a reason cut to size, and what the peer reads. */
module CloseFrames {
  import opened Bytes
  import opened Utf8
  import opened Wrappers
  import opened Frames
  import opened FrameDecoding
  import opened FrameRoundTrip

  function ClosePayload(code: int, reason: Bytes): Bytes
    requires 0 <= code < 65536
  {
    Pow256Values();
    ToBig(code, 2) + reason
  }

  /** The close frame for a code and a reason. A code outside 16 bits makes
      `struct.pack` fail, a lone surrogate makes `str.encode` fail. */
  function CloseFrame(code: Option<int>, reason: Utf8.Text, mask: Option<Bytes>): Encoded
  {
    if code.None? then EncodeFrame(Opcode.Close, [], true, mask)
    else if !Encodable(reason) then Err(UnicodeError)
    else if !(0 <= code.value < 65536) then Err(StructError)
    else
      var cut := LongestValidPrefix(Encode(reason), MAX_CLOSE_REASON_BYTES);
      EncodeFrame(Opcode.Close, ClosePayload(code.value, cut), true, mask)
  }

  /** `encode_close_frame`. */
  method EncodeCloseFrame(code: Option<int>, reason: Utf8.Text, mask: Option<Bytes>) returns (r: Encoded)
    ensures r == CloseFrame(code, reason, mask)
  {
    if code.None? {
      return EncodeFrame(Opcode.Close, [], true, mask);
    }
    if !Encodable(reason) {
      return Err(UnicodeError);
    }
    var encoded := Encode(reason);
    if |encoded| > MAX_CLOSE_REASON_BYTES {
      encoded := TruncateUtf8(encoded, MAX_CLOSE_REASON_BYTES);
    } else {
      WholeTextIsLongest(reason, MAX_CLOSE_REASON_BYTES);
    }
    if !(0 <= code.value < 65536) {
      return Err(StructError);
    }
    r := EncodeFrame(Opcode.Close, ClosePayload(code.value, encoded), true, mask);
  }

  lemma WholeTextIsLongest(s: Utf8.Text, limit: nat)
    requires Encodable(s) && |Encode(s)| <= limit
    ensures LongestValidPrefix(Encode(s), limit) == Encode(s)
  {
    var k := TruncationKeepsWholeCharacters(s, limit, LongestValidPrefix(Encode(s), limit));
    assert s[..|s|] == s;
  }

  /** A close frame with a sendable code and any encodable reason is never refused and
      carries at most 125 octets; whoever decodes it reads the code and the longest run
      of whole characters that 123 octets hold, and nothing behind it is decoded. */
  lemma CloseRoundTrip(cfg: Config, asm: Assembly, code: int, reason: Utf8.Text, mask: Option<Bytes>, rest: Bytes)
    returns (k: nat)
    requires MaskFits(cfg, mask) && !asm.closed
    requires IsValidCloseCode(code) && Encodable(reason)
    ensures CloseFrame(Some(code), reason, mask).Ok?
    ensures |ClosePayload(code, LongestValidPrefix(Encode(reason), MAX_CLOSE_REASON_BYTES))| <= MAX_CONTROL_PAYLOAD
    ensures k <= |reason|
    ensures
      Drain(cfg, State(CloseFrame(Some(code), reason, mask).bytes + rest, asm)) ==
        Outcome(State(rest, asm.(closed := true)), [CloseReceived(code, reason[..k])], None)
    ensures k == |reason| <==> |Encode(reason)| <= MAX_CLOSE_REASON_BYTES
    ensures k < |reason| ==> |Encode(reason[..k + 1])| > MAX_CLOSE_REASON_BYTES
    ensures k < |reason| ==> MAX_CLOSE_REASON_BYTES - 3 <= |Encode(reason[..k])| <= MAX_CLOSE_REASON_BYTES
  {
    Pow256Values();
    var cut := LongestValidPrefix(Encode(reason), MAX_CLOSE_REASON_BYTES);
    k := TruncationKeepsWholeCharacters(reason, MAX_CLOSE_REASON_BYTES, cut);
    DecodeEncode(reason[..k]);
    var payload := ClosePayload(code, cut);
    assert payload[..2] == ToBig(code, 2) && payload[2..] == cut;
    TakesEncoded(cfg, Opcode.Close, payload, true, mask, rest, asm.size);
    DrainsEncoded(cfg, asm, Opcode.Close, payload, true, mask, rest);
  }

  /** A close frame without a payload is read as "no status"; 1005 itself is never sent. */
  lemma BareCloseRoundTrip(cfg: Config, asm: Assembly, reason: Utf8.Text, mask: Option<Bytes>, rest: Bytes)
    requires MaskFits(cfg, mask) && !asm.closed
    ensures CloseFrame(None, reason, mask).Ok?
    ensures
      Drain(cfg, State(CloseFrame(None, reason, mask).bytes + rest, asm)) ==
        Outcome(State(rest, asm.(closed := true)), [CloseReceived(CLOSE_NO_STATUS, [])], None)
  {
    TakesEncoded(cfg, Opcode.Close, [], true, mask, rest, asm.size);
    DrainsEncoded(cfg, asm, Opcode.Close, [], true, mask, rest);
  }
}
