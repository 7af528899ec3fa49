/** The incremental WebSocket frame decoder: its meaning as functions on the
    decoder's state, and the class that computes it in place. */
module FrameDecoding {
  import opened Bytes
  import opened Masking
  import opened Utf8
  import opened Wrappers
  import opened Frames

  datatype Config = Config(maxMessageSize: nat, requireMask: bool)

  datatype Frame = Frame(fin: bool, opcode: Opcode, payload: Bytes)

  /** The message in progress. */
  datatype Assembly = Assembly(closed: bool, fragments: seq<Bytes>, opcode: Option<Opcode>, size: nat)
  {
    ghost predicate Valid(cfg: Config) {
      && size == |Join(fragments)| <= cfg.maxMessageSize
      && (opcode.None? <==> fragments == [])
      && (opcode.Some? ==> opcode.value in {Opcode.Text, Opcode.Binary})
    }
  }

  const FRESH := Assembly(false, [], None, 0)

  datatype State = State(buffer: Bytes, asm: Assembly)
  {
    function Received(data: Bytes): State {
      this.(buffer := buffer + data)
    }
  }

  /** What the front of the buffer holds: not enough, a violation, or a whole frame. */
  datatype Take = Starved | Violation(code: int) | Taken(frame: Frame, length: nat)

  /** The declared payload length and where it ends, once all its octets are in. */
  datatype Length = LengthStarved | LengthTooWide | Length(length: nat, offset: nat)

  function TakeLength(buffer: Bytes): (r: Length)
    requires |buffer| >= 2
    ensures r.Length? ==> 2 <= r.offset <= |buffer| && r.offset <= 10
    ensures r.LengthStarved? ==> |buffer| < 10
  {
    var short := buffer[1] % 128;
    if short == 126 then
      if |buffer| < 4 then LengthStarved else Length(FromBig(buffer[2..4]), 4)
    else if short == 127 then
      if |buffer| < 10 then LengthStarved
      else
        var length := FromBig(buffer[2..10]);
        if length >= TWO_63 then LengthTooWide else Length(length, 10)
    else Length(short, 2)
  }

  /** `_take_frame`. */
  function TakeFrame(cfg: Config, buffer: Bytes, fragmentSize: nat): (r: Take)
    ensures r.Taken? ==> 2 <= r.length <= |buffer|
  {
    if |buffer| < 2 then Starved
    else if buffer[0] / 16 % 8 != 0 then Violation(CLOSE_PROTOCOL_ERROR)
    else if OpcodeOf(buffer[0] % 16).None? then Violation(CLOSE_PROTOCOL_ERROR)
    else if (buffer[1] >= 128) != cfg.requireMask then Violation(CLOSE_PROTOCOL_ERROR)
    else
      var fin := buffer[0] >= 128;
      var opcode := OpcodeOf(buffer[0] % 16).value;
      match TakeLength(buffer)
      case LengthStarved => Starved
      case LengthTooWide => Violation(CLOSE_PROTOCOL_ERROR)
      case Length(length, offset) =>
        if opcode.IsControl() && (length > MAX_CONTROL_PAYLOAD || !fin) then Violation(CLOSE_PROTOCOL_ERROR)
        else if !opcode.IsControl() && fragmentSize + length > cfg.maxMessageSize then
          Violation(CLOSE_MESSAGE_TOO_BIG)
        else
          TakePayload(cfg.requireMask, buffer, fin, opcode, length, offset)
  }

  function TakePayload(masked: bool, buffer: Bytes, fin: bool, opcode: Opcode, length: nat, offset: nat): (r: Take)
    requires 2 <= offset <= |buffer|
    ensures r.Taken? ==> 2 <= r.length <= |buffer|
    ensures !r.Violation?
  {
    var start := if masked then offset + 4 else offset;
    if |buffer| < start + length then Starved
    else
      var payload := buffer[start..start + length];
      Taken(Frame(fin, opcode, if masked then ApplyMask(payload, buffer[offset..offset + 4]) else payload),
            start + length)
  }

  /** What one frame does: nothing visible yet, an event, or a violation. */
  datatype Effect = Quiet | Emit(event: FrameEvent) | Breach(code: int)

  /** `_decode_close`. */
  function DecodeClose(payload: Bytes): Effect
  {
    if payload == [] then Emit(CloseReceived(CLOSE_NO_STATUS, []))
    else if |payload| == 1 then Breach(CLOSE_PROTOCOL_ERROR)
    else if !IsValidCloseCode(FromBig(payload[..2])) then Breach(CLOSE_PROTOCOL_ERROR)
    else
      match Decode(payload[2..])
      case None => Breach(CLOSE_INVALID_PAYLOAD)
      case Some(reason) => Emit(CloseReceived(FromBig(payload[..2]), reason))
  }

  function Finished(opcode: Opcode, payload: Bytes): Effect
  {
    if opcode == Opcode.Binary then Emit(BinaryMessage(payload))
    else
      match Decode(payload)
      case None => Breach(CLOSE_INVALID_PAYLOAD)
      case Some(text) => Emit(TextMessage(text))
  }

  /** `_handle_frame`. */
  function HandleFrame(asm: Assembly, frame: Frame): (r: (Assembly, Effect))
  {
    if frame.opcode == Opcode.Ping then (asm, Emit(PingReceived(frame.payload)))
    else if frame.opcode == Opcode.Pong then (asm, Emit(PongReceived(frame.payload)))
    else if frame.opcode == Opcode.Close then (asm.(closed := true), DecodeClose(frame.payload))
    else if (frame.opcode == Opcode.Continuation) == asm.opcode.None? then (asm, Breach(CLOSE_PROTOCOL_ERROR))
    else
      var opcode := if asm.opcode.None? then frame.opcode else asm.opcode.value;
      var fragments := asm.fragments + [frame.payload];
      if !frame.fin then
        (asm.(fragments := fragments, opcode := Some(opcode), size := asm.size + |frame.payload|), Quiet)
      else
        (asm.(fragments := [], opcode := None, size := 0), Finished(opcode, Join(fragments)))
  }

  datatype Outcome = Outcome(state: State, events: seq<FrameEvent>, error: Option<int>)
  {
    /** The same outcome after `earlier` events. */
    function After(earlier: seq<FrameEvent>): Outcome {
      this.(events := earlier + events)
    }
  }

  function EventsOf(effect: Effect): seq<FrameEvent> {
    if effect.Emit? then [effect.event] else []
  }

  /** The decoding loop of `feed_data`. */
  function Drain(cfg: Config, st: State): (r: Outcome)
    decreases |st.buffer|
  {
    match TakeFrame(cfg, st.buffer, st.asm.size)
    case Starved => Outcome(st, [], None)
    case Violation(code) => Outcome(st, [], Some(code))
    case Taken(frame, length) =>
      var (asm, effect) := HandleFrame(st.asm, frame);
      var next := State(st.buffer[length..], asm);
      if effect.Breach? then Outcome(next, [], Some(effect.code))
      else if asm.closed then Outcome(next, EventsOf(effect), None)
      else Drain(cfg, next).After(EventsOf(effect))
  }

  /** `feed_data`. */
  function Feed(cfg: Config, st: State, data: Bytes): Outcome
  {
    if st.asm.closed then Outcome(st, [], None) else Drain(cfg, st.Received(data))
  }

  /** `FrameParser`. */
  class FrameParser {
    const cfg: Config
    var buffer: Bytes
    var closed: bool
    var fragments: seq<Bytes>
    var fragmentOpcode: Option<Opcode>
    var fragmentSize: nat

    function Asm(): Assembly
      reads this
    {
      Assembly(closed, fragments, fragmentOpcode, fragmentSize)
    }

    function View(): State
      reads this
    {
      State(buffer, Asm())
    }

    ghost predicate Valid()
      reads this
    {
      Asm().Valid(cfg)
    }

    constructor (cfg: Config)
      ensures this.cfg == cfg && View() == State([], FRESH) && Valid()
    {
      this.cfg := cfg;
      buffer, closed, fragments, fragmentOpcode, fragmentSize := [], false, [], None, 0;
    }

    method TakeFrameInPlace() returns (r: Take)
      modifies this`buffer
      ensures r == TakeFrame(cfg, old(buffer), fragmentSize)
      ensures buffer == if r.Taken? then old(buffer)[r.length..] else old(buffer)
    {
      hide ApplyMask, FromBig, OpcodeOf;
      if |buffer| < 2 {
        return Starved;
      }
      var first, second := buffer[0], buffer[1];
      var fin := first >= 128;
      if first / 16 % 8 != 0 {
        return Violation(CLOSE_PROTOCOL_ERROR);
      }
      var op := OpcodeOf(first % 16);
      if op.None? {
        return Violation(CLOSE_PROTOCOL_ERROR);
      }
      var opcode := op.value;
      var masked := second >= 128;
      if masked != cfg.requireMask {
        return Violation(CLOSE_PROTOCOL_ERROR);
      }
      var length: nat, offset: nat := second % 128, 2;
      if length == 126 {
        if |buffer| < offset + 2 {
          return Starved;
        }
        length := FromBig(buffer[offset..offset + 2]);
        offset := offset + 2;
      } else if length == 127 {
        if |buffer| < offset + 8 {
          return Starved;
        }
        length := FromBig(buffer[offset..offset + 8]);
        offset := offset + 8;
        if length >= TWO_63 {
          return Violation(CLOSE_PROTOCOL_ERROR);
        }
      }
      if opcode.IsControl() {
        if length > MAX_CONTROL_PAYLOAD {
          return Violation(CLOSE_PROTOCOL_ERROR);
        }
        if !fin {
          return Violation(CLOSE_PROTOCOL_ERROR);
        }
      } else if fragmentSize + length > cfg.maxMessageSize {
        return Violation(CLOSE_MESSAGE_TOO_BIG);
      }
      var mask: Bytes := [];
      if masked {
        if |buffer| < offset + 4 {
          return Starved;
        }
        mask := buffer[offset..offset + 4];
        offset := offset + 4;
      }
      if |buffer| < offset + length {
        return Starved;
      }
      var payload := buffer[offset..offset + length];
      buffer := buffer[offset + length..];
      if masked {
        payload := ApplyMask(payload, mask);
      }
      r := Taken(Frame(fin, opcode, payload), offset + length);
    }

    method HandleFrameInPlace(frame: Frame) returns (effect: Effect)
      modifies this`closed, this`fragments, this`fragmentOpcode, this`fragmentSize
      ensures (Asm(), effect) == HandleFrame(old(Asm()), frame)
    {
      if frame.opcode == Opcode.Ping {
        return Emit(PingReceived(frame.payload));
      }
      if frame.opcode == Opcode.Pong {
        return Emit(PongReceived(frame.payload));
      }
      if frame.opcode == Opcode.Close {
        closed := true;
        return DecodeClose(frame.payload);
      }
      if frame.opcode == Opcode.Continuation {
        if fragmentOpcode.None? {
          return Breach(CLOSE_PROTOCOL_ERROR);
        }
      } else if fragmentOpcode.Some? {
        return Breach(CLOSE_PROTOCOL_ERROR);
      } else {
        fragmentOpcode := Some(frame.opcode);
      }
      fragments := fragments + [frame.payload];
      fragmentSize := fragmentSize + |frame.payload|;
      if !frame.fin {
        return Quiet;
      }
      var opcode, payload := fragmentOpcode.value, Join(fragments);
      fragments, fragmentOpcode, fragmentSize := [], None, 0;
      effect := Finished(opcode, payload);
    }

    /** Valid() survives every feed that reports no violation; a violation ends the connection. */
    method FeedData(data: Bytes) returns (events: seq<FrameEvent>, error: Option<int>)
      requires Valid()
      modifies this
      ensures Outcome(View(), events, error) == Feed(cfg, old(View()), data)
      ensures error.None? ==> Valid()
    {
      hide TakeFrame, HandleFrame;
      events, error := [], None;
      if closed {
        return;
      }
      buffer := buffer + data;
      ghost var start := View();
      while true
        invariant error.None? && !closed && Valid()
        invariant Drain(cfg, start) == Drain(cfg, View()).After(events)
        decreases |buffer|
      {
        ghost var here := View();
        var take := TakeFrameInPlace();
        if take.Violation? {
          error := Some(take.code);
          return;
        }
        if take.Starved? {
          break;
        }
        TakenFits(cfg, here);
        label Taken:
        var effect := HandleFrameInPlace(take.frame);
        if effect.Breach? {
          error := Some(effect.code);
          return;
        }
        HandleKeepsValid(cfg, old@Taken(Asm()), take.frame);
        ghost var earlier := events;
        events := events + EventsOf(effect);
        if closed {
          break;
        }
        AfterTwice(Drain(cfg, View()), EventsOf(effect), earlier);
      }
    }
  }

  lemma AfterTwice(r: Outcome, late: seq<FrameEvent>, early: seq<FrameEvent>)
    ensures r.After(late).After(early) == r.After(early + late)
  {
    assert early + (late + r.events) == early + late + r.events;
  }

  /** The bookkeeping of the message in progress stays exact while frames are accepted. */
  lemma HandleKeepsValid(cfg: Config, asm: Assembly, frame: Frame)
    requires asm.Valid(cfg)
    requires !frame.opcode.IsControl() ==> asm.size + |frame.payload| <= cfg.maxMessageSize
    requires !HandleFrame(asm, frame).1.Breach?
    ensures HandleFrame(asm, frame).0.Valid(cfg)
  {
    JoinAppend(asm.fragments, [frame.payload]);
    assert Join([frame.payload]) == frame.payload;
  }

  lemma TakenFits(cfg: Config, st: State)
    requires TakeFrame(cfg, st.buffer, st.asm.size).Taken?
    ensures
      var frame := TakeFrame(cfg, st.buffer, st.asm.size).frame;
      !frame.opcode.IsControl() ==> st.asm.size + |frame.payload| <= cfg.maxMessageSize
  {
  }
}
