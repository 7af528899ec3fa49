/** Whatever one side encodes, the other side decodes: single frames, fragmented
    messages with control frames between the fragments, and close frames. */
module FrameRoundTrip {
  import opened Bytes
  import opened Masking
  import opened Utf8
  import opened Wrappers
  import opened Frames
  import opened FrameDecoding

  // ---- one frame

  predicate MaskFits(cfg: Config, mask: Option<Bytes>) {
    if cfg.requireMask then mask.Some? && |mask.value| == 4 else mask.None?
  }

  /** The octets of a frame that `EncodeFrame` does not refuse. */
  function FrameBytes(opcode: Opcode, payload: Bytes, fin: bool, mask: Option<Bytes>): Bytes {
    match EncodeFrame(opcode, payload, fin, mask)
    case Ok(bytes) => bytes
    case Err(_) => []
  }

  lemma FirstByteReads(opcode: Opcode, fin: bool)
    ensures var b := FirstByte(opcode, fin);
      (b >= 128) == fin && b / 16 % 8 == 0 && OpcodeOf(b % 16) == Some(opcode)
  {
    assert opcode.Number() < 16;
    assert FirstByte(opcode, fin) % 16 == opcode.Number();
  }

  lemma LengthReads(first: byte, length: nat, masked: bool, rest: Bytes)
    requires length < TWO_63
    ensures
      var header := [first] + LengthHeader(length, masked);
      && |header| >= 2
      && (header[1] >= 128) == masked
      && TakeLength(header + rest) == Length.Length(length, |header|)
  {
    Pow256Values();
    var header := [first] + LengthHeader(length, masked);
    var b := header + rest;
    assert b[1] == header[1];
    if length >= 65536 {
      assert b[2..10] == ToBig(length, 8);
    } else if length >= 126 {
      assert b[2..4] == ToBig(length, 2);
    }
  }

  lemma TakesHeader(cfg: Config, whole: Bytes, fin: bool, opcode: Opcode, length: nat, offset: nat, size: nat)
    requires |whole| >= 2 && whole[0] == FirstByte(opcode, fin)
    requires (whole[1] >= 128) == cfg.requireMask
    requires TakeLength(whole) == Length.Length(length, offset)
    requires opcode.IsControl() ==> fin && length <= MAX_CONTROL_PAYLOAD
    requires !opcode.IsControl() ==> size + length <= cfg.maxMessageSize
    ensures 2 <= offset <= |whole|
    ensures TakeFrame(cfg, whole, size) == TakePayload(cfg.requireMask, whole, fin, opcode, length, offset)
  {
    FirstByteReads(opcode, fin);
  }

  lemma Regroup(a: Bytes, b: Bytes, c: Bytes, d: Bytes)
    ensures a + b + c + d == a + (b + c + d)
  {
  }

  /** A frame is a header, the key if any, and the payload under that key. */
  lemma FrameLayout(cfg: Config, opcode: Opcode, payload: Bytes, fin: bool, mask: Option<Bytes>)
    returns (header: Bytes, key: Bytes, body: Bytes)
    requires MaskFits(cfg, mask) && |payload| < TWO_63
    requires opcode.IsControl() ==> fin && |payload| <= MAX_CONTROL_PAYLOAD
    ensures EncodeFrame(opcode, payload, fin, mask) == Ok(header + key + body)
    ensures header == [FirstByte(opcode, fin)] + LengthHeader(|payload|, cfg.requireMask)
    ensures |key| == (if cfg.requireMask then 4 else 0) && |body| == |payload|
    ensures payload == if cfg.requireMask then ApplyMask(body, key) else body
  {
    header := [FirstByte(opcode, fin)] + LengthHeader(|payload|, cfg.requireMask);
    key := if mask.Some? then mask.value else [];
    body := if mask.Some? then ApplyMask(payload, key) else payload;
    if mask.Some? {
      MaskInvolution(payload, key);
    } else {
      assert header + key == header;
    }
  }

  /** A frame in front of any input is taken off whole, with the payload unmasked. */
  lemma TakesEncoded(cfg: Config, opcode: Opcode, payload: Bytes, fin: bool, mask: Option<Bytes>, rest: Bytes, size: nat)
    requires MaskFits(cfg, mask)
    requires opcode.IsControl() ==> fin && |payload| <= MAX_CONTROL_PAYLOAD
    requires !opcode.IsControl() ==> size + |payload| <= cfg.maxMessageSize && |payload| < TWO_63
    ensures EncodeFrame(opcode, payload, fin, mask).Ok?
    ensures
      var bytes := FrameBytes(opcode, payload, fin, mask);
      TakeFrame(cfg, bytes + rest, size) == Taken(Frame(fin, opcode, payload), |bytes|)
  {
    var header, key, body := FrameLayout(cfg, opcode, payload, fin, mask);
    Regroup(header, key, body, rest);
    LengthReads(FirstByte(opcode, fin), |payload|, cfg.requireMask, key + body + rest);
    TakesHeader(cfg, header + (key + body + rest), fin, opcode, |payload|, |header|, size);
    TakesPayload(cfg.requireMask, header, key, body, rest, fin, opcode);
  }

  lemma TakesPayload(masked: bool, header: Bytes, key: Bytes, body: Bytes, rest: Bytes, fin: bool, opcode: Opcode)
    requires |header| >= 2 && |key| == (if masked then 4 else 0)
    ensures
      var whole := header + (key + body + rest);
      TakePayload(masked, whole, fin, opcode, |body|, |header|) ==
        Taken(Frame(fin, opcode, if masked then ApplyMask(body, key) else body), |header + key + body|)
  {
    Slices(header, key, body, rest);
    hide ApplyMask;
  }

  lemma Slices(header: Bytes, key: Bytes, body: Bytes, rest: Bytes)
    ensures var whole, start := header + (key + body + rest), |header| + |key|;
      whole[|header|..start] == key && whole[start..start + |body|] == body
      && |whole| == start + |body| + |rest| && |header + key + body| == start + |body|
  {
  }

  /** Decoding a frame and what follows it: the frame's effect, then the rest. */
  lemma DrainsEncoded(cfg: Config, asm: Assembly, opcode: Opcode, payload: Bytes, fin: bool, mask: Option<Bytes>, rest: Bytes)
    requires MaskFits(cfg, mask)
    requires opcode.IsControl() ==> fin && |payload| <= MAX_CONTROL_PAYLOAD
    requires !opcode.IsControl() ==> asm.size + |payload| <= cfg.maxMessageSize && |payload| < TWO_63
    ensures
      var (asm', effect) := HandleFrame(asm, Frame(fin, opcode, payload));
      Drain(cfg, State(FrameBytes(opcode, payload, fin, mask) + rest, asm)) ==
        if effect.Breach? then Outcome(State(rest, asm'), [], Some(effect.code))
        else if asm'.closed then Outcome(State(rest, asm'), EventsOf(effect), None)
        else Drain(cfg, State(rest, asm')).After(EventsOf(effect))
  {
    var bytes := FrameBytes(opcode, payload, fin, mask);
    TakesEncoded(cfg, opcode, payload, fin, mask, rest, asm.size);
    assert (bytes + rest)[|bytes|..] == rest;
  }

  // ---- whole streams

  datatype Control = Control(ping: bool, payload: Bytes, mask: Option<Bytes>)

  /** One fragment, with the control frames sent just before it. */
  datatype Piece = Piece(before: seq<Control>, data: Bytes, mask: Option<Bytes>)

  datatype Item = Interlude(control: Control) | Message(isText: bool, pieces: seq<Piece>)

  function Data(pieces: seq<Piece>): Bytes {
    if pieces == [] then [] else pieces[0].data + Data(pieces[1..])
  }

  predicate ControlOk(cfg: Config, c: Control) {
    |c.payload| <= MAX_CONTROL_PAYLOAD && MaskFits(cfg, c.mask)
  }

  predicate PieceOk(cfg: Config, p: Piece) {
    MaskFits(cfg, p.mask) && forall i :: 0 <= i < |p.before| ==> ControlOk(cfg, p.before[i])
  }

  /** Text must be UTF-8 as a whole; its fragments need not be. */
  predicate MessageFits(cfg: Config, isText: bool, data: Bytes) {
    |data| <= cfg.maxMessageSize && |data| < TWO_63 && (isText ==> ValidUtf8(data))
  }

  predicate ItemOk(cfg: Config, item: Item) {
    match item
    case Interlude(c) => ControlOk(cfg, c)
    case Message(isText, pieces) =>
      && pieces != []
      && (forall i :: 0 <= i < |pieces| ==> PieceOk(cfg, pieces[i]))
      && MessageFits(cfg, isText, Data(pieces))
  }

  function EncodeControl(c: Control): Bytes {
    FrameBytes(if c.ping then Opcode.Ping else Opcode.Pong, c.payload, true, c.mask)
  }

  function EncodeControls(cs: seq<Control>): Bytes {
    if cs == [] then [] else EncodeControl(cs[0]) + EncodeControls(cs[1..])
  }

  /** The fragments of one message: the first names its kind, the last carries FIN. */
  function EncodePieces(opcode: Opcode, pieces: seq<Piece>): Bytes
    decreases |pieces|
  {
    if pieces == [] then []
    else
      EncodeControls(pieces[0].before) +
      (FrameBytes(opcode, pieces[0].data, |pieces| == 1, pieces[0].mask) +
       EncodePieces(Opcode.Continuation, pieces[1..]))
  }

  function KindOf(isText: bool): Opcode {
    if isText then Opcode.Text else Opcode.Binary
  }

  function EncodeItem(item: Item): Bytes {
    match item
    case Interlude(c) => EncodeControl(c)
    case Message(isText, pieces) => EncodePieces(KindOf(isText), pieces)
  }

  function EncodeItems(items: seq<Item>): Bytes {
    if items == [] then [] else EncodeItem(items[0]) + EncodeItems(items[1..])
  }

  function ControlEvent(c: Control): FrameEvent {
    if c.ping then PingReceived(c.payload) else PongReceived(c.payload)
  }

  function ControlEvents(cs: seq<Control>): seq<FrameEvent> {
    if cs == [] then [] else [ControlEvent(cs[0])] + ControlEvents(cs[1..])
  }

  function InterleavedEvents(pieces: seq<Piece>): seq<FrameEvent> {
    if pieces == [] then [] else ControlEvents(pieces[0].before) + InterleavedEvents(pieces[1..])
  }

  function MessageEvent(isText: bool, data: Bytes): FrameEvent
    requires isText ==> ValidUtf8(data)
  {
    if isText then TextMessage(Decode(data).value) else BinaryMessage(data)
  }

  /** What the receiver must report: the control frames where they came, each message
      at its final fragment. */
  function ItemEvents(cfg: Config, item: Item): seq<FrameEvent>
    requires ItemOk(cfg, item)
  {
    match item
    case Interlude(c) => [ControlEvent(c)]
    case Message(isText, pieces) => InterleavedEvents(pieces) + [MessageEvent(isText, Data(pieces))]
  }

  function StreamEvents(cfg: Config, items: seq<Item>): seq<FrameEvent>
    requires forall i :: 0 <= i < |items| ==> ItemOk(cfg, items[i])
  {
    if items == [] then [] else ItemEvents(cfg, items[0]) + StreamEvents(cfg, items[1..])
  }

  lemma DrainsControl(cfg: Config, asm: Assembly, c: Control, rest: Bytes)
    requires ControlOk(cfg, c) && !asm.closed
    ensures Drain(cfg, State(EncodeControl(c) + rest, asm)) == Drain(cfg, State(rest, asm)).After([ControlEvent(c)])
  {
    DrainsEncoded(cfg, asm, if c.ping then Opcode.Ping else Opcode.Pong, c.payload, true, c.mask, rest);
  }

  lemma {:induction false} DrainsControls(cfg: Config, asm: Assembly, cs: seq<Control>, rest: Bytes)
    requires !asm.closed && forall i :: 0 <= i < |cs| ==> ControlOk(cfg, cs[i])
    ensures
      Drain(cfg, State(EncodeControls(cs) + rest, asm)) == Drain(cfg, State(rest, asm)).After(ControlEvents(cs))
  {
    if cs == [] {
      assert EncodeControls(cs) + rest == rest;
    } else {
      var tail := EncodeControls(cs[1..]) + rest;
      assert EncodeControls(cs) + rest == EncodeControl(cs[0]) + tail;
      DrainsControl(cfg, asm, cs[0], tail);
      DrainsControls(cfg, asm, cs[1..], rest);
      AfterTwice(Drain(cfg, State(rest, asm)), ControlEvents(cs[1..]), [ControlEvent(cs[0])]);
    }
  }

  /** An open message with `done` already received. */
  predicate Holding(asm: Assembly, isText: bool, done: Bytes) {
    && !asm.closed
    && asm.size == |done|
    && Join(asm.fragments) == done
    && (asm.opcode == Some(KindOf(isText)) || (asm.opcode.None? && asm.fragments == []))
  }

  lemma DrainsPiece(cfg: Config, asm: Assembly, opcode: Opcode, p: Piece, fin: bool, tail: Bytes)
    requires PieceOk(cfg, p) && !asm.closed && !opcode.IsControl()
    requires asm.size + |p.data| <= cfg.maxMessageSize && |p.data| < TWO_63
    requires !HandleFrame(asm, Frame(fin, opcode, p.data)).1.Breach?
    ensures
      var (asm', effect) := HandleFrame(asm, Frame(fin, opcode, p.data));
      Drain(cfg, State(EncodeControls(p.before) + (FrameBytes(opcode, p.data, fin, p.mask) + tail), asm)) ==
        Drain(cfg, State(tail, asm')).After(ControlEvents(p.before) + EventsOf(effect))
  {
    assert !HandleFrame(asm, Frame(fin, opcode, p.data)).0.closed;
    hide Drain, HandleFrame, FrameBytes, EncodeControls, ControlEvents, EventsOf;
    DrainsControls(cfg, asm, p.before, FrameBytes(opcode, p.data, fin, p.mask) + tail);
    DrainsEncoded(cfg, asm, opcode, p.data, fin, p.mask, tail);
    var (asm', effect) := HandleFrame(asm, Frame(fin, opcode, p.data));
    AfterTwice(Drain(cfg, State(tail, asm')), EventsOf(effect), ControlEvents(p.before));
  }

  lemma HandlesPiece(asm: Assembly, isText: bool, done: Bytes, data: Bytes, fin: bool)
    requires Holding(asm, isText, done)
    requires fin && isText ==> ValidUtf8(done + data)
    ensures
      var opcode := if asm.opcode.None? then KindOf(isText) else Opcode.Continuation;
      var (asm', effect) := HandleFrame(asm, Frame(fin, opcode, data));
      if fin then asm' == FRESH && effect == Emit(MessageEvent(isText, done + data))
      else effect == Quiet && asm'.opcode.Some? && Holding(asm', isText, done + data)
  {
    JoinAppend(asm.fragments, [data]);
    assert Join([data]) == data;
  }

  lemma {:induction false} DrainsPieces(cfg: Config, asm: Assembly, isText: bool, done: Bytes, pieces: seq<Piece>, all: Bytes, rest: Bytes)
    requires Holding(asm, isText, done) && pieces != []
    requires forall i :: 0 <= i < |pieces| ==> PieceOk(cfg, pieces[i])
    requires all == done + Data(pieces) && MessageFits(cfg, isText, all)
    ensures
      var opcode := if asm.opcode.None? then KindOf(isText) else Opcode.Continuation;
      Drain(cfg, State(EncodePieces(opcode, pieces) + rest, asm)) ==
        Drain(cfg, State(rest, FRESH)).After(InterleavedEvents(pieces) + [MessageEvent(isText, all)])
    decreases |pieces|
  {
    hide Drain, HandleFrame, FrameBytes, PieceOk, MessageEvent, EncodeControls, ControlEvents;
    var opcode := if asm.opcode.None? then KindOf(isText) else Opcode.Continuation;
    var p, more := pieces[0], pieces[1..];
    var fin := |pieces| == 1;
    var tail := EncodePieces(Opcode.Continuation, more) + rest;
    var front := FrameBytes(opcode, p.data, fin, p.mask);
    Regroup(EncodeControls(p.before), front, EncodePieces(Opcode.Continuation, more), rest);
    assert EncodePieces(opcode, pieces) + rest == EncodeControls(p.before) + (front + tail);
    assert all == done + p.data + Data(more);
    if fin {
      assert all == done + p.data && tail == rest;
    }
    HandlesPiece(asm, isText, done, p.data, fin);
    DrainsPiece(cfg, asm, opcode, p, fin, tail);
    if fin {
      assert InterleavedEvents(pieces) == ControlEvents(p.before);
    } else {
      var last, end := [MessageEvent(isText, all)], Drain(cfg, State(rest, FRESH));
      DrainsPieces(cfg, HandleFrame(asm, Frame(false, opcode, p.data)).0, isText, done + p.data, more, all, rest);
      assert ControlEvents(p.before) + [] == ControlEvents(p.before);
      AfterTwice(end, InterleavedEvents(more) + last, ControlEvents(p.before));
      assert ControlEvents(p.before) + (InterleavedEvents(more) + last) == InterleavedEvents(pieces) + last;
    }
  }

  lemma DrainsItem(cfg: Config, item: Item, rest: Bytes)
    requires ItemOk(cfg, item)
    ensures
      Drain(cfg, State(EncodeItem(item) + rest, FRESH)) == Drain(cfg, State(rest, FRESH)).After(ItemEvents(cfg, item))
  {
    match item {
      case Interlude(c) =>
        DrainsControl(cfg, FRESH, c, rest);
      case Message(isText, pieces) =>
        assert [] + Data(pieces) == Data(pieces);
        DrainsPieces(cfg, FRESH, isText, [], pieces, Data(pieces), rest);
    }
  }

  /** The round trip over a whole stream in front of any further input. */
  lemma {:induction false} StreamThenRest(cfg: Config, items: seq<Item>, rest: Bytes)
    requires forall i :: 0 <= i < |items| ==> ItemOk(cfg, items[i])
    ensures
      Drain(cfg, State(EncodeItems(items) + rest, FRESH)) ==
        Drain(cfg, State(rest, FRESH)).After(StreamEvents(cfg, items))
  {
    if items == [] {
      assert EncodeItems(items) + rest == rest;
    } else {
      var tail := EncodeItems(items[1..]) + rest;
      assert EncodeItems(items) + rest == EncodeItem(items[0]) + tail;
      DrainsItem(cfg, items[0], tail);
      StreamThenRest(cfg, items[1..], rest);
      AfterTwice(Drain(cfg, State(rest, FRESH)), StreamEvents(cfg, items[1..]), ItemEvents(cfg, items[0]));
    }
  }

  /** Encoding any messages, in any fragments, with any pings and pongs between them
      and any masks, decodes to those control events and whole messages in order. */
  lemma StreamRoundTrip(cfg: Config, items: seq<Item>)
    requires forall i :: 0 <= i < |items| ==> ItemOk(cfg, items[i])
    ensures
      Feed(cfg, State([], FRESH), EncodeItems(items)) == Outcome(State([], FRESH), StreamEvents(cfg, items), None)
  {
    StreamThenRest(cfg, items, []);
    assert [] + EncodeItems(items) == EncodeItems(items) + [];
    assert StreamEvents(cfg, items) + [] == StreamEvents(cfg, items);
  }
}
