/** The websocket half of the connection bridge, from the upgrade head on: each step is
    one event-loop callback or one stretch of the application between two awaits. */
module WsSession {
  import opened Bytes
  import opened Utf8
  import opened Wrappers
  import opened Frames
  import opened CloseFrames
  import FD = FrameDecoding
  import FS = FrameSegmentation

  /** `why` is the text of the violation that a decoder in that state reports on that input. */
  datatype Settings = Settings(
    maxMessageSize: nat, pauseWatermark: nat, resumeWatermark: nat, pingInterval: bool, pingTimeout: bool,
    why: (FD.State, Bytes) -> PlainText)
  {
    /** A server's decoder: clients must mask. */
    function Decoder(): FD.Config {
      FD.Config(maxMessageSize, true)
    }
  }

  predicate AsciiText(s: Utf8.Text) {
    forall i :: 0 <= i < |s| ==> s[i] < 128
  }

  /** The server's own texts. */
  type PlainText = s: Utf8.Text | AsciiText(s) witness []

  // "ping timeout", "server shutting down"
  const PING_TIMEOUT: PlainText := [112, 105, 110, 103, 32, 116, 105, 109, 101, 111, 117, 116]
  const SHUTTING_DOWN: PlainText :=
    [115, 101, 114, 118, 101, 114, 32, 115, 104, 117, 116, 116, 105, 110, 103, 32, 100, 111, 119, 110]

  const NEW_DECODER := FD.State([], FD.FRESH)

  datatype WsState = Connecting | Connected | Closed

  /** What one write puts on the wire: an HTTP refusal, the 101 response, or one frame. */
  datatype WireItem = Refusal(status: nat) | Switching(subprotocol: Option<Utf8.Text>) | FrameOut(opcode: Opcode, payload: Bytes)

  /** What `receive()` hands to the application. */
  datatype Message =
    | Connect
    | ReceiveText(text: Utf8.Text)
    | ReceiveBytes(data: Bytes)
    | Disconnect(code: int, reason: Utf8.Text)

  /** What the application may pass to `send()`. */
  datatype AppMessage =
    | Accept(subprotocol: Option<Utf8.Text>, headersOk: bool)
    | SendBytes(data: Bytes)
    | SendText(text: Utf8.Text)
    | SendNeither
    | CloseMessage(code: int, reason: Utf8.Text)
    | Unexpected

  /** The transport and the connection's flags. `failure` is a refusal waiting to be written. */
  datatype Link = Link(closed: bool, disconnected: bool, closing: bool, paused: bool, appDone: bool, failure: Option<nat>)

  /** History: what was written, what arrived after the upgrade head, what the decoder was
      fed and reported, what the application received. */
  datatype History = History(
    wire: seq<WireItem>, prologue: Bytes, arrived: Bytes, fed: Bytes, events: seq<FrameEvent>,
    received: seq<Message>, repeats: nat)

  predicate SubprotocolOk(s: Option<Utf8.Text>) {
    s.None? || AsciiText(s.value)
  }

  /** What `encode_close_frame` makes of some code and reason. */
  ghost predicate IsClosePayload(payload: Bytes) {
    || payload == []
    || exists code: int, reason: Utf8.Text :: IsPayloadOf(payload, code, reason)
  }

  predicate IsPayloadOf(payload: Bytes, code: int, reason: Utf8.Text) {
    && Encodable(reason) && 0 <= code < 65536
    && payload == ClosePayload(code, LongestValidPrefix(Encode(reason), MAX_CLOSE_REASON_BYTES))
  }

  /** A whole frame that the encoder accepts, unfragmented, text being UTF-8. */
  ghost predicate GoodFrame(item: WireItem) {
    && item.FrameOut? && item.opcode != Opcode.Continuation && |item.payload| < TWO_64
    && (item.opcode.IsControl() ==> |item.payload| <= MAX_CONTROL_PAYLOAD)
    && (item.opcode == Opcode.Text ==> ValidUtf8(item.payload))
    && (item.opcode == Opcode.Close ==> IsClosePayload(item.payload))
  }

  /** The close frame as a wire item; None where encoding it raises. */
  function CloseItem(code: Option<int>, reason: Utf8.Text): (r: Option<WireItem>)
    ensures r.Some? ==> GoodFrame(r.value) && r.value.opcode == Opcode.Close
  {
    if code.None? then Some(FrameOut(Opcode.Close, []))
    else if Encodable(reason) && 0 <= code.value < 65536 then
      var payload := ClosePayload(code.value, LongestValidPrefix(Encode(reason), MAX_CLOSE_REASON_BYTES));
      assert IsPayloadOf(payload, code.value, reason);
      Some(FrameOut(Opcode.Close, payload))
    else None
  }

  datatype Sent = Sent(conn: Conn, raised: bool)

  datatype Conn = Conn(
    wsState: Option<WsState>,
    link: Link,
    closeSent: bool,
    decoder: FD.State,
    prologue: Bytes,
    queue: seq<Message>,
    disconnect: Option<Message>,
    pendingPing: Option<Bytes>,
    pingArmed: bool,
    hist: History)
  {
    /** `_ws_write`. */
    function Write(item: WireItem): Conn {
      if link.closing then this else this.(hist := hist.(wire := hist.wire + [item]))
    }

    /** `_arm_ws_ping`. */
    function Arm(s: Settings): Conn {
      this.(pingArmed := s.pingInterval && wsState == Some(Connected))
    }

    /** `_push_to_queue`. */
    function Push(s: Settings, m: Message): Conn {
      this.(queue := queue + [m],
            link := if !link.paused && |queue| + 1 >= s.pauseWatermark then link.(paused := true) else link)
    }

    /** `_enqueue_ws_disconnect`: the first cause wins. */
    function EnqueueDisconnect(code: int, reason: Utf8.Text): Conn {
      if disconnect.Some? then this
      else this.(disconnect := Some(Disconnect(code, reason)), queue := queue + [Disconnect(code, reason)])
    }

    /** `_finish_websocket`. */
    function Finish(code: int, reason: Utf8.Text): Conn {
      var c := this.(wsState := Some(Closed), pingArmed := false).EnqueueDisconnect(code, reason);
      c.(link := c.link.(closing := true))
    }

    /** Send a close frame unless one was tried before, then finish. None where encoding
        raises; that still counts as tried. */
    function CloseAndFinish(item: Option<WireItem>, code: int, reason: Utf8.Text): Sent {
      if closeSent then Sent(Finish(code, reason), false)
      else if item.None? then Sent(this.(closeSent := true), true)
      else Sent(this.(closeSent := true).Write(item.value).Finish(code, reason), false)
    }

    /** `_ws_abort`. */
    function Abort(code: int, reason: PlainText): Conn {
      CloseAndFinish(CloseItem(Some(code), reason), code, reason).conn
    }

    /** `_ws_peer_closed`. */
    function PeerClosed(code: int, reason: Utf8.Text): Conn {
      CloseAndFinish(CloseItem(if code == CLOSE_NO_STATUS then None else Some(code), reason), code, reason).conn
    }

    /** `_handle_frame_event`. */
    function HandleEvent(s: Settings, e: FrameEvent): Conn {
      var c := this.(hist := hist.(events := hist.events + [e]));
      match e
      case TextMessage(text) => c.Push(s, ReceiveText(text))
      case BinaryMessage(data) => c.Push(s, ReceiveBytes(data))
      case PingReceived(data) => c.Write(FrameOut(Opcode.Pong, data))
      case PongReceived(data) => if Some(data) == c.pendingPing then c.(pendingPing := None) else c
      case CloseReceived(code, reason) => c.PeerClosed(code, reason)
    }

    function HandleAll(s: Settings, events: seq<FrameEvent>): Conn
      decreases |events|
    {
      if events == [] then this else HandleEvent(s, events[0]).HandleAll(s, events[1..])
    }

    /** Act on what one feed of the decoder reported. */
    function Digest(s: Settings, r: FD.Outcome, why: PlainText): Conn {
      var c := HandleAll(s, r.events);
      if r.error.Some? then c.Abort(r.error.value, why) else c
    }

    /** `_ws_data_received`. */
    function FeedFrames(s: Settings, data: Bytes): Conn {
      if wsState.None? || wsState == Some(Closed) then this
      else
        var r := FD.Feed(s.Decoder(), decoder, data);
        this.(pendingPing := None, decoder := r.state, hist := hist.(fed := hist.fed + data)).Arm(s)
          .Digest(s, r, s.why(decoder, data))
    }

    /** `_ws_accept`, with the turn open: the handshake is the connection's first request. */
    function DoAccept(s: Settings, subprotocol: Option<Utf8.Text>, headersOk: bool): Sent {
      if !headersOk then Sent(this, true)
      else
        var c := this.(wsState := Some(Connected));
        if !SubprotocolOk(subprotocol) then Sent(c, true)
        else
          var e := c.Opened(s, subprotocol);
          Sent(if prologue != [] then e.FeedFrames(s, prologue) else e, false)
    }

    /** The 101 written, the pre-accept pause lifted, the idle timer started. */
    function Opened(s: Settings, subprotocol: Option<Utf8.Text>): Conn {
      var d := Write(Switching(subprotocol));
      d.(link := d.link.(paused := false), prologue := []).Arm(s)
    }

    /** `_ws_deny`, up to its wait for the turn. */
    function StartDeny(): Conn {
      this.(wsState := Some(Closed)).EnqueueDisconnect(CLOSE_NORMAL, [])
    }

    /** `_ws_deny`, behind its wait. */
    function EndDeny(): Conn {
      var c := Write(Refusal(403));
      c.(link := c.link.(closing := true))
    }

    /** `_ws_deny`, with the turn open. */
    function Deny(): Conn {
      StartDeny().EndDeny()
    }

    /** `send()`. */
    function Send(s: Settings, m: AppMessage): Sent {
      match wsState
      case Some(Connecting) =>
        (match m
         case Accept(subprotocol, headersOk) => DoAccept(s, subprotocol, headersOk)
         case CloseMessage(_, _) => Sent(Deny(), false)
         case _ => Sent(this, true))
      case Some(Connected) =>
        (match m
         case SendBytes(data) =>
           if |data| < TWO_64 then Sent(Write(FrameOut(Opcode.Binary, data)), false) else Sent(this, true)
         case SendText(text) =>
           if Encodable(text) && |Encode(text)| < TWO_64 then Sent(Write(FrameOut(Opcode.Text, Encode(text))), false)
           else Sent(this, true)
         case CloseMessage(code, reason) => CloseAndFinish(CloseItem(Some(code), reason), code, reason)
         case _ => Sent(this, true))
      case _ => Sent(this, !m.CloseMessage?)
    }

    /** Whether `receive()` returns at once. */
    predicate CanReceive() {
      queue != [] || disconnect.Some? || link.disconnected
    }

    /** What it returns, and the state it leaves. */
    function Received(): Message
      requires CanReceive()
    {
      if queue != [] then queue[0] else if disconnect.Some? then disconnect.value else Disconnect(CLOSE_ABNORMAL, [])
    }

    function AfterReceive(s: Settings): Conn
      requires CanReceive()
    {
      var c := this.(hist := hist.(received := hist.received + [Received()]));
      if queue != [] then
        c.(queue := queue[1..],
           link := if link.paused && wsState == Some(Connected) && |queue| - 1 <= s.resumeWatermark
                   then link.(paused := false) else link)
      else c.(hist := c.hist.(repeats := hist.repeats + 1))
    }

    /** `data_received`. */
    function DataReceived(s: Settings, data: Bytes): Conn {
      var c := this.(hist := hist.(arrived := hist.arrived + data));
      if link.closed then c else c.FeedFrames(s, data)
    }

    /** `_on_ws_ping_due`. */
    function PingDue(s: Settings, payload: Bytes): Conn {
      var c := this.(pingArmed := false);
      if wsState != Some(Connected) then c
      else if pendingPing.Some? then c.Abort(CLOSE_INTERNAL_ERROR, PING_TIMEOUT)
      else c.(pendingPing := Some(payload)).Write(FrameOut(Opcode.Ping, payload))
            .(pingArmed := s.pingTimeout || s.pingInterval)
    }

    /** `shutdown_websocket`. */
    function Shutdown(): Conn {
      if wsState.None? || wsState == Some(Closed) then this
      else if wsState == Some(Connected) then 
        CloseAndFinish(CloseItem(Some(CLOSE_GOING_AWAY), SHUTTING_DOWN), CLOSE_GOING_AWAY, SHUTTING_DOWN).conn
      else Finish(CLOSE_GOING_AWAY, SHUTTING_DOWN)
    }

    /** `connection_lost`. */
    function Lost(): Conn {
      var c := this.(link := link.(closed := true, disconnected := true, closing := true), pingArmed := false);
      if wsState.Some? then c.EnqueueDisconnect(CLOSE_ABNORMAL, []) else c
    }

    /** `_on_ws_task_done`. */
    function TaskDone(raised: bool): Conn {
      var c := this.(link := link.(appDone := true));
      var d := if wsState == Some(Connected) then CloseAndFinishNormally(c) else c;
      if raised then d.(link := d.link.(closing := true)) else d
    }

    static function CloseAndFinishNormally(c: Conn): Conn {
      c.CloseAndFinish(CloseItem(Some(CLOSE_NORMAL), []), CLOSE_NORMAL, []).conn
    }

    /** `_write_failure_response`, once its turn is open. */
    function WriteRefusal(): Conn
      requires link.failure.Some?
    {
      var c := Write(Refusal(link.failure.value));
      c.(link := c.link.(failure := None, closing := true))
    }
  }

  const OPEN_LINK := Link(false, false, false, false, false, None)

  /** `_begin_websocket` on a fresh connection, for a head that passes the handshake check:
      `prologue` is what the parser already held behind the head. */
  function Begin(prologue: Bytes): Conn {
    Conn(Some(Connecting), OPEN_LINK.(paused := true), false, NEW_DECODER, prologue, [Connect], None, None, false,
         History([], prologue, [], [], [], [], 0))
  }

  /** The head fails the check (400 or 426) or asks for a protocol not implemented (501). */
  function BeginRefusal(status: nat): Conn {
    Conn(None, OPEN_LINK.(closed := true, failure := Some(status)), false, NEW_DECODER, [], [], None, None, false,
         History([], [], [], [], [], [], 0))
  }

  datatype Op =
    | Send(message: AppMessage)
    | Receive
    | Data(data: Bytes)
    | PingDue(payload: Bytes)
    | Shutdown
    | LosingTransport
    | ConnectionLost
    | TaskDone(raised: bool)
    | WriteRefusal

  /** When each step may happen. Bytes arrive only while reading is not paused and the transport
      is not closing; a timer fires only while armed; the loop reports the loss of a connection
      once. */
  predicate Enabled(c: Conn, op: Op) {
    match op
    case Send(_) => c.wsState.Some? && !c.link.appDone
    case Receive => c.wsState.Some? && !c.link.appDone && c.CanReceive()
    case Data(_) => !c.link.paused && !c.link.disconnected && !c.link.closing
    case PingDue(payload) => c.pingArmed && |payload| == 4
    case Shutdown => true
    case LosingTransport => true
    case ConnectionLost => !c.link.disconnected
    case TaskDone(_) => c.wsState.Some? && !c.link.appDone
    case WriteRefusal => c.link.failure.Some?
  }

  function Step(s: Settings, c: Conn, op: Op): Conn
    requires Enabled(c, op)
  {
    match op
    case Send(m) => c.Send(s, m).conn
    case Receive => c.AfterReceive(s)
    case Data(data) => c.DataReceived(s, data)
    case PingDue(payload) => c.PingDue(s, payload)
    case Shutdown => c.Shutdown()
    case LosingTransport => c.(link := c.link.(closing := true))
    case ConnectionLost => c.Lost()
    case TaskDone(raised) => c.TaskDone(raised)
    case WriteRefusal => c.WriteRefusal()
  }

  /** c is reached from start by these steps. */
  ghost predicate Reaches(s: Settings, start: Conn, ops: seq<Op>, c: Conn)
    decreases |ops|
  {
    if ops == [] then c == start
    else Enabled(start, ops[0]) && Reaches(s, Step(s, start, ops[0]), ops[1..], c)
  }

  // ---- the wire

  /** 101, then good frames none of which is a close frame. */
  ghost predicate LiveWire(wire: seq<WireItem>) {
    && wire != [] && wire[0].Switching?
    && forall i :: 1 <= i < |wire| ==> GoodFrame(wire[i]) && wire[i].opcode != Opcode.Close
  }

  /** Nothing, one refusal, or 101 and good frames with at most one close frame, last. */
  ghost predicate WireOk(wire: seq<WireItem>) {
    || wire == []
    || (|wire| == 1 && wire[0].Refusal?)
    || LiveWire(wire)
    || (LiveWire(wire[..|wire| - 1]) && GoodFrame(wire[|wire| - 1]))
  }

  /** The wire is in order, and while it is open it fits the session's state. */
  ghost predicate WireInv(c: Conn) {
    && WireOk(c.hist.wire)
    && (c.link.failure.Some? ==> c.wsState.None?)
    && (c.wsState == Some(Connecting) ==> c.link.paused && !c.closeSent)
    && (!c.link.closing ==>
         match c.wsState
         case None => c.hist.wire == []
         case Some(Connecting) => c.hist.wire == []
         case Some(Connected) => LiveWire(c.hist.wire)
         case Some(Closed) => false)
  }

  /** An accept whose subprotocol can be written. */
  predicate Writable(op: Op) {
    op.Send? && op.message.Accept? ==> SubprotocolOk(op.message.subprotocol)
  }

  /** A step that writes nothing, and at most starts to close. */
  lemma WireFrame(c: Conn, d: Conn)
    requires WireInv(c) && d.hist.wire == c.hist.wire && d.link.failure == c.link.failure
    requires (c.link.closing ==> d.link.closing) && (d.link.closing || d.wsState == c.wsState)
    requires d.link.failure.Some? ==> d.wsState.None?
    requires d.wsState == Some(Connecting) ==> c.wsState == d.wsState && d.link.paused == c.link.paused && d.closeSent == c.closeSent
    ensures WireInv(d)
  {
    hide WireOk, LiveWire;
  }

  lemma WritesFrame(c: Conn, item: WireItem)
    requires WireInv(c) && c.wsState == Some(Connected) && GoodFrame(item)
    ensures WireOk(c.Write(item).hist.wire)
    ensures item.opcode != Opcode.Close ==> WireInv(c.Write(item))
  {
    if !c.link.closing {
      var w := c.hist.wire + [item];
      assert w[..|w| - 1] == c.hist.wire;
    }
  }

  lemma ClosesInOrder(c: Conn, item: Option<WireItem>, code: int, reason: Utf8.Text)
    requires WireInv(c) && c.wsState == Some(Connected)
    requires item.Some? ==> GoodFrame(item.value)
    ensures WireInv(c.CloseAndFinish(item, code, reason).conn)
    ensures var d := c.CloseAndFinish(item, code, reason).conn;
      d.wsState == Some(Connected) || (d.wsState == Some(Closed) && d.link.closing)
  {
    var d := c.(closeSent := true);
    if item.Some? {
      WritesFrame(d, item.value);
    }
  }

  /** Once the transport is closing nothing is written. */
  lemma {:induction false} HandleKeepsWire(s: Settings, c: Conn, events: seq<FrameEvent>)
    requires WireInv(c) && (c.wsState == Some(Connected) || (c.wsState == Some(Closed) && c.link.closing))
    requires forall i :: 0 <= i < |events| ==> FS.Answerable(events[i])
    ensures var d := c.HandleAll(s, events);
      WireInv(d) && (d.wsState == Some(Connected) || (d.wsState == Some(Closed) && d.link.closing))
    decreases |events|
  {
    if events != [] {
      HandleOneKeepsWire(s, c, events[0]);
      HandleKeepsWire(s, c.HandleEvent(s, events[0]), events[1..]);
    }
  }

  lemma HandleOneKeepsWire(s: Settings, c: Conn, e: FrameEvent)
    requires WireInv(c) && (c.wsState == Some(Connected) || (c.wsState == Some(Closed) && c.link.closing))
    requires FS.Answerable(e)
    ensures var d := c.HandleEvent(s, e);
      WireInv(d) && (d.wsState == Some(Connected) || (d.wsState == Some(Closed) && d.link.closing))
  {
    var d := c.(hist := c.hist.(events := c.hist.events + [e]));
    WireFrame(c, d);
    hide WireOk, LiveWire, WireInv, CloseItem, Conn.CloseAndFinish;
    match e {
      case TextMessage(text) => WireFrame(d, d.Push(s, ReceiveText(text)));
      case BinaryMessage(data) => WireFrame(d, d.Push(s, ReceiveBytes(data)));
      case PingReceived(data) => if c.wsState == Some(Connected) { WritesFrame(d, FrameOut(Opcode.Pong, data)); }
      case PongReceived(data) => WireFrame(d, d.(pendingPing := None));
      case CloseReceived(code, reason) =>
        var item := CloseItem(if code == CLOSE_NO_STATUS then None else Some(code), reason);
        if c.wsState == Some(Connected) {
          ClosesInOrder(d, item, code, reason);
        } else {
          ClosesQuietly(d, item, code, reason);
        }
    }
  }

  /** Closing again when the transport is closing writes nothing. */
  lemma ClosesQuietly(c: Conn, item: Option<WireItem>, code: int, reason: Utf8.Text)
    requires WireInv(c) && c.wsState == Some(Closed) && c.link.closing
    ensures var d := c.CloseAndFinish(item, code, reason).conn;
      WireInv(d) && d.wsState == Some(Closed) && d.link.closing
  {
    WireFrame(c, c.CloseAndFinish(item, code, reason).conn);
  }

  lemma DigestKeepsWire(s: Settings, c: Conn, r: FD.Outcome, why: PlainText)
    requires WireInv(c) && c.wsState == Some(Connected)
    requires forall i :: 0 <= i < |r.events| ==> FS.Answerable(r.events[i])
    ensures WireInv(c.Digest(s, r, why))
  {
    hide WireInv, CloseItem, Conn.CloseAndFinish;
    HandleKeepsWire(s, c, r.events);
    var e := c.HandleAll(s, r.events);
    hide Conn.HandleAll;
    if r.error.Some? && e.wsState == Some(Connected) {
      ClosesInOrder(e, CloseItem(Some(r.error.value), why), r.error.value, why);
    } else if r.error.Some? {
      ClosesQuietly(e, CloseItem(Some(r.error.value), why), r.error.value, why);
    }
  }

  lemma FeedKeepsWire(s: Settings, c: Conn, data: Bytes)
    requires WireInv(c) && (c.wsState == Some(Connected) || c.wsState == Some(Closed))
    ensures WireInv(c.FeedFrames(s, data))
  {
    hide FD.Feed;
    if c.wsState == Some(Connected) {
      var r := FD.Feed(s.Decoder(), c.decoder, data);
      FS.FeedIsAnswerable(s.Decoder(), c.decoder, data);
      DigestKeepsWire(s, c.(pendingPing := None, decoder := r.state, hist := c.hist.(fed := c.hist.fed + data)).Arm(s), r, s.why(c.decoder, data));
    }
  }

  lemma AcceptKeepsWire(s: Settings, c: Conn, subprotocol: Option<Utf8.Text>, headersOk: bool)
    requires WireInv(c) && c.wsState == Some(Connecting) && SubprotocolOk(subprotocol)
    ensures WireInv(c.DoAccept(s, subprotocol, headersOk).conn)
  {
    if headersOk {
      var e := c.(wsState := Some(Connected)).Opened(s, subprotocol);
      OpenedKeepsWire(s, c, subprotocol);
      hide WireInv, Conn.FeedFrames, Conn.Opened;
      FeedKeepsWire(s, e, c.prologue);
    }
  }

  lemma OpenedKeepsWire(s: Settings, c: Conn, subprotocol: Option<Utf8.Text>)
    requires WireInv(c) && c.wsState == Some(Connecting)
    ensures var e := c.(wsState := Some(Connected)).Opened(s, subprotocol); WireInv(e) && e.wsState == Some(Connected)
  {
  }

  lemma SendKeepsWire(s: Settings, c: Conn, m: AppMessage)
    requires WireInv(c) && c.wsState.Some?
    requires m.Accept? ==> SubprotocolOk(m.subprotocol)
    ensures WireInv(c.Send(s, m).conn)
  {
    if c.wsState == Some(Connecting) {
      if m.Accept? {
        AcceptKeepsWire(s, c, m.subprotocol, m.headersOk);
      }
    } else if c.wsState == Some(Connected) {
      match m {
        case SendBytes(data) => if |data| < TWO_64 { WritesFrame(c, FrameOut(Opcode.Binary, data)); }
        case SendText(text) =>
          if Encodable(text) && |Encode(text)| < TWO_64 {
            DecodeEncode(text);
            WritesFrame(c, FrameOut(Opcode.Text, Encode(text)));
          }
        case CloseMessage(code, reason) => ClosesInOrder(c, CloseItem(Some(code), reason), code, reason);
        case _ =>
      }
    }
  }

  lemma TimerKeepsWire(s: Settings, c: Conn, payload: Bytes)
    requires WireInv(c) && |payload| == 4
    ensures WireInv(c.PingDue(s, payload))
  {
    hide WireOk, LiveWire, CloseItem;
    var d := c.(pingArmed := false);
    WireFrame(c, d);
    if c.wsState == Some(Connected) {
      hide WireInv, Conn.CloseAndFinish;
      var e := d.(pendingPing := Some(payload));
      WireFrame(d, e);
      WritesFrame(e, FrameOut(Opcode.Ping, payload));
      if c.pendingPing.Some? {
        ClosesInOrder(d, CloseItem(Some(CLOSE_INTERNAL_ERROR), PING_TIMEOUT), CLOSE_INTERNAL_ERROR, PING_TIMEOUT);
      } else {
        WireFrame(e.Write(FrameOut(Opcode.Ping, payload)), c.PingDue(s, payload));
      }
    }
  }

  lemma EndingKeepsWire(c: Conn, raised: bool)
    requires WireInv(c)
    ensures WireInv(c.Shutdown()) && WireInv(c.TaskDone(raised)) && WireInv(c.Lost())
  {
    ShutdownKeepsWire(c);
    TaskDoneKeepsWire(c, raised);
    hide WireInv, Conn.Shutdown, Conn.TaskDone;
    WireFrame(c, c.Lost());
  }

  lemma ShutdownKeepsWire(c: Conn)
    requires WireInv(c)
    ensures WireInv(c.Shutdown())
  {
    hide CloseItem, WireInv;
    if c.wsState == Some(Connected) {
      hide Conn.CloseAndFinish;
      ClosesInOrder(c, CloseItem(Some(CLOSE_GOING_AWAY), SHUTTING_DOWN), CLOSE_GOING_AWAY, SHUTTING_DOWN);
    } else if c.wsState == Some(Connecting) {
      FailureIsNoSession(c);
      WireFrame(c, c.Finish(CLOSE_GOING_AWAY, SHUTTING_DOWN));
    } else {
      AnyState(c.wsState);
    }
  }

  lemma AnyState(st: Option<WsState>)
    ensures st.None? || st == Some(Connecting) || st == Some(Connected) || st == Some(Closed)
  {
    if st.Some? {
      match st.value { case Connecting => case Connected => case Closed => }
    }
  }

  lemma FailureIsNoSession(c: Conn)
    requires WireInv(c) && c.wsState.Some?
    ensures c.link.failure.None?
  {
  }

  lemma TaskDoneKeepsWire(c: Conn, raised: bool)
    requires WireInv(c)
    ensures WireInv(c.TaskDone(raised))
  {
    hide CloseItem, WireInv;
    var d := c.(link := c.link.(appDone := true));
    FrameDone(c, d);
    if c.wsState == Some(Connected) {
      hide Conn.CloseAndFinish;
      ClosesInOrder(d, CloseItem(Some(CLOSE_NORMAL), []), CLOSE_NORMAL, []);
      var e := Conn.CloseAndFinishNormally(d);
      FrameDone(e, e.(link := e.link.(closing := true)));
    } else {
      FrameDone(d, d.(link := d.link.(closing := true)));
    }
  }

  lemma FrameDone(c: Conn, d: Conn)
    requires WireInv(c) && d == c.(link := c.link.(appDone := d.link.appDone, closing := d.link.closing))
    requires c.link.closing ==> d.link.closing
    ensures WireInv(d)
  {
    hide WireOk, LiveWire;
  }

  lemma StepKeepsWire(s: Settings, c: Conn, op: Op)
    requires WireInv(c) && Enabled(c, op) && Writable(op)
    ensures WireInv(Step(s, c, op))
  {
    match op {
      case Send(m) => SendKeepsWire(s, c, m);
      case Data(data) =>
        if c.wsState.Some? {
          AnyState(c.wsState);
          FeedKeepsWire(s, c.(hist := c.hist.(arrived := c.hist.arrived + data)), data);
        }
      case PingDue(payload) => TimerKeepsWire(s, c, payload);
      case Shutdown => EndingKeepsWire(c, false);
      case ConnectionLost => EndingKeepsWire(c, false);
      case TaskDone(raised) => EndingKeepsWire(c, raised);
      case _ =>
    }
  }

  lemma {:induction false} RunKeepsWire(s: Settings, start: Conn, ops: seq<Op>, c: Conn)
    requires WireInv(start) && Reaches(s, start, ops, c)
    requires forall i :: 0 <= i < |ops| ==> Writable(ops[i])
    ensures WireInv(c)
    decreases |ops|
  {
    hide WireInv, Step, Enabled;
    if ops != [] {
      StepKeepsWire(s, start, ops[0]);
      RunKeepsWire(s, Step(s, start, ops[0]), ops[1..], c);
    }
  }

  /** The wire of a connection whose first request is the handshake, over every
      interleaving of sends, reads, timers, shutdown and loss: nothing, or one refusal, or
      101 and whole frames with at most one close frame and nothing behind it. */
  lemma WireGrammar(s: Settings, prologue: Bytes, ops: seq<Op>, c: Conn)
    requires Reaches(s, Begin(prologue), ops, c)
    requires forall i :: 0 <= i < |ops| ==> Writable(ops[i])
    ensures WireOk(c.hist.wire)
  {
    RunKeepsWire(s, Begin(prologue), ops, c);
  }

  /** A refused handshake writes its one refusal and nothing else. */
  lemma RefusalGrammar(s: Settings, status: nat, ops: seq<Op>, c: Conn)
    requires Reaches(s, BeginRefusal(status), ops, c)
    ensures c.hist.wire == [] || c.hist.wire == [Refusal(status)]
  {
    RefusalOnly(s, status, BeginRefusal(status), ops, c);
  }

  lemma {:induction false} RefusalOnly(s: Settings, status: nat, start: Conn, ops: seq<Op>, c: Conn)
    requires Reaches(s, start, ops, c) && start.wsState.None?
    requires
      || (start.link.failure == Some(status) && start.hist.wire == [])
      || (start.link.failure == None && (start.hist.wire == [] || start.hist.wire == [Refusal(status)]))
    ensures c.hist.wire == [] || c.hist.wire == [Refusal(status)]
    decreases |ops|
  {
    if ops != [] {
      RefusalOnly(s, status, Step(s, start, ops[0]), ops[1..], c);
    }
  }

  /** The condition is exact: accepting on an open connection keeps every later wire in
      order if and only if the subprotocol can be encoded. Otherwise the session counts as
      connected although the 101 was never written. */
  lemma AcceptIsExact(s: Settings, c: Conn, subprotocol: Option<Utf8.Text>)
    requires WireInv(c) && c.wsState == Some(Connecting) && !c.link.closing && !c.link.appDone
    ensures
      (forall ops: seq<Op>, d: Conn ::
         Reaches(s, c.DoAccept(s, subprotocol, true).conn, ops, d) && (forall i :: 0 <= i < |ops| ==> Writable(ops[i]))
         ==> WireOk(d.hist.wire))
      <==> SubprotocolOk(subprotocol)
  {
    var accepted := c.DoAccept(s, subprotocol, true).conn;
    hide CloseItem, Step, Enabled, WireOk, Conn.DoAccept;
    if SubprotocolOk(subprotocol) {
      AcceptKeepsWire(s, c, subprotocol, true);
      forall ops: seq<Op>, d: Conn |
        Reaches(s, accepted, ops, d) && (forall i :: 0 <= i < |ops| ==> Writable(ops[i]))
        ensures WireOk(d.hist.wire)
      {
        RunKeepsWire(s, accepted, ops, d);
      }
    } else {
      var ops, d := FailedAcceptRun(s, c, subprotocol);
    }
  }

  /** A run behind the failed accept whose wire is out of order. */
  lemma FailedAcceptRun(s: Settings, c: Conn, subprotocol: Option<Utf8.Text>) returns (ops: seq<Op>, d: Conn)
    requires WireInv(c) && c.wsState == Some(Connecting) && !c.link.closing && !c.link.appDone
    requires !SubprotocolOk(subprotocol)
    ensures Reaches(s, c.DoAccept(s, subprotocol, true).conn, ops, d)
    ensures (forall i :: 0 <= i < |ops| ==> Writable(ops[i])) && !WireOk(d.hist.wire)
  {
    var accepted := c.DoAccept(s, subprotocol, true).conn;
    AcceptedLives(s, c, subprotocol);
    NoHandshakeWritten(c, subprotocol, s);
    hide *;
    ops := [TaskDone(true)];
    d := accepted.TaskDone(true);
    TaskEnds(s, accepted, ops);
    CloseIsNoStart(d.hist.wire);
  }

  lemma AcceptedLives(s: Settings, c: Conn, subprotocol: Option<Utf8.Text>)
    requires !SubprotocolOk(subprotocol) && !c.link.closing && !c.link.appDone
    ensures var d := c.DoAccept(s, subprotocol, true).conn; d.wsState.Some? && !d.link.appDone
  {
  }

  lemma TaskEnds(s: Settings, c: Conn, ops: seq<Op>)
    requires c.wsState.Some? && !c.link.appDone && ops == [TaskDone(true)]
    ensures Reaches(s, c, ops, c.TaskDone(true)) && forall i :: 0 <= i < |ops| ==> Writable(ops[i])
  {
    hide Conn.TaskDone;
    OneStep(s, c, TaskDone(true));
  }

  lemma CloseIsNoStart(wire: seq<WireItem>)
    requires |wire| == 1 && wire[0].FrameOut?
    ensures !WireOk(wire)
  {
  }

  lemma OneStep(s: Settings, c: Conn, op: Op)
    requires Enabled(c, op)
    ensures Reaches(s, c, [op], Step(s, c, op))
  {
    hide Step, Enabled;
    assert |[op][1..]| == 0;
    assert Reaches(s, Step(s, c, op), [op][1..], Step(s, c, op));
  }

  /** The application task ends after the failed accept: a close frame goes out alone. */
  lemma NoHandshakeWritten(c: Conn, subprotocol: Option<Utf8.Text>, s: Settings)
    requires WireInv(c) && c.wsState == Some(Connecting) && !c.link.closing
    requires !SubprotocolOk(subprotocol)
    ensures var d := c.DoAccept(s, subprotocol, true).conn.TaskDone(true);
      |d.hist.wire| == 1 && d.hist.wire[0].FrameOut? && d.hist.wire[0].opcode == Opcode.Close
  {
    var accepted := c.DoAccept(s, subprotocol, true).conn;
    assert accepted.wsState == Some(Connected) && !accepted.closeSent && accepted.hist.wire == [] && !accepted.link.closing;
    hide WireInv, Conn.DoAccept, ClosePayload, LongestValidPrefix;
    ClosesAlone(accepted);
  }

  lemma ClosesAlone(c: Conn)
    requires c.wsState == Some(Connected) && !c.closeSent && c.hist.wire == [] && !c.link.closing
    ensures var d := c.TaskDone(true);
      |d.hist.wire| == 1 && d.hist.wire[0].FrameOut? && d.hist.wire[0].opcode == Opcode.Close
  {
    var item := CloseItem(Some(CLOSE_NORMAL), []);
    assert item.Some?;
    hide CloseItem;
    var done := c.(link := c.link.(appDone := true));
    assert done.CloseAndFinish(item, CLOSE_NORMAL, []).conn.hist.wire == [item.value];
  }
}
