/** The websocket half of the bridge as the object it is: callbacks that update fields in
    place, each proved to be the step that the theorems speak of. */
module WsConnections {
  import opened Bytes
  import opened Utf8
  import opened Wrappers
  import opened Frames
  import opened CloseFrames
  import opened WsSession
  import FD = FrameDecoding
  import FS = FrameSegmentation

  /** The websocket fields of `HTTPProtocol`, its transport's flags, and the frame decoder
      it owns. `hist` is history only. */
  class WsConnection {
    const settings: Settings
    const parser: FD.FrameParser
    var wsState: Option<WsState>
    var link: Link
    var closeSent: bool
    var prologue: Bytes
    var queue: seq<Message>
    var disconnect: Option<Message>
    var pendingPing: Option<Bytes>
    var pingArmed: bool
    ghost var hist: History

    ghost function View(): Conn
      reads this, parser
    {
      Conn(wsState, link, closeSent, parser.View(), prologue, queue, disconnect, pendingPing, pingArmed, hist)
    }

    /** The decoder is fed only while the session is open, and open sessions have a sound one. */
    ghost predicate Valid()
      reads this, parser
    {
      && parser.cfg == settings.Decoder()
      && (wsState == Some(Connecting) || wsState == Some(Connected) ==> parser.Valid())
    }

    /** `_begin_websocket` with a valid handshake. */
    constructor (settings: Settings, prologue: Bytes)
      ensures this.settings == settings && Valid() && fresh(parser)
      ensures View() == Begin(prologue)
    {
      this.settings := settings;
      this.parser := new FD.FrameParser(settings.Decoder());
      this.wsState, this.link, this.closeSent := Some(Connecting), OPEN_LINK.(paused := true), false;
      this.prologue, this.queue := prologue, [Connect];
      this.disconnect, this.pendingPing, this.pingArmed := None, None, false;
      this.hist := History([], prologue, [], [], [], [], 0);
    }

    /** `_ws_write`. */
    method WsWrite(item: WireItem)
      modifies this`hist
      ensures View() == old(View()).Write(item)
    {
      if !link.closing {
        hist := hist.(wire := hist.wire + [item]);
      }
    }

    /** `_arm_ws_ping`. */
    method ArmPing()
      modifies this`pingArmed
      ensures View() == old(View()).Arm(settings)
    {
      pingArmed := settings.pingInterval && wsState == Some(Connected);
    }

    /** `_push_to_queue`. */
    method PushToQueue(m: Message)
      modifies this`queue, this`link
      ensures View() == old(View()).Push(settings, m)
    {
      queue := queue + [m];
      if !link.paused && |queue| >= settings.pauseWatermark {
        link := link.(paused := true);
      }
    }

    /** `_enqueue_ws_disconnect`. */
    method EnqueueDisconnect(code: int, reason: Utf8.Text)
      modifies this`disconnect, this`queue
      ensures View() == old(View()).EnqueueDisconnect(code, reason)
    {
      if disconnect.Some? {
        return;
      }
      disconnect := Some(Disconnect(code, reason));
      queue := queue + [Disconnect(code, reason)];
    }

    /** `_finish_websocket`. */
    method FinishWebsocket(code: int, reason: Utf8.Text)
      modifies this`wsState, this`pingArmed, this`disconnect, this`queue, this`link
      ensures View() == old(View()).Finish(code, reason)
    {
      wsState, pingArmed := Some(Closed), false;
      EnqueueDisconnect(code, reason);
      if !link.closing {
        link := link.(closing := true);
      }
    }

    /** The close frame that `encode_close_frame` returns, as a wire item. */
    method MakeClose(code: Option<int>, reason: Utf8.Text) returns (item: Option<WireItem>)
      ensures item == CloseItem(code, reason)
    {
      if code.None? {
        return Some(FrameOut(Opcode.Close, []));
      }
      if !Encodable(reason) || !(0 <= code.value < 65536) {
        return None;
      }
      var cut := TruncateUtf8(Encode(reason), MAX_CLOSE_REASON_BYTES);
      item := Some(FrameOut(Opcode.Close, ClosePayload(code.value, cut)));
    }

    /** The shape that `_ws_close`, `_ws_abort` and `_ws_peer_closed` share: the flag is set
        before the frame is encoded, so a failed encoding is not tried again. */
    method CloseAndFinish(wireCode: Option<int>, code: int, reason: Utf8.Text) returns (raised: bool)
      modifies this`closeSent, this`hist, this`wsState, this`pingArmed, this`disconnect, this`queue, this`link
      ensures Sent(View(), raised) == old(View()).CloseAndFinish(CloseItem(wireCode, reason), code, reason)
    {
      raised := false;
      if !closeSent {
        closeSent := true;
        var item := MakeClose(wireCode, reason);
        if item.None? {
          return true;
        }
        WsWrite(item.value);
      }
      FinishWebsocket(code, reason);
    }

    /** `_handle_frame_event`. */
    method HandleFrameEvent(e: FrameEvent)
      modifies this
      ensures View() == old(View()).HandleEvent(settings, e)
    {
      hist := hist.(events := hist.events + [e]);
      match e {
        case TextMessage(text) => PushToQueue(ReceiveText(text));
        case BinaryMessage(data) => PushToQueue(ReceiveBytes(data));
        case PingReceived(data) => WsWrite(FrameOut(Opcode.Pong, data));
        case PongReceived(data) =>
          if Some(data) == pendingPing {
            pendingPing := None;
          }
        case CloseReceived(code, reason) =>
          var _ := CloseAndFinish(if code == CLOSE_NO_STATUS then None else Some(code), code, reason);
      }
    }

    method HandleEvents(events: seq<FrameEvent>)
      modifies this
      ensures View() == old(View()).HandleAll(settings, events)
    {
      ghost var start := View();
      assert events[0..] == events;
      for i := 0 to |events|
        invariant View().HandleAll(settings, events[i..]) == start.HandleAll(settings, events)
      {
        assert events[i..][1..] == events[i + 1..];
        HandleFrameEvent(events[i]);
      }
      assert events[|events|..] == [];
    }

    /** What `_ws_data_received` does with the result of a feed. */
    method DigestEvents(events: seq<FrameEvent>, error: Option<int>, why: PlainText, ghost r: FD.Outcome)
      requires r.events == events && r.error == error
      requires error.Some? ==> 0 <= error.value < 65536
      modifies this
      ensures View() == old(View()).Digest(settings, r, why)
      ensures error.Some? ==> wsState == Some(Closed)
    {
      hide Conn.HandleAll, FD.Feed;
      HandleEvents(events);
      if error.Some? {
        assert CloseItem(Some(error.value), why).Some?;
        var _ := CloseAndFinish(Some(error.value), error.value, why);
      }
    }

    /** `_ws_data_received`. */
    method WsDataReceived(data: Bytes)
      requires Valid()
      modifies this, parser
      ensures View() == old(View()).FeedFrames(settings, data)
      ensures Valid()
    {
      if wsState.None? || wsState == Some(Closed) {
        return;
      }
      OpenIsLive();
      FS.FeedIsAnswerable(settings.Decoder(), parser.View(), data);
      hide FD.Feed, Conn.Digest, CloseItem;
      pendingPing := None;
      ArmPing();
      hist := hist.(fed := hist.fed + data);
      ghost var r := FD.Feed(settings.Decoder(), parser.View(), data);
      var why := settings.why(parser.View(), data);
      var events, error := parser.FeedData(data);
      DigestEvents(events, error, why, r);
    }

    lemma OpenIsLive()
      requires Valid() && wsState.Some? && wsState != Some(Closed)
      ensures parser.Valid()
    {
      match wsState.value {
        case Connecting =>
        case Connected =>
        case Closed =>
      }
    }

    /** `_ws_accept`. */
    method WsAccept(subprotocol: Option<Utf8.Text>, headersOk: bool) returns (raised: bool)
      requires Valid() && wsState == Some(Connecting)
      modifies this, parser
      ensures Sent(View(), raised) == old(View()).DoAccept(settings, subprotocol, headersOk)
      ensures Valid()
    {
      hide Conn.FeedFrames, Conn.Opened;
      if !headersOk {
        return true;
      }
      wsState := Some(Connected);
      if !SubprotocolOk(subprotocol) {
        return true;
      }
      raised := false;
      var first := OpenSession(subprotocol);
      if first != [] {
        WsDataReceived(first);
      }
    }

    /** The rest of an accept, up to the decoding of the prologue, which it takes out. */
    method OpenSession(subprotocol: Option<Utf8.Text>) returns (first: Bytes)
      modifies this`hist, this`link, this`prologue, this`pingArmed
      ensures View() == old(View()).Opened(settings, subprotocol) && first == old(prologue)
    {
      WsWrite(Switching(subprotocol));
      if link.paused {
        link := link.(paused := false);
      }
      ArmPing();
      first := prologue;
      prologue := [];
    }

    /** `_ws_deny`. */
    method WsDeny()
      modifies this
      ensures View() == old(View()).Deny()
    {
      wsState := Some(Closed);
      EnqueueDisconnect(CLOSE_NORMAL, []);
      WsWrite(Refusal(403));
      link := link.(closing := true);
    }

    /** `send()`. */
    method SendMessage(m: AppMessage) returns (raised: bool)
      requires Valid()
      modifies this, parser
      ensures Sent(View(), raised) == old(View()).Send(settings, m)
      ensures Valid()
    {
      raised := false;
      if wsState == Some(Connecting) {
        match m {
          case Accept(subprotocol, headersOk) => raised := WsAccept(subprotocol, headersOk);
          case CloseMessage(_, _) => WsDeny();
          case _ => raised := true;
        }
      } else if wsState == Some(Connected) {
        match m {
          case SendBytes(data) =>
            if |data| >= TWO_64 {
              return true;
            }
            WsWrite(FrameOut(Opcode.Binary, data));
          case SendText(text) =>
            if !Encodable(text) || |Encode(text)| >= TWO_64 {
              return true;
            }
            WsWrite(FrameOut(Opcode.Text, Encode(text)));
          case CloseMessage(code, reason) => raised := CloseAndFinish(Some(code), code, reason);
          case _ => raised := true;
        }
      } else {
        raised := !m.CloseMessage?;
      }
    }

    /** `receive()`, when it returns at once. */
    method ReceiveMessage() returns (m: Message)
      requires View().CanReceive()
      modifies this`queue, this`link, this`hist
      ensures m == old(View()).Received()
      ensures View() == old(View()).AfterReceive(settings)
    {
      if queue != [] {
        m := queue[0];
        queue := queue[1..];
        if link.paused && wsState == Some(Connected) && |queue| <= settings.resumeWatermark {
          link := link.(paused := false);
        }
        hist := hist.(received := hist.received + [m]);
        return;
      }
      m := if disconnect.Some? then disconnect.value else Disconnect(CLOSE_ABNORMAL, []);
      hist := hist.(received := hist.received + [m], repeats := hist.repeats + 1);
    }

    /** `data_received` after the upgrade. */
    method DataReceived(data: Bytes)
      requires Valid()
      modifies this, parser
      ensures View() == old(View()).DataReceived(settings, data)
      ensures Valid()
    {
      hist := hist.(arrived := hist.arrived + data);
      if !link.closed {
        WsDataReceived(data);
      }
    }

    /** `_on_ws_ping_due`. */
    method OnPingDue(payload: Bytes)
      modifies this
      ensures View() == old(View()).PingDue(settings, payload)
    {
      pingArmed := false;
      if wsState != Some(Connected) {
        return;
      }
      if pendingPing.Some? {
        var _ := CloseAndFinish(Some(CLOSE_INTERNAL_ERROR), CLOSE_INTERNAL_ERROR, PING_TIMEOUT);
        return;
      }
      pendingPing := Some(payload);
      WsWrite(FrameOut(Opcode.Ping, payload));
      pingArmed := settings.pingTimeout || settings.pingInterval;
    }

    /** `shutdown_websocket`. */
    method ShutdownWebsocket()
      modifies this
      ensures View() == old(View()).Shutdown()
    {
      if wsState.None? || wsState == Some(Closed) {
        return;
      }
      if wsState == Some(Connected) {
        var _ := CloseAndFinish(Some(CLOSE_GOING_AWAY), CLOSE_GOING_AWAY, SHUTTING_DOWN);
        return;
      }
      FinishWebsocket(CLOSE_GOING_AWAY, SHUTTING_DOWN);
    }

    /** `connection_lost`. */
    method OnConnectionLost()
      modifies this
      ensures View() == old(View()).Lost()
    {
      link := link.(closed := true, disconnected := true, closing := true);
      pingArmed := false;
      if wsState.Some? {
        EnqueueDisconnect(CLOSE_ABNORMAL, []);
      }
    }

    /** `_on_ws_task_done`. */
    method OnTaskDone(raised: bool)
      modifies this
      ensures View() == old(View()).TaskDone(raised)
    {
      hide CloseItem, Conn.CloseAndFinish;
      link := link.(appDone := true);
      if wsState == Some(Connected) {
        var _ := CloseAndFinish(Some(CLOSE_NORMAL), CLOSE_NORMAL, []);
      }
      if raised && !link.closing {
        link := link.(closing := true);
      }
    }
  }
}
