/** What a websocket application receives: connect, then every data message of the
    inbound stream exactly once and in order, then one disconnect with the first cause. */
module WsInbox {
  import opened Bytes
  import opened Wrappers
  import opened Frames
  import opened WsSession
  import opened WsCauses
  import FD = FrameDecoding
  import FS = FrameSegmentation

  function Repeat(m: Message, n: nat): seq<Message> {
    if n == 0 then [] else Repeat(m, n - 1) + [m]
  }

  /** The disconnect, once it is set, and each further time it was handed out. */
  function Endings(disconnect: Option<Message>, repeats: nat): seq<Message> {
    if disconnect.None? then [] else Repeat(disconnect.value, repeats + 1)
  }

  /** One decode of everything fed. */
  function Decoded(s: Settings, fed: Bytes): FD.Outcome {
    FD.Feed(s.Decoder(), NEW_DECODER, fed)
  }

  /** What was received and what still waits are connect, then the data messages of one decode
      of everything fed, then the disconnect as often as it was handed out; it is handed out
      again only when nothing waits. What was fed is a prefix of the octets behind the upgrade
      head followed by the later reads, and while the session is open it and what is still
      held are all of them. */
  predicate InOrder(s: Settings, c: Conn) {
    && c.hist.received + c.queue ==
         [Connect] + Messages(Decoded(s, c.hist.fed).events) + Endings(c.disconnect, c.hist.repeats)
    && (c.hist.repeats > 0 ==> c.queue == [])
    && c.hist.fed <= c.hist.prologue + c.hist.arrived
    && (c.wsState == Some(Connected) && !c.link.closed ==> c.hist.fed + c.prologue == c.hist.prologue + c.hist.arrived)
  }

  // ---- the invariant

  predicate Conserved(c: Conn) {
    && c.hist.received + c.queue == [Connect] + Messages(c.hist.events) + Endings(c.disconnect, c.hist.repeats)
    && (c.hist.repeats > 0 ==> c.disconnect.Some? && c.queue == [])
  }

  /** A live session's decoder is where one decode of everything fed ends. */
  predicate DecoderLive(s: Settings, c: Conn) {
    && Decoded(s, c.hist.fed).state == c.decoder
    && Decoded(s, c.hist.fed).error.None?
  }

  /** Octets are still held in an open session only after an accept that could not be written,
      and then nothing is read: the transport is closing, or reading stays paused because nothing
      is queued whose receipt would resume it. */
  predicate Live(s: Settings, c: Conn) {
    && c.hist.fed + c.prologue == c.hist.prologue + c.hist.arrived
    && DecoderLive(s, c)
    && (c.prologue != [] ==> c.link.closing || (c.link.paused && c.queue == []))
  }

  predicate Inbox(s: Settings, c: Conn) {
    && Conserved(c)
    && c.hist.events == Decoded(s, c.hist.fed).events
    && c.hist.fed <= c.hist.prologue + c.hist.arrived
    && (c.wsState == Some(Connecting) ==> c.hist.fed == [] && c.hist.arrived == [] && c.prologue == c.hist.prologue)
    && (c.wsState == Some(Connected) && !c.link.closed ==> Live(s, c))
  }

  lemma InboxInOrder(s: Settings, c: Conn)
    requires Inbox(s, c)
    ensures InOrder(s, c)
  {
    hide Decoded;
  }

  // ---- accepts

  /** An accept that cannot disturb the order. One that comes after the connection was lost
      must not have data messages waiting in the octets held; one that cannot be written must
      have no octets held, or nothing left in the queue, or find the transport closing. */
  predicate Harmless(s: Settings, c: Conn, op: Op) {
    op.Send? && op.message.Accept? && op.message.headersOk && c.wsState == Some(Connecting) ==>
      if c.disconnect.Some? then
        SubprotocolOk(op.message.subprotocol) ==> Messages(Decoded(s, c.prologue).events) == []
      else SubprotocolOk(op.message.subprotocol) || c.prologue == [] || c.queue == [] || c.link.closing
  }

  predicate HarmlessRun(s: Settings, c: Conn, ops: seq<Op>)
    decreases |ops|
  {
    ops != [] && Enabled(c, ops[0]) ==> Harmless(s, c, ops[0]) && HarmlessRun(s, Step(s, c, ops[0]), ops[1..])
  }

  /** What can be checked before the call: nothing is held. */
  lemma NothingHeldIsHarmless(s: Settings, c: Conn, op: Op)
    requires c.prologue == []
    ensures Harmless(s, c, op)
  {
    NothingFed(s);
    assert Messages([]) == [];
  }

  lemma NothingFed(s: Settings)
    ensures Decoded(s, []) == FD.Outcome(NEW_DECODER, [], None)
  {
    assert NEW_DECODER.Received([]) == NEW_DECODER;
  }

  // ---- conservation

  lemma EnqueueConserves(c: Conn, code: int, reason: Utf8.Text)
    requires Conserved(c)
    ensures Conserved(c.EnqueueDisconnect(code, reason))
  {
    if c.disconnect.None? {
      var d := Disconnect(code, reason);
      assert Repeat(d, 1) == Repeat(d, 0) + [d];
      assert c.hist.received + (c.queue + [d]) == c.hist.received + c.queue + [d];
    }
  }

  lemma StillConserved(c: Conn, d: Conn)
    requires Conserved(c) && d.queue == c.queue && d.disconnect == c.disconnect
    requires d.hist.received == c.hist.received && d.hist.events == c.hist.events && d.hist.repeats == c.hist.repeats
    ensures Conserved(d)
  {
  }

  lemma FinishConserves(c: Conn, code: int, reason: Utf8.Text)
    requires Conserved(c)
    ensures Conserved(c.Finish(code, reason))
  {
    EnqueueConserves(c.(wsState := Some(Closed), pingArmed := false), code, reason);
  }

  lemma CloseConserves(c: Conn, item: Option<WireItem>, code: int, reason: Utf8.Text)
    requires Conserved(c)
    ensures Conserved(c.CloseAndFinish(item, code, reason).conn)
  {
    var tried := c.(closeSent := true);
    if c.closeSent {
      FinishConserves(c, code, reason);
    } else if item.Some? {
      FinishConserves(tried.Write(item.value), code, reason);
    }
  }

  lemma LogConserves(c: Conn, e: FrameEvent)
    requires Conserved(c) && MessageOf(e) == []
    ensures Conserved(Logged(c, [e]))
  {
    MessagesAppend(c.hist.events, e);
    assert Messages(c.hist.events) + [] == Messages(c.hist.events);
  }

  lemma PushConserves(s: Settings, c: Conn, e: FrameEvent, m: Message)
    requires Conserved(c) && c.disconnect.None? && MessageOf(e) == [m]
    ensures Conserved(Logged(c, [e]).Push(s, m))
  {
    MessagesAppend(c.hist.events, e);
    PushedBehind(c.hist.received, c.queue, Messages(c.hist.events), m);
    hide Messages, MessageOf;
  }

  lemma PushedBehind(received: seq<Message>, queue: seq<Message>, messages: seq<Message>, m: Message)
    requires received + queue == [Connect] + messages + []
    ensures received + (queue + [m]) == [Connect] + (messages + [m]) + []
  {
    assert received + (queue + [m]) == received + queue + [m];
  }

  lemma HandleOneConserves(s: Settings, c: Conn, e: FrameEvent)
    requires Conserved(c) && c.disconnect.None?
    ensures Conserved(c.HandleEvent(s, e))
  {
    hide Conserved, CloseItem, Conn.CloseAndFinish;
    var logged := Logged(c, [e]);
    match e {
      case TextMessage(text) => PushConserves(s, c, e, ReceiveText(text));
      case BinaryMessage(data) => PushConserves(s, c, e, ReceiveBytes(data));
      case PingReceived(data) =>
        LogConserves(c, e);
        StillConserved(logged, logged.Write(FrameOut(Opcode.Pong, data)));
      case PongReceived(data) =>
        LogConserves(c, e);
        StillConserved(logged, logged.(pendingPing := None));
      case CloseReceived(code, reason) =>
        LogConserves(c, e);
        CloseConserves(logged, CloseItem(if code == CLOSE_NO_STATUS then None else Some(code), reason), code, reason);
    }
  }

  lemma {:induction false} HandleManyConserves(s: Settings, c: Conn, events: seq<FrameEvent>)
    requires Conserved(c) && c.disconnect.None? && Actionable(events)
    ensures Conserved(c.HandleAll(s, events))
    decreases |events|
  {
    hide Conserved, FS.Answerable, Conn.HandleEvent, SameHistory, Logged;
    if events != [] {
      HandleOneConserves(s, c, events[0]);
      HandleOneEnds(s, c, events[0]);
      var d := c.HandleEvent(s, events[0]);
      if |events| > 1 {
        HandleManyConserves(s, d, events[1..]);
      } else {
        assert d.HandleAll(s, events[1..]) == d;
      }
    }
  }

  lemma DigestConserves(s: Settings, c: Conn, r: FD.Outcome, why: PlainText)
    requires Conserved(c) && c.disconnect.None? && FS.EndsOnce(r)
    ensures Conserved(c.Digest(s, r, why))
  {
    HandleManyConserves(s, c, r.events);
    hide Conserved, CloseItem, Conn.CloseAndFinish;
    if r.error.Some? {
      CloseConserves(c.HandleAll(s, r.events), CloseItem(Some(r.error.value), why), r.error.value, why);
    }
  }

  /** One decode of everything is the decode so far and the decode of what is new. */
  lemma DecodeGoesOn(s: Settings, c: Conn, data: Bytes)
    requires DecoderLive(s, c) && !c.decoder.asm.closed && c.hist.events == Decoded(s, c.hist.fed).events
    ensures var r, all := FD.Feed(s.Decoder(), c.decoder, data), Decoded(s, c.hist.fed + data);
      all.state == r.state && all.error == r.error && all.events == c.hist.events + r.events
  {
    FS.FeedTwice(s.Decoder(), NEW_DECODER, c.hist.fed, data);
    hide FD.Drain;
  }

  /** Feeding a live session: the decode of everything fed goes on, and the session ends
      exactly if that decode does. */
  lemma FeedConserves(s: Settings, c: Conn, data: Bytes)
    requires Conserved(c) && c.wsState == Some(Connected) && c.disconnect.None? && !c.decoder.asm.closed
    requires c.hist.events == Decoded(s, c.hist.fed).events && DecoderLive(s, c)
    ensures var d := c.FeedFrames(s, data);
      && Conserved(d) && FedOn(s, c, data, d)
      && d.hist.events == Decoded(s, d.hist.fed).events
      && (d.disconnect.None? ==> DecoderLive(s, d))
      && (d.wsState == Some(Connected) <==> d.disconnect.None?)
  {
    var r, mid := FD.Feed(s.Decoder(), c.decoder, data), Decoding(s, c, data);
    FS.DrainEndsOnce(s.Decoder(), c.decoder.Received(data));
    FeedIsDigest(s, c, data);
    FeedEnds(s, c, data);
    StillConserved(c, mid);
    DecodeGoesOn(s, c, data);
    hide Conserved, FD.Feed, Decoded, Conn.FeedFrames, Conn.Digest, FS.Answerable;
    DigestConserves(s, mid, r, s.why(c.decoder, data));
  }

  /** Everything behind the head is fed now. */
  lemma FedInbox(s: Settings, c: Conn, data: Bytes, d: Conn)
    requires FedOn(s, c, data, d) && Conserved(d) && d.hist.events == Decoded(s, d.hist.fed).events
    requires d.wsState == Some(Connected) || d.wsState == Some(Closed)
    requires d.wsState == Some(Connected) ==> DecoderLive(s, d)
    requires c.prologue == [] && c.hist.fed + data == c.hist.prologue + c.hist.arrived
    ensures Inbox(s, d)
  {
    hide Conserved, Decoded, FD.Feed, DecoderLive;
    assert d.hist.fed + [] == d.hist.fed;
  }

  // ---- every step

  /** A step that touches nothing the inbox speaks of, or only ends the session. */
  lemma InboxFrame(s: Settings, c: Conn, d: Conn)
    requires Settled(c) && Inbox(s, c) && Conserved(d) && SameHistory(c, d)
    requires d.wsState == c.wsState || d.wsState == Some(Closed)
    requires d.wsState == c.wsState ==> d.queue == c.queue && d.link.paused == c.link.paused
    requires c.link.closing ==> d.link.closing
    ensures Inbox(s, d)
  {
    hide Conserved, Decoded;
  }

  lemma CloseKept(s: Settings, c: Conn, item: Option<WireItem>, code: int, reason: Utf8.Text)
    requires Settled(c) && Inbox(s, c)
    ensures Inbox(s, c.CloseAndFinish(item, code, reason).conn)
  {
    hide Conserved, Decoded;
    CloseConserves(c, item, code, reason);
    CloseEnds(c, item, code, reason);
    hide Conn.CloseAndFinish, Live;
    InboxFrame(s, c, c.CloseAndFinish(item, code, reason).conn);
  }

  /** A step that leaves queue, disconnect and history alone. */
  predicate Aside(c: Conn, d: Conn) {
    && SameHistory(c, d) && d.wsState == c.wsState && d.queue == c.queue && d.disconnect == c.disconnect
    && d.link.paused == c.link.paused && (c.link.closing ==> d.link.closing)
  }

  lemma AsideKept(s: Settings, c: Conn, d: Conn)
    requires Settled(c) && Inbox(s, c) && Aside(c, d)
    ensures Settled(d) && Inbox(s, d)
  {
    StillConserved(c, d);
    InboxFrame(s, c, d);
  }

  lemma OpenedReady(s: Settings, c: Conn, subprotocol: Option<Utf8.Text>)
    requires Settled(c) && Inbox(s, c) && c.wsState == Some(Connecting)
    ensures var e := c.(wsState := Some(Connected)).Opened(s, subprotocol);
      && Conserved(e) && e.hist.events == Decoded(s, e.hist.fed).events && DecoderLive(s, e)
      && e.hist.fed == [] && e.hist.arrived == [] && c.prologue == e.hist.prologue && e.prologue == []
      && e.decoder == NEW_DECODER && e.wsState == Some(Connected) && e.disconnect == c.disconnect
      && e.link.closed == c.link.closed && e.queue == c.queue && e.hist.received == c.hist.received
      && e.hist.repeats == c.hist.repeats
  {
    NothingFed(s);
    hide Conserved, Decoded;
    StillConserved(c, c.(wsState := Some(Connected)).Opened(s, subprotocol));
  }

  /** An accept in time: the octets held are decoded, and everything is fed. */
  lemma AcceptInTime(s: Settings, c: Conn, subprotocol: Option<Utf8.Text>)
    requires Settled(c) && Inbox(s, c) && c.wsState == Some(Connecting)
    requires c.disconnect.None? && SubprotocolOk(subprotocol)
    ensures Inbox(s, c.DoAccept(s, subprotocol, true).conn)
  {
    var e := c.(wsState := Some(Connected)).Opened(s, subprotocol);
    OpenedReady(s, c, subprotocol);
    hide Conserved, Decoded, FD.Feed, Conn.FeedFrames, Conn.Opened, DecoderLive, FedOn;
    assert [] + c.prologue == c.prologue == c.prologue + [];
    if c.prologue == [] {
      assert [] + e.prologue == e.hist.prologue + e.hist.arrived;
    } else {
      hide Inbox, Live;
      FeedConserves(s, e, c.prologue);
      FeedEnds(s, e, c.prologue);
      FedInbox(s, e, c.prologue, e.FeedFrames(s, c.prologue));
    }
  }

  /** An accept after the connection was lost: what the octets held decode to goes behind the
      disconnect, so the order is kept exactly if that is no data message. */
  lemma LateAccept(s: Settings, c: Conn, subprotocol: Option<Utf8.Text>)
    requires Settled(c) && Inbox(s, c) && c.wsState == Some(Connecting)
    requires c.disconnect.Some? && SubprotocolOk(subprotocol)
    ensures var d, m := c.DoAccept(s, subprotocol, true).conn, Messages(Decoded(s, c.prologue).events);
      && d.hist.received + d.queue == c.hist.received + c.queue + m
      && d.hist.fed == c.prologue && d.disconnect == c.disconnect && d.link.disconnected
      && (m == [] ==> Inbox(s, d))
  {
    var e := c.(wsState := Some(Connected)).Opened(s, subprotocol);
    OpenedReady(s, c, subprotocol);
    NothingFed(s);
    assert Messages([]) == [];
    assert [] + c.prologue == c.prologue == c.prologue + [];
    assert c.hist.received + c.queue + [] == c.hist.received + c.queue;
    if c.prologue != [] {
      FeedLate(s, e, c.prologue);
      LateQueue(s, c, e, e.FeedFrames(s, c.prologue));
      hide FD.Feed, Conn.FeedFrames, Conn.Opened, Conserved;
    }
  }

  lemma LateQueue(s: Settings, c: Conn, e: Conn, d: Conn)
    requires FedOn(s, e, c.prologue, d) && d.disconnect == e.disconnect && Conserved(e) && e.disconnect.Some?
    requires d.queue == e.queue + Messages(Decoded(s, c.prologue).events)
    requires e.hist.events == [] && e.hist.fed == [] && e.decoder == NEW_DECODER && e.hist.prologue == c.prologue
    requires e.hist.arrived == [] && e.link.closed && e.queue == c.queue && e.hist.received == c.hist.received
    requires d.wsState == Some(Connected) || d.wsState == Some(Closed)
    ensures d.hist.received + d.queue == c.hist.received + c.queue + Messages(Decoded(s, c.prologue).events)
    ensures Messages(Decoded(s, c.prologue).events) == [] ==> Inbox(s, d)
  {
    var r := Decoded(s, c.prologue);
    assert d.hist.events == [] + r.events == r.events;
    assert d.hist.fed == [] + c.prologue == c.prologue == c.prologue + [];
    hide FD.Feed, Decoded, FedOn, Messages;
    Regroup(c.hist.received, c.queue, Messages(r.events));
    if Messages(r.events) == [] {
      QuietLate(e, d);
      hide Conserved;
    }
  }

  lemma QuietLate(e: Conn, d: Conn)
    requires Conserved(e) && e.hist.events == [] && d.queue == e.queue + [] && d.disconnect == e.disconnect
    requires d.hist.received == e.hist.received && d.hist.repeats == e.hist.repeats && Messages(d.hist.events) == []
    ensures Conserved(d)
  {
    assert e.queue + [] == e.queue;
    assert Messages([]) == [];
  }

  /** An accept that cannot be written leaves everything where it was. */
  lemma UnwrittenAccept(s: Settings, c: Conn, subprotocol: Option<Utf8.Text>)
    requires Settled(c) && Inbox(s, c) && c.wsState == Some(Connecting) && !SubprotocolOk(subprotocol)
    requires c.disconnect.Some? || c.prologue == [] || c.queue == [] || c.link.closing
    ensures Inbox(s, c.DoAccept(s, subprotocol, true).conn)
  {
    NothingFed(s);
    hide Decoded;
    StillConserved(c, c.(wsState := Some(Connected)));
    hide Conserved;
    assert [] + c.prologue == c.prologue == c.prologue + [];
  }

  lemma AcceptKept(s: Settings, c: Conn, subprotocol: Option<Utf8.Text>, headersOk: bool)
    requires Settled(c) && Inbox(s, c) && c.wsState == Some(Connecting)
    requires Harmless(s, c, Op.Send(Accept(subprotocol, headersOk)))
    ensures Inbox(s, c.DoAccept(s, subprotocol, headersOk).conn)
  {
    hide Inbox, Decoded, Conn.FeedFrames, Conn.Opened;
    if headersOk {
      if !SubprotocolOk(subprotocol) {
        UnwrittenAccept(s, c, subprotocol);
      } else if c.disconnect.None? {
        AcceptInTime(s, c, subprotocol);
      } else {
        LateAccept(s, c, subprotocol);
      }
    }
  }

  lemma DenyKept(s: Settings, c: Conn)
    requires Settled(c) && Inbox(s, c) && c.wsState == Some(Connecting)
    ensures Inbox(s, c.Deny())
  {
    hide Decoded, Live;
    var d := c.(wsState := Some(Closed));
    StillConserved(c, d);
    EnqueueConserves(d, CLOSE_NORMAL, []);
    StillConserved(d.EnqueueDisconnect(CLOSE_NORMAL, []), c.Deny());
    hide Conserved;
    InboxFrame(s, c, c.Deny());
  }

  lemma SendKept(s: Settings, c: Conn, m: AppMessage)
    requires Settled(c) && Inbox(s, c) && Harmless(s, c, Op.Send(m))
    ensures Inbox(s, c.Send(s, m).conn)
  {
    hide Inbox, Harmless, CloseItem, Conn.CloseAndFinish, Conn.Deny, Conn.DoAccept;
    if c.wsState == Some(Connecting) && m.Accept? {
      AcceptKept(s, c, m.subprotocol, m.headersOk);
    } else if c.wsState == Some(Connecting) && m.CloseMessage? {
      DenyKept(s, c);
    } else if c.wsState == Some(Connected) && m.CloseMessage? {
      CloseKept(s, c, CloseItem(Some(m.code), m.reason), m.code, m.reason);
    } else {
      AsideKept(s, c, c.Send(s, m).conn);
    }
  }

  lemma DataKept(s: Settings, c: Conn, data: Bytes)
    requires Settled(c) && Inbox(s, c) && Enabled(c, Op.Data(data))
    ensures Inbox(s, c.DataReceived(s, data))
  {
    hide Decoded, FD.Feed;
    var d := c.(hist := c.hist.(arrived := c.hist.arrived + data));
    StillConserved(c, d);
    hide Conserved;
    AnyState(c.wsState);
    var before := c.hist.prologue + c.hist.arrived;
    assert before + data == c.hist.prologue + (c.hist.arrived + data);
    assert c.hist.fed <= before <= before + data;
    if c.wsState == Some(Connected) && !c.link.closed {
      assert c.prologue == [] && c.hist.fed + [] == c.hist.fed;
      assert c.DataReceived(s, data) == d.FeedFrames(s, data);
      hide Conn.FeedFrames, Conn.DataReceived, DecoderLive, FedOn;
      FeedConserves(s, d, data);
      FeedEnds(s, d, data);
      FedInbox(s, d, data, d.FeedFrames(s, data));
    } else {
      assert c.wsState == Some(Closed) && c.DataReceived(s, data) == d;
    }
  }

  lemma TimerKept(s: Settings, c: Conn, payload: Bytes)
    requires Settled(c) && Inbox(s, c)
    ensures Inbox(s, c.PingDue(s, payload))
  {
    hide Inbox, CloseItem, Conn.CloseAndFinish;
    if c.wsState == Some(Connected) && c.pendingPing.Some? {
      var d := c.(pingArmed := false);
      AsideKept(s, c, d);
      CloseKept(s, d, CloseItem(Some(CLOSE_INTERNAL_ERROR), PING_TIMEOUT), CLOSE_INTERNAL_ERROR, PING_TIMEOUT);
    } else {
      AsideKept(s, c, c.PingDue(s, payload));
    }
  }

  lemma FinishKept(s: Settings, c: Conn, code: int, reason: Utf8.Text)
    requires Settled(c) && Inbox(s, c)
    ensures Inbox(s, c.Finish(code, reason))
  {
    hide Decoded, Live;
    FinishConserves(c, code, reason);
    FinishEnds(c, code, reason);
    hide Conserved, Conn.Finish;
    InboxFrame(s, c, c.Finish(code, reason));
  }

  lemma ShutdownKept(s: Settings, c: Conn)
    requires Settled(c) && Inbox(s, c)
    ensures Inbox(s, c.Shutdown())
  {
    hide Inbox, CloseItem, Conn.CloseAndFinish, Conn.Finish;
    AnyState(c.wsState);
    if c.wsState == Some(Connected) {
      CloseKept(s, c, CloseItem(Some(CLOSE_GOING_AWAY), SHUTTING_DOWN), CLOSE_GOING_AWAY, SHUTTING_DOWN);
    } else if c.wsState == Some(Connecting) {
      FinishKept(s, c, CLOSE_GOING_AWAY, SHUTTING_DOWN);
    }
  }

  lemma LostKept(s: Settings, c: Conn)
    requires Settled(c) && Inbox(s, c)
    ensures Inbox(s, c.Lost())
  {
    hide Decoded;
    var d := c.(link := c.link.(closed := true, disconnected := true, closing := true), pingArmed := false);
    StillConserved(c, d);
    EnqueueConserves(d, CLOSE_ABNORMAL, []);
    hide Conserved;
  }

  lemma TaskDoneKept(s: Settings, c: Conn, raised: bool)
    requires Settled(c) && Inbox(s, c)
    ensures Inbox(s, c.TaskDone(raised))
  {
    hide Inbox, CloseItem, Conn.CloseAndFinish;
    var d := c.(link := c.link.(appDone := true));
    AsideKept(s, c, d);
    if c.wsState == Some(Connected) {
      CloseKept(s, d, CloseItem(Some(CLOSE_NORMAL), []), CLOSE_NORMAL, []);
      ServerCloseEncodes(CLOSE_NORMAL, []);
      CloseEnds(d, CloseItem(Some(CLOSE_NORMAL), []), CLOSE_NORMAL, []);
      var e := Conn.CloseAndFinishNormally(d);
      AsideKept(s, e, e.(link := e.link.(closing := true)));
    } else {
      AsideKept(s, d, d.(link := d.link.(closing := true)));
    }
  }

  lemma ReceiveConserves(s: Settings, c: Conn)
    requires Conserved(c) && c.CanReceive() && (c.link.disconnected ==> c.disconnect.Some?)
    ensures Conserved(c.AfterReceive(s))
  {
    if c.queue != [] {
      assert c.hist.received + [c.queue[0]] + c.queue[1..] == c.hist.received + c.queue;
    } else {
      var d, n := c.disconnect.value, c.hist.repeats;
      assert Repeat(d, n + 2) == Repeat(d, n + 1) + [d];
      assert c.hist.received + [] == c.hist.received;
    }
  }

  lemma ReceiveKept(s: Settings, c: Conn)
    requires Settled(c) && Inbox(s, c) && c.CanReceive()
    ensures Inbox(s, c.AfterReceive(s))
  {
    hide Decoded;
    ReceiveConserves(s, c);
    hide Conserved;
  }

  lemma StepKept(s: Settings, c: Conn, op: Op)
    requires Settled(c) && Inbox(s, c) && Enabled(c, op) && Harmless(s, c, op)
    ensures Inbox(s, Step(s, c, op))
  {
    hide Inbox, Harmless, CloseItem, Conn.Send, Conn.DataReceived, Conn.PingDue, Conn.Shutdown, Conn.TaskDone, Conn.Lost;
    match op {
      case Send(m) => SendKept(s, c, m);
      case Receive => ReceiveKept(s, c);
      case Data(data) => DataKept(s, c, data);
      case PingDue(payload) => TimerKept(s, c, payload);
      case Shutdown => ShutdownKept(s, c);
      case LosingTransport => AsideKept(s, c, c.(link := c.link.(closing := true)));
      case ConnectionLost => LostKept(s, c);
      case TaskDone(raised) => TaskDoneKept(s, c, raised);
      case WriteRefusal => AsideKept(s, c, c.WriteRefusal());
    }
  }

  // ---- whole runs

  lemma {:induction false} RunKept(s: Settings, start: Conn, ops: seq<Op>, c: Conn)
    requires Settled(start) && Inbox(s, start) && Reaches(s, start, ops, c) && HarmlessRun(s, start, ops)
    ensures Settled(c) && Inbox(s, c)
    decreases |ops|
  {
    hide Step, Enabled, Inbox, Settled, Harmless, Cause;
    if ops != [] {
      StepOwes(s, start, ops[0]);
      StepKept(s, start, ops[0]);
      RunKept(s, Step(s, start, ops[0]), ops[1..], c);
    }
  }

  lemma BeginsInbox(s: Settings, prologue: Bytes)
    ensures Settled(Begin(prologue)) && Inbox(s, Begin(prologue))
  {
    NothingFed(s);
    assert Messages([]) == [];
    hide Decoded;
  }

  /** The inbox theorem, over every interleaving whose accepts, if any, are harmless: the
      application has received a prefix of connect, the data messages of one decode of
      everything fed, and the disconnect with the first cause as often as it asked. */
  lemma ReceivesInOrder(s: Settings, prologue: Bytes, ops: seq<Op>, c: Conn)
    requires Reaches(s, Begin(prologue), ops, c) && HarmlessRun(s, Begin(prologue), ops)
    ensures InOrder(s, c) && c.hist.prologue == prologue
    ensures c.disconnect == FirstCause(s, Begin(prologue), ops)
  {
    hide Reaches, HarmlessRun, Inbox;
    BeginsInbox(s, prologue);
    RunKept(s, Begin(prologue), ops, c);
    RunSettled(s, Begin(prologue), ops, c);
    InboxInOrder(s, c);
  }
}
