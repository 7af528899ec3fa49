/** Why a websocket session ends. Over every run the disconnect that it reports is the one
    of the first cause, and once there is one `receive()` never blocks. */
module WsCauses {
  import opened Bytes
  import opened Wrappers
  import opened Frames
  import opened WsSession
  import FD = FrameDecoding
  import FS = FrameSegmentation

  function MessageOf(e: FrameEvent): seq<Message> {
    match e
    case TextMessage(text) => [ReceiveText(text)]
    case BinaryMessage(data) => [ReceiveBytes(data)]
    case _ => []
  }

  /** The data messages among the events, in order. */
  function Messages(events: seq<FrameEvent>): seq<Message>
    decreases |events|
  {
    if events == [] then [] else Messages(events[..|events| - 1]) + MessageOf(events[|events| - 1])
  }

  lemma MessagesAppend(events: seq<FrameEvent>, e: FrameEvent)
    ensures Messages(events + [e]) == Messages(events) + MessageOf(e)
  {
    assert (events + [e])[..|events|] == events;
  }

  lemma {:induction false} MessagesJoin(a: seq<FrameEvent>, b: seq<FrameEvent>)
    ensures Messages(a + b) == Messages(a) + Messages(b)
    decreases |b|
  {
    if b == [] {
      assert a + b == a;
    } else {
      var most, last := b[..|b| - 1], b[|b| - 1];
      assert b == most + [last];
      hide Messages, MessageOf;
      MessagesJoin(a, most);
      Regroup(a, most, [last]);
      MessagesAppend(a + most, last);
      MessagesAppend(most, last);
      Regroup(Messages(a), Messages(most), MessageOf(last));
    }
  }

  lemma Regroup<T>(a: seq<T>, b: seq<T>, c: seq<T>)
    ensures a + b + c == a + (b + c)
  {
  }

  // ---- causes

  predicate EndsInClose(events: seq<FrameEvent>) {
    events != [] && events[|events| - 1].CloseReceived?
  }

  /** The close code and reason with which a run of the decoder ends a session. */
  function RunCause(r: FD.Outcome, why: PlainText): (m: Option<Message>)
    ensures m.Some? ==> m.value.Disconnect?
  {
    if r.error.Some? then Some(Disconnect(r.error.value, why))
    else if EndsInClose(r.events) then
      Some(Disconnect(r.events[|r.events| - 1].code, r.events[|r.events| - 1].reason))
    else None
  }

  function FeedCause(s: Settings, st: FD.State, data: Bytes): (m: Option<Message>)
    ensures m.Some? ==> m.value.Disconnect?
  {
    RunCause(FD.Feed(s.Decoder(), st, data), s.why(st, data))
  }

  /** The cause, if any, for which a step ends a session that nothing has ended yet. */
  function Cause(s: Settings, c: Conn, op: Op): Option<Message> {
    match op
    case Send(Accept(subprotocol, headersOk)) =>
      if c.wsState == Some(Connecting) && headersOk && SubprotocolOk(subprotocol) && c.prologue != [] then
        FeedCause(s, c.decoder, c.prologue)
      else None
    case Send(CloseMessage(code, reason)) =>
      if c.wsState == Some(Connecting) then Some(Disconnect(CLOSE_NORMAL, []))
      else if c.wsState == Some(Connected) && (c.closeSent || CloseItem(Some(code), reason).Some?) then
        Some(Disconnect(code, reason))
      else None
    case Data(data) =>
      if c.wsState == Some(Connected) && !c.link.closed then FeedCause(s, c.decoder, data) else None
    case PingDue(_) =>
      if c.wsState == Some(Connected) && c.pendingPing.Some? then
        Some(Disconnect(CLOSE_INTERNAL_ERROR, PING_TIMEOUT))
      else None
    case Shutdown =>
      if c.wsState == Some(Closed) then None else Some(Disconnect(CLOSE_GOING_AWAY, SHUTTING_DOWN))
    case ConnectionLost => Some(Disconnect(CLOSE_ABNORMAL, []))
    case TaskDone(_) => if c.wsState == Some(Connected) then Some(Disconnect(CLOSE_NORMAL, [])) else None
    case _ => None
  }

  /** The first cause, if any, along a run. */
  function FirstCause(s: Settings, c: Conn, ops: seq<Op>): Option<Message>
    decreases |ops|
  {
    if ops == [] || !Enabled(c, ops[0]) then None
    else if Cause(s, c, ops[0]).Some? then Cause(s, c, ops[0])
    else FirstCause(s, Step(s, c, ops[0]), ops[1..])
  }

  /** The earlier one stands. */
  function Earlier(first: Option<Message>, second: Option<Message>): Option<Message> {
    if first.Some? then first else second
  }

  // ---- what ending a session changes

  /** Apart from the wire, the history and the decoder are untouched. */
  predicate SameHistory(c: Conn, d: Conn) {
    d.hist.(wire := c.hist.wire) == c.hist && d.decoder == c.decoder && d.prologue == c.prologue
    && d.link.closed == c.link.closed && d.link.disconnected == c.link.disconnected
  }

  lemma FinishEnds(c: Conn, code: int, reason: Utf8.Text)
    ensures var d := c.Finish(code, reason);
      SameHistory(c, d) && d.wsState == Some(Closed) && d.disconnect == Earlier(c.disconnect, Some(Disconnect(code, reason)))
  {
  }

  lemma CloseEnds(c: Conn, item: Option<WireItem>, code: int, reason: Utf8.Text)
    ensures var d := c.CloseAndFinish(item, code, reason).conn;
      && SameHistory(c, d)
      && (c.closeSent || item.Some? ==>
            d.wsState == Some(Closed) && d.disconnect == Earlier(c.disconnect, Some(Disconnect(code, reason))))
      && (!c.closeSent && item.None? ==> d == c.(closeSent := true))
  {
  }

  /** A server-made close can always be encoded. */
  lemma ServerCloseEncodes(code: int, reason: PlainText)
    requires 0 <= code < 65536
    ensures CloseItem(Some(code), reason).Some?
  {
  }

  lemma PeerCloseEncodes(code: int, reason: Utf8.Text)
    requires FS.Answerable(CloseReceived(code, reason))
    ensures CloseItem(if code == CLOSE_NO_STATUS then None else Some(code), reason).Some?
  {
  }

  /** Events that a live session can act on: a close only at the end, and answerable. */
  predicate Actionable(events: seq<FrameEvent>) {
    && (forall i :: 0 <= i < |events| ==> FS.Answerable(events[i]))
    && (forall i :: 0 <= i < |events| && events[i].CloseReceived? ==> i == |events| - 1)
  }

  function Logged(c: Conn, events: seq<FrameEvent>): Conn {
    c.(hist := c.hist.(events := c.hist.events + events))
  }

  lemma HandleOneEnds(s: Settings, c: Conn, e: FrameEvent)
    requires c.disconnect.None? && FS.Answerable(e)
    ensures var d := c.HandleEvent(s, e);
      && SameHistory(Logged(c, [e]), d)
      && (if e.CloseReceived? then d.wsState == Some(Closed) && d.disconnect == Some(Disconnect(e.code, e.reason))
          else d.wsState == c.wsState && d.disconnect.None?)
  {
    hide CloseItem, FS.Answerable, Conn.CloseAndFinish;
    if e.CloseReceived? {
      PeerCloseEncodes(e.code, e.reason);
      CloseEnds(Logged(c, [e]), CloseItem(if e.code == CLOSE_NO_STATUS then None else Some(e.code), e.reason), e.code, e.reason);
    }
  }

  lemma LoggedTwice(c: Conn, e: FrameEvent, rest: seq<FrameEvent>)
    ensures Logged(Logged(c, [e]), rest) == Logged(c, [e] + rest)
  {
    assert c.hist.events + [e] + rest == c.hist.events + ([e] + rest);
  }

  lemma SameThenLogged(c: Conn, d: Conn, events: seq<FrameEvent>, e: Conn)
    requires SameHistory(c, d) && SameHistory(Logged(d, events), e)
    ensures SameHistory(Logged(c, events), e)
  {
  }

  lemma {:induction false} HandleManyEnds(s: Settings, c: Conn, events: seq<FrameEvent>)
    requires c.disconnect.None? && Actionable(events)
    ensures var d := c.HandleAll(s, events);
      && SameHistory(Logged(c, events), d)
      && (if EndsInClose(events) then
            var last := events[|events| - 1];
            d.wsState == Some(Closed) && d.disconnect == Some(Disconnect(last.code, last.reason))
          else d.wsState == c.wsState && d.disconnect.None?)
    decreases |events|
  {
    hide FS.Answerable, Conn.HandleEvent, SameHistory, Logged;
    if events == [] {
      NothingLogged(c);
    } else {
      HandleOneEnds(s, c, events[0]);
      var d := c.HandleEvent(s, events[0]);
      LoggedTwice(c, events[0], events[1..]);
      assert [events[0]] + events[1..] == events;
      if |events| > 1 {
        HandleManyEnds(s, d, events[1..]);
      } else {
        NothingLogged(d);
        assert d.HandleAll(s, events[1..]) == d;
      }
      SameThenLogged(Logged(c, [events[0]]), d, events[1..], d.HandleAll(s, events[1..]));
    }
  }

  lemma NothingLogged(c: Conn)
    ensures SameHistory(Logged(c, []), c)
  {
    assert c.hist.events + [] == c.hist.events;
  }

  lemma DigestEnds(s: Settings, c: Conn, r: FD.Outcome, why: PlainText)
    requires c.wsState == Some(Connected) && c.disconnect.None? && FS.EndsOnce(r)
    ensures var d := c.Digest(s, r, why);
      && SameHistory(Logged(c, r.events), d)
      && d.disconnect == RunCause(r, why)
      && d.wsState == Some(if RunCause(r, why).Some? then Closed else Connected)
  {
    hide FS.Answerable, CloseItem, Conn.CloseAndFinish;
    HandleManyEnds(s, c, r.events);
    if r.error.Some? {
      ServerCloseEncodes(r.error.value, why);
      CloseEnds(c.HandleAll(s, r.events), CloseItem(Some(r.error.value), why), r.error.value, why);
    }
  }

  /** The session when a feed has been decoded and nothing of it acted on yet. */
  function Decoding(s: Settings, c: Conn, data: Bytes): Conn {
    c.(pendingPing := None, decoder := FD.Feed(s.Decoder(), c.decoder, data).state,
       hist := c.hist.(fed := c.hist.fed + data)).Arm(s)
  }

  lemma FeedIsDigest(s: Settings, c: Conn, data: Bytes)
    requires c.wsState == Some(Connected)
    ensures c.FeedFrames(s, data) ==
      Decoding(s, c, data).Digest(s, FD.Feed(s.Decoder(), c.decoder, data), s.why(c.decoder, data))
  {
  }

  /** What any feed leaves of the rest. */
  predicate FedOn(s: Settings, c: Conn, data: Bytes, d: Conn) {
    var r := FD.Feed(s.Decoder(), c.decoder, data);
    && d.hist.(wire := c.hist.wire, fed := c.hist.fed, events := c.hist.events) == c.hist
    && d.hist.fed == c.hist.fed + data && d.hist.events == c.hist.events + r.events
    && d.decoder == r.state && d.prologue == c.prologue
    && d.link.closed == c.link.closed && d.link.disconnected == c.link.disconnected
  }

  /** Feeding a live session ends it exactly if the decoder closes or reports a violation. */
  lemma FeedEnds(s: Settings, c: Conn, data: Bytes)
    requires c.wsState == Some(Connected) && c.disconnect.None? && !c.decoder.asm.closed
    ensures var d := c.FeedFrames(s, data);
      && FedOn(s, c, data, d)
      && d.disconnect == FeedCause(s, c.decoder, data)
      && d.wsState == Some(if d.disconnect.Some? then Closed else Connected)
      && (d.disconnect.None? ==> !d.decoder.asm.closed)
  {
    var r := FD.Feed(s.Decoder(), c.decoder, data);
    FS.DrainEndsOnce(s.Decoder(), c.decoder.Received(data));
    FeedIsDigest(s, c, data);
    hide FD.Drain, FS.Answerable, Conn.FeedFrames, Conn.Digest;
    DigestEnds(s, Decoding(s, c, data), r, s.why(c.decoder, data));
  }

  // ---- feeding a session that has already ended

  lemma HandleOneLate(s: Settings, c: Conn, e: FrameEvent)
    requires c.disconnect.Some?
    ensures var d := c.HandleEvent(s, e);
      && SameHistory(Logged(c, [e]), d) && d.disconnect == c.disconnect && d.queue == c.queue + MessageOf(e)
      && (d.wsState == c.wsState || d.wsState == Some(Closed))
  {
    hide CloseItem;
    assert c.queue + [] == c.queue;
  }

  /** Data messages then go behind the disconnect. */
  lemma {:induction false} HandleManyLate(s: Settings, c: Conn, events: seq<FrameEvent>)
    requires c.disconnect.Some?
    ensures var d := c.HandleAll(s, events);
      && SameHistory(Logged(c, events), d) && d.disconnect == c.disconnect && d.queue == c.queue + Messages(events)
      && (d.wsState == c.wsState || d.wsState == Some(Closed))
    decreases |events|
  {
    hide Conn.HandleEvent, SameHistory, Logged;
    if events == [] {
      NothingLogged(c);
      assert c.queue + [] == c.queue;
    } else {
      HandleOneLate(s, c, events[0]);
      var d := c.HandleEvent(s, events[0]);
      HandleManyLate(s, d, events[1..]);
      LoggedTwice(c, events[0], events[1..]);
      assert [events[0]] + events[1..] == events;
      SameThenLogged(Logged(c, [events[0]]), d, events[1..], d.HandleAll(s, events[1..]));
      MessagesJoin([events[0]], events[1..]);
      MessagesAppend([], events[0]);
      assert [] + [events[0]] == [events[0]];
      Regroup(c.queue, MessageOf(events[0]), Messages(events[1..]));
    }
  }

  lemma FeedLate(s: Settings, c: Conn, data: Bytes)
    requires c.wsState == Some(Connected) && c.disconnect.Some?
    ensures var d := c.FeedFrames(s, data);
      && FedOn(s, c, data, d) && d.disconnect == c.disconnect
      && d.queue == c.queue + Messages(FD.Feed(s.Decoder(), c.decoder, data).events)
      && (d.wsState == Some(Connected) || d.wsState == Some(Closed))
  {
    var r, mid := FD.Feed(s.Decoder(), c.decoder, data), Decoding(s, c, data);
    FeedIsDigest(s, c, data);
    hide FD.Feed, Conn.FeedFrames, CloseItem, Conn.CloseAndFinish;
    HandleManyLate(s, mid, r.events);
    var e := mid.HandleAll(s, r.events);
    if r.error.Some? {
      CloseLate(e, CloseItem(Some(r.error.value), s.why(c.decoder, data)), r.error.value, s.why(c.decoder, data));
    }
  }

  lemma CloseLate(c: Conn, item: Option<WireItem>, code: int, reason: Utf8.Text)
    requires c.disconnect.Some?
    ensures var d := c.CloseAndFinish(item, code, reason).conn;
      && SameHistory(c, d) && d.disconnect == c.disconnect && d.queue == c.queue
      && (d.wsState == c.wsState || d.wsState == Some(Closed))
  {
  }

  // ---- every step

  /** A session has a disconnect exactly once its connection is lost or it is closed, and an
      open one has a decoder that still reads. */
  predicate Settled(c: Conn) {
    && c.wsState.Some? && c.link.closed == c.link.disconnected
    && (c.disconnect.Some? <==> c.link.closed || c.wsState == Some(Closed))
    && (c.disconnect.Some? ==> c.disconnect.value.Disconnect?)
    && (c.wsState == Some(Connecting) ==> c.link.paused && c.decoder == NEW_DECODER)
    && (c.wsState == Some(Connected) && !c.link.closed ==> !c.decoder.asm.closed)
  }

  /** What each step owes: the invariant, the first cause, and the octets behind the head. */
  predicate Owed(s: Settings, c: Conn, op: Op, d: Conn) {
    && Settled(d) && d.disconnect == Earlier(c.disconnect, Cause(s, c, op)) && d.hist.prologue == c.hist.prologue
    && (c.wsState != Some(Connecting) ==> d.wsState != Some(Connecting))
  }

  lemma AcceptOwes(s: Settings, c: Conn, subprotocol: Option<Utf8.Text>, headersOk: bool)
    requires Settled(c) && c.wsState == Some(Connecting)
    ensures Owed(s, c, Op.Send(Accept(subprotocol, headersOk)), c.DoAccept(s, subprotocol, headersOk).conn)
  {
    hide FD.Feed, Conn.FeedFrames, FeedCause;
    if headersOk && SubprotocolOk(subprotocol) {
      OpenedOwes(s, c, subprotocol);
      hide Conn.Opened;
    }
  }

  lemma OpenedOwes(s: Settings, c: Conn, subprotocol: Option<Utf8.Text>)
    requires Settled(c) && c.wsState == Some(Connecting)
    ensures var e := c.(wsState := Some(Connected)).Opened(s, subprotocol);
      var d := if c.prologue != [] then e.FeedFrames(s, c.prologue) else e;
      && Settled(d) && d.hist.prologue == c.hist.prologue && d.wsState != Some(Connecting)
      && d.disconnect == Earlier(c.disconnect, if c.prologue != [] then FeedCause(s, c.decoder, c.prologue) else None)
  {
    var e := c.(wsState := Some(Connected)).Opened(s, subprotocol);
    hide FD.Feed, Conn.FeedFrames, FeedCause;
    if c.prologue != [] {
      if c.disconnect.None? {
        FeedEnds(s, e, c.prologue);
      } else {
        FeedLate(s, e, c.prologue);
      }
    }
  }

  lemma CloseOwes(s: Settings, c: Conn, op: Op, item: Option<WireItem>, code: int, reason: Utf8.Text)
    requires Settled(c) && c.wsState == Some(Connected)
    requires Cause(s, c, op) == if c.closeSent || item.Some? then Some(Disconnect(code, reason)) else None
    ensures Owed(s, c, op, c.CloseAndFinish(item, code, reason).conn)
  {
    hide Cause;
    CloseEnds(c, item, code, reason);
  }

  lemma SendOwes(s: Settings, c: Conn, m: AppMessage)
    requires Settled(c)
    ensures Owed(s, c, Op.Send(m), c.Send(s, m).conn)
  {
    hide FD.Feed, CloseItem, Conn.CloseAndFinish, Conn.DoAccept;
    if c.wsState == Some(Connecting) && m.Accept? {
      AcceptOwes(s, c, m.subprotocol, m.headersOk);
    } else if c.wsState == Some(Connected) && m.CloseMessage? {
      CloseOwes(s, c, Op.Send(m), CloseItem(Some(m.code), m.reason), m.code, m.reason);
    }
  }

  lemma DataOwes(s: Settings, c: Conn, data: Bytes)
    requires Settled(c) && Enabled(c, Op.Data(data))
    ensures Owed(s, c, Op.Data(data), c.DataReceived(s, data))
  {
    hide FD.Feed, FeedCause;
    AnyState(c.wsState);
    if c.wsState == Some(Connected) {
      FeedEnds(s, c.(hist := c.hist.(arrived := c.hist.arrived + data)), data);
      hide Conn.FeedFrames;
    }
  }

  lemma TimerOwes(s: Settings, c: Conn, payload: Bytes)
    requires Settled(c)
    ensures Owed(s, c, Op.PingDue(payload), c.PingDue(s, payload))
  {
    hide CloseItem, Conn.CloseAndFinish;
    if c.wsState == Some(Connected) && c.pendingPing.Some? {
      ServerCloseEncodes(CLOSE_INTERNAL_ERROR, PING_TIMEOUT);
      CloseEnds(c.(pingArmed := false), CloseItem(Some(CLOSE_INTERNAL_ERROR), PING_TIMEOUT), CLOSE_INTERNAL_ERROR, PING_TIMEOUT);
    }
  }

  lemma ShutdownOwes(s: Settings, c: Conn)
    requires Settled(c)
    ensures Owed(s, c, Op.Shutdown, c.Shutdown())
  {
    hide CloseItem, Conn.CloseAndFinish, Conn.Finish;
    AnyState(c.wsState);
    if c.wsState == Some(Connected) {
      ServerCloseEncodes(CLOSE_GOING_AWAY, SHUTTING_DOWN);
      CloseEnds(c, CloseItem(Some(CLOSE_GOING_AWAY), SHUTTING_DOWN), CLOSE_GOING_AWAY, SHUTTING_DOWN);
    } else if c.wsState == Some(Connecting) {
      FinishEnds(c, CLOSE_GOING_AWAY, SHUTTING_DOWN);
    }
  }

  lemma TaskDoneOwes(s: Settings, c: Conn, raised: bool)
    requires Settled(c)
    ensures Owed(s, c, Op.TaskDone(raised), c.TaskDone(raised))
  {
    hide CloseItem, Conn.CloseAndFinish;
    if c.wsState == Some(Connected) {
      ServerCloseEncodes(CLOSE_NORMAL, []);
      CloseEnds(c.(link := c.link.(appDone := true)), CloseItem(Some(CLOSE_NORMAL), []), CLOSE_NORMAL, []);
    }
  }

  lemma StepOwes(s: Settings, c: Conn, op: Op)
    requires Settled(c) && Enabled(c, op)
    ensures Owed(s, c, op, Step(s, c, op))
  {
    hide Conn.Send, Conn.DataReceived, Conn.PingDue, Conn.Shutdown, Conn.TaskDone, CloseItem, FeedCause;
    match op {
      case Send(m) => SendOwes(s, c, m);
      case Receive =>
      case Data(data) => DataOwes(s, c, data);
      case PingDue(payload) => TimerOwes(s, c, payload);
      case Shutdown => ShutdownOwes(s, c);
      case LosingTransport =>
      case ConnectionLost =>
      case TaskDone(raised) => TaskDoneOwes(s, c, raised);
      case WriteRefusal =>
    }
  }

  // ---- whole runs

  lemma {:induction false} RunSettled(s: Settings, start: Conn, ops: seq<Op>, c: Conn)
    requires Settled(start) && Reaches(s, start, ops, c)
    ensures Settled(c) && c.hist.prologue == start.hist.prologue
    ensures c.disconnect == Earlier(start.disconnect, FirstCause(s, start, ops))
    decreases |ops|
  {
    hide Step, Enabled, Settled, Cause;
    if ops != [] {
      StepOwes(s, start, ops[0]);
      RunSettled(s, Step(s, start, ops[0]), ops[1..], c);
    }
  }

  /** Over every run, whatever the application accepts and when: the disconnect is the first
      cause's, and as soon as there is one `receive()` returns at once, and with an empty
      queue it returns that disconnect, again and again. */
  lemma EndedNeverBlocks(s: Settings, prologue: Bytes, ops: seq<Op>, c: Conn)
    requires Reaches(s, Begin(prologue), ops, c)
    ensures c.disconnect == FirstCause(s, Begin(prologue), ops)
    ensures c.disconnect.Some? ==> c.CanReceive() && c.AfterReceive(s).CanReceive()
    ensures c.disconnect.Some? && c.queue == [] ==>
      Some(c.Received()) == c.disconnect && Some(c.AfterReceive(s).Received()) == c.disconnect
  {
    RunSettled(s, Begin(prologue), ops, c);
  }
}
