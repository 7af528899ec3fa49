/** Which accepts keep the order of what the application receives. An accept after the
    connection was lost, or one that cannot be written, may disturb it; here is exactly when. */
module WsAccepts {
  import opened Bytes
  import opened Utf8
  import opened Wrappers
  import opened Frames
  import opened WsSession
  import opened WsCauses
  import opened WsInbox
  import FD = FrameDecoding
  import RT = FrameRoundTrip

  // ---- after an accept there is no other

  lemma {:induction false} NoWayBack(s: Settings, start: Conn, ops: seq<Op>, c: Conn)
    requires Settled(start) && start.wsState != Some(Connecting) && Reaches(s, start, ops, c)
    ensures HarmlessRun(s, start, ops)
    decreases |ops|
  {
    hide Step, Enabled, Settled, Cause;
    if ops != [] {
      StepOwes(s, start, ops[0]);
      NoWayBack(s, Step(s, start, ops[0]), ops[1..], c);
    }
  }

  // ---- an accept after the connection was lost

  lemma {:induction false} MessagesAreData(events: seq<FrameEvent>, i: nat)
    requires i < |Messages(events)|
    ensures !Messages(events)[i].Disconnect?
    decreases |events|
  {
    var most := events[..|events| - 1];
    if i < |Messages(most)| {
      MessagesAreData(most, i);
    }
  }

  lemma {:induction false} RepeatIsAll(m: Message, n: nat, i: nat)
    requires i < n
    ensures |Repeat(m, n)| == n && Repeat(m, n)[i] == m
  {
    if n > 1 {
      RepeatIsAll(m, n - 1, if i < n - 1 then i else 0);
    }
  }

  /** The second message was the disconnect, and data was fed that the application is to see. */
  predicate Jumbled(s: Settings, c: Conn) {
    && c.link.disconnected && c.disconnect.Some? && c.wsState != Some(Connecting)
    && |c.hist.received + c.queue| >= 2 && (c.hist.received + c.queue)[1].Disconnect?
    && Messages(Decoded(s, c.hist.fed).events) != []
  }

  lemma JumbledIsOutOfOrder(s: Settings, c: Conn)
    requires Jumbled(s, c)
    ensures !InOrder(s, c)
  {
    var m := Messages(Decoded(s, c.hist.fed).events);
    MessagesAreData(Decoded(s, c.hist.fed).events, 0);
    hide Messages, Decoded;
    assert ([Connect] + m + Endings(c.disconnect, c.hist.repeats))[1] == m[0];
  }

  /** A step of a lost connection's session only ever adds at the end. */
  predicate OnlyAdds(c: Conn, d: Conn) {
    && d.link.disconnected && d.disconnect == c.disconnect && d.hist.fed == c.hist.fed
    && c.hist.received + c.queue <= d.hist.received + d.queue
  }

  lemma ReceiveOnlyAdds(s: Settings, c: Conn)
    requires c.link.disconnected && c.disconnect.Some? && c.CanReceive()
    ensures OnlyAdds(c, c.AfterReceive(s))
  {
    if c.queue != [] {
      assert c.hist.received + [c.queue[0]] + c.queue[1..] == c.hist.received + c.queue;
    }
  }

  lemma SendOnlyAdds(s: Settings, c: Conn, m: AppMessage)
    requires c.link.disconnected && c.disconnect.Some? && c.wsState != Some(Connecting)
    ensures OnlyAdds(c, c.Send(s, m).conn)
  {
    hide CloseItem, Conn.CloseAndFinish, Conn.DoAccept, Conn.Deny;
    if m.CloseMessage? {
      CloseLate(c, CloseItem(Some(m.code), m.reason), m.code, m.reason);
    }
  }

  lemma LostOnlyAdds(s: Settings, c: Conn, op: Op)
    requires c.link.disconnected && c.disconnect.Some? && c.wsState != Some(Connecting) && Enabled(c, op)
    ensures OnlyAdds(c, Step(s, c, op))
  {
    hide CloseItem, Conn.CloseAndFinish, Conn.DataReceived, Conn.AfterReceive, Conn.Send, Conn.Lost;
    match op {
      case Send(m) => SendOnlyAdds(s, c, m);
      case Receive => ReceiveOnlyAdds(s, c);
      case PingDue(payload) =>
        CloseLate(c.(pingArmed := false), CloseItem(Some(CLOSE_INTERNAL_ERROR), PING_TIMEOUT), CLOSE_INTERNAL_ERROR, PING_TIMEOUT);
      case Shutdown => ShutdownOnlyAdds(c);
      case TaskDone(raised) =>
        CloseLate(c.(link := c.link.(appDone := true)), CloseItem(Some(CLOSE_NORMAL), []), CLOSE_NORMAL, []);
      case _ =>
    }
  }

  lemma ShutdownOnlyAdds(c: Conn)
    requires c.link.disconnected && c.disconnect.Some? && c.wsState != Some(Connecting)
    ensures OnlyAdds(c, c.Shutdown())
  {
    hide CloseItem, Conn.CloseAndFinish;
    AnyState(c.wsState);
    CloseLate(c, CloseItem(Some(CLOSE_GOING_AWAY), SHUTTING_DOWN), CLOSE_GOING_AWAY, SHUTTING_DOWN);
  }

  lemma {:induction false} StaysJumbled(s: Settings, start: Conn, ops: seq<Op>, c: Conn)
    requires Settled(start) && Jumbled(s, start) && Reaches(s, start, ops, c)
    ensures Jumbled(s, c)
    decreases |ops|
  {
    hide Step, Enabled, Settled, Cause, Decoded, Messages;
    if ops != [] {
      StepOwes(s, start, ops[0]);
      LostOnlyAdds(s, start, ops[0]);
      StaysJumbled(s, Step(s, start, ops[0]), ops[1..], c);
    }
  }

  lemma LateIsJumbled(s: Settings, c: Conn, subprotocol: Option<Utf8.Text>)
    requires Settled(c) && Inbox(s, c) && c.wsState == Some(Connecting)
    requires c.disconnect.Some? && SubprotocolOk(subprotocol)
    requires Messages(Decoded(s, c.prologue).events) != []
    ensures Jumbled(s, c.DoAccept(s, subprotocol, true).conn)
  {
    LateAccept(s, c, subprotocol);
    AcceptOwes(s, c, subprotocol, true);
    NothingFed(s);
    assert Messages([]) == [];
    RepeatIsAll(c.disconnect.value, c.hist.repeats + 1, 0);
    hide Decoded, Messages, Repeat, Conn.DoAccept, Cause;
    assert c.hist.received + c.queue == [Connect] + [] + Endings(c.disconnect, c.hist.repeats);
    assert (c.hist.received + c.queue)[1] == c.disconnect.value;
    AcceptLeavesConnecting(s, c, subprotocol);
  }

  lemma AcceptLeavesConnecting(s: Settings, c: Conn, subprotocol: Option<Utf8.Text>)
    requires Settled(c) && c.wsState == Some(Connecting)
    ensures c.DoAccept(s, subprotocol, true).conn.wsState != Some(Connecting)
  {
    var e := c.(wsState := Some(Connected)).Opened(s, subprotocol);
    hide FD.Feed, Conn.FeedFrames, FeedCause;
    if SubprotocolOk(subprotocol) && c.prologue != [] {
      if c.disconnect.None? {
        FeedEnds(s, e, c.prologue);
      } else {
        FeedLate(s, e, c.prologue);
      }
    }
  }

  /** A state of a session whose accepts so far were harmless. */
  ghost predicate ReachedInOrder(s: Settings, c: Conn) {
    exists prologue: Bytes, ops: seq<Op> :: Reaches(s, Begin(prologue), ops, c) && HarmlessRun(s, Begin(prologue), ops)
  }

  lemma ReachedInbox(s: Settings, c: Conn)
    requires ReachedInOrder(s, c)
    ensures Settled(c) && Inbox(s, c)
  {
    hide Reaches, HarmlessRun, Settled, Inbox;
    var prologue: Bytes, ops: seq<Op> :| Reaches(s, Begin(prologue), ops, c) && HarmlessRun(s, Begin(prologue), ops);
    BeginsInbox(s, prologue);
    RunKept(s, Begin(prologue), ops, c);
  }

  /** A late accept, exactly, on every later run: once the connection is lost, accepting keeps
      the order if the octets held spell no data message, and otherwise breaks it for good. */
  lemma LateAcceptIsExact(s: Settings, c: Conn, subprotocol: Option<Utf8.Text>, ops: seq<Op>, d: Conn)
    requires ReachedInOrder(s, c) && c.wsState == Some(Connecting) && c.disconnect.Some?
    requires SubprotocolOk(subprotocol)
    requires Reaches(s, c.DoAccept(s, subprotocol, true).conn, ops, d)
    ensures InOrder(s, d) <==> Messages(Decoded(s, c.prologue).events) == []
  {
    var accepted := c.DoAccept(s, subprotocol, true).conn;
    ReachedInbox(s, c);
    AcceptOwes(s, c, subprotocol, true);
    AcceptLeavesConnecting(s, c, subprotocol);
    hide ReachedInOrder, Inbox, InOrder, Settled, Jumbled, Reaches, Messages, Decoded, Conn.DoAccept, Cause;
    if Messages(Decoded(s, c.prologue).events) == [] {
      LateAccept(s, c, subprotocol);
      NoWayBack(s, accepted, ops, d);
      RunKept(s, accepted, ops, d);
      InboxInOrder(s, d);
    } else {
      LateIsJumbled(s, c, subprotocol);
      StaysJumbled(s, accepted, ops, d);
      JumbledIsOutOfOrder(s, d);
    }
  }

  // ---- an accept that cannot be written

  /** The application receives connect, which lets reading go on, and the next octet read is
      fed in front of those still held. */
  lemma SkipsWhatIsHeld(s: Settings, c: Conn, subprotocol: Option<Utf8.Text>) returns (ops: seq<Op>, d: Conn, b: byte)
    requires Settled(c) && Inbox(s, c) && c.wsState == Some(Connecting) && !c.link.appDone
    requires c.disconnect.None? && !SubprotocolOk(subprotocol) && c.prologue != [] && c.queue != [] && !c.link.closing
    ensures Reaches(s, c.DoAccept(s, subprotocol, true).conn, ops, d) && !InOrder(s, d)
    ensures ops == [Op.Receive, Op.Data([b])] && b == (if c.prologue[0] == 0 then 1 else 0)
    ensures d.hist.fed == [b] && d.hist.prologue + d.hist.arrived == c.prologue + [b]
  {
    b := if c.prologue[0] == 0 then 1 else 0;
    var accepted := c.(wsState := Some(Connected));
    OneWaits(s, c);
    var resumed := accepted.AfterReceive(s);
    assert resumed.hist.fed == [] && resumed.hist.arrived == [] && resumed.hist.prologue == c.prologue;
    assert Enabled(accepted, Op.Receive) && Enabled(resumed, Op.Data([b]));
    d := Step(s, resumed, Op.Data([b]));
    var e := resumed.(hist := resumed.hist.(arrived := [b]));
    assert [] + [b] == [b];
    assert d == e.FeedFrames(s, [b]);
    hide FD.Feed, Conn.FeedFrames, Inbox;
    FeedEnds(s, e, [b]);
    ops := [Op.Receive, Op.Data([b])];
    TwoSteps(s, accepted, Op.Receive, Op.Data([b]));
    assert (c.prologue + [b])[0] == c.prologue[0];
  }

  /** Before an accept in time nothing but connect is ever queued. */
  lemma OneWaits(s: Settings, c: Conn)
    requires Settled(c) && Inbox(s, c) && c.wsState == Some(Connecting) && c.disconnect.None?
    ensures |c.queue| <= 1
  {
    NothingFed(s);
    assert Messages([]) == [];
    hide Decoded;
    assert |c.hist.received + c.queue| == 1;
  }

  lemma TwoSteps(s: Settings, c: Conn, first: Op, second: Op)
    requires Enabled(c, first) && Enabled(Step(s, c, first), second)
    ensures Reaches(s, c, [first, second], Step(s, Step(s, c, first), second))
  {
    hide Step, Enabled;
    var d := Step(s, c, first);
    OneStep(s, d, second);
    assert [first, second][1..] == [second];
  }

  // ---- both

  /** Accepting is harmless exactly when it is: it keeps the order on every later run if and
      only if, for a lost connection, the octets held spell no data message, or, for a
      subprotocol that cannot be encoded, no octets are held, nothing is queued or the transport
      is closing. */
  lemma AcceptOrderIsExact(s: Settings, c: Conn, subprotocol: Option<Utf8.Text>)
    requires ReachedInOrder(s, c) && c.wsState == Some(Connecting) && !c.link.appDone
    ensures
      (forall ops: seq<Op>, d: Conn :: Reaches(s, c.DoAccept(s, subprotocol, true).conn, ops, d) ==> InOrder(s, d))
      <==> Harmless(s, c, Op.Send(Accept(subprotocol, true)))
  {
    var accepted := c.DoAccept(s, subprotocol, true).conn;
    ReachedInbox(s, c);
    AcceptOwes(s, c, subprotocol, true);
    AcceptLeavesConnecting(s, c, subprotocol);
    hide ReachedInOrder, Inbox, InOrder, Settled, Reaches, Messages, Decoded, Conn.DoAccept, Cause;
    if Harmless(s, c, Op.Send(Accept(subprotocol, true))) {
      AcceptKept(s, c, subprotocol, true);
      forall ops: seq<Op>, d: Conn | Reaches(s, accepted, ops, d) ensures InOrder(s, d) {
        NoWayBack(s, accepted, ops, d);
        RunKept(s, accepted, ops, d);
        InboxInOrder(s, d);
      }
    } else if c.disconnect.Some? {
      NoSteps(s, accepted);
      LateAcceptIsExact(s, c, subprotocol, [], accepted);
    } else {
      var ops, d, b := SkipsWhatIsHeld(s, c, subprotocol);
    }
  }

  lemma NoSteps(s: Settings, c: Conn)
    ensures Reaches(s, c, [], c)
  {
  }

  // ---- what a caller can check

  /** If the client sent nothing behind its handshake before the accept, every run is in order. */
  lemma NothingHeldNothingDisturbed(s: Settings, ops: seq<Op>, c: Conn)
    requires Reaches(s, Begin([]), ops, c)
    ensures HarmlessRun(s, Begin([]), ops) && InOrder(s, c)
  {
    hide Reaches, Inbox, Settled;
    BeginsInbox(s, []);
    EmptyStaysHarmless(s, Begin([]), ops, c);
    ReceivesInOrder(s, [], ops, c);
  }

  lemma {:induction false} EmptyStaysHarmless(s: Settings, start: Conn, ops: seq<Op>, c: Conn)
    requires Settled(start) && Inbox(s, start) && start.hist.prologue == [] && Reaches(s, start, ops, c)
    ensures HarmlessRun(s, start, ops)
    decreases |ops|
  {
    if ops != [] {
      if start.wsState == Some(Connecting) {
        NothingHeldIsHarmless(s, start, ops[0]);
      }
      hide Step, Enabled, Settled, Inbox, Cause, Decoded, Messages;
      StepOwes(s, start, ops[0]);
      StepKept(s, start, ops[0]);
      EmptyStaysHarmless(s, Step(s, start, ops[0]), ops[1..], c);
    }
  }

  // ---- two runs that go wrong

  /** One masked text frame, "a". */
  const HELD: Bytes := RT.FrameBytes(Opcode.Text, [97], true, Some([0, 0, 0, 0]))

  lemma HeldSpellsAMessage(s: Settings)
    requires 1 <= s.maxMessageSize
    ensures Messages(Decoded(s, HELD).events) == [ReceiveText([97])]
  {
    var piece := RT.Piece([], [97], Some([0, 0, 0, 0]));
    var item := RT.Message(true, [piece]);
    OneItem(s.Decoder(), item, piece);
    RT.StreamRoundTrip(s.Decoder(), [item]);
    HeldIsTheItem(item, piece);
    hide RT.ItemOk, RT.EncodeItems, RT.StreamEvents, FD.Feed, HELD;
    MessagesAppend([], TextMessage([97]));
    assert [] + [TextMessage([97])] == [TextMessage([97])];
    assert Messages([]) == [];
  }

  lemma OneItem(cfg: FD.Config, item: RT.Item, piece: RT.Piece)
    requires 1 <= cfg.maxMessageSize && cfg.requireMask
    requires piece == RT.Piece([], [97], Some([0, 0, 0, 0])) && item == RT.Message(true, [piece])
    ensures RT.ItemOk(cfg, item) && RT.StreamEvents(cfg, [item]) == [TextMessage([97])]
  {
    OneLetter();
    assert RT.Data([piece][1..]) == [] && RT.Data([piece]) == [97];
    hide ValidUtf8, Decode;
    assert RT.ItemOk(cfg, item);
    assert [piece][1..] == [] && [item][1..] == [];
    assert RT.InterleavedEvents([piece]) == [];
  }

  lemma OneLetter()
    ensures ValidUtf8([97]) && Decode([97]) == Some([97])
  {
    assert Encode([97]) == [97];
    DecodeEncode([97]);
  }

  lemma HeldIsTheItem(item: RT.Item, piece: RT.Piece)
    requires piece == RT.Piece([], [97], Some([0, 0, 0, 0])) && item == RT.Message(true, [piece])
    ensures RT.EncodeItems([item]) == HELD
  {
    hide RT.FrameBytes;
    assert [item][1..] == [] && [piece][1..] == [];
    assert RT.EncodePieces(Opcode.Text, [piece]) == [] + (HELD + []);
  }

  /** The client is gone before the application accepts: the application is told that its
      session ended, and then handed a message. */
  lemma LateAcceptReopens(s: Settings) returns (c: Conn)
    requires 1 <= s.maxMessageSize
    ensures Reaches(s, Begin(HELD), [Op.ConnectionLost, Op.Send(Accept(None, true))], c)
    ensures c.hist.received + c.queue == [Connect, Disconnect(CLOSE_ABNORMAL, []), ReceiveText([97])]
    ensures !InOrder(s, c)
  {
    HeldSpellsAMessage(s);
    hide Messages, Decoded, InOrder, Reaches, HELD;
    c := LateRun(s, HELD);
    assert [Connect, Disconnect(CLOSE_ABNORMAL, [])] + [ReceiveText([97])] ==
      [Connect, Disconnect(CLOSE_ABNORMAL, []), ReceiveText([97])];
  }

  lemma LateRun(s: Settings, held: Bytes) returns (c: Conn)
    requires Messages(Decoded(s, held).events) != []
    ensures Reaches(s, Begin(held), [Op.ConnectionLost, Op.Send(Accept(None, true))], c)
    ensures c.hist.received + c.queue ==
      [Connect, Disconnect(CLOSE_ABNORMAL, [])] + Messages(Decoded(s, held).events)
    ensures !InOrder(s, c)
  {
    var start := Begin(held);
    var lost := start.Lost();
    c := lost.DoAccept(s, None, true).conn;
    LostAtOnce(s, held);
    BeginsInbox(s, held);
    assert SubprotocolOk(None);
    hide Begin, Messages, Decoded, Inbox, InOrder, Settled, Jumbled, Conn.DoAccept, Conn.Lost, Step, Enabled, Reaches, Cause;
    LostKept(s, start);
    StepOwes(s, start, Op.ConnectionLost);
    TwoSteps(s, start, Op.ConnectionLost, Op.Send(Accept(None, true)));
    LateAccept(s, lost, None);
    LateIsJumbled(s, lost, None);
    JumbledIsOutOfOrder(s, c);
    assert [] + lost.queue == lost.queue;
  }

  lemma LostAtOnce(s: Settings, held: Bytes)
    ensures var start, lost := Begin(held), Begin(held).Lost();
      && lost.hist.received == [] && lost.queue == [Connect, Disconnect(CLOSE_ABNORMAL, [])]
      && lost.wsState == Some(Connecting) && lost.prologue == held && lost.disconnect.Some?
      && Enabled(start, Op.ConnectionLost) && Enabled(lost, Op.Send(Accept(None, true)))
      && Step(s, start, Op.ConnectionLost) == lost
      && Step(s, lost, Op.Send(Accept(None, true))) == lost.DoAccept(s, None, true).conn
  {
    hide Conn.DoAccept;
  }

  /** The accept raises on its subprotocol, the application then receives connect, and the
      octet read next is decoded without the one that came before it. */
  lemma UnwrittenAcceptSkips(s: Settings) returns (c: Conn)
    ensures Reaches(s, Begin([129]), [Op.Send(Accept(Some([233]), true)), Op.Receive, Op.Data([0])], c)
    ensures c.hist.fed == [0] && c.hist.prologue + c.hist.arrived == [129, 0] && !InOrder(s, c)
  {
    var start, op := Begin([129]), Op.Send(Accept(Some([233]), true));
    var refused: Utf8.Text := [233];
    assert refused[0] >= 128;
    assert !SubprotocolOk(Some(refused));
    BeginsInbox(s, [129]);
    hide Inbox, InOrder, Settled, Conn.DoAccept, Conn.DataReceived;
    var ops, b;
    ops, c, b := SkipsWhatIsHeld(s, start, Some([233]));
    assert [op] + ops == [op, Op.Receive, Op.Data([0])];
    assert ([op] + ops)[1..] == ops;
  }
}
