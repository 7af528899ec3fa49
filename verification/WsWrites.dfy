/** What a step of a websocket session may do to the transport and to the octets it keeps. */
module WsWrites {
  import opened Bytes
  import opened Wrappers
  import opened Frames
  import opened WsSession
  import FD = FrameDecoding
  import RT = FrameRoundTrip

  /** The wire only grows, and not once the transport is closing, which it stays. */
  predicate Grows(c: Conn, d: Conn) {
    && c.hist.wire <= d.hist.wire
    && (c.link.closing ==> d.link.closing && d.hist.wire == c.hist.wire)
    && d.link.closed == c.link.closed && d.link.disconnected == c.link.disconnected
    && d.hist.prologue == c.hist.prologue
  }

  /** Beyond that no octets move, and a session ends only by closing the transport. */
  predicate Acts(c: Conn, d: Conn) {
    && Grows(c, d)
    && d.hist.fed == c.hist.fed && d.hist.arrived == c.hist.arrived && d.prologue == c.prologue
    && (d.wsState == c.wsState || (d.wsState == Some(Closed) && d.link.closing))
  }

  lemma ActsTwice(c: Conn, d: Conn, e: Conn)
    requires Acts(c, d) && Acts(d, e)
    ensures Acts(c, e)
  {
  }

  lemma CloseActs(c: Conn, item: Option<WireItem>, code: int, reason: Utf8.Text)
    ensures Acts(c, c.CloseAndFinish(item, code, reason).conn)
  {
  }

  lemma EventActs(s: Settings, c: Conn, e: FrameEvent)
    ensures Acts(c, c.HandleEvent(s, e))
  {
    hide CloseItem, Conn.CloseAndFinish;
    if e.CloseReceived? {
      CloseActs(c.(hist := c.hist.(events := c.hist.events + [e])),
        CloseItem(if e.code == CLOSE_NO_STATUS then None else Some(e.code), e.reason), e.code, e.reason);
    }
  }

  lemma {:induction false} EventsAct(s: Settings, c: Conn, events: seq<FrameEvent>)
    ensures Acts(c, c.HandleAll(s, events))
    decreases |events|
  {
    if events != [] {
      hide Acts, Conn.HandleEvent;
      var d := c.HandleEvent(s, events[0]);
      EventActs(s, c, events[0]);
      EventsAct(s, d, events[1..]);
      ActsTwice(c, d, d.HandleAll(s, events[1..]));
    }
  }

  lemma DigestActs(s: Settings, c: Conn, r: FD.Outcome, why: PlainText)
    ensures Acts(c, c.Digest(s, r, why))
  {
    hide Acts, CloseItem, Conn.CloseAndFinish, Conn.HandleAll;
    EventsAct(s, c, r.events);
    if r.error.Some? {
      var d := c.HandleAll(s, r.events);
      CloseActs(d, CloseItem(Some(r.error.value), why), r.error.value, why);
      ActsTwice(c, d, d.Abort(r.error.value, why));
    }
  }

  /** A feed of a session that is not closed feeds exactly that, once. */
  lemma FeedWrites(s: Settings, c: Conn, data: Bytes)
    ensures var d := c.FeedFrames(s, data);
      && Grows(c, d) && d.hist.arrived == c.hist.arrived && d.prologue == c.prologue
      && d.hist.fed == (if c.wsState.None? || c.wsState == Some(Closed) then c.hist.fed else c.hist.fed + data)
      && (d.wsState == c.wsState || (d.wsState == Some(Closed) && d.link.closing))
  {
    hide FD.Feed, Conn.Digest;
    var r := FD.Feed(s.Decoder(), c.decoder, data);
    DigestActs(s, c.(pendingPing := None, decoder := r.state, hist := c.hist.(fed := c.hist.fed + data)).Arm(s), r, s.why(c.decoder, data));
  }

  lemma DataWrites(s: Settings, c: Conn, data: Bytes)
    requires !c.link.closed
    ensures var d := c.DataReceived(s, data);
      && Grows(c, d) && d.hist.arrived == c.hist.arrived + data && d.prologue == c.prologue
      && d.hist.fed == (if c.wsState.None? || c.wsState == Some(Closed) then c.hist.fed else c.hist.fed + data)
      && (d.wsState == c.wsState || (d.wsState == Some(Closed) && d.link.closing))
  {
    hide Conn.FeedFrames;
    FeedWrites(s, c.(hist := c.hist.(arrived := c.hist.arrived + data)), data);
  }

  /** An accept that can be written feeds all that was held. */
  lemma AcceptWrites(s: Settings, c: Conn, subprotocol: Option<Utf8.Text>)
    ensures var d := c.DoAccept(s, subprotocol, true).conn;
      && Grows(c, d) && d.hist.arrived == c.hist.arrived
      && (d.wsState == Some(Connected) || (d.wsState == Some(Closed) && d.link.closing))
      && (if SubprotocolOk(subprotocol) then d.hist.fed == c.hist.fed + c.prologue && d.prologue == []
          else d.hist.fed == c.hist.fed && d.prologue == c.prologue)
  {
    hide Conn.FeedFrames;
    if SubprotocolOk(subprotocol) {
      var e := c.(wsState := Some(Connected)).Opened(s, subprotocol);
      FeedWrites(s, e, c.prologue);
      assert c.hist.fed + [] == c.hist.fed;
    }
  }

  /** What an application sends, other than an accept, and what the timers and the server do. */
  lemma SendActs(s: Settings, c: Conn, m: AppMessage)
    requires c.wsState == Some(Connecting) ==> !m.CloseMessage? && !(m.Accept? && m.headersOk)
    ensures Acts(c, c.Send(s, m).conn)
  {
    hide CloseItem, Conn.CloseAndFinish, Conn.FeedFrames;
    if c.wsState == Some(Connected) && m.CloseMessage? {
      CloseActs(c, CloseItem(Some(m.code), m.reason), m.code, m.reason);
    }
  }

  lemma ReceiveActs(s: Settings, c: Conn)
    requires c.CanReceive()
    ensures Acts(c, c.AfterReceive(s))
  {
  }

  lemma PingActs(s: Settings, c: Conn, payload: Bytes)
    ensures Acts(c, c.PingDue(s, payload))
  {
    hide CloseItem, Conn.CloseAndFinish;
    CloseActs(c.(pingArmed := false), CloseItem(Some(CLOSE_INTERNAL_ERROR), PING_TIMEOUT), CLOSE_INTERNAL_ERROR, PING_TIMEOUT);
  }

  lemma ShutdownActs(c: Conn)
    ensures Acts(c, c.Shutdown())
  {
    hide CloseItem, Conn.CloseAndFinish;
    CloseActs(c, CloseItem(Some(CLOSE_GOING_AWAY), SHUTTING_DOWN), CLOSE_GOING_AWAY, SHUTTING_DOWN);
  }

  lemma DoneActs(c: Conn, raised: bool)
    ensures Acts(c, c.TaskDone(raised))
  {
    hide CloseItem, Conn.CloseAndFinish;
    CloseActs(c.(link := c.link.(appDone := true)), CloseItem(Some(CLOSE_NORMAL), []), CLOSE_NORMAL, []);
  }

  lemma DenyWrites(c: Conn)
    ensures Grows(c, c.StartDeny()) && Grows(c, c.EndDeny())
  {
  }

  // ---- a ping

  /** One masked ping, empty. */
  const PING: Bytes := RT.FrameBytes(Opcode.Ping, [], true, Some([0, 0, 0, 0]))

  lemma PingDecodes(cfg: FD.Config)
    requires cfg.requireMask
    ensures FD.Feed(cfg, NEW_DECODER, PING) == FD.Outcome(NEW_DECODER, [PingReceived([])], None)
  {
    var control := RT.Control(true, [], Some([0, 0, 0, 0]));
    var item := RT.Interlude(control);
    assert [item][1..] == [];
    assert RT.ItemOk(cfg, item);
    RT.StreamRoundTrip(cfg, [item]);
    hide FD.Feed, RT.FrameBytes;
    assert RT.EncodeItems([item]) == PING + [] == PING;
    assert RT.StreamEvents(cfg, [item]) == [PingReceived([])] + [] == [PingReceived([])];
  }

  /** A session that has read nothing answers it at once, accepted or not. */
  lemma PingIsAnswered(s: Settings, c: Conn)
    requires c.wsState == Some(Connecting) && c.decoder == NEW_DECODER && !c.link.closed && !c.link.closing
    ensures c.DataReceived(s, PING).hist.wire == c.hist.wire + [FrameOut(Opcode.Pong, [])]
  {
    PingDecodes(s.Decoder());
    hide FD.Feed, PING;
    var e := c.(hist := c.hist.(arrived := c.hist.arrived + PING));
    var mid := e.(pendingPing := None, decoder := NEW_DECODER, hist := e.hist.(fed := e.hist.fed + PING)).Arm(s);
    assert [PingReceived([])][1..] == [];
    assert mid.HandleAll(s, [PingReceived([])]) == mid.HandleEvent(s, PingReceived([])).HandleAll(s, []);
    assert mid.HandleEvent(s, PingReceived([])).HandleAll(s, []) == mid.HandleEvent(s, PingReceived([]));
  }
}
