/** A run in which a session's pong lands inside an earlier response: a request and a handshake
    arrive in one segment, and the request's application receives while it streams. */
module PipelineWitness {
  import opened Bytes
  import opened Wrappers
  import opened HttpParsing
  import opened HttpRoundTrip
  import opened Handshakes
  import opened Pipeline
  import opened PipelineTurns
  import opened PipelineUpgrade
  import WS = WsSession
  import WW = WsWrites

  // ---- the run

  /** One request and a session behind it, on an open transport. */
  predicate Stands(p: Pipe, t: Task, wire: seq<WireItem>, paused: bool) {
    && p.tasks == [t] && p.wire == wire && p.readingPaused == paused
    && p.tail.Session? && p.tail.turn == 1 && p.fired == {0} && p.parser.Live()
    && !p.closing && !p.closed && !p.disconnected && !p.pausedWriting && !p.shouldExit
  }

  predicate Unread(p: Pipe) {
    p.tail.Session? && p.tail.conn == WS.Begin(p.tail.prologue) && p.tail.pending.NoPending?
  }

  function Arrived(head: RequestHead, data: Bytes): Task {
    Task(head, 0, 1, Running, false, false, false, [RequestBody(data, false)], true, false, [], [RequestBody(data, false)], [], 0)
  }

  lemma {:induction false} FourEvents(s: Settings, p: Pipe, a: Event, b: Event, c: Event, d: Event)
    ensures p.HandleAll(s, [a, b, c, d]) ==
      p.HandleEvent(s, a).HandleEvent(s, b).HandleEvent(s, c).HandleEvent(s, d)
  {
    hide Pipe.HandleEvent;
    assert [a, b, c, d][1..] == [b, c, d] && [b, c, d][1..] == [c, d] && [c, d][1..] == [d];
    var q := p.HandleEvent(s, a).HandleEvent(s, b).HandleEvent(s, c);
    assert [d][1..] == [];
    assert q.HandleEvent(s, d).HandleAll(s, []) == q.HandleEvent(s, d);
    assert q.HandleAll(s, [d]) == q.HandleEvent(s, d);
    assert p.HandleEvent(s, a).HandleEvent(s, b).HandleAll(s, [c, d]) == q.HandleAll(s, [d]);
    assert p.HandleEvent(s, a).HandleAll(s, [b, c, d]) == p.HandleEvent(s, a).HandleEvent(s, b).HandleAll(s, [c, d]);
  }

  /** The request alone. */
  lemma RequestArrives(s: Settings, p: Pipe, head: RequestHead, data: Bytes)
    requires p == Connected().(parser := p.parser, fed := p.fed) && head.upgrade.None?
    ensures var q := p.HandleEvent(s, HeadComplete(head)).HandleEvent(s, BodyChunk(data, false));
      && q.tasks == [Arrived(head, data)] && q.wire == [] && q.tail == NoTail && q.turnstile == 1 && q.fired == {0}
      && q.parser == p.parser && !q.closing && !q.closed && !q.disconnected && !q.pausedWriting && !q.shouldExit
  {
    var q := p.HandleEvent(s, HeadComplete(head));
    assert q.tasks == [Arrived(head, data).(queue := [], chunks := [])];
    assert [] + [RequestBody(data, false)] == [RequestBody(data, false)];
  }

  lemma SessionArrives(s: Settings, p: Pipe, head: RequestHead)
    requires p.tail == NoTail && head.upgrade == Some(WEBSOCKET) && s.handshake(head) == None
    ensures var q := p.HandleEvent(s, RequestComplete).HandleEvent(s, HeadComplete(head));
      && q.tail == Session(p.turnstile, p.parser.buffer, WS.Begin(p.parser.buffer), NoPending) && q.readingPaused
      && q.parser == p.parser.(buffer := [])
      && q.tasks == p.tasks && q.wire == p.wire && q.fired == p.fired && q.closing == p.closing && q.closed == p.closed
      && q.disconnected == p.disconnected && q.pausedWriting == p.pausedWriting && q.shouldExit == p.shouldExit
  {
  }

  lemma FirstFeed(s: Settings, text: Bytes, st: State, events: seq<Event>)
    requires Drain(s.parser, Fresh(text)) == Outcome(st, events, None, false)
    ensures Enabled(Connected(), Op.Data(text))
    ensures Perform(s, Connected(), Op.Data(text)) == Connected().(parser := st, fed := [text]).HandleAll(s, events)
  {
    hide Drain, Pipe.HandleAll, Pipe.InSession, Pipe.Sess;
    assert [] + text == text && [] + [text] == [text];
  }

  lemma SegmentArrives(s: Settings, r: Request, h: Request, data: Bytes) returns (p: Pipe)
    requires RequestOk(s.parser, r) && r.payload == Sized(data) && HandshakeOk(s.parser, h)
    requires s.handshake(HandshakeHead(h)) == None
    ensures Enabled(Connected(), Op.Data(RequestText(r) + HandshakeText(h)))
    ensures p == Perform(s, Connected(), Op.Data(RequestText(r) + HandshakeText(h)))
    ensures Stands(p, Arrived(RequestHead(ParsedLine(r), Normal(r.fields), None), data), [], true) && Unread(p)
  {
    var text := RequestText(r) + HandshakeText(h);
    var head := RequestHead(ParsedLine(r), Normal(r.fields), None);
    var st := SegmentReads(s.parser, r, h, data);
    FirstFeed(s, text, st, [HeadComplete(head), BodyChunk(data, false), RequestComplete, HeadComplete(HandshakeHead(h))]);
    hide *;
    var q := Connected().(parser := st, fed := [text]);
    FourEvents(s, q, HeadComplete(head), BodyChunk(data, false), RequestComplete, HeadComplete(HandshakeHead(h)));
    RequestArrives(s, q, head, data);
    SessionArrives(s, q.HandleEvent(s, HeadComplete(head)).HandleEvent(s, BodyChunk(data, false)), HandshakeHead(h));
    p := Perform(s, Connected(), Op.Data(text));
    BothStand(p, q, q.HandleEvent(s, HeadComplete(head)).HandleEvent(s, BodyChunk(data, false)), Arrived(head, data));
  }

  lemma BothStand(p: Pipe, start: Pipe, before: Pipe, t: Task)
    requires before.tasks == [t] && before.wire == [] && before.turnstile == 1 && before.fired == {0}
    requires before.parser == start.parser && start.parser.Live()
    requires !before.closing && !before.closed && !before.disconnected && !before.pausedWriting && !before.shouldExit
    requires p.tail == Session(before.turnstile, before.parser.buffer, WS.Begin(before.parser.buffer), NoPending) && p.readingPaused
    requires p.parser == before.parser.(buffer := []) && p.tasks == before.tasks && p.wire == before.wire && p.fired == before.fired
    requires p.closing == before.closing && p.closed == before.closed && p.disconnected == before.disconnected
    requires p.pausedWriting == before.pausedWriting && p.shouldExit == before.shouldExit
    ensures Stands(p, t, [], true) && Unread(p)
  {
  }

  lemma HeadGoes(s: Settings, p: Pipe, t: Task)
    requires Stands(p, t, [], true) && t.stage.Running? && !t.started && !t.complete && t.turn == 0 && t.sent == []
    ensures Enabled(p, Op.SendStart(0, 200, true, true))
    ensures var item := ResponseHead(0, 200, ClientRequestedClose(t.head));
      Stands(Perform(s, p, Op.SendStart(0, 200, true, true)), t.(started := true, close := item.close, sent := [item]), [item], true)
      && Perform(s, p, Op.SendStart(0, 200, true, true)).tail == p.tail
  {
    hide ClientRequestedClose;
    var q := Perform(s, p, Op.SendStart(0, 200, true, true));
    var item := ResponseHead(0, 200, ClientRequestedClose(t.head));
    assert [] + [item] == [item];
    assert q.tasks[0] == t.(started := true, close := item.close, sent := [item]);
  }

  lemma PartGoes(s: Settings, p: Pipe, t: Task, wire: seq<WireItem>, data: Bytes, paused: bool)
    requires Stands(p, t, wire, paused) && t.stage.Running? && t.started && !t.complete && data != []
    ensures Enabled(p, Op.SendBody(0, data, true))
    ensures var item := ResponseBody(0, data);
      Stands(Perform(s, p, Op.SendBody(0, data, true)), t.(sent := t.sent + [item]), wire + [item], paused)
      && Perform(s, p, Op.SendBody(0, data, true)).tail == p.tail
  {
    var q := Perform(s, p, Op.SendBody(0, data, true));
    assert q.tasks[0] == t.(sent := t.sent + [ResponseBody(0, data)]);
  }

  lemma Takes(s: Settings, p: Pipe, t: Task, wire: seq<WireItem>)
    requires Stands(p, t, wire, true) && !t.Ended() && |t.queue| == 1
    ensures Enabled(p, Op.Receive(0))
    ensures Stands(Perform(s, p, Op.Receive(0)), t.Taken(), wire, false) && Perform(s, p, Op.Receive(0)).tail == p.tail
  {
  }

  lemma PongGoes(s: Settings, p: Pipe, t: Task, wire: seq<WireItem>)
    requires Stands(p, t, wire, false) && Unread(p)
    ensures Enabled(p, Op.Data(WW.PING))
    ensures var q := Perform(s, p, Op.Data(WW.PING)); q.wire == wire + [SessionWrite(PONG)] && q.tasks == [t]
  {
    ReadsNow(s, p, WW.PING);
    WritesPong(s, p, p.InSession(p.Sess().DataReceived(s.session, WW.PING), NoPending));
    hide Perform, Pipe.InSession, WS.Conn.DataReceived;
  }

  lemma TakesThenPong(s: Settings, p: Pipe, t: Task, wire: seq<WireItem>) returns (q: Pipe)
    requires Stands(p, t, wire, true) && Unread(p) && !t.Ended() && |t.queue| == 1
    ensures Reaches(s, p, [Op.Receive(0), Op.Data(WW.PING)], q)
    ensures q.wire == wire + [SessionWrite(PONG)] && q.tasks == [t.Taken()]
  {
    Takes(s, p, t, wire);
    var mid := Perform(s, p, Op.Receive(0));
    StillUnread(p, mid);
    PongGoes(s, mid, t.Taken(), wire);
    q := Perform(s, mid, Op.Data(WW.PING));
    assert p.parser.Live() && mid.parser.Live();
    hide *;
    NoSteps(s, q);
    FirstThen(s, mid, Op.Data(WW.PING), [], q);
    FirstThen(s, p, Op.Receive(0), [Op.Data(WW.PING)], q);
    assert [Op.Data(WW.PING)] + [] == [Op.Data(WW.PING)];
    assert [Op.Receive(0)] + [Op.Data(WW.PING)] == [Op.Receive(0), Op.Data(WW.PING)];
  }

  lemma HeadThenPart(s: Settings, p: Pipe, t: Task) returns (q: Pipe)
    requires Stands(p, t, [], true) && t.stage.Running? && !t.started && !t.complete && t.turn == 0 && t.sent == []
    ensures q.tail == p.tail && var start := ResponseHead(0, 200, ClientRequestedClose(t.head));
      Stands(q, t.(started := true, close := start.close, sent := [start, ResponseBody(0, [1])]), [start, ResponseBody(0, [1])], true)
    ensures forall ops: seq<Op>, end: Pipe :: Reaches(s, q, ops, end) ==>
      Reaches(s, p, [Op.SendStart(0, 200, true, true), Op.SendBody(0, [1], true)] + ops, end)
  {
    HeadGoes(s, p, t);
    var start := ResponseHead(0, 200, ClientRequestedClose(t.head));
    var mid, went := Perform(s, p, Op.SendStart(0, 200, true, true)), t.(started := true, close := start.close, sent := [start]);
    PartGoes(s, mid, went, [start], [1], true);
    q := Perform(s, mid, Op.SendBody(0, [1], true));
    assert [start] + [ResponseBody(0, [1])] == [start, ResponseBody(0, [1])];
    assert p.parser.Live() && mid.parser.Live();
    hide *;
    forall ops: seq<Op>, end: Pipe | Reaches(s, q, ops, end)
      ensures Reaches(s, p, [Op.SendStart(0, 200, true, true), Op.SendBody(0, [1], true)] + ops, end)
    {
      FirstThen(s, mid, Op.SendBody(0, [1], true), ops, end);
      FirstThen(s, p, Op.SendStart(0, 200, true, true), [Op.SendBody(0, [1], true)] + ops, end);
      assert [Op.SendStart(0, 200, true, true)] + ([Op.SendBody(0, [1], true)] + ops) ==
        [Op.SendStart(0, 200, true, true), Op.SendBody(0, [1], true)] + ops;
    }
  }

  /** The run, for any request with a body of declared length and any valid handshake: the earlier
      response's head and first part, a pong, and the response goes on. */
  lemma PongInsideResponse(s: Settings, r: Request, h: Request, data: Bytes) returns (q: Pipe)
    requires RequestOk(s.parser, r) && r.payload == Sized(data) && HandshakeOk(s.parser, h)
    requires s.handshake(HandshakeHead(h)) == None
    ensures Reaches(s, Connected(),
      [Op.Data(RequestText(r) + HandshakeText(h)), Op.SendStart(0, 200, true, true), Op.SendBody(0, [1], true),
       Op.Receive(0), Op.Data(WW.PING)], q)
    ensures var close := ClientRequestedClose(RequestHead(ParsedLine(r), Normal(r.fields), None));
      q.wire == [ResponseHead(0, 200, close), ResponseBody(0, [1]), SessionWrite(PONG)]
    ensures q.tasks != [] && !q.tasks[0].complete && q.tasks[0].stage.Running? && !ResponsesOrdered(q)
  {
    hide RequestOk, HandshakeOk, RequestText, HandshakeText, Perform, Enabled, Reaches, ClientRequestedClose, Unread, ResponsesOrdered;
    var p1 := SegmentArrives(s, r, h, data);
    var head := RequestHead(ParsedLine(r), Normal(r.fields), None);
    var start, part := ResponseHead(0, 200, ClientRequestedClose(head)), ResponseBody(0, [1]);
    var p3 := HeadThenPart(s, p1, Arrived(head, data));
    StillUnread(p1, p3);
    var t := Arrived(head, data).(started := true, close := start.close, sent := [start, part]);
    q := TakesThenPong(s, p3, t, [start, part]);
    assert [start, part] + [SessionWrite(PONG)] == [start, part, SessionWrite(PONG)];
    StrayItem(q, 2);
    hide Stands;
    assert Connected().parser.Live();
    assert [Op.SendStart(0, 200, true, true), Op.SendBody(0, [1], true)] + [Op.Receive(0), Op.Data(WW.PING)] ==
      [Op.SendStart(0, 200, true, true), Op.SendBody(0, [1], true), Op.Receive(0), Op.Data(WW.PING)];
    FirstThen(s, Connected(), Op.Data(RequestText(r) + HandshakeText(h)),
              [Op.SendStart(0, 200, true, true), Op.SendBody(0, [1], true), Op.Receive(0), Op.Data(WW.PING)], q);
    assert [Op.Data(RequestText(r) + HandshakeText(h))] +
      [Op.SendStart(0, 200, true, true), Op.SendBody(0, [1], true), Op.Receive(0), Op.Data(WW.PING)] ==
      [Op.Data(RequestText(r) + HandshakeText(h)), Op.SendStart(0, 200, true, true), Op.SendBody(0, [1], true),
       Op.Receive(0), Op.Data(WW.PING)];
  }

  /** So it happens on every server whose check lets this handshake in. */
  lemma OrderCanBreak(s: Settings) returns (q: Pipe)
    requires 128 <= s.parser.maxHeaderSize && 4 <= s.parser.maxHeaders && WEBSOCKET in s.parser.upgradeProtocols
    requires s.handshake(HandshakeHead(HANDSHAKE)) == None
    ensures Reaches(s, Connected(),
      [Op.Data(RequestText(ROOT) + HandshakeText(HANDSHAKE)), Op.SendStart(0, 200, true, true), Op.SendBody(0, [1], true),
       Op.Receive(0), Op.Data(WW.PING)], q) && !ResponsesOrdered(q)
  {
    RootIsOk(s.parser);
    HandshakeIsOk(s.parser);
    hide RequestOk, HandshakeOk, RequestText, HandshakeText, HandshakeHead, Reaches, ResponsesOrdered, ParsedLine, Normal,
         ClientRequestedClose;
    q := PongInsideResponse(s, ROOT, HANDSHAKE, []);
  }

  lemma StillUnread(p: Pipe, q: Pipe)
    requires Unread(p) && q.tail == p.tail
    ensures Unread(q)
  {
  }

  lemma NoSteps(s: Settings, p: Pipe)
    ensures Reaches(s, p, [], p)
  {
  }
}
