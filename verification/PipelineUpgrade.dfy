/** A handshake behind other requests: exactly when the session that it begins keeps the wire in
    order, and when it decodes the octets behind the handshake in order. An earlier application
    that still has a message to receive can make reading go on before the session is accepted. */
module PipelineUpgrade {
  import opened Bytes
  import opened HttpParsing
  import opened Pipeline
  import opened PipelineTurns
  import opened PipelineSessions
  import WS = WsSession
  import WW = WsWrites
  import FO = Frames

  // ---- a session that has just begun

  /** One step of `before` more, and there is a session. */
  ghost predicate Begins(s: Settings, before: seq<Op>, start: Pipe, data: Bytes, p: Pipe) {
    && Reaches(s, Connected(), before, start) && !start.tail.Session?
    && Enabled(start, Op.Data(data)) && start.parser.Live()
    && p == Perform(s, start, Op.Data(data)) && p.tail.Session?
  }

  ghost predicate JustBegun(s: Settings, p: Pipe) {
    exists before: seq<Op>, start: Pipe, data: Bytes :: Begins(s, before, start, data, p)
  }

  /** As `_begin_websocket` leaves it. */
  predicate AtStart(p: Pipe) {
    && p.tail.Session? && p.tail.conn == WS.Begin(p.tail.prologue) && p.tail.pending.NoPending?
    && p.readingPaused && !p.closed && !p.disconnected && !p.closing
  }

  /** What handling an event leaves of the flags, and what a session that it begins is like. */
  predicate Leaves(p: Pipe, q: Pipe) {
    && (q.tail.Session? ==>
          q.tail.conn == WS.Begin(q.tail.prologue) && q.tail.pending.NoPending? && q.readingPaused && q.closed == p.closed)
    && q.disconnected == p.disconnected && q.closing == p.closing
  }

  lemma EventLeaves(s: Settings, p: Pipe, e: Event)
    requires !p.tail.Session?
    ensures Leaves(p, p.HandleEvent(s, e))
    ensures !IsUpgrade(e) ==> p.HandleEvent(s, e).closed == p.closed
  {
    var q := p.(handled := p.handled + [e]);
    var r := q.(gotFirstHead := true, timerArmed := false);
    hide Pipe.BeginRequest, Pipe.PushChunk, Pipe.BeginWebsocket, Pipe.Fail;
    match e {
      case HeadComplete(head) =>
        BeginLeaves(r, head);
        FailLeaves(r, 501);
        WebsocketLeaves(s, r, head);
      case BodyChunk(data, more) => PushLeaves(s, q, RequestBody(data, more));
      case RequestComplete =>
    }
  }

  lemma BeginLeaves(p: Pipe, head: RequestHead)
    requires !p.tail.Session?
    ensures Leaves(p, p.BeginRequest(head)) && p.BeginRequest(head).closed == p.closed
  {
  }

  lemma PushLeaves(s: Settings, p: Pipe, m: Message)
    requires !p.tail.Session?
    ensures Leaves(p, p.PushChunk(s, m)) && p.PushChunk(s, m).closed == p.closed
  {
    if p.tasks != [] {
      var i := |p.tasks| - 1;
      var t := p.tasks[i].(queue := p.tasks[i].queue + [m], chunks := p.tasks[i].chunks + [m]);
      var q := p.WithTask(i, t);
      TaskLeaves(p, i, t);
      assert p.PushChunk(s, m) == q.(readingPaused := p.PushChunk(s, m).readingPaused);
      hide Pipe.WithTask, Pipe.PushChunk;
    }
  }

  lemma TaskLeaves(p: Pipe, i: nat, t: Task)
    requires i < |p.tasks| && !p.tail.Session?
    ensures var q := p.WithTask(i, t);
      !q.tail.Session? && q.closed == p.closed && q.disconnected == p.disconnected && q.closing == p.closing
  {
  }

  lemma FailLeaves(p: Pipe, status: nat)
    ensures Leaves(p, p.Fail(status))
  {
  }

  lemma WebsocketLeaves(s: Settings, p: Pipe, head: RequestHead)
    ensures Leaves(p, p.BeginWebsocket(s, head))
  {
    var q := p.(parser := p.parser.(buffer := []));
    SessionLeaves(q, p.parser.buffer);
    hide Pipe.BeginSession;
    assert forall status :: Leaves(q, q.Fail(status));
  }

  lemma SessionLeaves(p: Pipe, prologue: Bytes)
    ensures Leaves(p, p.BeginSession(prologue))
  {
  }

  lemma {:induction false} AllLeave(s: Settings, p: Pipe, events: seq<Event>)
    requires !p.tail.Session? && UpgradeLast(events)
    ensures Leaves(p, p.HandleAll(s, events))
    decreases |events|
  {
    if events != [] {
      EventLeaves(s, p, events[0]);
      TailStays(s, p, events[0]);
      var q, rest := p.HandleEvent(s, events[0]), events[1..];
      assert forall i :: 0 <= i < |rest| ==> rest[i] == events[i + 1];
      hide Pipe.HandleEvent;
      if rest == [] {
        assert q.HandleAll(s, rest) == q;
      } else {
        AllLeave(s, q, rest);
      }
    }
  }

  lemma DataLeaves(s: Settings, p: Pipe, data: Bytes)
    requires Inv(false, p) && !p.tail.Session? && Enabled(p, Op.Data(data)) && p.parser.Live()
    requires p.DataReceived(s, data).tail.Session?
    ensures AtStart(p.DataReceived(s, data))
  {
    if !p.closed {
      NotYetTailed(false, p);
      var r := Drain(s.parser, p.parser.Received(data));
      DrainUpgradeLast(s.parser, p.parser.Received(data));
      var q := p.(parser := r.state, fed := p.fed + [data]);
      hide Drain, Inv, Pipe.HandleAll;
      AllLeave(s, q, r.events);
    }
  }

  lemma BegunFacts(s: Settings, p: Pipe)
    requires JustBegun(s, p)
    ensures AtStart(p) && Inv(false, p) && p.parser.Live() && (Timely(p) ==> Inv(true, p))
  {
    var before: seq<Op>, start: Pipe, data: Bytes :| Begins(s, before, start, data, p);
    hide Reaches, Inv, Perform, Enabled, TimelyRun, Timely, AtStart, NoStray;
    ConnectedInv(false);
    ConnectedInv(true);
    NothingStray();
    RunStray(s, Connected(), before, start);
    RunKeeps(false, s, Connected(), before, start);
    StepKeeps(false, s, start, Op.Data(data));
    PerformsData(s, start, data);
    DataLeaves(s, start, data);
    if Timely(p) {
      RunKeeps(true, s, Connected(), before, start);
      StepKeeps(true, s, start, Op.Data(data));
    }
    StaysLive(p);
  }

  lemma NothingStray()
    ensures NoStray(Connected()) && !Connected().tail.Session?
  {
  }

  lemma PerformsData(s: Settings, p: Pipe, data: Bytes)
    requires Enabled(p, Op.Data(data)) && p.parser.Live()
    ensures Perform(s, p, Op.Data(data)) == p.DataReceived(s, data)
  {
  }

  lemma StaysLive(p: Pipe)
    requires Inv(false, p)
    ensures p.parser.Live()
  {
  }

  // ---- how reading goes on

  /** Only what one task received differs, and reading. */
  predicate SameButMail(p: Pipe, q: Pipe) {
    && q.tail == p.tail && q.wire == p.wire && q.fired == p.fired && q.parser == p.parser
    && q.closing == p.closing && q.closed == p.closed && q.disconnected == p.disconnected
    && |q.tasks| == |p.tasks|
    && forall i :: 0 <= i < |p.tasks| ==> SameResponse(p.tasks[i], q.tasks[i])
  }

  predicate SameResponse(t: Task, u: Task) {
    u.sent == t.sent && u.complete == t.complete && u.stage == t.stage
  }

  lemma ReceiveIsMail(s: Settings, p: Pipe, i: nat)
    requires i < |p.tasks| && p.tasks[i].queue != []
    ensures var q := p.Receive(s, i);
      && SameButMail(p, q) && q.tasks[i].queue == p.tasks[i].queue[1..]
      && (|p.tasks[i].queue| == 1 ==> !q.readingPaused)
  {
    var t := p.tasks[i].Taken();
    assert t == p.tasks[i].(received := t.received, queue := p.tasks[i].queue[1..]);
    hide Task.Taken;
  }

  lemma MailTwice(p: Pipe, q: Pipe, r: Pipe)
    requires SameButMail(p, q) && SameButMail(q, r)
    ensures SameButMail(p, r)
  {
    assert forall i :: 0 <= i < |p.tasks| ==> SameResponse(p.tasks[i], q.tasks[i]) && SameResponse(q.tasks[i], r.tasks[i]);
  }

  /** An earlier application takes all its messages; behind the last reading goes on. */
  lemma {:induction false} TakesAll(s: Settings, p: Pipe, i: nat) returns (ops: seq<Op>, q: Pipe)
    requires p.parser.Live() && i < |p.tasks| && !p.tasks[i].Ended() && p.tasks[i].queue != []
    ensures Reaches(s, p, ops, q) && SameButMail(p, q) && !q.readingPaused
    ensures forall j :: 0 <= j < |ops| ==> ops[j].Receive?
    decreases |p.tasks[i].queue|
  {
    var next := p.Receive(s, i);
    ReceiveIsMail(s, p, i);
    Receives(s, p, i);
    hide Perform, Enabled, Pipe.Receive;
    if |p.tasks[i].queue| == 1 {
      ops, q := [Op.Receive(i)], next;
      FirstThen(s, p, Op.Receive(i), [], q);
    } else {
      var rest;
      assert SameResponse(p.tasks[i], next.tasks[i]);
      rest, q := TakesAll(s, next, i);
      ops := [Op.Receive(i)] + rest;
      FirstThen(s, p, Op.Receive(i), rest, q);
      MailTwice(p, next, q);
    }
  }

  lemma Receives(s: Settings, p: Pipe, i: nat)
    requires p.parser.Live() && i < |p.tasks| && !p.tasks[i].Ended() && p.tasks[i].queue != []
    ensures Enabled(p, Op.Receive(i)) && Perform(s, p, Op.Receive(i)) == p.Receive(s, i)
  {
    hide Pipe.Receive;
  }

  lemma FirstThen(s: Settings, p: Pipe, op: Op, rest: seq<Op>, q: Pipe)
    requires Enabled(p, op) && p.parser.Live() && Reaches(s, Perform(s, p, op), rest, q)
    ensures Reaches(s, p, [op] + rest, q)
  {
    hide Perform, Enabled;
    assert ([op] + rest)[1..] == rest;
  }

  lemma {:induction false} ThenOne(s: Settings, p: Pipe, ops: seq<Op>, q: Pipe, op: Op)
    requires Reaches(s, p, ops, q) && Enabled(q, op) && q.parser.Live()
    ensures Reaches(s, p, ops + [op], Perform(s, q, op))
    decreases |ops|
  {
    hide Perform, Enabled;
    if ops == [] {
      FirstThen(s, p, op, [], Perform(s, q, op));
      assert [op] + [] == [] + [op];
    } else {
      ThenOne(s, Perform(s, p, ops[0]), ops[1..], q, op);
      assert ops + [op] == [ops[0]] + (ops[1..] + [op]);
      FirstThen(s, p, ops[0], ops[1..] + [op], Perform(s, q, op));
    }
  }

  /** Then the session reads, whatever turn it has. */
  lemma ReadsEarly(s: Settings, p: Pipe, data: Bytes) returns (ops: seq<Op>, mid: Pipe, q: Pipe)
    requires AtStart(p) && p.parser.Live() && !QuietTasks(p)
    ensures Reaches(s, p, ops, q) && SameButMail(p, mid) && !mid.readingPaused
    ensures q == mid.InSession(mid.Sess().DataReceived(s.session, data), NoPending)
    ensures forall j :: 0 <= j < |ops| ==> ops[j].Receive? || ops[j].Data?
  {
    var i :| 0 <= i < |p.tasks| && !QuietTask(p.tasks[i]);
    ops, mid := TakesAll(s, p, i);
    ReadsNow(s, mid, data);
    ThenOne(s, p, ops, mid, Op.Data(data));
    ops, q := ops + [Op.Data(data)], Perform(s, mid, Op.Data(data));
  }

  lemma ReadsNow(s: Settings, p: Pipe, data: Bytes)
    requires p.tail.Session? && !p.readingPaused && !p.closing && !p.disconnected && p.parser.Live()
    ensures Enabled(p, Op.Data(data))
    ensures Perform(s, p, Op.Data(data)) == p.InSession(p.Sess().DataReceived(s.session, data), p.tail.pending)
  {
    hide WS.Conn.DataReceived, Pipe.InSession;
  }

  // ---- the responses

  ghost predicate ResponsesOrdered(p: Pipe) {
    exists k: nat, n: nat :: ShapeAt(p.tasks, p.tail, p.wire, k, n)
  }

  const PONG: WS.WireItem := WS.FrameOut(FO.Opcode.Pong, [])

  /** A session that has read nothing writes a pong as soon as it reads a ping. */
  lemma WritesPong(s: Settings, p: Pipe, q: Pipe)
    requires p.tail.Session? && p.tail.conn == WS.Begin(p.tail.prologue) && !p.closed && !p.closing
    requires q == p.InSession(p.Sess().DataReceived(s.session, WW.PING), NoPending)
    ensures q.tail.Session? && q.tail.conn.hist.wire == [PONG]
    ensures q.wire == p.wire + [SessionWrite(PONG)] && q.tasks == p.tasks
  {
    WW.PingIsAnswered(s.session, p.Sess());
    hide WS.Conn.DataReceived, Pipe.Sess;
    assert [] + [PONG] == [PONG];
    NewItemsJoin([], [PONG]);
    assert Items([]) + NewItems([], [PONG]) == NewItems([], [PONG]);
  }

  /** A pong among the responses. */
  lemma PongBreaksOrder(s: Settings, p: Pipe) returns (ops: seq<Op>, q: Pipe)
    requires AtStart(p) && p.parser.Live() && Inv(false, p) && !QuietTasks(p)
    ensures Reaches(s, p, ops, q) && q.tail.Session? && q.tail.conn.hist.wire == [PONG]
    ensures p.tail.turn !in p.fired ==> !ResponsesOrdered(q)
    ensures forall j :: 0 <= j < |ops| ==> ops[j].Receive? || ops[j].Data?
  {
    hide Reaches, ResponsesOrdered, Inv, Pipe.InSession, WS.Conn.DataReceived, QuietTasks;
    var mid;
    ops, mid, q := ReadsEarly(s, p, WW.PING);
    WritesPong(s, mid, q);
    if p.tail.turn !in p.fired {
      PongIsStray(p, mid, q);
    }
  }

  lemma PongIsStray(p: Pipe, mid: Pipe, q: Pipe)
    requires Inv(false, p) && p.tail.Session? && p.tail.turn !in p.fired
    requires SameButMail(p, mid) && q.tasks == mid.tasks && q.wire == mid.wire + [SessionWrite(PONG)]
    ensures !ResponsesOrdered(q)
  {
    NotAllComplete(p);
    SentShapes(false, p);
    hide Inv, ResponsesOrdered;
    SameShapes(p, q);
    StrayItem(q, |p.wire|);
  }

  /** With the session's turn not open, some response is not whole. */
  lemma NotAllComplete(p: Pipe)
    requires Inv(false, p) && p.tail.Session? && p.tail.turn !in p.fired
    ensures p.tasks != [] && !p.tasks[|p.tasks| - 1].complete
  {
    if p.tasks != [] {
      assert TaskOk(p, |p.tasks| - 1);
    }
  }

  lemma SameShapes(p: Pipe, q: Pipe)
    requires |q.tasks| == |p.tasks| && forall i :: 0 <= i < |p.tasks| ==> SameResponse(p.tasks[i], q.tasks[i])
    requires forall i :: 0 <= i < |p.tasks| ==> ResponseShape(i, p.tasks[i].sent)
    ensures forall i :: 0 <= i < |q.tasks| ==> ResponseShape(i, q.tasks[i].sent) && q.tasks[i].complete == p.tasks[i].complete
  {
    forall i | 0 <= i < |q.tasks| ensures ResponseShape(i, q.tasks[i].sent) && q.tasks[i].complete == p.tasks[i].complete {
      assert SameResponse(p.tasks[i], q.tasks[i]);
    }
  }

  /** Something else on the wire while a response is not whole. */
  lemma StrayItem(p: Pipe, at: nat)
    requires p.tasks != [] && !p.tasks[|p.tasks| - 1].complete
    requires forall i :: 0 <= i < |p.tasks| ==> ResponseShape(i, p.tasks[i].sent)
    requires at < |p.wire| && !OfResponse(p.wire[at])
    ensures !ResponsesOrdered(p)
  {
    forall k: nat, n: nat ensures !ShapeAt(p.tasks, p.tail, p.wire, k, n) {
      if ShapeAt(p.tasks, p.tail, p.wire, k, n) {
        PartialIsResponses(p.tasks, p.tail, p.wire, k, n);
      }
    }
  }

  /** Exactly when a session behind other requests leaves the order of their responses alone on
      every later run: its turn is open as it begins, or no application before it that has not
      ended has a message left to receive. */
  lemma ResponsesExactlyIfTimely(s: Settings, p: Pipe)
    requires JustBegun(s, p)
    ensures (forall ops: seq<Op>, q: Pipe :: Reaches(s, p, ops, q) ==> ResponsesOrdered(q)) <==>
      p.tail.turn in p.fired || QuietTasks(p)
  {
    BegunFacts(s, p);
    hide JustBegun, Inv, Reaches, ResponsesOrdered, TimelyRun;
    if p.tail.turn in p.fired || QuietTasks(p) {
      forall ops: seq<Op>, q: Pipe | Reaches(s, p, ops, q) ensures ResponsesOrdered(q) {
        SessionIsTimely(s, p, ops, q);
        RunKeeps(true, s, p, ops, q);
        OrderedByInv(q);
      }
    } else {
      var ops, q := PongBreaksOrder(s, p);
    }
  }

  lemma OrderedByInv(p: Pipe)
    requires Inv(true, p)
    ensures ResponsesOrdered(p)
  {
    var k, n := ShapeOf(p);
  }

  /** What a caller can see: a handshake that is the first request is in time. */
  lemma FirstRequestIsTimely(p: Pipe)
    requires p.tasks == []
    ensures Timely(p)
  {
  }
}
