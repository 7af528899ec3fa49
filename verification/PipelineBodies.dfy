/** Body isolation: whatever the interleaving, each request's application is handed the
    body of its own request and nothing of any other. */
module PipelineBodies {
  import opened Bytes
  import opened Wrappers
  import opened HttpParsing
  import opened HttpExchanges
  import opened Pipeline
  import opened PipelineTurns
  import HttpHandOff
  import WS = WsSession

  // ---- what the parser's events say about each request

  datatype Request = Request(head: RequestHead, body: seq<Message>)

  function AddEvent(requests: seq<Request>, e: Event): seq<Request> {
    match e
    case HeadComplete(head) => if head.upgrade.None? then requests + [Request(head, [])] else requests
    case BodyChunk(data, more) =>
      if requests == [] then requests
      else
        var n := |requests| - 1;
        requests[n := Request(requests[n].head, requests[n].body + [RequestBody(data, more)])]
    case RequestComplete => requests
  }

  function AddAll(requests: seq<Request>, events: seq<Event>): seq<Request>
    decreases |events|
  {
    if events == [] then requests
    else AddEvent(AddAll(requests, events[..|events| - 1]), events[|events| - 1])
  }

  function PartMessages(parts: seq<Bytes>): seq<Message>
    decreases |parts|
  {
    if parts == [] then [] else PartMessages(parts[..|parts| - 1]) + [RequestBody(parts[|parts| - 1], true)]
  }

  function Whole(x: Exchange): Request {
    Request(x.head, PartMessages(x.parts) + [RequestBody(x.last, false)])
  }

  function AllWhole(done: seq<Exchange>): (r: seq<Request>)
    ensures |r| == |done|
    ensures forall i :: 0 <= i < |done| ==> r[i] == Whole(done[i])
  {
    seq(|done|, i requires 0 <= i < |done| => Whole(done[i]))
  }

  /** The requests of a shape: the whole ones, then the one still open. */
  function Requests(shape: Shape): seq<Request> {
    AllWhole(shape.done) +
    (if shape.open.InBody? then [Request(shape.open.head, PartMessages(shape.open.parts))] else [])
  }

  lemma AddTwice(requests: seq<Request>, a: seq<Event>, e: Event)
    ensures AddAll(requests, a + [e]) == AddEvent(AddAll(requests, a), e)
  {
    assert (a + [e])[..|a|] == a;
  }

  lemma {:induction false} AddInTurn(requests: seq<Request>, a: seq<Event>, b: seq<Event>)
    ensures AddAll(requests, a + b) == AddAll(AddAll(requests, a), b)
    decreases |b|
  {
    if b == [] {
      assert a + b == a;
    } else {
      var n := |b| - 1;
      AddInTurn(requests, a, b[..n]);
      AddTwice(requests, a + b[..n], b[n]);
      assert a + b == a + b[..n] + [b[n]];
    }
  }

  lemma {:induction false} AddParts(requests: seq<Request>, head: RequestHead, parts: seq<Bytes>)
    ensures AddAll(requests + [Request(head, [])], RenderParts(parts)) == requests + [Request(head, PartMessages(parts))]
    decreases |parts|
  {
    if parts != [] {
      var n := |parts| - 1;
      AddParts(requests, head, parts[..n]);
      AddTwice(requests + [Request(head, [])], RenderParts(parts[..n]), BodyChunk(parts[n], true));
    }
  }

  lemma AddHead(requests: seq<Request>, head: RequestHead, parts: seq<Bytes>)
    requires head.upgrade.None?
    ensures AddAll(requests, [HeadComplete(head)] + RenderParts(parts)) == requests + [Request(head, PartMessages(parts))]
  {
    AddInTurn(requests, [HeadComplete(head)], RenderParts(parts));
    AddTwice(requests, [], HeadComplete(head));
    assert [] + [HeadComplete(head)] == [HeadComplete(head)];
    AddParts(requests, head, parts);
  }

  lemma AddExchange(requests: seq<Request>, x: Exchange)
    requires x.head.upgrade.None?
    ensures AddAll(requests, RenderExchange(x)) == requests + [Whole(x)]
  {
    var opening := [HeadComplete(x.head)] + RenderParts(x.parts);
    AddHead(requests, x.head, x.parts);
    AddTwice(requests, opening, BodyChunk(x.last, false));
    AddTwice(requests, opening + [BodyChunk(x.last, false)], RequestComplete);
    assert RenderExchange(x) == opening + [BodyChunk(x.last, false)] + [RequestComplete];
  }

  lemma {:induction false} AddDone(done: seq<Exchange>)
    requires forall i :: 0 <= i < |done| ==> done[i].head.upgrade.None?
    ensures AddAll([], RenderDone(done)) == AllWhole(done)
    decreases |done|
  {
    if done != [] {
      var n := |done| - 1;
      AddDone(done[..n]);
      AddInTurn([], RenderDone(done[..n]), RenderExchange(done[n]));
      AddExchange(AllWhole(done[..n]), done[n]);
      assert AllWhole(done) == AllWhole(done[..n]) + [Whole(done[n])];
    }
  }

  /** Heads that open requests carry no upgrade; one that switches does. */
  predicate HeadsFit(shape: Shape) {
    && (forall i :: 0 <= i < |shape.done| ==> shape.done[i].head.upgrade.None?)
    && (shape.open.InBody? ==> shape.open.head.upgrade.None?)
    && (shape.open.Switched? ==> shape.open.head.upgrade.Some?)
  }

  /** The events of a shape give each request exactly its own body. */
  lemma RequestsOfShape(shape: Shape)
    requires HeadsFit(shape)
    ensures AddAll([], Render(shape)) == Requests(shape)
  {
    AddDone(shape.done);
    AddInTurn([], RenderDone(shape.done), RenderOpen(shape.open));
    match shape.open {
      case Nothing =>
      case InBody(head, parts) => AddHead(AllWhole(shape.done), head, parts);
      case Switched(head) =>
        AddTwice(AllWhole(shape.done), [], HeadComplete(head));
        assert [] + [HeadComplete(head)] == [HeadComplete(head)];
    }
  }

  // ---- the invariant

  function Repeated(n: nat): seq<Message> {
    if n == 0 then [] else Repeated(n - 1) + [HttpDisconnect]
  }

  /** What follows the body: the connection's loss, reported once and then again on demand. */
  function Ending(t: Task): seq<Message> {
    (if t.lost then [HttpDisconnect] else []) + Repeated(t.repeats)
  }

  predicate MailOk(t: Task, disconnected: bool) {
    && t.received + t.queue == t.chunks + Ending(t)
    && (!disconnected ==> !t.lost && t.repeats == 0)
    && (disconnected ==> t.lost || t.stage.Gone?)
    && (t.repeats > 0 ==> t.lost && t.queue == [])
    && t.registered == !t.stage.Gone?
  }

  predicate DeliveryOk(p: Pipe, i: nat)
    requires i < |p.tasks|
  {
    MailOk(p.tasks[i], p.disconnected)
  }

  predicate Delivered(p: Pipe) {
    forall i :: 0 <= i < |p.tasks| ==> DeliveryOk(p, i)
  }

  predicate Matched(t: Task, r: Request) {
    t.head == r.head && t.chunks == r.body
  }

  /** Task by task, the chunks queued are those of the events acted on. */
  predicate Follows(p: Pipe) {
    var requests := AddAll([], p.handled);
    && |p.tasks| == |requests|
    && forall i :: 0 <= i < |requests| ==> Matched(p.tasks[i], requests[i])
  }

  predicate Listening(p: Pipe) {
    !p.closed && !p.tail.Session?
  }

  /** The events acted on are whole exchanges, then at most one open. */
  ghost predicate Shaped(cfg: Config, handled: seq<Event>, shape: Shape) {
    && handled == Render(shape) && HeadsFit(shape)
    && forall i :: 0 <= i < |shape.done| ==> ExchangeOk(cfg, shape.done[i])
  }

  /** They are what the parser reported on all it was fed: everything while it listens, and
      a prefix once it has failed. */
  ghost predicate Parsed(s: Settings, p: Pipe) {
    var all := FeedAll(s.parser, Fresh([]), p.fed);
    && p.handled <= all.events
    && (exists shape :: Shaped(s.parser, p.handled, shape))
    && (all.error.None? ==> p.handled == all.events)
    && (Listening(p) ==> all.error.None? && all.state == p.parser)
    && (p.tail.Session? ==> all.error.None? && all.state.phase == Upgraded && all.state.buffer == p.tail.prologue)
  }

  ghost predicate BodyInv(s: Settings, p: Pipe) {
    && Follows(p) && Delivered(p) && Parsed(s, p)
    && (p.disconnected ==> p.closed)
  }

  // ---- steps other than input

  /** A step that leaves the parser and every request's chunks alone. */
  predicate Quiet(p: Pipe, q: Pipe) {
    && |q.tasks| == |p.tasks|
    && (forall i :: 0 <= i < |p.tasks| ==> q.tasks[i].head == p.tasks[i].head && q.tasks[i].chunks == p.tasks[i].chunks)
    && q.parser == p.parser && q.fed == p.fed && q.handled == p.handled
    && (Listening(q) ==> Listening(p))
    && (q.tail.Session? ==> p.tail.Session? && q.tail.prologue == p.tail.prologue)
    && (q.disconnected ==> q.closed)
  }

  lemma QuietKeeps(s: Settings, p: Pipe, q: Pipe)
    requires BodyInv(s, p) && Quiet(p, q) && Delivered(q)
    ensures BodyInv(s, q)
  {
    hide AddAll, FeedAll, Shaped, DeliveryOk;
    forall i | 0 <= i < |q.tasks| ensures Matched(q.tasks[i], AddAll([], q.handled)[i]) {
      assert Matched(p.tasks[i], AddAll([], p.handled)[i]);
    }
  }

  /** Only task i changed, and soundly. */
  lemma OneDelivered(p: Pipe, q: Pipe, i: nat)
    requires Delivered(p) && i < |p.tasks| && |q.tasks| == |p.tasks| && q.tasks == p.tasks[i := q.tasks[i]]
    requires q.disconnected == p.disconnected && DeliveryOk(q, i)
    ensures Delivered(q)
  {
    forall j | 0 <= j < |q.tasks| ensures DeliveryOk(q, j) {
      assert DeliveryOk(p, j);
    }
  }

  /** What receiving and queueing read of a task. */
  predicate SameMail(t: Task, u: Task) {
    && u.queue == t.queue && u.chunks == t.chunks && u.received == t.received && u.lost == t.lost
    && u.repeats == t.repeats && u.registered == t.registered && u.stage.Gone? == t.stage.Gone?
  }

  lemma SameMailDelivered(p: Pipe, q: Pipe)
    requires Delivered(p) && |q.tasks| == |p.tasks| && q.disconnected == p.disconnected
    requires forall i :: 0 <= i < |p.tasks| ==> SameMail(p.tasks[i], q.tasks[i])
    ensures Delivered(q)
  {
    forall i | 0 <= i < |q.tasks| ensures DeliveryOk(q, i) {
      assert DeliveryOk(p, i);
      assert SameMail(p.tasks[i], q.tasks[i]);
    }
  }

  lemma ReceiveDelivers(s: Settings, p: Pipe, i: nat)
    requires Delivered(p) && i < |p.tasks| && !p.tasks[i].Ended() && (p.tasks[i].queue != [] || p.disconnected)
    ensures Delivered(p.Receive(s, i))
  {
    assert DeliveryOk(p, i);
    TakenMail(p.tasks[i], p.disconnected);
    hide MailOk, Task.Taken;
    OneDelivered(p, p.Receive(s, i), i);
  }

  lemma TakenMail(t: Task, disconnected: bool)
    requires MailOk(t, disconnected) && !t.stage.Gone? && (t.queue != [] || disconnected)
    ensures MailOk(t.Taken(), disconnected)
  {
    var u := t.Taken();
    if t.queue != [] {
      assert t.queue == [t.queue[0]] + t.queue[1..];
      assert u.received + u.queue == t.received + t.queue;
    } else {
      assert u.received + u.queue == t.received + t.queue + [HttpDisconnect];
      assert Ending(u) == Ending(t) + [HttpDisconnect];
    }
  }

  lemma LostDelivers(p: Pipe)
    requires Delivered(p) && !p.disconnected
    ensures Delivered(p.Lost())
  {
    var q := p.Lost();
    forall i | 0 <= i < |q.tasks| ensures DeliveryOk(q, i) {
      assert DeliveryOk(p, i);
      var t, u := p.tasks[i], q.tasks[i];
      assert u == t.Disconnected();
      if t.registered {
        assert u.received + u.queue == t.received + t.queue + [HttpDisconnect];
      }
    }
  }

  lemma TaskDoneDelivers(p: Pipe, i: nat)
    requires Delivered(p) && i < |p.tasks| && p.tasks[i].Ended()
    ensures Delivered(p.TaskDone(i))
  {
    assert DeliveryOk(p, i);
    OneDelivered(p, p.TaskDone(i), i);
  }

  /** A step that touches no queue at all. */
  predicate Idle(p: Pipe, q: Pipe) {
    && Quiet(p, q) && q.disconnected == p.disconnected
    && forall i :: 0 <= i < |p.tasks| ==> SameMail(p.tasks[i], q.tasks[i])
  }

  lemma IdleTwice(p: Pipe, q: Pipe, r: Pipe)
    requires Idle(p, q) && Idle(q, r)
    ensures Idle(p, r)
  {
    assert forall i :: 0 <= i < |p.tasks| ==> SameMail(p.tasks[i], q.tasks[i]) && SameMail(q.tasks[i], r.tasks[i]);
  }

  lemma TaskIdle(p: Pipe, i: nat, t: Task)
    requires i < |p.tasks| && SameMail(p.tasks[i], t) && t.head == p.tasks[i].head && (p.disconnected ==> p.closed)
    ensures Idle(p, p.WithTask(i, t))
  {
  }

  lemma WriteIdle(p: Pipe, item: WireItem)
    requires p.disconnected ==> p.closed
    ensures Idle(p, p.Write(item))
  {
  }

  lemma TurnArrivesIdle(p: Pipe, i: nat)
    requires i < |p.tasks| && p.tasks[i].stage.AwaitTurn? && (p.disconnected ==> p.closed)
    ensures Idle(p, p.TurnArrives(i))
  {
    hide Idle;
    var t := p.tasks[i];
    var item := ResponseHead(i, t.stage.status, t.close);
    var u := t.(stage := Running, sent := t.sent + [item]);
    TaskIdle(p, i, u);
    WriteIdle(p.WithTask(i, u), item);
    IdleTwice(p, p.WithTask(i, u), p.TurnArrives(i));
  }

  lemma SendStartIdle(p: Pipe, i: nat, status: int, headersOk: bool, declaresLength: bool)
    requires IsRunning(p, i) && (p.disconnected ==> p.closed)
    ensures Idle(p, p.SendStart(i, status, headersOk, declaresLength))
  {
    hide Idle, ClientRequestedClose, Pipe.TurnArrives;
    var t := p.tasks[i];
    if t.started {
      TaskIdle(p, i, t.(stage := Erred));
    } else if !headersOk {
      TaskIdle(p, i, t.(started := true, stage := Erred));
    } else {
      var close := ClientRequestedClose(t.head) || !declaresLength || p.shouldExit;
      HeadIdle(p, i, t.(started := true, close := close, stage := AwaitTurn(status)));
    }
  }

  lemma HeadIdle(p: Pipe, i: nat, t: Task)
    requires i < |p.tasks| && SameMail(p.tasks[i], t) && t.head == p.tasks[i].head && t.stage.AwaitTurn?
    requires p.disconnected ==> p.closed
    ensures Idle(p, p.WithTask(i, t)) && Idle(p, p.WithTask(i, t).TurnArrives(i))
  {
    hide Idle, Pipe.TurnArrives;
    var q := p.WithTask(i, t);
    TaskIdle(p, i, t);
    TurnArrivesIdle(q, i);
    IdleTwice(p, q, q.TurnArrives(i));
  }

  lemma FinishIdle(p: Pipe, i: nat, more: bool)
    requires i < |p.tasks| && !p.tasks[i].Ended() && (p.disconnected ==> p.closed)
    ensures Idle(p, p.FinishBody(i, more))
  {
  }

  lemma SendBodyIdle(p: Pipe, i: nat, data: Bytes, more: bool)
    requires IsRunning(p, i) && (p.disconnected ==> p.closed)
    ensures Idle(p, p.SendBody(i, data, more))
  {
    hide Idle, Pipe.FinishBody;
    var t := p.tasks[i];
    if !t.started {
      TaskIdle(p, i, t.(stage := Erred));
    } else if data == [] {
      FinishIdle(p, i, more);
    } else {
      var item := ResponseBody(i, data);
      var mid := p.WithTask(i, t.(sent := t.sent + [item]));
      var q := mid.Write(item);
      TaskIdle(p, i, t.(sent := t.sent + [item]));
      WriteIdle(mid, item);
      IdleTwice(p, mid, q);
      if p.pausedWriting && !p.closing {
        TaskIdle(q, i, q.tasks[i].(stage := Draining(more)));
        IdleTwice(p, q, q.WithTask(i, q.tasks[i].(stage := Draining(more))));
      } else {
        FinishIdle(q, i, more);
        IdleTwice(p, q, q.FinishBody(i, more));
      }
    }
  }

  predicate IsMail(op: Op) {
    op.Receive? || op.TaskDone? || op.ConnectionLost?
  }

  lemma ReceiveQuiet(s: Settings, p: Pipe, i: nat)
    requires i < |p.tasks| && (p.tasks[i].queue != [] || p.disconnected) && (p.disconnected ==> p.closed)
    ensures Quiet(p, p.Receive(s, i))
  {
    var t := p.tasks[i].Taken();
    assert t.head == p.tasks[i].head && t.chunks == p.tasks[i].chunks;
    hide Task.Taken;
    TaskQuiet(p, i, t);
    hide Pipe.WithTask;
    PausedQuiet(p, p.WithTask(i, t), p.Receive(s, i).readingPaused);
  }

  lemma TaskQuiet(p: Pipe, i: nat, t: Task)
    requires i < |p.tasks| && t.head == p.tasks[i].head && t.chunks == p.tasks[i].chunks
    requires p.disconnected ==> p.closed
    ensures Quiet(p, p.WithTask(i, t))
  {
  }

  lemma PausedQuiet(p: Pipe, q: Pipe, paused: bool)
    requires Quiet(p, q)
    ensures Quiet(p, q.(readingPaused := paused))
  {
  }

  lemma TaskDoneQuiet(p: Pipe, i: nat)
    requires i < |p.tasks| && (p.disconnected ==> p.closed)
    ensures Quiet(p, p.TaskDone(i))
  {
  }

  lemma LostQuiet(p: Pipe)
    ensures Quiet(p, p.Lost())
  {
  }

  lemma FlagsIdle(p: Pipe, q: Pipe)
    requires q.tasks == p.tasks && q.parser == p.parser && q.fed == p.fed && q.handled == p.handled
    requires (Listening(q) ==> Listening(p)) && q.disconnected == p.disconnected && (q.disconnected ==> q.closed)
    requires q.tail.Session? ==> p.tail.Session? && q.tail.prologue == p.tail.prologue
    ensures Idle(p, q)
  {
  }

  lemma ConnectionStepIdle(p: Pipe, op: Op)
    requires Enabled(p, op) && !op.Data? && !IsTaskOp(op) && !IsSessionOp(op) && !IsMail(op) && (p.disconnected ==> p.closed)
    ensures Idle(p, ConnectionPerform(p, op))
  {
    hide Idle, Pipe.WriteFailure, Pipe.HeadTimeout;
    match op {
      case WriteFailure => WriteFailureIdle(p);
      case HeadTimeout => HeadTimeoutIdle(p);
      case ShutdownBegins => FlagIdle(p, true, p.pausedWriting, p.closing);
      case PauseWriting(paused) => FlagIdle(p, p.shouldExit, paused, p.closing);
      case LosingTransport => FlagIdle(p, p.shouldExit, p.pausedWriting, true);
    }
  }

  lemma FlagIdle(p: Pipe, shouldExit: bool, pausedWriting: bool, closing: bool)
    requires p.disconnected ==> p.closed
    ensures Idle(p, p.(shouldExit := shouldExit, pausedWriting := pausedWriting, closing := closing))
  {
  }

  lemma WriteFailureIdle(p: Pipe)
    requires p.tail.Failing? && (p.disconnected ==> p.closed)
    ensures Idle(p, p.WriteFailure())
  {
    hide Idle;
    var q := p.(tail := p.tail.(written := true));
    FlagsIdle(p, q);
    if !p.closing {
      FlagsIdle(p, q.Write(FailureResponse(p.tail.status)).(closing := true));
    }
  }

  lemma HeadTimeoutIdle(p: Pipe)
    requires p.disconnected ==> p.closed
    ensures Idle(p, p.HeadTimeout())
  {
    hide Idle;
    FlagsIdle(p, p.HeadTimeout());
  }

  lemma InSessionIdle(p: Pipe, d: WS.Conn, pending: Pending)
    requires p.tail.Session? && (p.disconnected ==> p.closed)
    ensures Idle(p, p.InSession(d, pending))
  {
    hide Idle;
    FlagsIdle(p, p.InSession(d, pending));
  }

  lemma InSessionFlags(p: Pipe, d: WS.Conn, pending: Pending)
    requires p.tail.Session?
    ensures var q := p.InSession(d, pending); q.tail.Session? && q.closed == p.closed && q.disconnected == p.disconnected
  {
  }

  lemma SessionTurnIdle(s: Settings, p: Pipe)
    requires p.tail.Session? && (p.disconnected ==> p.closed)
    ensures Idle(p, p.SessionTurn(s)) && Idle(p, p.TakeTurn(s))
  {
    hide Idle, Pipe.InSession, WS.Conn.DoAccept, WS.Conn.EndDeny;
    FlagsIdle(p, p);
    match p.tail.pending {
      case NoPending =>
      case AcceptPending(subprotocol) =>
        InSessionIdle(p, p.Sess().DoAccept(s.session, subprotocol, true).conn, NoPending);
      case DenyPending => InSessionIdle(p, p.Sess().EndDeny(), NoPending);
    }
  }

  lemma PendingIdle(p: Pipe, pending: Pending)
    requires p.tail.Session? && (p.disconnected ==> p.closed)
    ensures Idle(p, p.(tail := p.tail.(pending := pending)))
  {
  }

  lemma SessionSendIdle(s: Settings, p: Pipe, m: WS.AppMessage)
    requires p.tail.Session? && (p.disconnected ==> p.closed)
    ensures Idle(p, p.SessionSend(s, m))
  {
    hide Idle, Pipe.TakeTurn, Pipe.InSession, WS.Conn.Send, WS.Conn.StartDeny;
    if p.tail.conn.wsState == Some(WS.Connecting) && m.Accept? && m.headersOk {
      var q := p.(tail := p.tail.(pending := AcceptPending(m.subprotocol)));
      PendingIdle(p, AcceptPending(m.subprotocol));
      SessionTurnIdle(s, q);
      IdleTwice(p, q, q.TakeTurn(s));
    } else if p.tail.conn.wsState == Some(WS.Connecting) && m.CloseMessage? {
      var q := p.InSession(p.Sess().StartDeny(), DenyPending);
      InSessionIdle(p, p.Sess().StartDeny(), DenyPending);
      InSessionFlags(p, p.Sess().StartDeny(), DenyPending);
      SessionTurnIdle(s, q);
      IdleTwice(p, q, q.TakeTurn(s));
    } else {
      InSessionIdle(p, p.Sess().Send(s.session, m).conn, NoPending);
    }
  }

  lemma SessionStepIdle(s: Settings, p: Pipe, op: Op)
    requires Enabled(p, op) && IsSessionOp(op) && (p.disconnected ==> p.closed)
    ensures Idle(p, SessionPerform(s, p, op))
  {
    hide Idle, Pipe.SessionSend, Pipe.SessionTurn, Pipe.InSession;
    hide WS.Conn.AfterReceive, WS.Conn.PingDue, WS.Conn.Shutdown, WS.Conn.TaskDone;
    match op {
      case SessionSend(m) => SessionSendIdle(s, p, m);
      case SessionTurn => SessionTurnIdle(s, p);
      case SessionReceive => InSessionIdle(p, p.Sess().AfterReceive(s.session), p.tail.pending);
      case SessionPing(payload) => InSessionIdle(p, p.Sess().PingDue(s.session, payload), p.tail.pending);
      case SessionShutdown => InSessionIdle(p, p.Sess().Shutdown(), p.tail.pending);
      case SessionDone(raised) => InSessionIdle(p, p.Sess().TaskDone(raised), NoPending);
    }
  }

  lemma TaskStepIdle(s: Settings, p: Pipe, op: Op)
    requires Enabled(p, op) && IsTaskOp(op) && !IsMail(op) && (p.disconnected ==> p.closed)
    ensures Idle(p, TaskPerform(s, p, op))
  {
    hide Idle, Pipe.SendStart, Pipe.SendBody, Pipe.FinishBody;
    match op {
      case SendStart(i, status, headersOk, declaresLength) => SendStartIdle(p, i, status, headersOk, declaresLength);
      case TurnArrives(i) => TurnArrivesIdle(p, i);
      case SendBody(i, data, more) => SendBodyIdle(p, i, data, more);
      case DrainDone(i) => FinishIdle(p, i, p.tasks[i].stage.more);
      case SendUnknown(i) => TaskIdle(p, i, p.tasks[i].(stage := Erred));
      case Raise(i) => TaskIdle(p, i, p.tasks[i].(stage := Erred));
      case Return(i) => TaskIdle(p, i, p.tasks[i].(stage := Returned));
      case Cancel(i) => TaskIdle(p, i, p.tasks[i].(stage := Cancelled));
    }
  }

  lemma StepIdle(s: Settings, p: Pipe, op: Op)
    requires Enabled(p, op) && p.parser.Live() && !IsMail(op) && !op.Data? && (p.disconnected ==> p.closed)
    ensures Idle(p, Perform(s, p, op))
  {
    hide Idle, Enabled, TaskPerform, SessionPerform, ConnectionPerform;
    if IsTaskOp(op) {
      TaskStepIdle(s, p, op);
    } else if IsSessionOp(op) {
      SessionStepIdle(s, p, op);
    } else {
      ConnectionStepIdle(p, op);
    }
  }

  // ---- input

  lemma {:induction false} FedLast(cfg: Config, st: State, chunks: seq<Bytes>, data: Bytes)
    requires st.Live() && FeedAll(cfg, st, chunks).error.None?
    ensures var r, d := FeedAll(cfg, st, chunks), Drain(cfg, FeedAll(cfg, st, chunks).state.Received(data));
      var all := FeedAll(cfg, st, chunks + [data]);
      all.state == d.state && all.error == d.error && all.events == r.events + d.events
    decreases |chunks|
  {
    hide Drain;
    var d := Drain(cfg, FeedAll(cfg, st, chunks).state.Received(data));
    if chunks == [] {
      assert (chunks + [data])[1..] == [];
      assert [] + d.events == d.events == d.events + [];
    } else {
      var first := Drain(cfg, st.Received(chunks[0]));
      FedLast(cfg, first.state, chunks[1..], data);
      assert (chunks + [data])[1..] == chunks[1..] + [data];
      var mid := FeedAll(cfg, first.state, chunks[1..]).events;
      assert first.events + mid + d.events == first.events + (mid + d.events);
    }
  }

  /** Tasks and requests stay in step, event by event. */
  lemma EventFollows(s: Settings, p: Pipe, e: Event)
    requires Follows(p)
    ensures Follows(p.HandleEvent(s, e))
  {
    AddTwice([], p.handled, e);
    hide AddAll;
    var q := p.HandleEvent(s, e);
    var before, after := AddAll([], p.handled), AddAll([], q.handled);
    forall i | 0 <= i < |before| ensures Matched(p.tasks[i], before[i]) {
    }
    EventAdds(s, p, e);
    forall i | 0 <= i < |after| ensures Matched(q.tasks[i], after[i]) {
    }
  }

  /** What one event does to the list of tasks. */
  predicate EventEffect(tasks: seq<Task>, next: seq<Task>, e: Event) {
    match e
    case HeadComplete(head) =>
      if head.upgrade.Some? then next == tasks
      else |next| == |tasks| + 1 && next[..|tasks|] == tasks && NewTask(next[|tasks|], head)
    case RequestComplete => next == tasks
    case BodyChunk(data, more) => ChunkPushed(tasks, next, RequestBody(data, more))
  }

  predicate Kept(p: Pipe, q: Pipe) {
    q.handled == p.handled && q.disconnected == p.disconnected && q.fed == p.fed && q.wire == p.wire
  }

  lemma EventAdds(s: Settings, p: Pipe, e: Event)
    ensures var q := p.HandleEvent(s, e);
      && Kept(p.(handled := p.handled + [e]), q)
      && EventEffect(p.tasks, q.tasks, e)
      && (p.parser == q.parser || !Listening(q))
      && (!Listening(p) ==> !Listening(q))
      && (p.parser.Live() ==> q.parser.Live())
      && (if IsUpgrade(e) then !Listening(q) else q.parser == p.parser && q.tail == p.tail)
      && (q.tail.Session? ==> q.tail == p.tail || q.tail.prologue == p.parser.buffer)
  {
    var q := p.(handled := p.handled + [e]);
    var r := q.(gotFirstHead := true, timerArmed := false);
    hide Pipe.BeginRequest, Pipe.PushChunk, Pipe.BeginWebsocket, Pipe.Fail;
    match e {
      case HeadComplete(head) =>
        if head.upgrade.None? {
          BeginAdds(r, head);
        } else {
          FailAdds(r, 501);
          WebsocketAdds(s, r, head);
        }
      case BodyChunk(data, more) => PushAdds(s, q, RequestBody(data, more));
      case RequestComplete =>
    }
  }

  lemma BeginAdds(p: Pipe, head: RequestHead)
    ensures var q := p.BeginRequest(head);
      && Kept(p, q) && q.parser == p.parser && q.tail == p.tail && Listening(q) == Listening(p)
      && |q.tasks| == |p.tasks| + 1 && q.tasks[..|p.tasks|] == p.tasks && NewTask(q.tasks[|p.tasks|], head)
  {
  }

  lemma FailAdds(p: Pipe, status: nat)
    ensures var q := p.Fail(status); q.parser == p.parser && Kept(p, q) && q.tasks == p.tasks && !Listening(q) && !q.tail.Session?
  {
  }

  lemma WebsocketAdds(s: Settings, p: Pipe, head: RequestHead)
    ensures var q := p.BeginWebsocket(s, head);
      Kept(p, q) && q.tasks == p.tasks && !Listening(q) && (q.tail.Session? ==> q.tail.prologue == p.parser.buffer)
      && (p.parser.Live() ==> q.parser.Live())
  {
    hide Pipe.Fail, Pipe.BeginSession;
    var q := p.(parser := p.parser.(buffer := []));
    SessionAdds(q, p.parser.buffer);
    if s.handshake(head).Some? {
      FailAdds(q, s.handshake(head).value);
    }
  }

  lemma SessionAdds(p: Pipe, prologue: Bytes)
    ensures var q := p.BeginSession(prologue);
      q.parser == p.parser && Kept(p, q) && q.tasks == p.tasks && !Listening(q) && q.tail.Session? && q.tail.prologue == prologue
  {
  }

  lemma PushAdds(s: Settings, p: Pipe, m: Message)
    ensures var q := p.PushChunk(s, m);
      && Kept(p, q) && q.parser == p.parser && q.tail == p.tail && Listening(q) == Listening(p)
      && ChunkPushed(p.tasks, q.tasks, m)
  {
  }

  predicate NewTask(t: Task, head: RequestHead) {
    && t.head == head && t.chunks == [] && t.queue == [] && t.received == []
    && !t.lost && t.repeats == 0 && t.registered && !t.stage.Gone?
  }

  predicate ChunkPushed(tasks: seq<Task>, next: seq<Task>, m: Message) {
    if tasks == [] then next == tasks
    else
      var n := |tasks| - 1;
      next == tasks[n := tasks[n].(queue := tasks[n].queue + [m], chunks := tasks[n].chunks + [m])]
  }

  lemma EventDelivers(s: Settings, p: Pipe, e: Event)
    requires Delivered(p) && !p.disconnected
    ensures Delivered(p.HandleEvent(s, e)) && !p.HandleEvent(s, e).disconnected
  {
    EventAdds(s, p, e);
    var q := p.HandleEvent(s, e);
    hide Pipe.HandleEvent;
    forall i | 0 <= i < |q.tasks| ensures DeliveryOk(q, i) {
      if i < |p.tasks| {
        assert DeliveryOk(p, i);
        if e.BodyChunk? && i == |p.tasks| - 1 {
          var t, m := p.tasks[i], RequestBody(e.data, e.more);
          assert t.received + (t.queue + [m]) == t.received + t.queue + [m];
        }
      }
    }
  }

  lemma {:induction false} AllFollow(s: Settings, p: Pipe, events: seq<Event>)
    requires Follows(p) && Delivered(p) && !p.disconnected
    ensures var q := p.HandleAll(s, events);
      Follows(q) && Delivered(q) && !q.disconnected && q.handled == p.handled + events && q.fed == p.fed
    decreases |events|
  {
    if events == [] {
      assert p.handled + events == p.handled;
    } else {
      EventAdds(s, p, events[0]);
      EventFollows(s, p, events[0]);
      EventDelivers(s, p, events[0]);
      hide Follows, Delivered, Pipe.HandleEvent;
      AllFollow(s, p.HandleEvent(s, events[0]), events[1..]);
      assert p.handled + [events[0]] + events[1..] == p.handled + events;
    }
  }

  /** As long as nothing replaces HTTP, handling events leaves the parser alone; a session
      that begins is handed what the parser still held. */
  lemma {:induction false} ParserStays(s: Settings, p: Pipe, events: seq<Event>)
    requires !p.tail.Session? && UpgradeLast(events)
    ensures var q := p.HandleAll(s, events);
      && (Listening(q) ==> Listening(p) && q.parser == p.parser)
      && (q.tail.Session? ==> q.tail.prologue == p.parser.buffer && exists i :: 0 <= i < |events| && IsUpgrade(events[i]))
    decreases |events|
  {
    hide Pipe.HandleEvent, EventEffect;
    if events != [] {
      EventAdds(s, p, events[0]);
      var q, rest := p.HandleEvent(s, events[0]), events[1..];
      assert forall i :: 0 <= i < |rest| ==> rest[i] == events[i + 1];
      if IsUpgrade(events[0]) {
        assert q.HandleAll(s, rest) == q;
      } else {
        ParserStays(s, q, rest);
      }
    }
  }

  lemma ShapedByMatch(cfg: Config, st: State, shape: Shape)
    requires Matches(cfg, st, shape)
    ensures Shaped(cfg, Render(shape), shape)
  {
    hide Faithful, Render;
  }

  /** While the parser listens, everything it reports has a shape. */
  lemma ShapedEvents(cfg: Config, chunks: seq<Bytes>) returns (shape: Shape)
    ensures Shaped(cfg, FeedAll(cfg, Fresh([]), chunks).events, shape)
  {
    hide *;
    shape := EventsAreExchanges(cfg, chunks);
    ShapedByMatch(cfg, FeedAll(cfg, Fresh([]), chunks).state, shape);
  }

  /** What is kept of a feed that raised still has a shape. */
  lemma KeptEvents(cfg: Config, chunks: seq<Bytes>, data: Bytes) returns (shape: Shape)
    requires FeedAll(cfg, Fresh([]), chunks).error.None?
    ensures var r := FeedAll(cfg, Fresh([]), chunks);
      Shaped(cfg, r.events + CompletedPrefix(Drain(cfg, r.state.Received(data)).events), shape)
  {
    FedLast(cfg, Fresh([]), chunks, data);
    hide *;
    var before := ShapedEvents(cfg, chunks);
    var whole := ShapedEvents(cfg, chunks + [data]);
    var r := FeedAll(cfg, Fresh([]), chunks);
    shape := KeptShape(cfg, r.events, Drain(cfg, r.state.Received(data)).events, before, whole);
  }

  lemma KeptShape(cfg: Config, early: seq<Event>, events: seq<Event>, before: Shape, whole: Shape) returns (shape: Shape)
    requires Shaped(cfg, early, before) && Shaped(cfg, early + events, whole)
    ensures Shaped(cfg, early + CompletedPrefix(events), shape)
  {
    KeptPrefix(early, events);
    hide Shaped, CompletedPrefix;
    var kept := CompletedPrefix(events);
    shape := before;
    if kept != [] {
      shape := CutShape(cfg, early + events, |early| + |kept|, whole);
    }
  }

  /** What is kept is a prefix that ends in a RequestComplete, if it is anything. */
  lemma KeptPrefix(early: seq<Event>, events: seq<Event>)
    ensures var kept, all := CompletedPrefix(events), early + events;
      var n := |early| + |kept|;
      && n <= |all| && all[..n] == early + kept
      && (if kept == [] then early + kept == early else all[n - 1].RequestComplete?)
  {
    var kept := CompletedPrefix(events);
    hide CompletedPrefix;
    assert events[..|kept|] == kept;
  }

  lemma CutShape(cfg: Config, events: seq<Event>, n: nat, whole: Shape) returns (shape: Shape)
    requires Shaped(cfg, events, whole) && 0 < n <= |events| && events[n - 1].RequestComplete?
    ensures Shaped(cfg, events[..n], shape)
  {
    hide ExchangeOk, RenderDone, RenderOpen;
    var k := CutAtComplete(whole.done, whole.open, n);
    shape := Shape(whole.done[..k], Nothing);
    DoneOnly(whole.done[..k]);
  }

  lemma DoneOnly(done: seq<Exchange>)
    ensures Render(Shape(done, Nothing)) == RenderDone(done)
  {
  }

  lemma DataFollows(s: Settings, p: Pipe, data: Bytes)
    requires BodyInv(s, p) && !p.disconnected && p.parser.Live()
    ensures BodyInv(s, p.DataReceived(s, data))
  {
    if Listening(p) {
      var r := Drain(s.parser, p.parser.Received(data));
      hide Drain, BodyInv;
      if r.error.None? {
        GoodDataFollows(s, p, data, r);
      } else {
        BadDataFollows(s, p, data, r, 400);
        BadDataFollows(s, p, data, r, 413);
        TwoErrors(r.error.value);
        hide Pipe.HandleAll, Pipe.Fail;
      }
    } else if p.tail.Session? {
      SessionDataFollows(s, p, data);
    }
  }

  lemma SessionDataFollows(s: Settings, p: Pipe, data: Bytes)
    requires BodyInv(s, p) && p.tail.Session? && p.parser.Live()
    ensures BodyInv(s, p.DataReceived(s, data))
  {
    hide WS.Conn.DataReceived;
    var q := p.DataReceived(s, data);
    InSessionIdle(p, p.Sess().DataReceived(s.session, data), p.tail.pending);
    SameMailDelivered(p, q);
    hide Pipe.DataReceived;
    QuietKeeps(s, p, q);
  }

  lemma GoodDataFollows(s: Settings, p: Pipe, data: Bytes, r: Outcome)
    requires BodyInv(s, p) && Listening(p) && !p.disconnected && p.parser.Live()
    requires r == Drain(s.parser, p.parser.Received(data)) && r.error.None?
    ensures BodyInv(s, p.(parser := r.state, fed := p.fed + [data]).HandleAll(s, r.events))
  {
    var q := p.(parser := r.state, fed := p.fed + [data]);
    FedLast(s.parser, Fresh([]), p.fed, data);
    FollowsSame(p, q);
    var shape := ShapedEvents(s.parser, q.fed);
    DrainUpgradeLast(s.parser, p.parser.Received(data));
    hide FeedAll, Drain, Follows, Delivered, Shaped, Pipe.HandleAll;
    AllFollow(s, q, r.events);
    ParserStays(s, q, r.events);
  }

  lemma FailFollows(p: Pipe, status: nat)
    requires Follows(p) && Delivered(p)
    ensures Follows(p.Fail(status)) && Delivered(p.Fail(status)) && !Listening(p.Fail(status)) && !p.Fail(status).tail.Session?
    ensures p.Fail(status).fed == p.fed && p.Fail(status).handled == p.handled
  {
    FollowsSame(p, p.Fail(status));
  }

  lemma BadDataFollows(s: Settings, p: Pipe, data: Bytes, r: Outcome, status: nat)
    requires BodyInv(s, p) && Listening(p) && !p.disconnected && p.parser.Live()
    requires r == Drain(s.parser, p.parser.Received(data)) && r.error.Some?
    ensures BodyInv(s, p.(parser := r.state, fed := p.fed + [data]).HandleAll(s, CompletedPrefix(r.events)).Fail(status))
  {
    var q, kept := p.(parser := r.state, fed := p.fed + [data]), CompletedPrefix(r.events);
    FedLast(s.parser, Fresh([]), p.fed, data);
    FollowsSame(p, q);
    var shape := KeptEvents(s.parser, p.fed, data);
    hide FeedAll, Drain, Follows, Delivered, Shaped, Pipe.HandleAll, CompletedPrefix;
    AllFollow(s, q, kept);
    FailFollows(q.HandleAll(s, kept), status);
    hide Pipe.Fail;
  }

  lemma TwoErrors(e: Error)
    ensures e == MalformedRequest || e == RequestTooLarge
  {
  }

  lemma FollowsSame(p: Pipe, q: Pipe)
    requires Follows(p) && Delivered(p)
    requires q.tasks == p.tasks && q.handled == p.handled && q.disconnected == p.disconnected
    ensures Follows(q) && Delivered(q)
  {
    forall i | 0 <= i < |q.tasks| ensures DeliveryOk(q, i) {
      assert DeliveryOk(p, i);
    }
  }

  // ---- whole runs

  lemma MailDelivers(s: Settings, p: Pipe, op: Op)
    requires Delivered(p) && (p.disconnected ==> p.closed) && Enabled(p, op) && p.parser.Live() && IsMail(op)
    ensures Quiet(p, Perform(s, p, op)) && Delivered(Perform(s, p, op))
  {
    hide Delivered, Quiet, Pipe.Receive, Pipe.TaskDone, Pipe.Lost;
    match op {
      case Receive(i) =>
        ReceiveDelivers(s, p, i);
        ReceiveQuiet(s, p, i);
      case TaskDone(i) =>
        TaskDoneDelivers(p, i);
        TaskDoneQuiet(p, i);
      case ConnectionLost =>
        LostDelivers(p);
        LostQuiet(p);
    }
  }

  lemma PerformFollows(s: Settings, p: Pipe, op: Op)
    requires BodyInv(s, p) && Enabled(p, op) && p.parser.Live()
    ensures BodyInv(s, Perform(s, p, op))
  {
    if op.Data? {
      DataFollows(s, p, op.data);
    } else {
      var q := Perform(s, p, op);
      hide Perform;
      if IsMail(op) {
        MailDelivers(s, p, op);
      } else {
        StepIdle(s, p, op);
        SameMailDelivered(p, q);
      }
      hide Quiet, Delivered;
      QuietKeeps(s, p, q);
    }
  }

  lemma {:induction false} RunFollows(s: Settings, p: Pipe, ops: seq<Op>, q: Pipe)
    requires BodyInv(s, p) && Reaches(s, p, ops, q)
    ensures BodyInv(s, q)
    decreases |ops|
  {
    hide BodyInv, Perform, Enabled;
    if ops != [] {
      PerformFollows(s, p, ops[0]);
      RunFollows(s, Perform(s, p, ops[0]), ops[1..], q);
    }
  }

  lemma ConnectedFollows(s: Settings)
    ensures BodyInv(s, Connected())
  {
    var empty := Shape([], Nothing);
    assert Render(empty) == [];
    assert Shaped(s.parser, [], empty);
  }

  /** What `receive()` has returned so far, and what it will return next. */
  function Mail(t: Task): seq<Message> {
    t.received + t.queue
  }

  /** Body isolation, for any number of pipelined requests and any interleaving. The events
      acted on are what the parser reported on the octets fed, as whole exchanges and at
      most one open request. Request by request, the application has received, or has
      queued, exactly the chunks of its own request in order, then at most one disconnect
      for the lost connection, then only repeats of it once the queue is empty. */
  lemma BodiesAreIsolated(s: Settings, ops: seq<Op>, p: Pipe) returns (shape: Shape)
    requires Reaches(s, Connected(), ops, p)
    ensures Shaped(s.parser, p.handled, shape) && |p.tasks| == |Requests(shape)|
    ensures p.handled <= FeedAll(s.parser, Fresh([]), p.fed).events
    ensures FeedAll(s.parser, Fresh([]), p.fed).error.None? ==> p.handled == FeedAll(s.parser, Fresh([]), p.fed).events
    ensures forall i :: 0 <= i < |p.tasks| ==>
      var t := p.tasks[i];
      && t.head == Requests(shape)[i].head
      && Mail(t) == Requests(shape)[i].body + Ending(t)
      && (t.lost ==> p.disconnected)
      && (t.repeats > 0 ==> t.lost && t.queue == [])
  {
    hide Perform, Enabled, Reaches;
    ConnectedFollows(s);
    RunFollows(s, Connected(), ops, p);
    shape :| Shaped(s.parser, p.handled, shape);
    RequestsOfShape(shape);
    hide FeedAll, AddAll, Requests, Render, ExchangeOk;
    forall i | 0 <= i < |p.tasks|
      ensures Matched(p.tasks[i], Requests(shape)[i]) && DeliveryOk(p, i)
    {
    }
  }

  // ---- the hand-over to a session

  function Feeds(chunks: seq<Bytes>): (ops: seq<HttpHandOff.Op>)
    ensures |ops| == |chunks|
    ensures forall i :: 0 <= i < |chunks| ==> ops[i] == HttpHandOff.Feed(chunks[i])
  {
    seq(|chunks|, i requires 0 <= i < |chunks| => HttpHandOff.Feed(chunks[i]))
  }

  lemma {:induction false} FeedsPlayed(cfg: Config, chunks: seq<Bytes>)
    requires FeedAll(cfg, Fresh([]), chunks).error.None?
    ensures HttpHandOff.PlayAll(cfg, Feeds(chunks)) ==
      HttpHandOff.Life(FeedAll(cfg, Fresh([]), chunks).state, Join(chunks), [], None)
    decreases |chunks|
  {
    hide FeedAll, Drain, Join;
    if chunks == [] {
      NothingFed(cfg);
    } else {
      var n := |chunks| - 1;
      FedBefore(cfg, Fresh([]), chunks);
      FeedsPlayed(cfg, chunks[..n]);
      FedLast(cfg, Fresh([]), chunks[..n], chunks[n]);
      assert chunks[..n] + [chunks[n]] == chunks;
      JoinLast(chunks[..n], chunks[n]);
      assert Feeds(chunks)[..n] == Feeds(chunks[..n]);
    }
  }

  lemma NothingFed(cfg: Config)
    ensures FeedAll(cfg, Fresh([]), []) == Outcome(Fresh([]), [], None, false) && Join([]) == []
  {
  }

  lemma {:induction false} FedBefore(cfg: Config, st: State, chunks: seq<Bytes>)
    requires st.Live() && chunks != [] && FeedAll(cfg, st, chunks).error.None?
    ensures FeedAll(cfg, st, chunks[..|chunks| - 1]).error.None?
    decreases |chunks|
  {
    hide Drain;
    if |chunks| > 1 {
      var rest := chunks[1..];
      FedBefore(cfg, Drain(cfg, st.Received(chunks[0])).state, rest);
      assert chunks[..|chunks| - 1][1..] == rest[..|rest| - 1];
    }
  }

  /** The websocket session starts with exactly the octets behind the blank line of its
      handshake, in whatever pieces they and the requests before it arrived. */
  lemma SessionGetsTheRest(s: Settings, ops: seq<Op>, p: Pipe) returns (n: nat)
    requires Reaches(s, Connected(), ops, p) && p.tail.Session?
    ensures n <= |Join(p.fed)| && Join(p.fed)[n..] == p.tail.prologue
    ensures HttpHandOff.EndsHead(Join(p.fed)[..n])
  {
    hide Perform, Enabled, Reaches;
    ConnectedFollows(s);
    RunFollows(s, Connected(), ops, p);
    FeedsPlayed(s.parser, p.fed);
    hide *;
    n := HttpHandOff.HandOffLosesNothing(s.parser, Feeds(p.fed));
    assert [] + p.tail.prologue == p.tail.prologue;
  }
}
