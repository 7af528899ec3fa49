/** The connection bridge: pipelined requests, one application task each, a queue of body
    messages for each, the chain of turns that orders their writes, and behind the last request
    perhaps a websocket session on the same transport.
    Each step is one event-loop callback or one stretch of a task between two awaits. */
module Pipeline {
  import opened Bytes
  import opened Wrappers
  import opened HttpParsing
  import opened HttpExchanges
  import WS = WsSession
  import Utf8

  /** `handshake` is the verdict on a websocket head: None when it is valid, else the status.
      Reading pauses and resumes at the two marks on a queue's length. */
  datatype Settings = Settings(parser: Config, handshake: RequestHead -> Option<nat>, pauseMark: nat, resumeMark: nat,
    session: WS.Settings)

  /** What `receive()` hands to an application. */
  datatype Message = RequestBody(body: Bytes, more: bool) | HttpDisconnect

  /** What one write puts on the wire: a response head or a body part of request `task`, the
      error response, the timeout response, or what the websocket session writes. */
  datatype WireItem =
    | ResponseHead(task: nat, status: int, close: bool)
    | ResponseBody(task: nat, data: Bytes)
    | FailureResponse(status: int)
    | TimeoutResponse
    | SessionWrite(item: WS.WireItem)

  /** Where a task is: running between awaits, waiting inside `send` for its turn or for the
      write buffer to drain, ended with its callback still to come, or gone. */
  datatype Stage =
    | Running
    | AwaitTurn(status: int)
    | Draining(more: bool)
    | Returned
    | Erred
    | Cancelled
    | Gone

  /** One request. `turn` and `done` name events; `sent`, `chunks` and `received` are history:
      what passed its turn towards the wire, the body chunks pushed, what was received. */
  datatype Task = Task(
    head: RequestHead, turn: nat, done: nat, stage: Stage, started: bool, close: bool, complete: bool,
    queue: seq<Message>, registered: bool, lost: bool,
    sent: seq<WireItem>, chunks: seq<Message>, received: seq<Message>, repeats: nat)
  {
    predicate Ended() {
      stage.Returned? || stage.Erred? || stage.Cancelled? || stage.Gone?
    }

    /** The first message off the queue, or the disconnect again. */
    function Taken(): Task {
      if queue == [] then this.(received := received + [HttpDisconnect], repeats := repeats + 1)
      else this.(received := received + [queue[0]], queue := queue[1..])
    }

    /** The disconnect message of a lost connection. */
    function Disconnected(): Task {
      if registered then this.(queue := queue + [HttpDisconnect], lost := true) else this
    }
  }

  /** What the session's application waits for its turn with, inside `send`. */
  datatype Pending = NoPending | AcceptPending(subprotocol: Option<Utf8.Text>) | DenyPending

  /** What comes behind the last request: an error response, or a websocket session, whose
      `prologue` is what the parser had read beyond the handshake. Of the session's own flags only
      `appDone` counts; the others are the connection's. */
  datatype Tail =
    | NoTail
    | Failing(turn: nat, status: nat, written: bool)
    | Session(turn: nat, prologue: Bytes, conn: WS.Conn, pending: Pending)
    | TimedOut

  /** What a session wrote, as items of the connection's wire. */
  function Items(written: seq<WS.WireItem>): (r: seq<WireItem>)
    ensures |r| == |written|
    ensures forall i :: 0 <= i < |r| ==> r[i] == SessionWrite(written[i])
  {
    seq(|written|, i requires 0 <= i < |written| => SessionWrite(written[i]))
  }

  /** What it wrote since it had written `before`. */
  function NewItems(before: seq<WS.WireItem>, written: seq<WS.WireItem>): seq<WireItem> {
    if |before| <= |written| then Items(written[|before|..]) else []
  }

  /** The connection. `fired` are the turns that are open. `fed` and `handled` are history:
      what the parser was fed, and the events it reported that were acted on. */
  datatype Pipe = Pipe(
    parser: State,
    closed: bool, disconnected: bool, closing: bool, gotFirstHead: bool, timerArmed: bool, shouldExit: bool,
    pausedWriting: bool, readingPaused: bool,
    turnstile: nat, nextEvent: nat, fired: set<nat>,
    tasks: seq<Task>, tail: Tail,
    wire: seq<WireItem>, fed: seq<Bytes>, handled: seq<Event>)
  {
    /** Write unless the transport is closing. */
    function Write(item: WireItem): Pipe {
      if closing then this else this.(wire := wire + [item])
    }

    function WithTask(i: nat, t: Task): Pipe
      requires i < |tasks|
    {
      this.(tasks := tasks[i := t])
    }

    /** `_begin_request`: the new task waits for the turnstile's event and leaves its own
        in its place. */
    function BeginRequest(head: RequestHead): Pipe {
      this.(tasks := tasks + [Task(head, turnstile, nextEvent, Running, false, false, false, [], true, false, [], [], [], 0)],
            turnstile := nextEvent, nextEvent := nextEvent + 1)
    }

    /** `_fail`, `_fail_handshake` and `_reject_upgrade`: no more input, and a response that
        waits for its turn. */
    function Fail(status: nat): Pipe {
      this.(closed := true, timerArmed := false, tail := Failing(turnstile, status, false))
    }

    /** `_begin_websocket`: a session, or a refusal, takes the turn behind the last request. */
    function BeginWebsocket(s: Settings, head: RequestHead): Pipe {
      var p := this.(parser := parser.(buffer := []));
      match s.handshake(head)
      case Some(status) => p.Fail(status)
      case None => p.BeginSession(parser.buffer)
    }

    function BeginSession(prologue: Bytes): Pipe {
      this.(tail := Session(turnstile, prologue, WS.Begin(prologue), NoPending), turnstile := nextEvent, nextEvent := nextEvent + 1, readingPaused := true)
    }

    /** `_push_body_chunk`: onto the queue of the request whose head came last. */
    function PushChunk(s: Settings, m: Message): Pipe {
      if tasks == [] then this
      else
        var i := |tasks| - 1;
        var t := tasks[i];
        WithTask(i, t.(queue := t.queue + [m], chunks := t.chunks + [m]))
          .(readingPaused := readingPaused || |t.queue| + 1 >= s.pauseMark)
    }

    /** The part of `_handle_event` about a head. */
    function HandleHead(s: Settings, head: RequestHead): Pipe {
      var p := this.(gotFirstHead := true, timerArmed := false);
      if head.upgrade.None? then p.BeginRequest(head)
      else if head.upgrade.value == WEBSOCKET then p.BeginWebsocket(s, head)
      else p.Fail(501)
    }

    /** `_handle_event`. */
    function HandleEvent(s: Settings, e: Event): Pipe {
      var p := this.(handled := handled + [e]);
      match e
      case HeadComplete(head) => p.HandleHead(s, head)
      case BodyChunk(data, more) => p.PushChunk(s, RequestBody(data, more))
      case RequestComplete => p
    }

    function HandleAll(s: Settings, events: seq<Event>): Pipe
      decreases |events|
    {
      if events == [] then this else HandleEvent(s, events[0]).HandleAll(s, events[1..])
    }

    /** `data_received`. Once a session has begun, octets go to its frame decoder instead, and
        what that writes does not wait for the session's turn. */
    function DataReceived(s: Settings, data: Bytes): Pipe
      requires parser.Live()
    {
      if tail.Session? then InSession(Sess().DataReceived(s.session, data), tail.pending)
      else if closed then this
      else
        var r := Drain(s.parser, parser.Received(data));
        var p := this.(parser := r.state, fed := fed + [data]);
        match r.error
        case None => p.HandleAll(s, r.events)
        case Some(MalformedRequest) => p.HandleAll(s, CompletedPrefix(r.events)).Fail(400)
        case Some(RequestTooLarge) => p.HandleAll(s, CompletedPrefix(r.events)).Fail(413)
    }

    /** `send` of a response head: decide on closing, then write at once if the turn is open. */
    function SendStart(i: nat, status: int, headersOk: bool, declaresLength: bool): Pipe
      requires i < |tasks|
    {
      var t := tasks[i];
      if t.started then WithTask(i, t.(stage := Erred))
      else if !headersOk then WithTask(i, t.(started := true, stage := Erred))
      else
        var close := ClientRequestedClose(t.head) || !declaresLength || shouldExit;
        var p := WithTask(i, t.(started := true, close := close, stage := AwaitTurn(status)));
        if t.turn in fired then p.TurnArrives(i) else p
    }

    /** The wait for the turn is over: the head passes, and is written unless closing. */
    function TurnArrives(i: nat): Pipe
      requires i < |tasks| && tasks[i].stage.AwaitTurn?
    {
      var t := tasks[i];
      var item := ResponseHead(i, t.stage.status, t.close);
      WithTask(i, t.(stage := Running, sent := t.sent + [item])).Write(item)
    }

    /** `send` of a body part. */
    function SendBody(i: nat, data: Bytes, more: bool): Pipe
      requires i < |tasks|
    {
      var t := tasks[i];
      if !t.started then WithTask(i, t.(stage := Erred))
      else if data == [] then FinishBody(i, more)
      else
        var item := ResponseBody(i, data);
        var p := WithTask(i, t.(sent := t.sent + [item])).Write(item);
        if pausedWriting && !closing then p.WithTask(i, p.tasks[i].(stage := Draining(more)))
        else p.FinishBody(i, more)
    }

    /** Behind the drain: the last part opens the next turn and may close the connection. */
    function FinishBody(i: nat, more: bool): Pipe
      requires i < |tasks|
    {
      var t := tasks[i].(stage := Running);
      if more then WithTask(i, t)
      else
        WithTask(i, t.(complete := true)).(fired := fired + {t.done}, closing := closing || t.close)
    }

    /** `_on_task_done`. */
    function TaskDone(i: nat): Pipe
      requires i < |tasks|
    {
      var t := tasks[i];
      WithTask(i, t.(stage := Gone, registered := false)).(fired := fired + {t.done}, closing := closing || t.stage.Erred?)
    }

    /** `receive()`, once it has something to return. */
    function Receive(s: Settings, i: nat): Pipe
      requires i < |tasks| && (tasks[i].queue != [] || disconnected)
    {
      var t := tasks[i];
      WithTask(i, t.Taken()).(readingPaused := readingPaused && (t.queue == [] || |t.queue| - 1 > s.resumeMark))
    }

    /** `_write_failure_response`, once its turn is open. */
    function WriteFailure(): Pipe
      requires tail.Failing?
    {
      var p := this.(tail := tail.(written := true));
      if closing then p else p.Write(FailureResponse(tail.status)).(closing := true)
    }

    // ---- the session

    /** The session as it is now: the transport's flags are shared. */
    function Sess(): WS.Conn
      requires tail.Session?
    {
      tail.conn.(link := WS.Link(closed, disconnected, closing, readingPaused, tail.conn.link.appDone, None))
    }

    /** A step that made d of the session. */
    function InSession(d: WS.Conn, pending: Pending): Pipe
      requires tail.Session?
    {
      this.(tail := tail.(conn := d, pending := pending), closing := d.link.closing, readingPaused := d.link.paused,
            wire := wire + NewItems(tail.conn.hist.wire, d.hist.wire))
    }

    /** `send()` of the session's application. Accepting and denying wait for the turn. */
    function SessionSend(s: Settings, m: WS.AppMessage): Pipe
      requires tail.Session?
    {
      if tail.conn.wsState == Some(WS.Connecting) && m.Accept? && m.headersOk then
        this.(tail := tail.(pending := AcceptPending(m.subprotocol))).TakeTurn(s)
      else if tail.conn.wsState == Some(WS.Connecting) && m.CloseMessage? then
        InSession(Sess().StartDeny(), DenyPending).TakeTurn(s)
      else InSession(Sess().Send(s.session, m).conn, NoPending)
    }

    function TakeTurn(s: Settings): Pipe
      requires tail.Session?
    {
      if tail.turn in fired then SessionTurn(s) else this
    }

    /** `_ws_accept` or `_ws_deny` behind its wait; neither looks at the state again. */
    function SessionTurn(s: Settings): Pipe
      requires tail.Session?
    {
      match tail.pending
      case NoPending => this
      case AcceptPending(subprotocol) => InSession(Sess().DoAccept(s.session, subprotocol, true).conn, NoPending)
      case DenyPending => InSession(Sess().EndDeny(), NoPending)
    }

    /** `_on_head_timeout`. */
    function HeadTimeout(): Pipe {
      if gotFirstHead || closing then this.(timerArmed := false)
      else
        this.(timerArmed := false, closed := true, closing := true, tail := TimedOut,
              wire := wire + [TimeoutResponse])
    }

    /** `connection_lost`. */
    function Lost(): Pipe {
      this.(closed := true, disconnected := true, closing := true, timerArmed := false,
            tasks := LoseAll(tasks), tail := LostTail())
    }

    function LostTail(): Tail {
      if tail.Session? then tail.(conn := Sess().Lost()) else tail
    }
  }

  // websocket, close, keep-alive
  const WEBSOCKET: Bytes := [119, 101, 98, 115, 111, 99, 107, 101, 116]
  const CLOSE: Bytes := [99, 108, 111, 115, 101]
  const KEEP_ALIVE: Bytes := [107, 101, 101, 112, 45, 97, 108, 105, 118, 101]

  /** `_client_requested_close`. */
  predicate ClientRequestedClose(head: RequestHead) {
    var tokens := AllTokens(Values(head.headers, CONNECTION));
    CLOSE in tokens || (head.line.version == Http10 && KEEP_ALIVE !in tokens)
  }

  /** Every registered queue gets its disconnect. */
  function LoseAll(tasks: seq<Task>): (r: seq<Task>)
    ensures |r| == |tasks|
    ensures forall i :: 0 <= i < |tasks| ==> r[i] == tasks[i].Disconnected()
  {
    seq(|tasks|, i requires 0 <= i < |tasks| => tasks[i].Disconnected())
  }

  /** `connection_made`. Event 0 is set from the start. */
  function Connected(): Pipe {
    Pipe(Fresh([]), false, false, false, false, true, false, false, false, 0, 1, {0}, [], NoTail, [], [], [])
  }

  datatype Op =
    | Data(data: Bytes)
    | SendStart(task: nat, status: int, headersOk: bool, declaresLength: bool)
    | TurnArrives(task: nat)
    | SendBody(task: nat, data: Bytes, more: bool)
    | DrainDone(task: nat)
    | SendUnknown(task: nat)
    | Receive(task: nat)
    | Raise(task: nat)
    | Return(task: nat)
    | Cancel(task: nat)
    | TaskDone(task: nat)
    | WriteFailure
    | SessionSend(message: WS.AppMessage)
    | SessionTurn
    | SessionReceive
    | SessionPing(payload: Bytes)
    | SessionShutdown
    | SessionDone(raised: bool)
    | HeadTimeout
    | ShutdownBegins
    | PauseWriting(paused: bool)
    | LosingTransport
    | ConnectionLost

  /** The session's application task is there. */
  predicate InApp(p: Pipe) {
    p.tail.Session? && !p.tail.conn.link.appDone
  }

  predicate IsRunning(p: Pipe, i: nat) {
    i < |p.tasks| && p.tasks[i].stage.Running?
  }

  /** When each step may happen. Octets arrive only while reading is not paused and the transport
      is not closing. The demands on applications are here: each send is awaited (a task inside
      `send` sends nothing else, though it may receive), nothing is sent behind the last body part
      or behind a send that failed, and a task returns only with its response complete. */
  predicate Enabled(p: Pipe, op: Op) {
    match op
    case Data(_) => !p.disconnected && !p.readingPaused && !p.closing
    case SendStart(i, _, _, _) => IsRunning(p, i) && !p.tasks[i].complete
    case TurnArrives(i) => i < |p.tasks| && p.tasks[i].stage.AwaitTurn? && p.tasks[i].turn in p.fired
    case SendBody(i, _, _) => IsRunning(p, i) && !p.tasks[i].complete
    case DrainDone(i) => i < |p.tasks| && p.tasks[i].stage.Draining?
    case SendUnknown(i) => IsRunning(p, i)
    case Receive(i) => i < |p.tasks| && !p.tasks[i].Ended() && (p.tasks[i].queue != [] || p.disconnected)
    case Raise(i) => i < |p.tasks| && !p.tasks[i].Ended()
    case Return(i) => IsRunning(p, i) && p.tasks[i].complete
    case Cancel(i) => i < |p.tasks| && p.disconnected && !p.tasks[i].Ended()
    case TaskDone(i) => i < |p.tasks| && p.tasks[i].Ended() && !p.tasks[i].stage.Gone?
    case WriteFailure => p.tail.Failing? && !p.tail.written && p.tail.turn in p.fired
    case SessionSend(_) => InApp(p) && p.tail.pending.NoPending?
    case SessionTurn => InApp(p) && !p.tail.pending.NoPending? && p.tail.turn in p.fired
    case SessionReceive => InApp(p) && p.Sess().CanReceive()
    case SessionPing(payload) => p.tail.Session? && p.tail.conn.pingArmed && |payload| == 4
    case SessionShutdown => p.tail.Session?
    case SessionDone(_) => InApp(p)
    case HeadTimeout => p.timerArmed
    case ConnectionLost => !p.disconnected
    case _ => true
  }

  /** A step of a request's task. */
  predicate IsTaskOp(op: Op) {
    || op.SendStart? || op.TurnArrives? || op.SendBody? || op.DrainDone? || op.SendUnknown?
    || op.Receive? || op.Raise? || op.Return? || op.Cancel? || op.TaskDone?
  }

  predicate IsSessionOp(op: Op) {
    op.SessionSend? || op.SessionTurn? || op.SessionReceive? || op.SessionPing? || op.SessionShutdown? || op.SessionDone?
  }

  function TaskPerform(s: Settings, p: Pipe, op: Op): Pipe
    requires Enabled(p, op) && IsTaskOp(op)
  {
    match op
    case SendStart(i, status, headersOk, declaresLength) => p.SendStart(i, status, headersOk, declaresLength)
    case TurnArrives(i) => p.TurnArrives(i)
    case SendBody(i, data, more) => p.SendBody(i, data, more)
    case DrainDone(i) => p.FinishBody(i, p.tasks[i].stage.more)
    case SendUnknown(i) => p.WithTask(i, p.tasks[i].(stage := Erred))
    case Receive(i) => p.Receive(s, i)
    case Raise(i) => p.WithTask(i, p.tasks[i].(stage := Erred))
    case Return(i) => p.WithTask(i, p.tasks[i].(stage := Returned))
    case Cancel(i) => p.WithTask(i, p.tasks[i].(stage := Cancelled))
    case TaskDone(i) => p.TaskDone(i)
  }

  function SessionPerform(s: Settings, p: Pipe, op: Op): Pipe
    requires Enabled(p, op) && IsSessionOp(op)
  {
    match op
    case SessionSend(m) => p.SessionSend(s, m)
    case SessionTurn => p.SessionTurn(s)
    case SessionReceive => p.InSession(p.Sess().AfterReceive(s.session), p.tail.pending)
    case SessionPing(payload) => p.InSession(p.Sess().PingDue(s.session, payload), p.tail.pending)
    case SessionShutdown => p.InSession(p.Sess().Shutdown(), p.tail.pending)
    case SessionDone(raised) => p.InSession(p.Sess().TaskDone(raised), NoPending)
  }

  function ConnectionPerform(p: Pipe, op: Op): Pipe
    requires Enabled(p, op) && !op.Data? && !IsTaskOp(op) && !IsSessionOp(op)
  {
    match op
    case WriteFailure => p.WriteFailure()
    case HeadTimeout => p.HeadTimeout()
    case ShutdownBegins => p.(shouldExit := true)
    case PauseWriting(paused) => p.(pausedWriting := paused)
    case LosingTransport => p.(closing := true)
    case ConnectionLost => p.Lost()
  }

  function Perform(s: Settings, p: Pipe, op: Op): Pipe
    requires Enabled(p, op) && p.parser.Live()
  {
    if op.Data? then p.DataReceived(s, op.data)
    else if IsTaskOp(op) then TaskPerform(s, p, op)
    else if IsSessionOp(op) then SessionPerform(s, p, op)
    else ConnectionPerform(p, op)
  }
}
