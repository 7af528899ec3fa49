/** A websocket session behind pipelined requests. It shares the transport with them, and what
    it reads is not held back by its turn: here is exactly when that disturbs the wire or the
    order in which octets are decoded. Beside it, the error response. */
module PipelineSessions {
  import opened Bytes
  import opened Wrappers
  import opened HttpParsing
  import opened HttpExchanges
  import opened Pipeline
  import opened PipelineTurns
  import opened PipelineBodies
  import WS = WsSession

  // ---- what steps add to the wire

  /** Nothing that any step but one adds is an error response; sessions and refusals stay. */
  predicate Adds(p: Pipe, q: Pipe) {
    && p.wire <= q.wire && (forall i :: |p.wire| <= i < |q.wire| ==> !q.wire[i].FailureResponse?)
    && (p.tail.Session? ==> q.tail.Session?) && (p.tail.Failing? ==> q.tail.Failing?)
  }

  lemma AddsTwice(p: Pipe, q: Pipe, r: Pipe)
    requires Adds(p, q) && Adds(q, r)
    ensures Adds(p, r)
  {
  }

  lemma TaskAdds(p: Pipe, i: nat, t: Task, item: WireItem)
    requires i < |p.tasks| && !item.FailureResponse?
    ensures Adds(p, p.WithTask(i, t)) && Adds(p, p.WithTask(i, t).Write(item))
  {
  }

  lemma FinishAdds(p: Pipe, i: nat, more: bool)
    requires i < |p.tasks|
    ensures Adds(p, p.FinishBody(i, more)) && Adds(p, p.TaskDone(i))
  {
  }

  lemma TurnAdds(p: Pipe, i: nat)
    requires i < |p.tasks| && p.tasks[i].stage.AwaitTurn?
    ensures Adds(p, p.TurnArrives(i))
  {
    hide Adds;
    var t := p.tasks[i];
    var item := ResponseHead(i, t.stage.status, t.close);
    TaskAdds(p, i, t.(stage := Running, sent := t.sent + [item]), item);
  }

  lemma HeadAdds(p: Pipe, i: nat, status: int, headersOk: bool, declaresLength: bool)
    requires i < |p.tasks|
    ensures Adds(p, p.SendStart(i, status, headersOk, declaresLength))
  {
    hide Adds, ClientRequestedClose, Pipe.TurnArrives;
    var t := p.tasks[i];
    if t.started {
      TaskAdds(p, i, t.(stage := Erred), TimeoutResponse);
    } else if !headersOk {
      TaskAdds(p, i, t.(started := true, stage := Erred), TimeoutResponse);
    } else {
      var close := ClientRequestedClose(t.head) || !declaresLength || p.shouldExit;
      WaitAdds(p, i, t.(started := true, close := close, stage := AwaitTurn(status)));
    }
  }

  lemma WaitAdds(p: Pipe, i: nat, t: Task)
    requires i < |p.tasks| && t.stage.AwaitTurn?
    ensures Adds(p, p.WithTask(i, t)) && Adds(p, p.WithTask(i, t).TurnArrives(i))
  {
    hide Adds, Pipe.TurnArrives;
    TaskAdds(p, i, t, TimeoutResponse);
    TurnAdds(p.WithTask(i, t), i);
    AddsTwice(p, p.WithTask(i, t), p.WithTask(i, t).TurnArrives(i));
  }

  lemma BodyAdds(p: Pipe, i: nat, data: Bytes, more: bool)
    requires i < |p.tasks|
    ensures Adds(p, p.SendBody(i, data, more))
  {
    hide Adds, Pipe.FinishBody;
    var t := p.tasks[i];
    if !t.started {
      TaskAdds(p, i, t.(stage := Erred), TimeoutResponse);
    } else if data == [] {
      FinishAdds(p, i, more);
    } else {
      var item := ResponseBody(i, data);
      var q := p.WithTask(i, t.(sent := t.sent + [item])).Write(item);
      TaskAdds(p, i, t.(sent := t.sent + [item]), item);
      if p.pausedWriting && !p.closing {
        TaskAdds(q, i, q.tasks[i].(stage := Draining(more)), TimeoutResponse);
        AddsTwice(p, q, q.WithTask(i, q.tasks[i].(stage := Draining(more))));
      } else {
        FinishAdds(q, i, more);
        AddsTwice(p, q, q.FinishBody(i, more));
      }
    }
  }

  lemma InSessionAdds(p: Pipe, d: WS.Conn, pending: Pending)
    requires p.tail.Session?
    ensures Adds(p, p.InSession(d, pending)) && p.InSession(d, pending).tail.Session?
  {
  }

  lemma SessionTurnAdds(s: Settings, p: Pipe)
    requires p.tail.Session?
    ensures Adds(p, p.SessionTurn(s)) && Adds(p, p.TakeTurn(s))
  {
    hide Pipe.InSession, WS.Conn.DoAccept, WS.Conn.EndDeny;
    match p.tail.pending {
      case NoPending =>
      case AcceptPending(subprotocol) =>
        InSessionAdds(p, p.Sess().DoAccept(s.session, subprotocol, true).conn, NoPending);
      case DenyPending => InSessionAdds(p, p.Sess().EndDeny(), NoPending);
    }
  }

  lemma SessionSendAdds(s: Settings, p: Pipe, m: WS.AppMessage)
    requires p.tail.Session?
    ensures Adds(p, p.SessionSend(s, m))
  {
    hide Pipe.TakeTurn, Pipe.InSession, WS.Conn.Send, WS.Conn.StartDeny;
    if p.tail.conn.wsState == Some(WS.Connecting) && m.Accept? && m.headersOk {
      var q := p.(tail := p.tail.(pending := AcceptPending(m.subprotocol)));
      SessionTurnAdds(s, q);
    } else if p.tail.conn.wsState == Some(WS.Connecting) && m.CloseMessage? {
      var q := p.InSession(p.Sess().StartDeny(), DenyPending);
      InSessionAdds(p, p.Sess().StartDeny(), DenyPending);
      SessionTurnAdds(s, q);
      AddsTwice(p, q, q.TakeTurn(s));
    } else {
      InSessionAdds(p, p.Sess().Send(s.session, m).conn, NoPending);
    }
  }

  lemma SessionStepAdds(s: Settings, p: Pipe, op: Op)
    requires Enabled(p, op) && IsSessionOp(op)
    ensures Adds(p, SessionPerform(s, p, op))
  {
    hide Adds, Pipe.SessionSend, Pipe.SessionTurn, Pipe.InSession;
    hide WS.Conn.AfterReceive, WS.Conn.PingDue, WS.Conn.Shutdown, WS.Conn.TaskDone;
    match op {
      case SessionSend(m) => SessionSendAdds(s, p, m);
      case SessionTurn => SessionTurnAdds(s, p);
      case SessionReceive => InSessionAdds(p, p.Sess().AfterReceive(s.session), p.tail.pending);
      case SessionPing(payload) => InSessionAdds(p, p.Sess().PingDue(s.session, payload), p.tail.pending);
      case SessionShutdown => InSessionAdds(p, p.Sess().Shutdown(), p.tail.pending);
      case SessionDone(raised) => InSessionAdds(p, p.Sess().TaskDone(raised), NoPending);
    }
  }

  lemma {:induction false} HandleAllWire(s: Settings, p: Pipe, events: seq<Event>)
    ensures p.HandleAll(s, events).wire == p.wire
    decreases |events|
  {
    if events != [] {
      EventAdds(s, p, events[0]);
      hide Pipe.HandleEvent, EventEffect;
      HandleAllWire(s, p.HandleEvent(s, events[0]), events[1..]);
    }
  }

  lemma DataAdds(s: Settings, p: Pipe, data: Bytes)
    requires Inv(false, p) && p.parser.Live()
    ensures Adds(p, p.DataReceived(s, data))
  {
    if p.tail.Session? {
      hide WS.Conn.DataReceived, Pipe.InSession;
      InSessionAdds(p, p.Sess().DataReceived(s.session, data), p.tail.pending);
    } else if !p.closed {
      NotYetTailed(false, p);
      hide Inv;
      RequestDataWire(s, p, data);
    }
  }

  lemma RequestDataWire(s: Settings, p: Pipe, data: Bytes)
    requires p.tail.NoTail? && p.parser.Live()
    ensures p.DataReceived(s, data).wire == p.wire
  {
    hide Drain, CompletedPrefix, Pipe.HandleAll, Pipe.InSession, Pipe.Sess;
    var r := Drain(s.parser, p.parser.Received(data));
    var q := p.(parser := r.state, fed := p.fed + [data]);
    HandleAllWire(s, q, r.events);
    HandleAllWire(s, q, CompletedPrefix(r.events));
  }

  lemma TaskStepAdds(s: Settings, p: Pipe, op: Op)
    requires Enabled(p, op) && IsTaskOp(op)
    ensures Adds(p, TaskPerform(s, p, op))
  {
    hide Adds, Pipe.SendStart, Pipe.TurnArrives, Pipe.SendBody, Pipe.FinishBody, Pipe.TaskDone;
    match op {
      case SendStart(i, status, headersOk, declaresLength) => HeadAdds(p, i, status, headersOk, declaresLength);
      case TurnArrives(i) => TurnAdds(p, i);
      case SendBody(i, data, more) => BodyAdds(p, i, data, more);
      case DrainDone(i) => FinishAdds(p, i, p.tasks[i].stage.more);
      case TaskDone(i) => FinishAdds(p, i, true);
      case Receive(i) => ReceiveAdds(s, p, i);
      case SendUnknown(i) => TaskAdds(p, i, p.tasks[i].(stage := Erred), TimeoutResponse);
      case Raise(i) => TaskAdds(p, i, p.tasks[i].(stage := Erred), TimeoutResponse);
      case Return(i) => TaskAdds(p, i, p.tasks[i].(stage := Returned), TimeoutResponse);
      case Cancel(i) => TaskAdds(p, i, p.tasks[i].(stage := Cancelled), TimeoutResponse);
    }
  }

  lemma ReceiveAdds(s: Settings, p: Pipe, i: nat)
    requires i < |p.tasks| && (p.tasks[i].queue != [] || p.disconnected)
    ensures Adds(p, p.Receive(s, i))
  {
  }

  lemma ConnectionStepAdds(p: Pipe, op: Op)
    requires Inv(false, p) && Enabled(p, op) && !op.Data? && !IsTaskOp(op) && !IsSessionOp(op) && !op.WriteFailure?
    ensures Adds(p, ConnectionPerform(p, op))
  {
    hide WireInv, Chain;
  }

  lemma StepAdds(s: Settings, p: Pipe, op: Op)
    requires Inv(false, p) && Enabled(p, op) && p.parser.Live() && !op.WriteFailure?
    ensures Adds(p, Perform(s, p, op))
  {
    hide Inv, Enabled, Adds, Pipe.DataReceived, TaskPerform, SessionPerform, ConnectionPerform;
    if op.Data? {
      DataAdds(s, p, op.data);
    } else if IsTaskOp(op) {
      TaskStepAdds(s, p, op);
    } else if IsSessionOp(op) {
      SessionStepAdds(s, p, op);
    } else {
      ConnectionStepAdds(p, op);
    }
  }

  // ---- the error response

  predicate NoStray(p: Pipe) {
    !p.tail.Failing? ==> forall i :: 0 <= i < |p.wire| ==> !p.wire[i].FailureResponse?
  }

  lemma SessionStays(s: Settings, p: Pipe, op: Op)
    requires Inv(false, p) && p.tail.Session? && Enabled(p, op) && p.parser.Live()
    ensures Perform(s, p, op).tail.Session?
  {
    StepAdds(s, p, op);
    hide Inv, Perform;
  }

  lemma {:induction false} SessionIsTimely(s: Settings, p: Pipe, ops: seq<Op>, q: Pipe)
    requires Inv(false, p) && p.tail.Session? && Reaches(s, p, ops, q)
    ensures TimelyRun(s, p, ops) && q.tail.Session? && Inv(false, q)
    decreases |ops|
  {
    hide Inv, Perform, Enabled;
    if ops != [] {
      SessionStays(s, p, ops[0]);
      StepKeeps(false, s, p, ops[0]);
      SessionIsTimely(s, Perform(s, p, ops[0]), ops[1..], q);
    }
  }

  lemma StepStray(s: Settings, p: Pipe, op: Op)
    requires Inv(false, p) && NoStray(p) && Enabled(p, op) && p.parser.Live()
    ensures NoStray(Perform(s, p, op)) && (p.tail.Session? ==> Perform(s, p, op).tail.Session?)
  {
    if !op.WriteFailure? {
      StepAdds(s, p, op);
      hide Inv, Perform;
    }
  }

  /** Without a session at its end, a run had none. */
  lemma {:induction false} RunStray(s: Settings, p: Pipe, ops: seq<Op>, q: Pipe)
    requires Inv(false, p) && NoStray(p) && Reaches(s, p, ops, q)
    ensures NoStray(q) && (p.tail.Session? ==> q.tail.Session?)
    ensures !q.tail.Session? ==> TimelyRun(s, p, ops)
    decreases |ops|
  {
    hide Inv, NoStray, Perform, Enabled;
    if ops != [] {
      var next := Perform(s, p, ops[0]);
      StepStray(s, p, ops[0]);
      StepKeeps(false, s, p, ops[0]);
      RunStray(s, next, ops[1..], q);
    }
  }

  /** An error response closes: it is the last thing on the wire, behind every request's
      whole response, and the transport is closing. */
  lemma ErrorResponseIsLast(s: Settings, ops: seq<Op>, p: Pipe, status: int)
    requires Reaches(s, Connected(), ops, p) && FailureResponse(status) in p.wire
    ensures p.wire == Flat(p.tasks) + [FailureResponse(status)]
    ensures AllComplete(p.tasks, |p.tasks|) && p.closing && p.closed
  {
    ConnectedInv(false);
    ConnectedInv(true);
    hide Inv, Reaches, TimelyRun;
    RunStray(s, Connected(), ops, p);
    assert p.tail.Failing?;
    RunKeeps(true, s, Connected(), ops, p);
    SentShapes(true, p);
    var k, n := ShapeOf(p);
    TailFlags(p);
    hide Flags, OpenWire;
    FailureIsBehindAll(p, k, n, status);
  }

  lemma TailFlags(p: Pipe)
    requires Inv(true, p)
    ensures Flags(p) && (!p.closing ==> OpenWire(p))
  {
  }

  /** An item of a response. */
  predicate OfResponse(w: WireItem) {
    w.ResponseHead? || w.ResponseBody?
  }

  lemma {:induction false} FlatIsResponses(tasks: seq<Task>)
    requires forall i :: 0 <= i < |tasks| ==> ResponseShape(i, tasks[i].sent)
    ensures forall i :: 0 <= i < |Flat(tasks)| ==> OfResponse(Flat(tasks)[i])
    decreases |tasks|
  {
    if tasks != [] {
      assert ResponseShape(|tasks| - 1, tasks[|tasks| - 1].sent);
      FlatIsResponses(tasks[..|tasks| - 1]);
    }
  }

  lemma PartialIsResponses(tasks: seq<Task>, tail: Tail, wire: seq<WireItem>, k: nat, n: nat)
    requires k < |tasks| && ShapeAt(tasks, tail, wire, k, n)
    requires forall i :: 0 <= i < |tasks| ==> ResponseShape(i, tasks[i].sent)
    ensures forall i :: 0 <= i < |wire| ==> OfResponse(wire[i])
  {
    FlatIsResponses(tasks[..k]);
    assert wire == Flat(tasks[..k]) + tasks[k].sent[..n];
    assert ResponseShape(k, tasks[k].sent);
  }

  lemma FailureIsBehindAll(p: Pipe, k: nat, n: nat, status: int)
    requires Flags(p) && (!p.closing ==> OpenWire(p)) && ShapeAt(p.tasks, p.tail, p.wire, k, n)
    requires forall i :: 0 <= i < |p.tasks| ==> ResponseShape(i, p.tasks[i].sent)
    requires FailureResponse(status) in p.wire && p.tail.Failing?
    ensures p.wire == Flat(p.tasks) + [FailureResponse(status)]
    ensures AllComplete(p.tasks, |p.tasks|) && p.closing && p.closed
  {
    if k < |p.tasks| {
      PartialIsResponses(p.tasks, p.tail, p.wire, k, n);
    } else {
      FlatIsResponses(p.tasks);
      assert p.wire == Flat(p.tasks) + p.wire[|Flat(p.tasks)|..];
      assert p.wire[|Flat(p.tasks)|..] == [FailureResponse(p.tail.status)];
    }
  }
}
