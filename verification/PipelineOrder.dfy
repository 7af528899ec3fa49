/** The session's own part of a wire that it shares with earlier requests, and the octets that it
    decodes: exactly when both stay in order. */
module PipelineOrder {
  import opened Bytes
  import opened Wrappers
  import opened Pipeline
  import opened PipelineTurns
  import opened PipelineSessions
  import opened PipelineUpgrade
  import WS = WsSession
  import WW = WsWrites
  import Utf8

  // ---- the session's own order

  /** Accepts can be encoded. */
  predicate Writable(op: Op) {
    op.SessionSend? ==> WS.Writable(WS.Op.Send(op.message))
  }

  predicate AllWritable(ops: seq<Op>) {
    forall i :: 0 <= i < |ops| ==> Writable(ops[i])
  }

  /** The accept has not gone through yet. */
  predicate Unopened(p: Pipe)
    requires p.tail.Session?
  {
    p.tail.conn.wsState == Some(WS.Connecting) || p.tail.pending.AcceptPending?
  }

  /** Nothing can be read before it has. */
  predicate Still(p: Pipe)
    requires p.tail.Session?
  {
    p.readingPaused && QuietTasks(p) && !p.tail.conn.pingArmed
  }

  /** Decoding is in order: what was decoded is a prefix of the octets behind the handshake and the
      later reads, and all of that while an accepted session is open. */
  ghost predicate FedOrdered(p: Pipe)
    requires p.tail.Session?
  {
    var h := p.tail.conn.hist;
    && h.fed <= p.tail.prologue + h.arrived
    && (p.tail.conn.wsState == Some(WS.Connected) && !p.closing ==> h.fed == p.tail.prologue + h.arrived)
  }

  ghost predicate Orderly(p: Pipe) {
    p.tail.Session? &&
    var c := p.Sess();
    && FedOrdered(p) && c.wsState.Some? && c.hist.prologue == p.tail.prologue
    && (p.tail.pending.AcceptPending? ==> WS.SubprotocolOk(p.tail.pending.subprotocol))
    && (p.tail.pending.DenyPending? ==> c.wsState == Some(WS.Closed))
    && (Unopened(p) ==>
          && c.hist.fed == [] && c.hist.arrived == [] && c.prologue == p.tail.prologue && c.hist.wire == []
          && (p.closing || (c.wsState == Some(WS.Connecting) && Still(p))))
    && (c.wsState == Some(WS.Connected) && !p.closing ==> c.prologue == [])
    && WireFits(p.closing, c)
  }

  ghost predicate WireFits(closing: bool, c: WS.Conn) {
    if closing then WS.WireOk(c.hist.wire)
    else if c.wsState == Some(WS.Closed) then c.hist.wire == []
    else WS.WireInv(c)
  }

  /** A step that leaves the session alone. */
  lemma OrderlySide(p: Pipe, q: Pipe)
    requires Orderly(p) && q.tail == p.tail
    requires (p.closing ==> q.closing) && (q.closing || (StaysQuiet(p, q) && q.closed == p.closed && q.disconnected == p.disconnected))
    ensures Orderly(q)
  {
    hide WS.LiveWire, WS.GoodFrame;
  }

  /** A step of the session that neither accepts nor denies nor reads. */
  lemma OrderlyAct(p: Pipe, d: WS.Conn, pending: Pending)
    requires Orderly(p) && WW.Acts(p.Sess(), d)
    requires pending == p.tail.pending || pending == NoPending
    requires !p.closing && WS.WireInv(p.Sess()) ==> WS.WireInv(d)
    requires p.tail.conn.wsState != Some(WS.Connected) ==> d.hist.wire == p.tail.conn.hist.wire
    requires p.tail.conn.wsState == Some(WS.Connecting) && d.wsState == p.tail.conn.wsState ==>
      d.link.paused == p.readingPaused && (d.pingArmed ==> p.tail.conn.pingArmed)
    ensures Orderly(p.InSession(d, pending))
  {
    hide WS.LiveWire, WS.GoodFrame, NewItems;
  }

  lemma SendOrderly(s: Settings, p: Pipe, m: WS.AppMessage)
    requires Orderly(p) && InApp(p) && p.tail.pending.NoPending?
    requires Writable(Op.SessionSend(m))
    ensures p.SessionSend(s, m).tail.Session? && Orderly(p.SessionSend(s, m))
  {
    hide Orderly, Pipe.TakeTurn, Pipe.InSession, WS.Conn.Send, WS.Conn.StartDeny;
    if p.tail.conn.wsState == Some(WS.Connecting) && m.Accept? && m.headersOk {
      PendingOrderly(p, m.subprotocol);
      TurnOrderly(s, p.(tail := p.tail.(pending := AcceptPending(m.subprotocol))));
    } else if p.tail.conn.wsState == Some(WS.Connecting) && m.CloseMessage? {
      StartDenyOrderly(p);
      InSessionAdds(p, p.Sess().StartDeny(), DenyPending);
      TurnOrderly(s, p.InSession(p.Sess().StartDeny(), DenyPending));
    } else {
      OtherSendOrderly(s, p, m);
      InSessionAdds(p, p.Sess().Send(s.session, m).conn, NoPending);
    }
  }

  lemma PendingOrderly(p: Pipe, subprotocol: Option<Utf8.Text>)
    requires Orderly(p) && WS.SubprotocolOk(subprotocol) && p.tail.conn.wsState == Some(WS.Connecting)
    ensures Orderly(p.(tail := p.tail.(pending := AcceptPending(subprotocol))))
  {
    hide WireFits;
    SameWireFits(p, p.(tail := p.tail.(pending := AcceptPending(subprotocol))));
  }

  lemma SameWireFits(p: Pipe, q: Pipe)
    requires p.tail.Session? && q.tail.Session? && q.tail.conn == p.tail.conn && q.closing == p.closing
    requires WireFits(p.closing, p.Sess()) && q.readingPaused == p.readingPaused
    ensures WireFits(q.closing, q.Sess())
  {
    hide WS.LiveWire, WS.GoodFrame;
  }

  lemma StartDenyOrderly(p: Pipe)
    requires Orderly(p) && p.tail.conn.wsState == Some(WS.Connecting) && p.tail.pending.NoPending?
    ensures Orderly(p.InSession(p.Sess().StartDeny(), DenyPending))
  {
    hide WS.LiveWire, WS.GoodFrame, NewItems;
  }

  lemma OtherSendOrderly(s: Settings, p: Pipe, m: WS.AppMessage)
    requires Orderly(p) && p.tail.pending.NoPending?
    requires p.tail.conn.wsState == Some(WS.Connecting) ==> !m.CloseMessage? && !(m.Accept? && m.headersOk)
    ensures Orderly(p.InSession(p.Sess().Send(s.session, m).conn, NoPending))
  {
    var c := p.Sess();
    WW.SendActs(s.session, c, m);
    WS.AnyState(c.wsState);
    if c.wsState != Some(WS.Connected) {
      QuietSend(s.session, c, m);
    } else if !p.closing && WS.WireInv(c) {
      SendFits(s.session, c, m);
    }
    hide WS.Conn.Send, Orderly, WS.WireInv;
    OrderlyAct(p, c.Send(s.session, m).conn, NoPending);
  }

  lemma SendFits(s: WS.Settings, c: WS.Conn, m: WS.AppMessage)
    requires WS.WireInv(c) && c.wsState == Some(WS.Connected)
    ensures WS.WireInv(c.Send(s, m).conn)
  {
    hide WS.WireInv, WS.CloseItem, WS.Conn.CloseAndFinish;
    if m.Accept? {
    } else {
      WS.SendKeepsWire(s, c, m);
    }
  }

  lemma TurnOrderly(s: Settings, p: Pipe)
    requires p.tail.Session? && Orderly(p)
    ensures p.SessionTurn(s).tail.Session? && Orderly(p.SessionTurn(s))
    ensures p.TakeTurn(s).tail.Session? && Orderly(p.TakeTurn(s))
  {
    hide Orderly, WS.Conn.DoAccept, WS.Conn.EndDeny;
    match p.tail.pending {
      case NoPending =>
      case AcceptPending(subprotocol) => AcceptOrderly(s, p);
      case DenyPending => EndDenyOrderly(p);
    }
  }

  lemma EndDenyOrderly(p: Pipe)
    requires Orderly(p) && p.tail.pending.DenyPending?
    ensures Orderly(p.InSession(p.Sess().EndDeny(), NoPending))
  {
    hide WS.LiveWire, WS.GoodFrame, NewItems;
  }

  lemma AcceptOrderly(s: Settings, p: Pipe)
    requires Orderly(p) && p.tail.pending.AcceptPending?
    ensures Orderly(p.InSession(p.Sess().DoAccept(s.session, p.tail.pending.subprotocol, true).conn, NoPending))
  {
    var c := p.Sess();
    WW.AcceptWrites(s.session, c, p.tail.pending.subprotocol);
    AcceptFits(s, p);
    hide WS.Conn.DoAccept, WireFits, Pipe.InSession;
    OpenedOrderly(p, c.DoAccept(s.session, p.tail.pending.subprotocol, true).conn);
  }

  lemma OpenedOrderly(p: Pipe, d: WS.Conn)
    requires Orderly(p) && p.tail.pending.AcceptPending? && WW.Grows(p.Sess(), d) && WireFits(d.link.closing, d)
    requires d.wsState == Some(WS.Connected) || (d.wsState == Some(WS.Closed) && d.link.closing)
    requires d.hist.arrived == p.Sess().hist.arrived && d.hist.fed == p.Sess().hist.fed + p.Sess().prologue && d.prologue == []
    ensures Orderly(p.InSession(d, NoPending))
  {
    assert [] + p.tail.prologue == p.tail.prologue == p.tail.prologue + [];
    var q := p.InSession(d, NoPending);
    SameFits(d, q.Sess());
    hide WireFits, NewItems;
  }

  lemma SameFits(c: WS.Conn, d: WS.Conn)
    requires c.link.closing == d.link.closing && d == c.(link := d.link)
    requires WireFits(c.link.closing, c) && !c.link.closing ==> d.link == c.link
    ensures WireFits(c.link.closing, c) ==> WireFits(d.link.closing, d)
  {
    hide WS.LiveWire, WS.GoodFrame;
  }

  lemma AcceptFits(s: Settings, p: Pipe)
    requires Orderly(p) && p.tail.pending.AcceptPending?
    ensures var d := p.Sess().DoAccept(s.session, p.tail.pending.subprotocol, true).conn; WireFits(d.link.closing, d)
  {
    var c := p.Sess();
    WW.AcceptWrites(s.session, c, p.tail.pending.subprotocol);
    if !p.closing {
      WS.AcceptKeepsWire(s.session, c, p.tail.pending.subprotocol, true);
    }
    hide WS.Conn.DoAccept, WS.LiveWire, WS.GoodFrame;
  }

  lemma DataOrderly(s: Settings, p: Pipe, data: Bytes)
    requires Orderly(p) && Enabled(p, Op.Data(data)) && !p.closed
    ensures Orderly(p.InSession(p.Sess().DataReceived(s.session, data), p.tail.pending))
  {
    var c := p.Sess();
    WW.DataWrites(s.session, c, data);
    WS.AnyState(c.wsState);
    if c.wsState == Some(WS.Connected) {
      DataFits(s.session, c, data);
    }
    assert c.hist.fed + [] == c.hist.fed;
    hide WS.Conn.DataReceived, WS.WireInv, WS.WireOk;
    ReadOn(p, data, c.DataReceived(s.session, data));
  }

  lemma DataFits(s: WS.Settings, c: WS.Conn, data: Bytes)
    requires WS.WireInv(c) && c.wsState == Some(WS.Connected)
    ensures WS.WireInv(c.DataReceived(s, data))
  {
    hide WS.Conn.FeedFrames, WS.WireOk, WS.LiveWire;
    var d := c.(hist := c.hist.(arrived := c.hist.arrived + data));
    WS.WireFrame(c, d);
    WS.FeedKeepsWire(s, d, data);
  }

  lemma ReadOn(p: Pipe, data: Bytes, d: WS.Conn)
    requires Orderly(p) && !p.closing && !p.readingPaused && WW.Grows(p.Sess(), d)
    requires d.hist.arrived == p.tail.conn.hist.arrived + data && d.prologue == p.tail.conn.prologue
    requires d.hist.fed == p.tail.conn.hist.fed + if p.tail.conn.wsState == Some(WS.Closed) then [] else data
    requires d.wsState == p.tail.conn.wsState || (d.wsState == Some(WS.Closed) && d.link.closing)
    requires p.tail.conn.wsState == Some(WS.Connected) ==> WS.WireInv(d)
    requires p.tail.conn.wsState == Some(WS.Closed) ==> d.hist.wire == p.tail.conn.hist.wire && !d.link.closing
    requires p.tail.conn.wsState.Some? ==>
      p.tail.conn.wsState == Some(WS.Connecting) || p.tail.conn.wsState == Some(WS.Connected) || p.tail.conn.wsState == Some(WS.Closed)
    ensures Orderly(p.InSession(d, p.tail.pending))
  {
    var h := p.tail.prologue + p.tail.conn.hist.arrived;
    assert h + data == p.tail.prologue + (p.tail.conn.hist.arrived + data) && h <= h + data;
    assert p.tail.conn.hist.fed + [] == p.tail.conn.hist.fed;
    hide WS.LiveWire, WS.GoodFrame, NewItems;
  }

  lemma ReceiveOrderly(s: Settings, p: Pipe)
    requires Orderly(p) && p.Sess().CanReceive()
    ensures Orderly(p.InSession(p.Sess().AfterReceive(s.session), p.tail.pending))
  {
    var c := p.Sess();
    WW.ReceiveActs(s.session, c);
    SameInv(c, c.AfterReceive(s.session));
    assert c.AfterReceive(s.session).hist.wire == c.hist.wire;
    hide Orderly, WS.WireInv;
    OrderlyAct(p, c.AfterReceive(s.session), p.tail.pending);
  }

  lemma SameInv(c: WS.Conn, d: WS.Conn)
    requires d.hist.wire == c.hist.wire && d.wsState == c.wsState && d.closeSent == c.closeSent
    requires d.link.failure == c.link.failure && d.link.closing == c.link.closing
    requires d.wsState == Some(WS.Connecting) ==> d.link.paused == c.link.paused
    ensures WS.WireInv(c) ==> WS.WireInv(d)
  {
    hide WS.WireOk, WS.LiveWire;
  }

  lemma PingOrderly(s: Settings, p: Pipe, payload: Bytes)
    requires Orderly(p) && |payload| == 4
    ensures Orderly(p.InSession(p.Sess().PingDue(s.session, payload), p.tail.pending))
  {
    var c := p.Sess();
    WW.PingActs(s.session, c, payload);
    if WS.WireInv(c) {
      WS.TimerKeepsWire(s.session, c, payload);
    }
    hide WS.CloseItem, WS.Conn.CloseAndFinish;
    assert c.wsState != Some(WS.Connected) ==> c.PingDue(s.session, payload) == c.(pingArmed := false);
    hide Orderly, WS.WireInv, WS.Conn.PingDue;
    OrderlyAct(p, c.PingDue(s.session, payload), p.tail.pending);
  }

  lemma EndingOrderly(p: Pipe, raised: bool)
    requires Orderly(p)
    ensures Orderly(p.InSession(p.Sess().Shutdown(), p.tail.pending))
    ensures Orderly(p.InSession(p.Sess().TaskDone(raised), NoPending))
  {
    var c := p.Sess();
    WW.ShutdownActs(c);
    WW.DoneActs(c, raised);
    if WS.WireInv(c) {
      WS.ShutdownKeepsWire(c);
      WS.TaskDoneKeepsWire(c, raised);
    }
    if c.wsState != Some(WS.Connected) {
      EndingQuiet(c, raised);
    }
    hide Orderly, WS.WireInv, WS.Conn.Shutdown, WS.Conn.TaskDone;
    OrderlyAct(p, c.Shutdown(), p.tail.pending);
    OrderlyAct(p, c.TaskDone(raised), NoPending);
  }

  lemma EndingQuiet(c: WS.Conn, raised: bool)
    requires c.wsState != Some(WS.Connected)
    ensures c.Shutdown().hist.wire == c.hist.wire && c.TaskDone(raised).hist.wire == c.hist.wire
    ensures var d := c.TaskDone(raised); d.link.paused == c.link.paused && d.pingArmed == c.pingArmed
    ensures var d := c.Shutdown(); d.wsState == c.wsState ==> d == c
  {
    hide WS.CloseItem, WS.Conn.CloseAndFinish;
    WS.AnyState(c.wsState);
  }

  // ---- the other steps beside a session

  /** A step of a request's task, as the session sees it. */
  predicate Side(p: Pipe, q: Pipe) {
    && q.tail == p.tail && (p.closing ==> q.closing)
    && StaysQuiet(p, q) && q.closed == p.closed && q.disconnected == p.disconnected
  }

  lemma SideTwice(p: Pipe, q: Pipe, r: Pipe)
    requires Side(p, q) && Side(q, r)
    ensures Side(p, r)
  {
    assert forall i :: 0 <= i < |p.tasks| && QuietTask(p.tasks[i]) ==> QuietTask(q.tasks[i]) && QuietTask(r.tasks[i]);
  }

  lemma TaskSide(p: Pipe, i: nat, t: Task, item: WireItem)
    requires i < |p.tasks| && (QuietTask(p.tasks[i]) ==> QuietTask(t))
    ensures Side(p, p.WithTask(i, t)) && Side(p, p.WithTask(i, t).Write(item))
  {
  }

  lemma FinishSide(p: Pipe, i: nat, more: bool)
    requires i < |p.tasks| && !p.tasks[i].Ended()
    ensures Side(p, p.FinishBody(i, more))
  {
    hide Side;
    var t := p.tasks[i].(stage := Running);
    if more {
      TaskSide(p, i, t, TimeoutResponse);
    } else {
      var q := p.WithTask(i, t.(complete := true));
      TaskSide(p, i, t.(complete := true), TimeoutResponse);
      FlagSide(q, p.FinishBody(i, false));
      SideTwice(p, q, p.FinishBody(i, false));
    }
  }

  lemma DoneSide(p: Pipe, i: nat)
    requires i < |p.tasks|
    ensures Side(p, p.TaskDone(i))
  {
    hide Side;
    var q := p.WithTask(i, p.tasks[i].(stage := Gone, registered := false));
    TaskSide(p, i, p.tasks[i].(stage := Gone, registered := false), TimeoutResponse);
    FlagSide(q, p.TaskDone(i));
    SideTwice(p, q, p.TaskDone(i));
  }

  lemma FlagSide(p: Pipe, q: Pipe)
    requires q.tasks == p.tasks && q.tail == p.tail && (p.closing ==> q.closing)
    requires q.readingPaused == p.readingPaused && q.closed == p.closed && q.disconnected == p.disconnected
    ensures Side(p, q)
  {
  }

  lemma TurnSide(p: Pipe, i: nat)
    requires i < |p.tasks| && p.tasks[i].stage.AwaitTurn?
    ensures Side(p, p.TurnArrives(i))
  {
    hide Side;
    var t := p.tasks[i];
    var item := ResponseHead(i, t.stage.status, t.close);
    TaskSide(p, i, t.(stage := Running, sent := t.sent + [item]), item);
  }

  lemma HeadSide(p: Pipe, i: nat, status: int, headersOk: bool, declaresLength: bool)
    requires IsRunning(p, i)
    ensures Side(p, p.SendStart(i, status, headersOk, declaresLength))
  {
    hide Side, ClientRequestedClose, Pipe.TurnArrives;
    var t := p.tasks[i];
    if t.started {
      TaskSide(p, i, t.(stage := Erred), TimeoutResponse);
    } else if !headersOk {
      TaskSide(p, i, t.(started := true, stage := Erred), TimeoutResponse);
    } else {
      var close := ClientRequestedClose(t.head) || !declaresLength || p.shouldExit;
      WaitSide(p, i, t.(started := true, close := close, stage := AwaitTurn(status)));
    }
  }

  lemma WaitSide(p: Pipe, i: nat, t: Task)
    requires i < |p.tasks| && t.stage.AwaitTurn? && (QuietTask(p.tasks[i]) ==> QuietTask(t))
    ensures Side(p, p.WithTask(i, t)) && Side(p, p.WithTask(i, t).TurnArrives(i))
  {
    hide Side, Pipe.TurnArrives;
    TaskSide(p, i, t, TimeoutResponse);
    TurnSide(p.WithTask(i, t), i);
    SideTwice(p, p.WithTask(i, t), p.WithTask(i, t).TurnArrives(i));
  }

  lemma BodySide(p: Pipe, i: nat, data: Bytes, more: bool)
    requires IsRunning(p, i)
    ensures Side(p, p.SendBody(i, data, more))
  {
    hide Side, Pipe.FinishBody;
    var t := p.tasks[i];
    if !t.started {
      TaskSide(p, i, t.(stage := Erred), TimeoutResponse);
    } else if data == [] {
      FinishSide(p, i, more);
    } else {
      var item := ResponseBody(i, data);
      var q := p.WithTask(i, t.(sent := t.sent + [item])).Write(item);
      TaskSide(p, i, t.(sent := t.sent + [item]), item);
      if p.pausedWriting && !p.closing {
        TaskSide(q, i, q.tasks[i].(stage := Draining(more)), TimeoutResponse);
        SideTwice(p, q, q.WithTask(i, q.tasks[i].(stage := Draining(more))));
      } else {
        FinishSide(q, i, more);
        SideTwice(p, q, q.FinishBody(i, more));
      }
    }
  }

  lemma TaskStepSide(s: Settings, p: Pipe, op: Op)
    requires Enabled(p, op) && IsTaskOp(op) && !op.Receive?
    ensures Side(p, TaskPerform(s, p, op))
  {
    hide Side, Pipe.SendStart, Pipe.TurnArrives, Pipe.SendBody, Pipe.FinishBody, Pipe.TaskDone;
    match op {
      case SendStart(i, status, headersOk, declaresLength) => HeadSide(p, i, status, headersOk, declaresLength);
      case TurnArrives(i) => TurnSide(p, i);
      case SendBody(i, data, more) => BodySide(p, i, data, more);
      case DrainDone(i) => FinishSide(p, i, p.tasks[i].stage.more);
      case TaskDone(i) => DoneSide(p, i);
      case SendUnknown(i) => TaskSide(p, i, p.tasks[i].(stage := Erred), TimeoutResponse);
      case Raise(i) => TaskSide(p, i, p.tasks[i].(stage := Erred), TimeoutResponse);
      case Return(i) => TaskSide(p, i, p.tasks[i].(stage := Returned), TimeoutResponse);
      case Cancel(i) => TaskSide(p, i, p.tasks[i].(stage := Cancelled), TimeoutResponse);
    }
  }

  /** What a step that is not the session's does to it, besides a loss. */
  predicate Aside(p: Pipe, q: Pipe) {
    && q.tail == p.tail && (p.closing ==> q.closing)
    && (q.closing || (StaysQuiet(p, q) && q.closed == p.closed && q.disconnected == p.disconnected))
  }

  lemma TaskStepAside(s: Settings, p: Pipe, op: Op)
    requires Enabled(p, op) && IsTaskOp(op) && (p.disconnected ==> p.closing)
    ensures Aside(p, TaskPerform(s, p, op))
  {
    if op.Receive? {
      ReceiveSide(s, p, op.task);
      hide StaysQuiet, Pipe.Receive;
    } else {
      TaskStepSide(s, p, op);
      hide StaysQuiet, TaskPerform, Enabled;
    }
  }

  lemma ConnectionStepAside(p: Pipe, op: Op)
    requires Enabled(p, op) && !op.Data? && !IsTaskOp(op) && !IsSessionOp(op) && !op.ConnectionLost?
    requires p.tail.Session? && (p.timerArmed ==> p.gotFirstHead)
    ensures Aside(p, ConnectionPerform(p, op))
  {
  }

  lemma ReceiveSide(s: Settings, p: Pipe, i: nat)
    requires i < |p.tasks| && !p.tasks[i].Ended() && (p.tasks[i].queue != [] || (p.disconnected && p.closing))
    ensures var q := p.Receive(s, i);
      && q.tail == p.tail && q.closing == p.closing && q.closed == p.closed && q.disconnected == p.disconnected
      && (p.closing || StaysQuiet(p, q))
  {
    if p.tasks[i].queue != [] {
      assert !QuietTask(p.tasks[i]);
    }
    hide Task.Taken;
  }

  lemma LostOrderly(p: Pipe)
    requires Orderly(p)
    ensures p.Lost().tail.Session? && Orderly(p.Lost())
  {
    hide WS.LiveWire, WS.GoodFrame;
  }

  lemma SessionStepOrderly(s: Settings, p: Pipe, op: Op)
    requires Orderly(p) && Enabled(p, op) && IsSessionOp(op) && Writable(op)
    ensures SessionPerform(s, p, op).tail.Session? && Orderly(SessionPerform(s, p, op))
  {
    hide Orderly, Pipe.SessionSend, Pipe.SessionTurn, Pipe.InSession;
    match op {
      case SessionSend(m) => SendOrderly(s, p, m);
      case SessionTurn => TurnOrderly(s, p);
      case SessionReceive =>
        ReceiveOrderly(s, p);
        InSessionAdds(p, p.Sess().AfterReceive(s.session), p.tail.pending);
      case SessionPing(payload) =>
        PingOrderly(s, p, payload);
        InSessionAdds(p, p.Sess().PingDue(s.session, payload), p.tail.pending);
      case SessionShutdown =>
        EndingOrderly(p, false);
        InSessionAdds(p, p.Sess().Shutdown(), p.tail.pending);
      case SessionDone(raised) =>
        EndingOrderly(p, raised);
        InSessionAdds(p, p.Sess().TaskDone(raised), NoPending);
    }
  }

  lemma StepOrderly(s: Settings, p: Pipe, op: Op)
    requires Inv(false, p) && Orderly(p) && Enabled(p, op) && p.parser.Live() && Writable(op)
    ensures Perform(s, p, op).tail.Session? && Orderly(Perform(s, p, op))
  {
    SessionFlags(p);
    hide Inv, Orderly, Enabled, Writable, Aside, Pipe.DataReceived, TaskPerform, SessionPerform, ConnectionPerform;
    if op.Data? {
      DataIsOpen(p, op);
      SessionDataOrderly(s, p, op.data);
    } else if IsTaskOp(op) {
      TaskStepAside(s, p, op);
      AsideOrderly(p, TaskPerform(s, p, op));
    } else if IsSessionOp(op) {
      SessionStepOrderly(s, p, op);
    } else if op.ConnectionLost? {
      LossIsLost(p, op);
      LostOrderly(p);
    } else {
      ConnectionStepAside(p, op);
      AsideOrderly(p, ConnectionPerform(p, op));
    }
  }

  lemma AsideOrderly(p: Pipe, q: Pipe)
    requires Orderly(p) && Aside(p, q)
    ensures Orderly(q)
  {
    hide Orderly;
    OrderlySide(p, q);
  }

  lemma DataIsOpen(p: Pipe, op: Op)
    requires op.Data? && Enabled(p, op) && (p.closed ==> p.disconnected)
    ensures !p.closed
  {
  }

  lemma LossIsLost(p: Pipe, op: Op)
    requires Enabled(p, op) && op.ConnectionLost?
    ensures ConnectionPerform(p, op) == p.Lost()
  {
  }

  lemma SessionFlags(p: Pipe)
    requires Inv(false, p) && p.tail.Session?
    ensures (p.closed ==> p.disconnected) && (p.disconnected ==> p.closing) && (p.timerArmed ==> p.gotFirstHead)
  {
  }

  lemma SessionDataOrderly(s: Settings, p: Pipe, data: Bytes)
    requires p.tail.Session? && Orderly(p) && Enabled(p, Op.Data(data)) && p.parser.Live() && !p.closed
    ensures p.DataReceived(s, data).tail.Session? && Orderly(p.DataReceived(s, data))
  {
    hide Orderly, Pipe.InSession, WS.Conn.DataReceived;
    DataOrderly(s, p, data);
    InSessionAdds(p, p.Sess().DataReceived(s.session, data), p.tail.pending);
  }

  // ---- exactly when

  lemma {:induction false} RunOrderly(s: Settings, p: Pipe, ops: seq<Op>, q: Pipe)
    requires Inv(false, p) && Orderly(p) && Reaches(s, p, ops, q) && AllWritable(ops)
    ensures Orderly(q)
    decreases |ops|
  {
    hide Inv, Orderly, Perform, Enabled, Writable;
    if ops != [] {
      assert Writable(ops[0]) && forall i :: 0 <= i < |ops[1..]| ==> ops[1..][i] == ops[i + 1];
      StepOrderly(s, p, ops[0]);
      StepKeeps(false, s, p, ops[0]);
      RunOrderly(s, Perform(s, p, ops[0]), ops[1..], q);
    }
  }

  lemma StartsOrderly(p: Pipe)
    requires AtStart(p) && QuietTasks(p)
    ensures Orderly(p)
  {
    assert p.tail.prologue + [] == p.tail.prologue;
  }

  /** The whole wire: responses in request order, and behind them the session's own part, which is
      nothing, one refusal, or 101 and whole frames with at most one close frame, last. */
  ghost predicate WireOrdered(p: Pipe) {
    ResponsesOrdered(p) && (p.tail.Session? ==> WS.WireOk(p.tail.conn.hist.wire))
  }

  lemma OrderlyWire(p: Pipe)
    requires Orderly(p)
    ensures WS.WireOk(p.tail.conn.hist.wire) && FedOrdered(p)
  {
    hide WS.LiveWire, WS.GoodFrame;
  }

  lemma LonePong()
    ensures !WS.WireOk([PONG])
  {
  }

  /** Exactly when the whole wire stays in order on every later run whose accepts can be encoded:
      no application before the session that has not ended has a message left to receive. */
  lemma WireExactlyIfQuiet(s: Settings, p: Pipe)
    requires JustBegun(s, p)
    ensures (forall ops: seq<Op>, q: Pipe :: Reaches(s, p, ops, q) && AllWritable(ops) ==> WireOrdered(q)) <==>
      QuietTasks(p)
  {
    BegunFacts(s, p);
    hide JustBegun, Inv, Reaches, ResponsesOrdered, TimelyRun, AllWritable;
    if QuietTasks(p) {
      StartsOrderly(p);
      hide Orderly, WS.WireOk;
      forall ops: seq<Op>, q: Pipe | Reaches(s, p, ops, q) && AllWritable(ops) ensures WireOrdered(q) {
        SessionIsTimely(s, p, ops, q);
        RunKeeps(true, s, p, ops, q);
        OrderedByInv(q);
        RunOrderly(s, p, ops, q);
        OrderlyWire(q);
      }
    } else {
      var ops, q := PongBreaksOrder(s, p);
      LonePong();
      EarlyIsWritable(ops);
    }
  }

  lemma EarlyIsWritable(ops: seq<Op>)
    requires forall j :: 0 <= j < |ops| ==> ops[j].Receive? || ops[j].Data?
    ensures AllWritable(ops)
  {
  }

  // ---- the order in which octets are decoded

  /** With nothing held back everything read is decoded as it comes, accepted or not. */
  ghost predicate Straight(p: Pipe) {
    p.tail.Session? &&
    var c := p.tail.conn;
    && p.tail.prologue == [] && c.prologue == [] && c.wsState.Some?
    && c.hist.fed <= c.hist.arrived
    && (!p.closing && c.wsState != Some(WS.Closed) ==> c.hist.fed == c.hist.arrived)
    && (p.tail.pending.AcceptPending? && !p.closing ==> c.wsState == Some(WS.Connecting))
  }

  lemma StraightAct(p: Pipe, d: WS.Conn, pending: Pending)
    requires p.tail.Session? && Straight(p) && WW.Acts(p.Sess(), d)
    requires pending == p.tail.pending || pending == NoPending
    ensures Straight(p.InSession(d, pending))
  {
    hide NewItems;
  }

  lemma StraightSend(s: Settings, p: Pipe, m: WS.AppMessage)
    requires p.tail.Session? && Straight(p) && p.tail.pending.NoPending?
    ensures p.SessionSend(s, m).tail.Session? && Straight(p.SessionSend(s, m))
  {
    var c := p.Sess();
    hide Straight, Pipe.InSession, Pipe.TakeTurn, WS.Conn.Send, WS.Conn.StartDeny;
    if c.wsState == Some(WS.Connecting) && m.Accept? && m.headersOk {
      var q := p.(tail := p.tail.(pending := AcceptPending(m.subprotocol)));
      StraightPending(p, q);
      StraightTurn(s, q);
    } else if c.wsState == Some(WS.Connecting) && m.CloseMessage? {
      StraightDeny(p);
      InSessionAdds(p, c.StartDeny(), DenyPending);
      StraightTurn(s, p.InSession(c.StartDeny(), DenyPending));
    } else {
      WW.SendActs(s.session, c, m);
      StraightAct(p, c.Send(s.session, m).conn, NoPending);
      InSessionAdds(p, c.Send(s.session, m).conn, NoPending);
    }
  }

  lemma StraightPending(p: Pipe, q: Pipe)
    requires p.tail.Session? && Straight(p) && p.tail.conn.wsState == Some(WS.Connecting) && q.tail.Session?
    requires q == p.(tail := p.tail.(pending := q.tail.pending))
    ensures Straight(q)
  {
  }

  lemma StraightDeny(p: Pipe)
    requires p.tail.Session? && Straight(p) && p.tail.conn.wsState == Some(WS.Connecting)
    ensures Straight(p.InSession(p.Sess().StartDeny(), DenyPending))
  {
    hide NewItems;
  }

  lemma StraightAccept(s: Settings, p: Pipe, subprotocol: Option<Utf8.Text>)
    requires p.tail.Session? && Straight(p) && p.tail.pending.AcceptPending?
    ensures Straight(p.InSession(p.Sess().DoAccept(s.session, subprotocol, true).conn, NoPending))
  {
    WW.AcceptWrites(s.session, p.Sess(), subprotocol);
    assert p.tail.conn.hist.fed + [] == p.tail.conn.hist.fed;
    hide NewItems, WS.Conn.DoAccept;
  }

  lemma StraightRefusal(p: Pipe)
    requires p.tail.Session? && Straight(p)
    ensures Straight(p.InSession(p.Sess().EndDeny(), NoPending))
  {
    hide NewItems;
  }

  lemma StraightTurn(s: Settings, p: Pipe)
    requires p.tail.Session? && Straight(p)
    ensures p.SessionTurn(s).tail.Session? && Straight(p.SessionTurn(s))
    ensures p.TakeTurn(s).tail.Session? && Straight(p.TakeTurn(s))
  {
    hide Straight, Pipe.InSession, WS.Conn.DoAccept, WS.Conn.EndDeny;
    match p.tail.pending {
      case NoPending =>
      case AcceptPending(subprotocol) =>
        StraightAccept(s, p, subprotocol);
        InSessionAdds(p, p.Sess().DoAccept(s.session, subprotocol, true).conn, NoPending);
      case DenyPending =>
        StraightRefusal(p);
        InSessionAdds(p, p.Sess().EndDeny(), NoPending);
    }
  }

  lemma StraightData(s: Settings, p: Pipe, data: Bytes)
    requires p.tail.Session? && Straight(p) && Enabled(p, Op.Data(data)) && !p.closed
    ensures Straight(p.InSession(p.Sess().DataReceived(s.session, data), p.tail.pending))
  {
    WW.DataWrites(s.session, p.Sess(), data);
    var h := p.tail.conn.hist.arrived;
    assert h <= h + data;
    hide NewItems, WS.Conn.DataReceived;
  }

  lemma SessionStepStraight(s: Settings, p: Pipe, op: Op)
    requires p.tail.Session? && Straight(p) && Enabled(p, op) && IsSessionOp(op)
    ensures SessionPerform(s, p, op).tail.Session? && Straight(SessionPerform(s, p, op))
  {
    hide Straight, Pipe.SessionSend, Pipe.SessionTurn, Pipe.InSession;
    var c := p.Sess();
    match op {
      case SessionSend(m) => StraightSend(s, p, m);
      case SessionTurn => StraightTurn(s, p);
      case SessionReceive =>
        WW.ReceiveActs(s.session, c);
        StraightAct(p, c.AfterReceive(s.session), p.tail.pending);
        InSessionAdds(p, c.AfterReceive(s.session), p.tail.pending);
      case SessionPing(payload) =>
        WW.PingActs(s.session, c, payload);
        StraightAct(p, c.PingDue(s.session, payload), p.tail.pending);
        InSessionAdds(p, c.PingDue(s.session, payload), p.tail.pending);
      case SessionShutdown =>
        WW.ShutdownActs(c);
        StraightAct(p, c.Shutdown(), p.tail.pending);
        InSessionAdds(p, c.Shutdown(), p.tail.pending);
      case SessionDone(raised) =>
        WW.DoneActs(c, raised);
        StraightAct(p, c.TaskDone(raised), NoPending);
        InSessionAdds(p, c.TaskDone(raised), NoPending);
    }
  }

  lemma StepStraight(s: Settings, p: Pipe, op: Op)
    requires Inv(false, p) && p.tail.Session? && Straight(p) && Enabled(p, op) && p.parser.Live()
    ensures Perform(s, p, op).tail.Session? && Straight(Perform(s, p, op))
  {
    SessionFlags(p);
    hide Inv, Straight, Enabled, Aside, Pipe.DataReceived, TaskPerform, SessionPerform, ConnectionPerform;
    if op.Data? {
      DataIsOpen(p, op);
      SessionDataStraight(s, p, op.data);
    } else if IsTaskOp(op) {
      TaskStepAside(s, p, op);
      AsideStraight(p, TaskPerform(s, p, op));
    } else if IsSessionOp(op) {
      SessionStepStraight(s, p, op);
    } else if op.ConnectionLost? {
      LossIsLost(p, op);
      StraightLost(p);
    } else {
      ConnectionStepAside(p, op);
      AsideStraight(p, ConnectionPerform(p, op));
    }
  }

  lemma SessionDataStraight(s: Settings, p: Pipe, data: Bytes)
    requires p.tail.Session? && Straight(p) && Enabled(p, Op.Data(data)) && p.parser.Live() && !p.closed
    ensures p.DataReceived(s, data).tail.Session? && Straight(p.DataReceived(s, data))
  {
    hide Straight, Pipe.InSession, WS.Conn.DataReceived;
    StraightData(s, p, data);
    InSessionAdds(p, p.Sess().DataReceived(s.session, data), p.tail.pending);
  }

  lemma AsideStraight(p: Pipe, q: Pipe)
    requires p.tail.Session? && Straight(p) && Aside(p, q)
    ensures q.tail.Session? && Straight(q)
  {
    hide StaysQuiet;
  }

  lemma StraightLost(p: Pipe)
    requires p.tail.Session? && Straight(p)
    ensures p.Lost().tail.Session? && Straight(p.Lost())
  {
  }

  lemma {:induction false} RunStraight(s: Settings, p: Pipe, ops: seq<Op>, q: Pipe)
    requires Inv(false, p) && p.tail.Session? && Straight(p) && Reaches(s, p, ops, q)
    ensures q.tail.Session? && Straight(q)
    decreases |ops|
  {
    hide Inv, Straight, Perform, Enabled;
    if ops != [] {
      StepStraight(s, p, ops[0]);
      StepKeeps(false, s, p, ops[0]);
      RunStraight(s, Perform(s, p, ops[0]), ops[1..], q);
    }
  }

  /** An octet decoded in front of those held. */
  lemma OctetJumpsAhead(s: Settings, p: Pipe) returns (ops: seq<Op>, q: Pipe)
    requires AtStart(p) && p.parser.Live() && !QuietTasks(p) && p.tail.prologue != []
    ensures Reaches(s, p, ops, q) && q.tail.Session? && !FedOrdered(q)
    ensures forall j :: 0 <= j < |ops| ==> ops[j].Receive? || ops[j].Data?
  {
    var b: byte := if p.tail.prologue[0] == 0 then 1 else 0;
    var mid;
    ops, mid, q := ReadsEarly(s, p, [b]);
    WW.DataWrites(s.session, mid.Sess(), [b]);
    assert [] + [b] == [b];
    assert (p.tail.prologue + [b])[0] == p.tail.prologue[0];
    hide WS.Conn.DataReceived, Reaches, NewItems;
  }

  lemma StartsStraight(p: Pipe)
    requires AtStart(p) && p.tail.prologue == []
    ensures Straight(p)
  {
  }

  lemma StraightIsOrdered(p: Pipe)
    requires p.tail.Session? && Straight(p)
    ensures FedOrdered(p)
  {
    assert [] + p.tail.conn.hist.arrived == p.tail.conn.hist.arrived;
  }

  /** Exactly when decoding stays in order on every later run whose accepts can be encoded: no
      application before the session that has not ended has a message left to receive, or nothing
      came behind the handshake with it. */
  lemma DecodingExactlyIfQuiet(s: Settings, p: Pipe)
    requires JustBegun(s, p)
    ensures (forall ops: seq<Op>, q: Pipe ::
               Reaches(s, p, ops, q) && AllWritable(ops) ==> q.tail.Session? && FedOrdered(q)) <==>
      QuietTasks(p) || p.tail.prologue == []
  {
    BegunFacts(s, p);
    hide JustBegun, Inv, Reaches, AllWritable, Orderly, Straight, FedOrdered;
    if QuietTasks(p) {
      StartsOrderly(p);
    } else if p.tail.prologue == [] {
      StartsStraight(p);
    }
    if QuietTasks(p) || p.tail.prologue == [] {
      forall ops: seq<Op>, q: Pipe | Reaches(s, p, ops, q) && AllWritable(ops) ensures q.tail.Session? && FedOrdered(q) {
        if QuietTasks(p) {
          RunOrderly(s, p, ops, q);
          OrderlyWire(q);
        } else {
          RunStraight(s, p, ops, q);
          StraightIsOrdered(q);
        }
      }
    } else {
      var ops, q := OctetJumpsAhead(s, p);
      EarlyIsWritable(ops);
    }
  }

  /** What a caller can see: when the handshake is the first request, everything stays in order. */
  lemma FirstRequestInOrder(s: Settings, p: Pipe, ops: seq<Op>, q: Pipe)
    requires JustBegun(s, p) && p.tasks == [] && Reaches(s, p, ops, q) && AllWritable(ops)
    ensures WireOrdered(q) && q.tail.Session? && FedOrdered(q)
  {
    hide JustBegun, Reaches, AllWritable, WireOrdered, FedOrdered;
    WireExactlyIfQuiet(s, p);
    DecodingExactlyIfQuiet(s, p);
  }
}
