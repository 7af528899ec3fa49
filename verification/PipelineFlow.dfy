/** When reading stops and goes on again. It stops only behind a queue that is above the resume mark,
    and it can go on exactly while some application is there that has a message left to take. */
module PipelineFlow {
  import opened Bytes
  import opened HttpParsing
  import opened HttpExchanges
  import opened Pipeline
  import opened PipelineTurns
  import opened PipelineBodies
  import PS = PipelineSent
  import PO = PipelineOrder

  predicate IsBacklog(s: Settings, t: Task) {
    |t.queue| > s.resumeMark
  }

  predicate Backlog(s: Settings, p: Pipe) {
    exists i :: 0 <= i < |p.tasks| && IsBacklog(s, p.tasks[i])
  }

  predicate IsShort(s: Settings, t: Task) {
    |t.queue| < s.pauseMark
  }

  predicate Short(s: Settings, p: Pipe) {
    forall i :: 0 <= i < |p.tasks| ==> IsShort(s, p.tasks[i])
  }

  /** Paused reading has a queue to blame; and with one request only, reading that is not paused
      has its queue below the pause mark. */
  predicate Flow(s: Settings, p: Pipe) {
    !p.tail.Session? ==>
      && (p.readingPaused ==> Backlog(s, p))
      && (|p.tasks| <= 1 && !p.disconnected && !p.readingPaused ==> Short(s, p))
  }

  predicate SameQueues(p: Pipe, q: Pipe) {
    && |q.tasks| == |p.tasks| && (forall i :: 0 <= i < |p.tasks| ==> q.tasks[i].queue == p.tasks[i].queue)
    && q.readingPaused == p.readingPaused && q.disconnected == p.disconnected
  }

  lemma SameFlow(s: Settings, p: Pipe, q: Pipe)
    requires Flow(s, p) && SameQueues(p, q) && (p.tail.Session? ==> q.tail.Session?)
    ensures Flow(s, q)
  {
    if !q.tail.Session? && q.readingPaused {
      var i :| 0 <= i < |p.tasks| && IsBacklog(s, p.tasks[i]);
      assert IsBacklog(s, q.tasks[i]);
    } else if !q.tail.Session? && |p.tasks| <= 1 && !p.disconnected {
      forall i | 0 <= i < |q.tasks| ensures IsShort(s, q.tasks[i]) {
        assert IsShort(s, p.tasks[i]);
      }
    }
  }

  // ---- steps other than input

  lemma TaskSame(s: Settings, p: Pipe, op: Op)
    requires Enabled(p, op) && IsTaskOp(op) && !op.Receive? && (p.disconnected ==> p.closed)
    ensures SameQueues(p, TaskPerform(s, p, op))
  {
    if PS.IsSilent(op) {
      hide Pipe.SendStart, Pipe.TurnArrives, Pipe.SendBody, Pipe.FinishBody;
    } else {
      PS.OwnStepBecomes(s, p, op);
      TaskStepIdle(s, p, op);
      hide TaskPerform, Enabled, Quiet;
    }
  }

  lemma ConnectionSame(p: Pipe, op: Op)
    requires Enabled(p, op) && !op.Data? && !IsTaskOp(op) && !IsSessionOp(op) && !op.ConnectionLost?
    ensures SameQueues(p, ConnectionPerform(p, op))
  {
    var q := ConnectionPerform(p, op);
    ConnectionTouches(p, op);
    hide *;
    SameTasksSame(p, q);
  }

  lemma AnswersTouch(p: Pipe)
    ensures var q := p.HeadTimeout(); q.tasks == p.tasks && q.readingPaused == p.readingPaused && q.disconnected == p.disconnected
    ensures p.tail.Failing? ==>
      var q := p.WriteFailure(); q.tasks == p.tasks && q.readingPaused == p.readingPaused && q.disconnected == p.disconnected
  {
  }

  lemma ConnectionTouches(p: Pipe, op: Op)
    requires Enabled(p, op) && !op.Data? && !IsTaskOp(op) && !IsSessionOp(op) && !op.ConnectionLost?
    ensures var q := ConnectionPerform(p, op);
      q.tasks == p.tasks && q.readingPaused == p.readingPaused && q.disconnected == p.disconnected
  {
    assert op.WriteFailure? ==> p.tail.Failing?;
    AnswersTouch(p);
    hide Enabled, Pipe.Lost, Pipe.HeadTimeout, Pipe.WriteFailure;
    match op {
      case WriteFailure =>
      case HeadTimeout =>
      case _ =>
    }
  }

  lemma SameTasksSame(p: Pipe, q: Pipe)
    requires q.tasks == p.tasks && q.readingPaused == p.readingPaused && q.disconnected == p.disconnected
    ensures SameQueues(p, q)
  {
  }

  lemma LostFlow(s: Settings, p: Pipe)
    requires Flow(s, p)
    ensures Flow(s, p.Lost())
  {
    var q := p.Lost();
    if !p.tail.Session? && p.readingPaused {
      var i :| 0 <= i < |p.tasks| && IsBacklog(s, p.tasks[i]);
      assert IsBacklog(s, q.tasks[i]);
    }
  }

  /** A message taken: reading goes on if that leaves the queue at the resume mark or below. */
  lemma Receives(s: Settings, p: Pipe, i: nat)
    requires i < |p.tasks| && (p.tasks[i].queue != [] || p.disconnected)
    ensures var q, t := p.Receive(s, i), p.tasks[i];
      && q.tail == p.tail && q.disconnected == p.disconnected && q.parser == p.parser
      && q.tasks == p.tasks[i := t.Taken()] && t.Taken().stage == t.stage
      && t.Taken().queue == (if t.queue == [] then [] else t.queue[1..])
      && q.readingPaused == (p.readingPaused && (t.queue == [] || |t.queue| - 1 > s.resumeMark))
  {
  }

  lemma ReceiveFlow(s: Settings, p: Pipe, i: nat)
    requires Flow(s, p) && i < |p.tasks| && (p.tasks[i].queue != [] || p.disconnected) && s.resumeMark < s.pauseMark
    ensures Flow(s, p.Receive(s, i))
  {
    Receives(s, p, i);
    hide Pipe.Receive, Task.Taken;
    var q, t := p.Receive(s, i), p.tasks[i];
    if !p.tail.Session? && q.readingPaused {
      var j :| 0 <= j < |p.tasks| && IsBacklog(s, p.tasks[j]);
      assert IsBacklog(s, q.tasks[if t.queue == [] then j else i]);
    } else if !p.tail.Session? && |p.tasks| <= 1 && !p.disconnected {
      assert p.readingPaused || IsShort(s, t);
      assert IsShort(s, q.tasks[i]);
    }
  }

  // ---- input

  lemma PushFlow(s: Settings, p: Pipe, m: Message)
    requires Flow(s, p) && s.resumeMark < s.pauseMark
    ensures Flow(s, p.PushChunk(s, m))
  {
    var q := p.PushChunk(s, m);
    if p.tasks != [] {
      var n := |p.tasks| - 1;
      var t := p.tasks[n];
      assert q.tasks == p.tasks[n := q.tasks[n]] && |q.tasks[n].queue| == |t.queue| + 1;
      assert q.tail == p.tail && q.disconnected == p.disconnected;
      assert q.readingPaused == (p.readingPaused || |t.queue| + 1 >= s.pauseMark);
      hide Pipe.PushChunk;
      if !p.tail.Session? && q.readingPaused {
        if p.readingPaused {
          var j :| 0 <= j < |p.tasks| && IsBacklog(s, p.tasks[j]);
          assert IsBacklog(s, q.tasks[j]);
        } else {
          assert IsBacklog(s, q.tasks[n]);
        }
      }
    }
  }

  lemma BeginFlow(s: Settings, p: Pipe, head: RequestHead)
    requires Flow(s, p) && s.resumeMark < s.pauseMark
    ensures Flow(s, p.BeginRequest(head))
  {
    var q := p.BeginRequest(head);
    if !p.tail.Session? && p.readingPaused {
      var i :| 0 <= i < |p.tasks| && IsBacklog(s, p.tasks[i]);
      assert IsBacklog(s, q.tasks[i]);
    }
  }

  lemma WebsocketFlow(s: Settings, p: Pipe, head: RequestHead)
    requires Flow(s, p) && !p.tail.Session?
    ensures Flow(s, p.BeginWebsocket(s, head))
  {
    var q := p.(parser := p.parser.(buffer := []));
    SameFlow(s, p, q);
    if s.handshake(head).Some? {
      FailFlow(s, q, s.handshake(head).value);
    } else {
      SessionBegins(q, p.parser.buffer);
      SessionFlow(s, q.BeginSession(p.parser.buffer));
    }
    hide Flow, Pipe.Fail, Pipe.BeginSession;
  }

  lemma SessionBegins(p: Pipe, prologue: Bytes)
    ensures p.BeginSession(prologue).tail.Session?
  {
  }

  lemma EventFlow(s: Settings, p: Pipe, e: Event)
    requires Flow(s, p) && !p.tail.Session? && s.resumeMark < s.pauseMark
    ensures Flow(s, p.HandleEvent(s, e))
  {
    hide Flow, Pipe.BeginRequest, Pipe.BeginWebsocket, Pipe.Fail, Pipe.PushChunk;
    var q := p.(handled := p.handled + [e]);
    SameFlow(s, p, q);
    match e {
      case HeadComplete(head) =>
        var r := q.(gotFirstHead := true, timerArmed := false);
        SameFlow(s, q, r);
        BeginFlow(s, r, head);
        WebsocketFlow(s, r, head);
        FailFlow(s, r, 501);
      case BodyChunk(data, more) => PushFlow(s, q, RequestBody(data, more));
      case RequestComplete =>
    }
  }

  lemma {:induction false} EventsFlow(s: Settings, p: Pipe, events: seq<Event>)
    requires Flow(s, p) && !p.tail.Session? && UpgradeLast(events) && s.resumeMark < s.pauseMark
    ensures Flow(s, p.HandleAll(s, events))
    decreases |events|
  {
    hide Flow, Pipe.HandleEvent;
    if events != [] {
      var q, rest := p.HandleEvent(s, events[0]), events[1..];
      EventFlow(s, p, events[0]);
      TailStays(s, p, events[0]);
      assert forall i :: 0 <= i < |rest| ==> rest[i] == events[i + 1];
      if rest == [] {
        assert q.HandleAll(s, rest) == q;
      } else {
        EventsFlow(s, q, rest);
      }
    }
  }

  lemma FailedFlow(s: Settings, p: Pipe, events: seq<Event>, status: nat)
    requires Flow(s, p) && !p.tail.Session? && s.resumeMark < s.pauseMark
    requires forall i :: 0 <= i < |events| ==> !IsUpgrade(events[i])
    ensures Flow(s, p.HandleAll(s, CompletedPrefix(events)).Fail(status))
  {
    hide Flow, Pipe.HandleAll, Pipe.Fail;
    var kept := CompletedPrefix(events);
    assert forall i :: 0 <= i < |kept| ==> kept[i] == events[i];
    EventsFlow(s, p, kept);
    NoUpgradeNoTail(s, p, kept);
    FailFlow(s, p.HandleAll(s, kept), status);
  }

  lemma FailFlow(s: Settings, p: Pipe, status: nat)
    requires Flow(s, p) && !p.tail.Session?
    ensures Flow(s, p.Fail(status))
  {
    SameFlow(s, p, p.Fail(status));
  }

  lemma DataFlow(s: Settings, p: Pipe, data: Bytes)
    requires Flow(s, p) && !p.tail.Session? && p.parser.Live() && s.resumeMark < s.pauseMark
    ensures Flow(s, p.DataReceived(s, data))
  {
    if !p.closed {
      var r := Drain(s.parser, p.parser.Received(data));
      var q := p.(parser := r.state, fed := p.fed + [data]);
      SameFlow(s, p, q);
      DrainUpgradeLast(s.parser, p.parser.Received(data));
      hide Flow, Drain, Pipe.HandleAll, Pipe.Fail;
      if r.error.None? {
        EventsFlow(s, q, r.events);
      } else {
        TwoErrors(r.error.value);
        FailedFlow(s, q, r.events, 400);
        FailedFlow(s, q, r.events, 413);
      }
    }
  }

  // ---- whole runs

  lemma OtherSame(s: Settings, p: Pipe, op: Op)
    requires Enabled(p, op) && !op.Data? && !IsSessionOp(op) && !op.Receive? && !op.ConnectionLost? && (p.disconnected ==> p.closed)
    requires p.parser.Live()
    ensures SameQueues(p, Perform(s, p, op))
  {
    hide SameQueues, Enabled, TaskPerform, ConnectionPerform;
    if IsTaskOp(op) {
      TaskSame(s, p, op);
    } else {
      ConnectionSame(p, op);
    }
  }

  lemma LostIsClosed(p: Pipe)
    requires Inv(false, p)
    ensures p.disconnected ==> p.closed
  {
  }

  lemma TakenAndLost(s: Settings, p: Pipe, op: Op)
    requires Enabled(p, op) && p.parser.Live() && (op.Receive? || op.ConnectionLost?)
    ensures if op.Receive? then
        && op.task < |p.tasks| && (p.tasks[op.task].queue != [] || p.disconnected)
        && Perform(s, p, op) == p.Receive(s, op.task)
      else Perform(s, p, op) == p.Lost()
  {
    hide Pipe.Receive, Pipe.Lost;
  }

  lemma SessionFlow(s: Settings, p: Pipe)
    requires p.tail.Session?
    ensures Flow(s, p)
  {
  }

  lemma SessionOpNeedsOne(p: Pipe, op: Op)
    requires Enabled(p, op) && IsSessionOp(op)
    ensures p.tail.Session?
  {
  }

  lemma StepFlow(s: Settings, p: Pipe, op: Op)
    requires Inv(false, p) && Flow(s, p) && Enabled(p, op) && p.parser.Live() && s.resumeMark < s.pauseMark
    ensures Flow(s, Perform(s, p, op))
  {
    hide Inv, Flow, Enabled, SameQueues, Perform;
    LostIsClosed(p);
    if p.tail.Session? {
      PS.SessionStays(s, p, op);
      SessionFlow(s, Perform(s, p, op));
    } else if op.Data? {
      DataFlow(s, p, op.data);
      DataIsReceived(s, p, op);
    } else if IsSessionOp(op) {
      SessionOpNeedsOne(p, op);
    } else if op.Receive? || op.ConnectionLost? {
      TakenAndLost(s, p, op);
      if op.Receive? {
        ReceiveFlow(s, p, op.task);
      } else {
        LostFlow(s, p);
      }
    } else {
      OtherSame(s, p, op);
      SameFlow(s, p, Perform(s, p, op));
    }
  }

  lemma DataIsReceived(s: Settings, p: Pipe, op: Op)
    requires Enabled(p, op) && p.parser.Live() && op.Data?
    ensures Perform(s, p, op) == p.DataReceived(s, op.data)
  {
    hide Pipe.DataReceived;
  }

  lemma {:induction false} RunFlow(s: Settings, p: Pipe, ops: seq<Op>, q: Pipe)
    requires Inv(false, p) && Flow(s, p) && Reaches(s, p, ops, q) && s.resumeMark < s.pauseMark
    ensures Flow(s, q)
    decreases |ops|
  {
    hide Inv, Flow, Perform, Enabled;
    if ops != [] {
      StepFlow(s, p, ops[0]);
      StepKeeps(false, s, p, ops[0]);
      RunFlow(s, Perform(s, p, ops[0]), ops[1..], q);
    }
  }

  /** Over every interleaving of a connection without a session: reading is paused only while some
      request's queue is above the resume mark; and as long as there is only one request and the
      connection is not lost, its queue is below the pause mark whenever reading is not paused. */
  lemma PausedMeansBacklog(s: Settings, ops: seq<Op>, p: Pipe)
    requires Reaches(s, Connected(), ops, p) && !p.tail.Session? && s.resumeMark < s.pauseMark
    ensures p.readingPaused ==> exists i :: 0 <= i < |p.tasks| && |p.tasks[i].queue| > s.resumeMark
    ensures |p.tasks| <= 1 && !p.disconnected && !p.readingPaused ==>
      forall i :: 0 <= i < |p.tasks| ==> |p.tasks[i].queue| < s.pauseMark
  {
    ConnectedInv(false);
    hide Inv, Reaches, Perform, Enabled;
    RunFlow(s, Connected(), ops, p);
    if p.readingPaused {
      var i :| 0 <= i < |p.tasks| && IsBacklog(s, p.tasks[i]);
    } else if |p.tasks| <= 1 && !p.disconnected {
      assert forall i :: 0 <= i < |p.tasks| ==> IsShort(s, p.tasks[i]);
    }
  }

  // ---- whether reading ever goes on

  /** Paused, and no application is left that could take a message. */
  predicate Stuck(p: Pipe) {
    p.readingPaused && QuietTasks(p) && !p.tail.Session?
  }

  lemma OtherStuck(s: Settings, p: Pipe, op: Op)
    requires Stuck(p) && Enabled(p, op) && p.parser.Live() && !op.Receive? && !IsSessionOp(op) && !op.Data? && !op.ConnectionLost?
    ensures Stuck(Perform(s, p, op))
  {
    if IsTaskOp(op) {
      PO.TaskStepSide(s, p, op);
      hide TaskPerform, Enabled;
    }
  }

  /** That, or lost. */
  predicate Over(p: Pipe) {
    Stuck(p) || (p.disconnected && !p.tail.Session?)
  }

  lemma ReceiveNeedsMessage(p: Pipe, op: Op)
    requires Enabled(p, op) && op.Receive? && !p.disconnected
    ensures !QuietTasks(p)
  {
    assert !QuietTask(p.tasks[op.task]);
  }

  lemma OverRefuses(p: Pipe, op: Op)
    requires Over(p) && Enabled(p, op)
    ensures !op.Data? && !IsSessionOp(op) && (op.Receive? ==> p.disconnected)
  {
    if op.Receive? && !p.disconnected {
      ReceiveNeedsMessage(p, op);
    }
  }

  lemma LostStays(s: Settings, p: Pipe, op: Op)
    requires p.disconnected && !p.tail.Session? && Enabled(p, op) && p.parser.Live() && !op.Data? && !IsSessionOp(op)
    ensures Perform(s, p, op).disconnected && !Perform(s, p, op).tail.Session?
  {
    if IsTaskOp(op) {
      if op.Receive? {
        TakenAndLost(s, p, op);
        Receives(s, p, op.task);
      } else {
        PO.TaskStepSide(s, p, op);
      }
      hide TaskPerform, Enabled, Pipe.Receive;
    }
  }

  lemma LossIsOver(s: Settings, p: Pipe)
    requires p.parser.Live() && !p.tail.Session? && Enabled(p, Op.ConnectionLost)
    ensures Over(Perform(s, p, Op.ConnectionLost))
  {
    hide LoseAll;
  }

  lemma OverStays(s: Settings, p: Pipe, op: Op)
    requires Over(p) && Enabled(p, op) && p.parser.Live()
    ensures Over(Perform(s, p, op))
  {
    OverRefuses(p, op);
    hide Enabled, Perform, QuietTasks;
    if p.disconnected {
      LostStays(s, p, op);
    } else if op.ConnectionLost? {
      LossIsOver(s, p);
    } else {
      OtherStuck(s, p, op);
    }
  }

  lemma {:induction false} RunStaysOver(s: Settings, p: Pipe, ops: seq<Op>, q: Pipe)
    requires Over(p) && Reaches(s, p, ops, q)
    ensures Over(q)
    decreases |ops|
  {
    hide Over, Perform, Enabled;
    if ops != [] {
      OverStays(s, p, ops[0]);
      RunStaysOver(s, Perform(s, p, ops[0]), ops[1..], q);
    }
  }

  /** An application that takes what is queued for it makes reading go on, and after as many messages
      as are above the resume mark, or after one. */
  lemma {:induction false} ReceivesResume(s: Settings, p: Pipe, i: nat) returns (ops: seq<Op>, q: Pipe)
    requires p.readingPaused && p.parser.Live() && i < |p.tasks| && !QuietTask(p.tasks[i])
    ensures Reaches(s, p, ops, q) && !q.readingPaused && q.disconnected == p.disconnected
    ensures forall k :: 0 <= k < |ops| ==> ops[k] == Op.Receive(i)
    ensures |ops| == if |p.tasks[i].queue| > s.resumeMark then |p.tasks[i].queue| - s.resumeMark else 1
    decreases |p.tasks[i].queue|
  {
    var op := Op.Receive(i);
    var r, t := p.Receive(s, i), p.tasks[i];
    assert Enabled(p, op) && Perform(s, p, op) == r;
    Receives(s, p, i);
    hide Pipe.Receive, Task.Taken, Perform, Enabled;
    if r.readingPaused {
      ops, q := ReceivesResume(s, r, i);
      ops := [op] + ops;
    } else {
      ops, q := [op], r;
    }
  }

  /** Reading that is paused can go on, before the connection is lost, exactly when some application
      that has not ended has a message left: one that ends without its body stops the connection. */
  lemma ResumesIffBacklogIsRead(s: Settings, p: Pipe)
    requires p.readingPaused && p.parser.Live() && !p.tail.Session? && !p.disconnected
    ensures (exists ops: seq<Op>, q: Pipe :: Reaches(s, p, ops, q) && !q.disconnected && !q.readingPaused) <==> !QuietTasks(p)
  {
    if QuietTasks(p) {
      forall ops: seq<Op>, q: Pipe | Reaches(s, p, ops, q) && !q.disconnected ensures q.readingPaused {
        RunStaysOver(s, p, ops, q);
      }
    } else {
      var i :| 0 <= i < |p.tasks| && !QuietTask(p.tasks[i]);
      var ops, q := ReceivesResume(s, p, i);
    }
  }
}
