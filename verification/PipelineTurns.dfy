/** The write turnstile: whatever the interleaving of tasks, the wire holds whole
    responses in request order, the last possibly partial, and an error response only
    behind all of them. */
module PipelineTurns {
  import opened Bytes
  import opened Wrappers
  import opened HttpText
  import opened HttpParsing
  import opened HttpExchanges
  import opened Pipeline
  import WS = WsSession
  import WW = WsWrites

  /** Everything that passed its turn, request by request. */
  function Flat(tasks: seq<Task>): seq<WireItem>
    decreases |tasks|
  {
    if tasks == [] then [] else Flat(tasks[..|tasks| - 1]) + tasks[|tasks| - 1].sent
  }

  /** A response of request i: nothing yet, or its head and body parts. */
  predicate ResponseShape(i: nat, sent: seq<WireItem>) {
    sent != [] ==>
      && sent[0].ResponseHead? && sent[0].task == i
      && forall j :: 1 <= j < |sent| ==> sent[j].ResponseBody? && sent[j].task == i
  }

  predicate AllComplete(tasks: seq<Task>, k: nat)
    requires k <= |tasks|
  {
    forall j :: 0 <= j < k ==> tasks[j].complete
  }

  /** What may follow the last response. */
  predicate TailWire(tail: Tail, wire: seq<WireItem>) {
    || wire == []
    || (tail.Failing? && wire == [FailureResponse(tail.status)])
    || (tail.Session? && wire == Items(tail.conn.hist.wire))
    || (tail.TimedOut? && wire == [TimeoutResponse])
  }

  /** The wire is the first k responses, whole, and then n items of response k, or, when k
      is all of them, what follows the last. */
  predicate ShapeAt(tasks: seq<Task>, tail: Tail, wire: seq<WireItem>, k: nat, n: nat) {
    && k <= |tasks| && AllComplete(tasks, k)
    && if k < |tasks| then n <= |tasks[k].sent| && wire == Flat(tasks[..k]) + tasks[k].sent[..n]
       else |Flat(tasks)| <= |wire| && wire[..|Flat(tasks)|] == Flat(tasks) && TailWire(tail, wire[|Flat(tasks)|..])
  }

  /** While the transport is open, all that passed its turn is on the wire. */
  predicate OpenWire(p: Pipe) {
    var more := if p.tail.Session? then Items(p.tail.conn.hist.wire) else [];
    && p.wire == Flat(p.tasks) + more
    && (more != [] ==> AllComplete(p.tasks, |p.tasks|))
    && !p.tail.TimedOut? && !(p.tail.Failing? && p.tail.written)
  }

  function LastDone(tasks: seq<Task>): nat {
    if tasks == [] then 0 else tasks[|tasks| - 1].done
  }

  predicate LinkOk(tasks: seq<Task>, i: nat)
    requires i < |tasks|
  {
    && tasks[i].turn == (if i == 0 then 0 else tasks[i - 1].done)
    && tasks[i].turn < tasks[i].done
  }

  /** Each request's turn is the completion of the one before. */
  predicate Links(tasks: seq<Task>) {
    forall i :: 0 <= i < |tasks| ==> LinkOk(tasks, i)
  }

  predicate Chain(p: Pipe) {
    && Links(p.tasks)
    && 0 in p.fired && LastDone(p.tasks) < p.nextEvent
    && (forall e :: e in p.fired ==> e < p.nextEvent)
    && (!p.tail.Session? ==> p.turnstile == LastDone(p.tasks))
    && (p.tail.Failing? || p.tail.Session? ==> p.tail.turn == LastDone(p.tasks))
  }

  /** One task's stage, its event and what it sent go together. */
  predicate TaskOk(p: Pipe, i: nat)
    requires i < |p.tasks|
  {
    var t := p.tasks[i];
    && (t.done in p.fired <==> t.complete || t.stage.Gone?)
    && (t.complete ==> t.sent != [] && t.started && !t.stage.AwaitTurn? && !t.stage.Draining?)
    && (t.stage.AwaitTurn? ==> t.started && t.sent == [])
    && (t.stage.Draining? || (t.stage.Running? && t.started) ==> t.sent != [])
    && (t.sent != [] ==> t.started && t.turn in p.fired)
    && (t.stage.Returned? ==> t.complete)
    && (t.stage.Cancelled? ==> p.disconnected)
    && (t.stage.Gone? && !p.closing ==> t.complete)
    && ResponseShape(i, t.sent)
  }

  predicate Flags(p: Pipe) {
    && p.parser.Live()
    && (p.disconnected ==> p.closing && p.closed)
    && (p.tail.Failing? || p.tail.TimedOut? ==> p.closed)
    && (p.closed ==> p.disconnected || p.tail.Failing? || p.tail.TimedOut?)
    && (p.timerArmed && !p.gotFirstHead ==> p.tasks == [] && p.tail.NoTail?)
  }

  ghost predicate WireInv(p: Pipe) {
    && (!p.closing ==> OpenWire(p))
    && (p.closing ==> exists k, n :: ShapeAt(p.tasks, p.tail, p.wire, k, n))
  }

  /** No earlier task can take a message, so none can make reading go on. */
  predicate QuietTasks(p: Pipe) {
    forall i :: 0 <= i < |p.tasks| ==> QuietTask(p.tasks[i])
  }

  predicate QuietTask(t: Task) {
    t.Ended() || t.queue == []
  }

  /** The session has written nothing yet, and can write nothing before its turn. */
  predicate Waiting(p: Pipe)
    requires p.tail.Session?
  {
    && p.readingPaused && QuietTasks(p)
    && p.tail.conn.wsState != Some(WS.Connected) && p.tail.conn.hist.wire == [] && !p.tail.conn.pingArmed
  }

  /** A session that is there may write, cannot write, or has nothing to write yet. */
  predicate Held(p: Pipe) {
    p.tail.Session? ==> p.closing || p.tail.turn in p.fired || Waiting(p)
  }

  /** A session that has just begun has its turn already, or cannot write, or no earlier task can
      make reading go on. */
  predicate Timely(p: Pipe) {
    p.tail.Session? ==> p.closing || p.tail.turn in p.fired || QuietTasks(p)
  }

  /** What every step keeps on any run, and with `timely` what it keeps on runs whose session, if
      any, began in time. */
  ghost predicate Inv(timely: bool, p: Pipe) {
    && Chain(p) && Flags(p) && (timely ==> WireInv(p) && Held(p))
    && forall i :: 0 <= i < |p.tasks| ==> TaskOk(p, i)
  }

  // ---- order

  /** Completion events are numbered in request order. */
  lemma {:induction false} DoneIncreases(tasks: seq<Task>, i: nat, j: nat)
    requires Links(tasks) && i < j < |tasks|
    ensures tasks[i].done < tasks[j].done
    decreases j
  {
    assert LinkOk(tasks, j);
    if i < j - 1 {
      DoneIncreases(tasks, i, j - 1);
    }
  }

  lemma LinksSame(a: seq<Task>, b: seq<Task>)
    requires Links(a) && |a| == |b|
    requires forall i :: 0 <= i < |a| ==> b[i].turn == a[i].turn && b[i].done == a[i].done
    ensures Links(b) && LastDone(b) == LastDone(a)
  {
    forall i | 0 <= i < |b| ensures LinkOk(b, i) {
      assert LinkOk(a, i);
    }
  }

  lemma {:induction false} FlatSame(a: seq<Task>, b: seq<Task>)
    requires |a| == |b| && forall i :: 0 <= i < |a| ==> a[i].sent == b[i].sent
    ensures Flat(a) == Flat(b)
    decreases |a|
  {
    if a != [] {
      FlatSame(a[..|a| - 1], b[..|b| - 1]);
    }
  }

  lemma FlatGrow(tasks: seq<Task>, t: Task)
    ensures Flat(tasks + [t]) == Flat(tasks) + t.sent
  {
    assert (tasks + [t])[..|tasks|] == tasks;
  }

  /** A task none of whose successors has sent anything appends at the end. */
  lemma {:induction false} FlatAppend(tasks: seq<Task>, i: nat, t: Task, item: WireItem)
    requires i < |tasks| && t.sent == tasks[i].sent + [item]
    requires forall j :: i < j < |tasks| ==> tasks[j].sent == []
    ensures Flat(tasks[i := t]) == Flat(tasks) + [item]
    decreases |tasks|
  {
    var n := |tasks| - 1;
    if i == n {
      FlatSame(tasks[i := t][..n], tasks[..n]);
    } else {
      FlatAppend(tasks[..n], i, t, item);
      assert tasks[i := t][..n] == tasks[..n][i := t];
    }
  }

  /** While the transport is open, a finished request has only finished ones before it. */
  lemma {:induction false} FinishedInOrder(p: Pipe, i: nat, j: nat)
    requires Chain(p) && !p.closing && forall m :: 0 <= m < |p.tasks| ==> TaskOk(p, m)
    requires i <= j < |p.tasks| && p.tasks[j].complete
    ensures p.tasks[i].complete
    decreases j
  {
    if i < j {
      assert TaskOk(p, j) && TaskOk(p, j - 1) && LinkOk(p.tasks, j);
      FinishedInOrder(p, i, j - 1);
    }
  }

  /** While the transport is open, at most the first unfinished request has sent anything. */
  lemma UnfinishedIsLast(p: Pipe, i: nat, j: nat)
    requires Chain(p) && !p.closing && forall m :: 0 <= m < |p.tasks| ==> TaskOk(p, m)
    requires i < j < |p.tasks| && !p.tasks[i].complete
    ensures p.tasks[j].sent == []
  {
    assert TaskOk(p, j) && TaskOk(p, j - 1) && LinkOk(p.tasks, j);
    if p.tasks[j].sent != [] {
      FinishedInOrder(p, i, j - 1);
    }
  }

  /** An open wire has the promised shape. */
  lemma OpenShape(p: Pipe) returns (k: nat, n: nat)
    requires Chain(p) && !p.closing && OpenWire(p) && forall m :: 0 <= m < |p.tasks| ==> TaskOk(p, m)
    ensures ShapeAt(p.tasks, p.tail, p.wire, k, n)
  {
    k := FirstUnfinished(p.tasks);
    if k == |p.tasks| {
      n := 0;
      assert p.tail.Session? ==> p.wire[|Flat(p.tasks)|..] == Items(p.tail.conn.hist.wire);
    } else {
      n := |p.tasks[k].sent|;
      forall j | k < j < |p.tasks| ensures p.tasks[j].sent == [] {
        UnfinishedIsLast(p, k, j);
      }
      FlatUpTo(p.tasks, k);
      assert p.wire == Flat(p.tasks) + [];
    }
  }

  lemma {:induction false} FirstUnfinished(tasks: seq<Task>) returns (k: nat)
    ensures k <= |tasks| && AllComplete(tasks, k) && (k < |tasks| ==> !tasks[k].complete)
    decreases |tasks|
  {
    if tasks == [] {
      k := 0;
    } else {
      k := FirstUnfinished(tasks[..|tasks| - 1]);
      assert forall j :: 0 <= j < k ==> tasks[j] == tasks[..|tasks| - 1][j];
      if k == |tasks| - 1 && tasks[k].complete {
        k := k + 1;
      }
    }
  }

  lemma {:induction false} FlatUpTo(tasks: seq<Task>, k: nat)
    requires k < |tasks| && forall j :: k < j < |tasks| ==> tasks[j].sent == []
    ensures Flat(tasks) == Flat(tasks[..k]) + tasks[k].sent
    decreases |tasks|
  {
    var n := |tasks| - 1;
    if k < n {
      FlatUpTo(tasks[..n], k);
      assert tasks[..n][..k] == tasks[..k];
    }
  }

  // ---- steps and the wire

  /** The shape survives when responses only grow and finished ones do not change. */
  lemma ShapeGrows(a: seq<Task>, b: seq<Task>, tail: Tail, tail': Tail, wire: seq<WireItem>, k: nat, n: nat)
    requires ShapeAt(a, tail, wire, k, n)
    requires |a| == |b|
    requires forall i :: 0 <= i < |a| ==> a[i].sent <= b[i].sent && (a[i].complete ==> b[i].complete && b[i].sent == a[i].sent)
    requires tail' == tail || tail == NoTail || (tail.Failing? && tail' == tail.(written := true))
      || (tail.Session? && tail'.Session? && tail'.conn.hist.wire == tail.conn.hist.wire)
    ensures ShapeAt(b, tail', wire, k, n)
  {
    if k < |a| {
      FlatSame(a[..k], b[..k]);
      assert b[k].sent[..n] == a[k].sent[..n];
    } else {
      FlatSame(a, b);
    }
  }

  /** A step that puts nothing on the wire. */
  lemma QuietWire(timely: bool, p: Pipe, q: Pipe)
    requires Chain(p) && (timely ==> WireInv(p)) && forall i :: 0 <= i < |p.tasks| ==> TaskOk(p, i)
    requires q.wire == p.wire && |q.tasks| == |p.tasks| && (p.closing ==> q.closing)
    requires q.tail == p.tail || (p.tail.Session? && q.tail.Session? && q.tail.conn.hist.wire == p.tail.conn.hist.wire)
    requires forall i :: 0 <= i < |p.tasks| ==>
      q.tasks[i].sent == p.tasks[i].sent && (p.tasks[i].complete ==> q.tasks[i].complete)
    ensures timely ==> WireInv(q)
  {
    FlatSame(p.tasks, q.tasks);
    if timely && q.closing {
      var k, n;
      if p.closing {
        k, n :| ShapeAt(p.tasks, p.tail, p.wire, k, n);
      } else {
        k, n := OpenShape(p);
      }
      ShapeGrows(p.tasks, q.tasks, p.tail, q.tail, p.wire, k, n);
    }
  }

  /** A task in its turn puts one item on the wire, unless the transport is closing. */
  lemma SendWire(timely: bool, p: Pipe, i: nat, t: Task, item: WireItem)
    requires Chain(p) && (timely ==> WireInv(p)) && forall i :: 0 <= i < |p.tasks| ==> TaskOk(p, i)
    requires i < |p.tasks| && !p.tasks[i].complete && p.tasks[i].turn in p.fired
    requires t.sent == p.tasks[i].sent + [item] && !t.complete
    ensures timely ==> WireInv(p.WithTask(i, t).Write(item))
  {
    var q := p.WithTask(i, t).Write(item);
    if timely && p.closing {
      var k, n :| ShapeAt(p.tasks, p.tail, p.wire, k, n);
      ShapeGrows(p.tasks, q.tasks, p.tail, q.tail, p.wire, k, n);
    } else if timely {
      OpenSend(p, i, t, item);
      hide WireInv;
    }
  }

  lemma OpenSend(p: Pipe, i: nat, t: Task, item: WireItem)
    requires Chain(p) && !p.closing && OpenWire(p) && forall i :: 0 <= i < |p.tasks| ==> TaskOk(p, i)
    requires i < |p.tasks| && !p.tasks[i].complete && t.sent == p.tasks[i].sent + [item] && !t.complete
    ensures OpenWire(p.WithTask(i, t).Write(item)) && WireInv(p.WithTask(i, t).Write(item))
  {
    forall j | i < j < |p.tasks| ensures p.tasks[j].sent == [] {
      UnfinishedIsLast(p, i, j);
    }
    hide Chain, TaskOk;
    FlatAppend(p.tasks, i, t, item);
    assert p.wire == Flat(p.tasks) + [];
  }

  /** Once the last event is set every response is whole, as long as the transport is open. */
  lemma AllDone(p: Pipe)
    requires Chain(p) && !p.closing && forall i :: 0 <= i < |p.tasks| ==> TaskOk(p, i)
    requires LastDone(p.tasks) in p.fired
    ensures AllComplete(p.tasks, |p.tasks|)
  {
    if p.tasks != [] {
      var last := |p.tasks| - 1;
      assert TaskOk(p, last);
      forall j | 0 <= j < |p.tasks| ensures p.tasks[j].complete {
        FinishedInOrder(p, j, last);
      }
    }
  }

  // ---- every step keeps the invariant

  /** What a step of one task leaves alone. */
  predicate OnlyTask(p: Pipe, q: Pipe, i: nat)
    requires i < |p.tasks|
  {
    && |q.tasks| == |p.tasks| && q.tasks == p.tasks[i := q.tasks[i]]
    && q.tasks[i].turn == p.tasks[i].turn && q.tasks[i].done == p.tasks[i].done
    && (q.fired == p.fired || q.fired == p.fired + {p.tasks[i].done})
    && (p.closing ==> q.closing)
    && q.(tasks := p.tasks, fired := p.fired, closing := p.closing, wire := p.wire, readingPaused := p.readingPaused) == p
  }

  /** A task that can take no message still cannot, and reading is as it was. */
  predicate Mild(p: Pipe, q: Pipe, i: nat)
    requires i < |p.tasks| && |q.tasks| == |p.tasks|
  {
    QuietTask(p.tasks[i]) ==> QuietTask(q.tasks[i]) && q.readingPaused == p.readingPaused
  }

  /** What a step that is none of the session's must respect. */
  predicate StaysQuiet(p: Pipe, q: Pipe) {
    && |q.tasks| == |p.tasks| && (forall i :: 0 <= i < |p.tasks| && QuietTask(p.tasks[i]) ==> QuietTask(q.tasks[i]))
    && (p.readingPaused && QuietTasks(p) ==> q.readingPaused)
  }

  lemma StillHeld(p: Pipe, q: Pipe)
    requires Held(p) && q.tail == p.tail && p.fired <= q.fired && (p.closing ==> q.closing)
    requires p.tail.Session? ==> q.closing || StaysQuiet(p, q)
    ensures Held(q)
  {
  }

  lemma OneTaskKeeps(timely: bool, p: Pipe, q: Pipe, i: nat)
    requires Inv(timely, p) && i < |p.tasks| && OnlyTask(p, q, i)
    requires !p.tail.Session? || p.closing || Mild(p, q, i)
    requires TaskOk(q, i) && (timely ==> WireInv(q))
    ensures Inv(timely, q)
  {
    if timely {
      StillHeld(p, q);
    }
    hide WireInv, Held;
    LinksSame(p.tasks, q.tasks);
    forall j | 0 <= j < |q.tasks| ensures TaskOk(q, j) {
      assert TaskOk(p, j);
      if j < i {
        DoneIncreases(p.tasks, j, i);
      } else if i < j {
        DoneIncreases(p.tasks, i, j);
      }
    }
    DoneBelowNext(p, i);
  }

  lemma DoneBelowNext(p: Pipe, i: nat)
    requires Chain(p) && i < |p.tasks|
    ensures p.tasks[i].done < p.nextEvent
  {
    if i < |p.tasks| - 1 {
      DoneIncreases(p.tasks, i, |p.tasks| - 1);
    }
  }

  /** Tasks untouched stay sound while flags only rise. */
  lemma SameTasks(p: Pipe, q: Pipe)
    requires forall i :: 0 <= i < |p.tasks| ==> TaskOk(p, i)
    requires q.tasks == p.tasks && q.fired == p.fired
    requires (p.disconnected ==> q.disconnected) && (p.closing ==> q.closing)
    ensures forall i :: 0 <= i < |q.tasks| ==> TaskOk(q, i)
  {
    forall i | 0 <= i < |q.tasks| ensures TaskOk(q, i) {
      assert TaskOk(p, i);
    }
  }

  /** A step of one task that sends nothing and keeps what it had. */
  lemma QuietTaskKeeps(timely: bool, p: Pipe, q: Pipe, i: nat)
    requires Inv(timely, p) && i < |p.tasks| && OnlyTask(p, q, i) && q.wire == p.wire
    requires q.tasks[i].sent == p.tasks[i].sent && (p.tasks[i].complete ==> q.tasks[i].complete)
    requires !p.tail.Session? || p.closing || Mild(p, q, i)
    requires TaskOk(q, i)
    ensures Inv(timely, q)
  {
    QuietWire(timely, p, q) by {
      assert forall j :: 0 <= j < |p.tasks| && j != i ==> q.tasks[j] == p.tasks[j];
    }
    OneTaskKeeps(timely, p, q, i);
  }

  lemma TurnArrivesKeeps(timely: bool, p: Pipe, i: nat)
    requires Inv(timely, p) && i < |p.tasks| && p.tasks[i].stage.AwaitTurn? && p.tasks[i].turn in p.fired
    ensures Inv(timely, p.TurnArrives(i))
  {
    assert TaskOk(p, i);
    var item := ResponseHead(i, p.tasks[i].stage.status, p.tasks[i].close);
    SendWire(timely, p, i, p.tasks[i].(stage := Running, sent := p.tasks[i].sent + [item]), item);
    OneTaskKeeps(timely, p, p.TurnArrives(i), i);
  }

  lemma SendStartKeeps(timely: bool, p: Pipe, i: nat, status: int, headersOk: bool, declaresLength: bool)
    requires Inv(timely, p) && IsRunning(p, i) && !p.tasks[i].complete
    ensures Inv(timely, p.SendStart(i, status, headersOk, declaresLength))
  {
    hide Inv, ClientRequestedClose;
    var t := p.tasks[i];
    if t.started {
      StageKeeps(timely, p, i, Erred);
    } else if !headersOk {
      BadHead(timely, p, i);
    } else {
      var close := ClientRequestedClose(t.head) || !declaresLength || p.shouldExit;
      HeadWaits(timely, p, i, status, close);
      if t.turn in p.fired {
        TurnArrivesKeeps(timely, p.WithTask(i, t.(started := true, close := close, stage := AwaitTurn(status))), i);
      }
    }
  }

  lemma BadHead(timely: bool, p: Pipe, i: nat)
    requires Inv(timely, p) && IsRunning(p, i) && !p.tasks[i].complete && !p.tasks[i].started
    ensures Inv(timely, p.WithTask(i, p.tasks[i].(started := true, stage := Erred)))
  {
    hide WireInv, Chain;
    assert TaskOk(p, i);
    QuietTaskKeeps(timely, p, p.WithTask(i, p.tasks[i].(started := true, stage := Erred)), i);
  }

  lemma HeadWaits(timely: bool, p: Pipe, i: nat, status: int, close: bool)
    requires Inv(timely, p) && IsRunning(p, i) && !p.tasks[i].complete && !p.tasks[i].started
    ensures Inv(timely, p.WithTask(i, p.tasks[i].(started := true, close := close, stage := AwaitTurn(status))))
  {
    hide WireInv, Chain;
    assert TaskOk(p, i);
    QuietTaskKeeps(timely, p, p.WithTask(i, p.tasks[i].(started := true, close := close, stage := AwaitTurn(status))), i);
  }

  lemma LastPartKeeps(timely: bool, p: Pipe, i: nat)
    requires Inv(timely, p) && i < |p.tasks| && !p.tasks[i].complete && p.tasks[i].started
    requires p.tasks[i].stage.Running? || p.tasks[i].stage.Draining?
    ensures Inv(timely, p.FinishBody(i, false))
  {
    hide WireInv, Chain;
    assert TaskOk(p, i);
    var q := p.FinishBody(i, false);
    assert q.tasks[i] == p.tasks[i].(stage := Running, complete := true);
    assert p.tasks[i].done in q.fired;
    assert p.tasks[i].turn in q.fired;
    assert TaskOk(q, i);
    hide TaskOk;
    QuietTaskKeeps(timely, p, q, i);
  }

  lemma FinishBodyKeeps(timely: bool, p: Pipe, i: nat, more: bool)
    requires Inv(timely, p) && i < |p.tasks| && !p.tasks[i].complete && p.tasks[i].started
    requires p.tasks[i].stage.Running? || p.tasks[i].stage.Draining?
    ensures Inv(timely, p.FinishBody(i, more))
  {
    if more {
      hide WireInv, Chain;
      assert TaskOk(p, i);
      QuietTaskKeeps(timely, p, p.FinishBody(i, true), i);
    } else {
      LastPartKeeps(timely, p, i);
    }
  }

  lemma SendBodyKeeps(timely: bool, p: Pipe, i: nat, data: Bytes, more: bool)
    requires Inv(timely, p) && IsRunning(p, i) && !p.tasks[i].complete
    ensures Inv(timely, p.SendBody(i, data, more))
  {
    hide Inv, Pipe.FinishBody;
    var t := p.tasks[i];
    if !t.started {
      StageKeeps(timely, p, i, Erred);
    } else if data == [] {
      FinishBodyKeeps(timely, p, i, more);
    } else {
      var item := ResponseBody(i, data);
      var q := p.WithTask(i, t.(sent := t.sent + [item])).Write(item);
      BodyItemKeeps(timely, p, i, item);
      if p.pausedWriting && !p.closing {
        MustDrain(timely, q, i, more);
      } else {
        FinishBodyKeeps(timely, q, i, more);
      }
    }
  }

  lemma MustDrain(timely: bool, p: Pipe, i: nat, more: bool)
    requires Inv(timely, p) && IsRunning(p, i) && !p.tasks[i].complete && p.tasks[i].sent != []
    ensures Inv(timely, p.WithTask(i, p.tasks[i].(stage := Draining(more))))
  {
    hide WireInv, Chain;
    assert TaskOk(p, i);
    QuietTaskKeeps(timely, p, p.WithTask(i, p.tasks[i].(stage := Draining(more))), i);
  }

  lemma BodyItemKeeps(timely: bool, p: Pipe, i: nat, item: WireItem)
    requires Inv(timely, p) && IsRunning(p, i) && !p.tasks[i].complete && p.tasks[i].started
    requires item.ResponseBody? && item.task == i
    ensures Inv(timely, p.WithTask(i, p.tasks[i].(sent := p.tasks[i].sent + [item])).Write(item))
  {
    assert TaskOk(p, i);
    var t := p.tasks[i].(sent := p.tasks[i].sent + [item]);
    SendWire(timely, p, i, t, item);
    OneTaskKeeps(timely, p, p.WithTask(i, t).Write(item), i);
  }

  lemma TaskDoneKeeps(timely: bool, p: Pipe, i: nat)
    requires Inv(timely, p) && i < |p.tasks| && p.tasks[i].Ended()
    ensures Inv(timely, p.TaskDone(i))
  {
    hide WireInv, Chain;
    assert TaskOk(p, i);
    QuietTaskKeeps(timely, p, p.TaskDone(i), i);
  }

  lemma WriteFailureKeeps(timely: bool, p: Pipe)
    requires Inv(timely, p) && p.tail.Failing? && !p.tail.written && p.tail.turn in p.fired
    ensures Inv(timely, p.WriteFailure())
  {
    var q := p.WriteFailure();
    assert q.tail == p.tail.(written := true) && q.tasks == p.tasks && q.fired == p.fired && (p.closing ==> q.closing);
    assert q.(wire := p.wire, tail := p.tail, closing := p.closing) == p;
    hide WireInv, Pipe.WriteFailure;
    if timely {
      WriteFailureWire(p);
    }
    SameTasks(p, q);
    ChainSame(p, q);
    hide Chain, TaskOk;
  }

  lemma ChainSame(p: Pipe, q: Pipe)
    requires Chain(p) && q.tasks == p.tasks && q.fired == p.fired && q.nextEvent == p.nextEvent && q.turnstile == p.turnstile
    requires q.tail == p.tail || (p.tail.Failing? && q.tail.Failing? && q.tail.turn == p.tail.turn)
    ensures Chain(q)
  {
  }

  lemma WriteFailureWire(p: Pipe)
    requires Chain(p) && WireInv(p) && p.tail.Failing? && !p.tail.written && p.tail.turn in p.fired
    requires forall i :: 0 <= i < |p.tasks| ==> TaskOk(p, i)
    ensures WireInv(p.WriteFailure())
  {
    var q := p.WriteFailure();
    if p.closing {
      var k, n :| ShapeAt(p.tasks, p.tail, p.wire, k, n);
      ShapeGrows(p.tasks, q.tasks, p.tail, q.tail, p.wire, k, n);
    } else {
      AllDone(p);
      var more := [FailureResponse(p.tail.status)];
      assert p.wire == Flat(p.tasks) && q.wire == Flat(p.tasks) + more;
      BehindAll(p.tasks, q.tail, more);
      assert ShapeAt(q.tasks, q.tail, q.wire, |p.tasks|, 0);
    }
  }

  lemma BehindAll(tasks: seq<Task>, tail: Tail, more: seq<WireItem>)
    requires AllComplete(tasks, |tasks|) && TailWire(tail, more)
    ensures ShapeAt(tasks, tail, Flat(tasks) + more, |tasks|, 0)
  {
    var wire := Flat(tasks) + more;
    assert wire[..|Flat(tasks)|] == Flat(tasks) && wire[|Flat(tasks)|..] == more;
    hide Flat;
  }

  lemma HeadTimeoutKeeps(timely: bool, p: Pipe)
    requires Inv(timely, p) && p.timerArmed
    ensures Inv(timely, p.HeadTimeout())
  {
    var q := p.HeadTimeout();
    SameTasks(p, q);
    if p.gotFirstHead || p.closing {
      QuietWire(timely, p, q);
    } else if timely {
      assert p.wire == [] && q.wire == [TimeoutResponse] == q.wire[0..];
      assert ShapeAt(q.tasks, q.tail, q.wire, 0, 0);
    }
  }

  lemma LostKeeps(timely: bool, p: Pipe)
    requires Inv(timely, p)
    ensures Inv(timely, p.Lost())
  {
    var q := p.Lost();
    QuietWire(timely, p, q);
    LinksSame(p.tasks, q.tasks);
    hide WireInv, Links;
    forall i | 0 <= i < |q.tasks| ensures TaskOk(q, i) {
      assert TaskOk(p, i);
      assert q.tasks[i] == p.tasks[i].Disconnected();
    }
  }

  /** A flag that nothing here reads, or the transport starting to close. */
  lemma FlagKeeps(timely: bool, p: Pipe, shouldExit: bool, pausedWriting: bool, closing: bool)
    requires Inv(timely, p) && (p.closing ==> closing)
    ensures Inv(timely, p.(shouldExit := shouldExit, pausedWriting := pausedWriting, closing := closing))
  {
    var q := p.(shouldExit := shouldExit, pausedWriting := pausedWriting, closing := closing);
    QuietWire(timely, p, q);
    hide WireInv;
    SameTasks(p, q);
  }

  // ---- parsed events

  lemma BeginShape(tasks: seq<Task>, t: Task, wire: seq<WireItem>, k: nat, n: nat)
    requires ShapeAt(tasks, NoTail, wire, k, n) && t.sent == []
    ensures ShapeAt(tasks + [t], NoTail, wire, k, if k < |tasks| then n else 0)
  {
    var more := tasks + [t];
    assert more[..k] == tasks[..k];
    if k == |tasks| {
      assert tasks[..k] == tasks;
      assert wire == wire[..|Flat(tasks)|] + wire[|Flat(tasks)|..];
    }
  }

  lemma BeginKeeps(timely: bool, p: Pipe, head: RequestHead)
    requires Inv(timely, p) && p.tail.NoTail? && p.gotFirstHead
    ensures Inv(timely, p.BeginRequest(head))
  {
    var q := p.BeginRequest(head);
    var t := q.tasks[|p.tasks|];
    if timely {
      BeginWire(p, head);
    }
    hide WireInv;
    forall i | 0 <= i < |q.tasks| ensures TaskOk(q, i) && LinkOk(q.tasks, i) {
      if i < |p.tasks| {
        assert TaskOk(p, i) && LinkOk(p.tasks, i);
      }
    }
  }

  lemma BeginWire(p: Pipe, head: RequestHead)
    requires WireInv(p) && p.tail.NoTail?
    ensures WireInv(p.BeginRequest(head))
  {
    var t := p.BeginRequest(head).tasks[|p.tasks|];
    FlatGrow(p.tasks, t);
    if p.closing {
      var k, n :| ShapeAt(p.tasks, p.tail, p.wire, k, n);
      BeginShape(p.tasks, t, p.wire, k, n);
    }
  }

  lemma FailKeeps(timely: bool, p: Pipe, status: nat)
    requires Inv(timely, p) && p.tail.NoTail?
    ensures Inv(timely, p.Fail(status))
  {
    var q := p.Fail(status);
    SameTasks(p, q);
    if timely && p.closing {
      var k, n :| ShapeAt(p.tasks, p.tail, p.wire, k, n);
      ShapeGrows(p.tasks, q.tasks, p.tail, q.tail, p.wire, k, n);
    }
  }

  lemma SessionKeeps(timely: bool, p: Pipe, prologue: Bytes)
    requires Inv(timely, p) && p.tail.NoTail? && p.gotFirstHead
    requires timely ==> Timely(p.BeginSession(prologue))
    ensures Inv(timely, p.BeginSession(prologue))
  {
    var q := p.BeginSession(prologue);
    SameTasks(p, q);
    if timely && p.closing {
      var k, n :| ShapeAt(p.tasks, p.tail, p.wire, k, n);
      ShapeGrows(p.tasks, q.tasks, p.tail, q.tail, p.wire, k, n);
    }
  }

  lemma PushKeeps(timely: bool, s: Settings, p: Pipe, m: Message)
    requires Inv(timely, p) && p.tail.NoTail?
    ensures Inv(timely, p.PushChunk(s, m))
  {
    if p.tasks != [] {
      var i := |p.tasks| - 1;
      assert TaskOk(p, i);
      QuietTaskKeeps(timely, p, p.PushChunk(s, m), i);
    }
  }

  lemma WebsocketKeeps(timely: bool, s: Settings, p: Pipe, head: RequestHead)
    requires Inv(timely, p) && p.tail.NoTail? && p.gotFirstHead
    requires timely ==> Timely(p.BeginWebsocket(s, head))
    ensures Inv(timely, p.BeginWebsocket(s, head))
  {
    hide Inv;
    var q := p.(parser := p.parser.(buffer := []));
    ParserOnly(timely, p, q) by { hide *; LiveParser(timely, p); }
    if s.handshake(head).Some? {
      FailKeeps(timely, q, s.handshake(head).value);
    } else {
      SessionKeeps(timely, q, p.parser.buffer);
    }
  }

  lemma LiveParser(timely: bool, p: Pipe)
    requires Inv(timely, p)
    ensures p.parser.Live() && p.parser.(buffer := []).Live()
  {
  }

  predicate IsUpgrade(e: Event) {
    e.HeadComplete? && e.head.upgrade.Some?
  }

  /** An upgrade head ends its batch. */
  predicate UpgradeLast(events: seq<Event>) {
    forall i :: 0 <= i < |events| && IsUpgrade(events[i]) ==> i == |events| - 1
  }

  lemma HeadKeeps(timely: bool, s: Settings, p: Pipe, head: RequestHead)
    requires Inv(timely, p) && p.tail.NoTail?
    requires timely ==> Timely(p.HandleHead(s, head))
    ensures Inv(timely, p.HandleHead(s, head))
  {
    HeadFlags(timely, p);
    hide Inv, Timely, Pipe.BeginWebsocket, Pipe.BeginRequest, Pipe.Fail;
    var q := p.(gotFirstHead := true, timerArmed := false);
    if head.upgrade.None? {
      BeginKeeps(timely, q, head);
    } else if head.upgrade.value == WEBSOCKET {
      WebsocketKeeps(timely, s, q, head);
    } else {
      FailKeeps(timely, q, 501);
    }
  }

  lemma TailStays(s: Settings, p: Pipe, e: Event)
    ensures !IsUpgrade(e) ==> p.HandleEvent(s, e).tail == p.tail
  {
    hide Pipe.BeginWebsocket, Pipe.Fail;
  }

  lemma HandleKeeps(timely: bool, s: Settings, p: Pipe, e: Event)
    requires Inv(timely, p) && p.tail.NoTail?
    requires timely ==> Timely(p.HandleEvent(s, e))
    ensures Inv(timely, p.HandleEvent(s, e))
    ensures !IsUpgrade(e) ==> p.HandleEvent(s, e).tail.NoTail?
  {
    TailStays(s, p, e);
    var q := p.(handled := p.handled + [e]);
    HandledOnly(timely, p, q);
    hide Inv, Timely, Pipe.HandleHead, Pipe.PushChunk;
    match e {
      case HeadComplete(head) => HeadKeeps(timely, s, q, head);
      case BodyChunk(data, more) =>
        PushKeeps(timely, s, q, RequestBody(data, more));
      case RequestComplete =>
    }
  }

  lemma HandledOnly(timely: bool, p: Pipe, q: Pipe)
    requires Inv(timely, p) && q == p.(handled := q.handled)
    ensures Inv(timely, q)
  {
    QuietWire(timely, p, q);
    hide WireInv;
    SameTasks(p, q);
  }

  lemma HeadFlags(timely: bool, p: Pipe)
    requires Inv(timely, p)
    ensures Inv(timely, p.(gotFirstHead := true, timerArmed := false))
  {
    var q := p.(gotFirstHead := true, timerArmed := false);
    QuietWire(timely, p, q);
    hide WireInv;
    SameTasks(p, q);
  }

  lemma {:induction false} HandleAllKeeps(timely: bool, s: Settings, p: Pipe, events: seq<Event>)
    requires Inv(timely, p) && p.tail.NoTail? && UpgradeLast(events)
    requires timely ==> Timely(p.HandleAll(s, events))
    ensures Inv(timely, p.HandleAll(s, events))
    decreases |events|
  {
    if events != [] {
      TailStays(s, p, events[0]);
      var q := p.HandleEvent(s, events[0]);
      assert |events| > 1 ==> q.tail.NoTail? && Timely(q);
      assert |events| == 1 ==> q.HandleAll(s, events[1..]) == q;
      hide Inv, Timely, Pipe.HandleEvent;
      HandleKeeps(timely, s, p, events[0]);
      if |events| > 1 {
        assert forall i :: 0 <= i < |events[1..]| ==> events[1..][i] == events[i + 1];
        HandleAllKeeps(timely, s, q, events[1..]);
      }
    }
  }

  lemma {:induction false} NoUpgradeNoTail(s: Settings, p: Pipe, events: seq<Event>)
    requires forall i :: 0 <= i < |events| ==> !IsUpgrade(events[i])
    ensures p.HandleAll(s, events).tail == p.tail
    decreases |events|
  {
    hide Pipe.HandleEvent;
    if events != [] {
      TailStays(s, p, events[0]);
      NoUpgradeNoTail(s, p.HandleEvent(s, events[0]), events[1..]);
    }
  }

  lemma {:induction false} DrainUpgradeLast(cfg: Config, st: State)
    requires st.Live()
    ensures var r := Drain(cfg, st);
      && UpgradeLast(r.events)
      && forall i :: 0 <= i < |r.events| && IsUpgrade(r.events[i]) ==> r.error.None? && r.state.phase == Upgraded
    decreases |st.buffer|, st.Pending()
  {
    hide Next;
    var step := Next(cfg, st);
    if step.Advanced? {
      StepUpgrade(cfg, st);
      DrainUpgradeLast(cfg, step.state);
      if step.state.phase == Upgraded {
        UpgradedIsQuiet(cfg, step.state);
      }
    }
  }

  lemma StepUpgrade(cfg: Config, st: State)
    requires st.Live() && Next(cfg, st).Advanced?
    ensures var step := Next(cfg, st);
      forall i :: 0 <= i < |step.events| && IsUpgrade(step.events[i]) ==>
        i == |step.events| - 1 && step.state.phase == Upgraded
  {
    hide ParseRequestLine, ConsumeHeaderLine, DetectUpgrade, ChunkSize, TakeLine;
  }

  lemma UpgradedIsQuiet(cfg: Config, st: State)
    requires st.Live() && st.phase == Upgraded
    ensures Drain(cfg, st) == Outcome(st, [], None, false)
  {
  }

  lemma DataKeeps(timely: bool, s: Settings, p: Pipe, data: Bytes)
    requires Inv(timely, p) && !p.tail.Session?
    requires timely ==> Timely(p.DataReceived(s, data))
    ensures Inv(timely, p.DataReceived(s, data))
  {
    if !p.closed {
      NotYetTailed(timely, p);
      var r := Drain(s.parser, p.parser.Received(data));
      DrainUpgradeLast(s.parser, p.parser.Received(data));
      var q := p.(parser := r.state, fed := p.fed + [data]);
      ParserOnly(timely, p, q);
      hide Inv, Drain, Pipe.HandleAll, Timely;
      if r.error.None? {
        HandleAllKeeps(timely, s, q, r.events);
      } else {
        FailedKeeps(timely, s, q, r.events, 400);
        FailedKeeps(timely, s, q, r.events, 413);
        assert r.error == Some(MalformedRequest) || r.error == Some(RequestTooLarge) by {
          match r.error.value { case MalformedRequest => case RequestTooLarge => }
        }
      }
    }
  }

  lemma FailedKeeps(timely: bool, s: Settings, p: Pipe, events: seq<Event>, status: nat)
    requires Inv(timely, p) && p.tail.NoTail? && forall i :: 0 <= i < |events| ==> !IsUpgrade(events[i])
    ensures Inv(timely, p.HandleAll(s, CompletedPrefix(events)).Fail(status))
  {
    hide Inv, Pipe.HandleAll;
    var kept := CompletedPrefix(events);
    assert forall i :: 0 <= i < |kept| ==> kept[i] == events[i];
    NoUpgradeNoTail(s, p, kept);
    HandleAllKeeps(timely, s, p, kept);
    FailKeeps(timely, p.HandleAll(s, kept), status);
  }

  // ---- the session's steps

  /** A step of the session: it writes only with its turn open, or not at all. */
  lemma InSessionKeeps(timely: bool, p: Pipe, d: WS.Conn, pending: Pending)
    requires Inv(timely, p) && p.tail.Session? && WW.Grows(p.Sess(), d)
    requires timely && !p.closing && p.tail.turn !in p.fired ==>
      d.hist.wire == [] && (d.link.closing || Waiting(p.InSession(d, pending)))
    ensures Inv(timely, p.InSession(d, pending))
  {
    var q := p.InSession(d, pending);
    SameTasks(p, q);
    if timely {
      SessionWire(p, d, pending);
    }
    hide WireInv;
  }

  lemma SessionWire(p: Pipe, d: WS.Conn, pending: Pending)
    requires Inv(true, p) && p.tail.Session? && WW.Grows(p.Sess(), d)
    requires !p.closing && p.tail.turn !in p.fired ==> d.hist.wire == []
    ensures WireInv(p.InSession(d, pending))
  {
    var q := p.InSession(d, pending);
    NewItemsJoin(p.tail.conn.hist.wire, d.hist.wire);
    if p.closing || d.hist.wire == p.tail.conn.hist.wire {
      assert q.wire == p.wire + [] == p.wire;
      QuietWire(true, p, q);
    } else {
      AllDone(p);
      Appended(p.wire, Flat(p.tasks), Items(p.tail.conn.hist.wire), NewItems(p.tail.conn.hist.wire, d.hist.wire));
      hide Items, NewItems, Flat;
      assert q.wire == Flat(p.tasks) + Items(d.hist.wire);
      assert ShapeAt(q.tasks, q.tail, q.wire, |p.tasks|, 0);
    }
  }

  lemma NewItemsJoin(before: seq<WS.WireItem>, written: seq<WS.WireItem>)
    requires before <= written
    ensures Items(written) == Items(before) + NewItems(before, written)
    ensures written == before ==> NewItems(before, written) == []
  {
  }

  lemma Appended(wire: seq<WireItem>, a: seq<WireItem>, b: seq<WireItem>, c: seq<WireItem>)
    requires wire == a + b
    ensures wire + c == a + (b + c) && |a| <= |wire + c| && (wire + c)[..|a|] == a && (wire + c)[|a|..] == b + c
  {
  }

  lemma DenyKeeps(timely: bool, s: Settings, p: Pipe)
    requires Inv(timely, p) && p.tail.Session? && p.Sess().wsState == Some(WS.Connecting)
    ensures Inv(timely, p.InSession(p.Sess().StartDeny(), DenyPending).TakeTurn(s))
  {
    var c := p.Sess();
    hide WireInv, Pipe.TakeTurn;
    WW.DenyWrites(c);
    InSessionKeeps(timely, p, c.StartDeny(), DenyPending);
    TakeTurnKeeps(timely, s, p.InSession(c.StartDeny(), DenyPending));
  }

  lemma OtherSendKeeps(timely: bool, s: Settings, p: Pipe, m: WS.AppMessage)
    requires Inv(timely, p) && p.tail.Session?
    requires p.Sess().wsState == Some(WS.Connecting) ==> !m.CloseMessage? && !(m.Accept? && m.headersOk)
    ensures Inv(timely, p.InSession(p.Sess().Send(s.session, m).conn, NoPending))
  {
    var c := p.Sess();
    hide WireInv, WS.Conn.Send;
    WW.SendActs(s.session, c, m);
    if c.wsState != Some(WS.Connected) {
      QuietSend(s.session, c, m);
    }
    InSessionKeeps(timely, p, c.Send(s.session, m).conn, NoPending);
  }

  lemma SessionSendKeeps(timely: bool, s: Settings, p: Pipe, m: WS.AppMessage)
    requires Inv(timely, p) && InApp(p) && p.tail.pending.NoPending?
    ensures Inv(timely, p.SessionSend(s, m))
  {
    hide Inv, Pipe.TakeTurn, Pipe.InSession, WS.Conn.Send, WS.Conn.StartDeny;
    if p.tail.conn.wsState == Some(WS.Connecting) && m.Accept? && m.headersOk {
      var q := p.(tail := p.tail.(pending := AcceptPending(m.subprotocol)));
      PendingKeeps(timely, p, q);
      TakeTurnKeeps(timely, s, q);
    } else if p.tail.conn.wsState == Some(WS.Connecting) && m.CloseMessage? {
      DenyKeeps(timely, s, p);
    } else {
      OtherSendKeeps(timely, s, p, m);
    }
  }

  /** Before an accept, what is sent is refused. */
  lemma QuietSend(s: WS.Settings, c: WS.Conn, m: WS.AppMessage)
    requires c.wsState != Some(WS.Connected)
    requires c.wsState == Some(WS.Connecting) ==> !m.CloseMessage? && !(m.Accept? && m.headersOk)
    ensures c.Send(s, m).conn == c
  {
    hide WS.CloseItem, WS.Conn.CloseAndFinish, WS.Conn.FeedFrames, WS.Conn.Opened;
    WS.AnyState(c.wsState);
  }

  lemma PendingKeeps(timely: bool, p: Pipe, q: Pipe)
    requires Inv(timely, p) && p.tail.Session? && q.tail.Session? && q == p.(tail := p.tail.(pending := q.tail.pending))
    ensures Inv(timely, q)
  {
    QuietWire(timely, p, q);
    hide WireInv;
    SameTasks(p, q);
  }

  lemma TakeTurnKeeps(timely: bool, s: Settings, p: Pipe)
    requires Inv(timely, p) && p.tail.Session?
    ensures Inv(timely, p.TakeTurn(s))
  {
    hide Inv, Pipe.SessionTurn;
    if p.tail.turn in p.fired {
      SessionTurnKeeps(timely, s, p);
    }
  }

  lemma SessionTurnKeeps(timely: bool, s: Settings, p: Pipe)
    requires Inv(timely, p) && p.tail.Session? && p.tail.turn in p.fired
    ensures Inv(timely, p.SessionTurn(s))
  {
    hide Inv, WS.Conn.DoAccept, WS.Conn.EndDeny;
    match p.tail.pending {
      case NoPending =>
      case AcceptPending(subprotocol) =>
        WW.AcceptWrites(s.session, p.Sess(), subprotocol);
        InSessionKeeps(timely, p, p.Sess().DoAccept(s.session, subprotocol, true).conn, NoPending);
      case DenyPending =>
        WW.DenyWrites(p.Sess());
        InSessionKeeps(timely, p, p.Sess().EndDeny(), NoPending);
    }
  }

  lemma SessionDataKeeps(timely: bool, s: Settings, p: Pipe, data: Bytes)
    requires Inv(timely, p) && p.tail.Session? && Enabled(p, Op.Data(data))
    ensures Inv(timely, p.DataReceived(s, data))
  {
    hide WireInv, WS.Conn.DataReceived;
    WW.DataWrites(s.session, p.Sess(), data);
    InSessionKeeps(timely, p, p.Sess().DataReceived(s.session, data), p.tail.pending);
  }

  lemma SessionReceiveKeeps(timely: bool, s: Settings, p: Pipe)
    requires Inv(timely, p) && p.tail.Session? && p.Sess().CanReceive()
    ensures Inv(timely, p.InSession(p.Sess().AfterReceive(s.session), p.tail.pending))
  {
    hide WireInv;
    WW.ReceiveActs(s.session, p.Sess());
    InSessionKeeps(timely, p, p.Sess().AfterReceive(s.session), p.tail.pending);
  }

  lemma SessionPingKeeps(timely: bool, s: Settings, p: Pipe, payload: Bytes)
    requires Inv(timely, p) && p.tail.Session? && p.tail.conn.pingArmed
    ensures Inv(timely, p.InSession(p.Sess().PingDue(s.session, payload), p.tail.pending))
  {
    hide WireInv, WS.Conn.PingDue;
    WW.PingActs(s.session, p.Sess(), payload);
    InSessionKeeps(timely, p, p.Sess().PingDue(s.session, payload), p.tail.pending);
  }

  lemma SessionShutdownKeeps(timely: bool, p: Pipe)
    requires Inv(timely, p) && p.tail.Session?
    ensures Inv(timely, p.InSession(p.Sess().Shutdown(), p.tail.pending))
  {
    hide WireInv, WS.CloseItem, WS.Conn.CloseAndFinish;
    WW.ShutdownActs(p.Sess());
    WS.AnyState(p.tail.conn.wsState);
    InSessionKeeps(timely, p, p.Sess().Shutdown(), p.tail.pending);
  }

  lemma SessionDoneKeeps(timely: bool, p: Pipe, raised: bool)
    requires Inv(timely, p) && p.tail.Session?
    ensures Inv(timely, p.InSession(p.Sess().TaskDone(raised), NoPending))
  {
    hide WireInv, WS.CloseItem, WS.Conn.CloseAndFinish;
    WW.DoneActs(p.Sess(), raised);
    InSessionKeeps(timely, p, p.Sess().TaskDone(raised), NoPending);
  }

  lemma NotYetTailed(timely: bool, p: Pipe)
    requires Inv(timely, p) && !p.closed && !p.tail.Session?
    ensures p.tail.NoTail?
  {
  }

  lemma ParserOnly(timely: bool, p: Pipe, q: Pipe)
    requires Inv(timely, p) && q == p.(parser := q.parser, fed := q.fed) && q.parser.Live()
    ensures Inv(timely, q)
  {
    QuietWire(timely, p, q);
    hide WireInv;
    SameTasks(p, q);
  }

  lemma StageKeeps(timely: bool, p: Pipe, i: nat, stage: Stage)
    requires Inv(timely, p) && i < |p.tasks| && !p.tasks[i].Ended()
    requires stage.Erred? || (stage.Returned? && p.tasks[i].complete) || (stage.Cancelled? && p.disconnected)
    ensures Inv(timely, p.WithTask(i, p.tasks[i].(stage := stage)))
  {
    hide WireInv, Chain;
    assert TaskOk(p, i);
    QuietTaskKeeps(timely, p, p.WithTask(i, p.tasks[i].(stage := stage)), i);
  }

  lemma ReceiveKeeps(timely: bool, s: Settings, p: Pipe, i: nat)
    requires Inv(timely, p) && i < |p.tasks| && !p.tasks[i].Ended() && (p.tasks[i].queue != [] || p.disconnected)
    ensures Inv(timely, p.Receive(s, i))
  {
    hide WireInv, Chain;
    assert TaskOk(p, i);
    var q := p.Receive(s, i);
    var t, u := p.tasks[i], p.tasks[i].Taken();
    assert u == t.(received := u.received, queue := u.queue, repeats := u.repeats);
    hide Task.Taken;
    assert TaskOk(q, i);
    hide TaskOk;
    QuietTaskKeeps(timely, p, q, i);
  }

  /** The step, if it begins a session, begins it in time. */
  predicate TimelyStep(s: Settings, p: Pipe, op: Op)
    requires Enabled(p, op) && p.parser.Live()
  {
    !p.tail.Session? ==> Timely(Perform(s, p, op))
  }

  lemma SessionStepKeeps(timely: bool, s: Settings, p: Pipe, op: Op)
    requires Inv(timely, p) && Enabled(p, op) && IsSessionOp(op)
    ensures Inv(timely, SessionPerform(s, p, op))
  {
    hide Inv, Pipe.SessionSend, Pipe.SessionTurn, Pipe.InSession;
    match op {
      case SessionSend(m) => SessionSendKeeps(timely, s, p, m);
      case SessionTurn => SessionTurnKeeps(timely, s, p);
      case SessionReceive => SessionReceiveKeeps(timely, s, p);
      case SessionPing(payload) => SessionPingKeeps(timely, s, p, payload);
      case SessionShutdown => SessionShutdownKeeps(timely, p);
      case SessionDone(raised) => SessionDoneKeeps(timely, p, raised);
    }
  }

  lemma DrainingIsOpen(timely: bool, p: Pipe, i: nat)
    requires Inv(timely, p) && i < |p.tasks| && p.tasks[i].stage.Draining?
    ensures p.tasks[i].started && !p.tasks[i].complete
  {
    hide Chain, WireInv;
    assert TaskOk(p, i);
  }

  lemma TaskStepKeeps(timely: bool, s: Settings, p: Pipe, op: Op)
    requires Inv(timely, p) && Enabled(p, op) && IsTaskOp(op)
    ensures Inv(timely, TaskPerform(s, p, op))
  {
    hide Inv, Pipe.SendStart, Pipe.SendBody, Pipe.FinishBody, Pipe.TurnArrives, Pipe.Receive, Pipe.TaskDone;
    match op {
      case SendStart(i, status, headersOk, declaresLength) => SendStartKeeps(timely, p, i, status, headersOk, declaresLength);
      case TurnArrives(i) => TurnArrivesKeeps(timely, p, i);
      case SendBody(i, data, more) => SendBodyKeeps(timely, p, i, data, more);
      case DrainDone(i) =>
        DrainingIsOpen(timely, p, i);
        FinishBodyKeeps(timely, p, i, p.tasks[i].stage.more);
      case SendUnknown(i) => StageKeeps(timely, p, i, Erred);
      case Receive(i) => ReceiveKeeps(timely, s, p, i);
      case Raise(i) => StageKeeps(timely, p, i, Erred);
      case Return(i) => StageKeeps(timely, p, i, Returned);
      case Cancel(i) => StageKeeps(timely, p, i, Cancelled);
      case TaskDone(i) => TaskDoneKeeps(timely, p, i);
    }
  }

  lemma ConnectionStepKeeps(timely: bool, p: Pipe, op: Op)
    requires Inv(timely, p) && Enabled(p, op) && !op.Data? && !IsTaskOp(op) && !IsSessionOp(op)
    ensures Inv(timely, ConnectionPerform(p, op))
  {
    hide Inv, Pipe.WriteFailure, Pipe.HeadTimeout, Pipe.Lost;
    match op {
      case WriteFailure => WriteFailureKeeps(timely, p);
      case HeadTimeout => HeadTimeoutKeeps(timely, p);
      case ShutdownBegins => FlagKeeps(timely, p, true, p.pausedWriting, p.closing);
      case PauseWriting(paused) => FlagKeeps(timely, p, p.shouldExit, paused, p.closing);
      case LosingTransport => FlagKeeps(timely, p, p.shouldExit, p.pausedWriting, true);
      case ConnectionLost => LostKeeps(timely, p);
    }
  }

  lemma StepKeeps(timely: bool, s: Settings, p: Pipe, op: Op)
    requires Inv(timely, p) && Enabled(p, op) && p.parser.Live()
    requires timely ==> TimelyStep(s, p, op)
    ensures Inv(timely, Perform(s, p, op))
  {
    hide Inv, Timely, Enabled, Pipe.DataReceived, TaskPerform, SessionPerform, ConnectionPerform;
    if op.Data? {
      DataStepKeeps(timely, s, p, op.data);
    } else if IsTaskOp(op) {
      TaskStepKeeps(timely, s, p, op);
    } else if IsSessionOp(op) {
      SessionStepKeeps(timely, s, p, op);
    } else {
      ConnectionStepKeeps(timely, p, op);
    }
  }

  lemma DataStepKeeps(timely: bool, s: Settings, p: Pipe, data: Bytes)
    requires Inv(timely, p) && Enabled(p, Op.Data(data)) && p.parser.Live()
    requires timely ==> TimelyStep(s, p, Op.Data(data))
    ensures Inv(timely, p.DataReceived(s, data))
  {
    if p.tail.Session? {
      SessionDataKeeps(timely, s, p, data);
    } else {
      hide Inv, Timely, Pipe.DataReceived;
      DataKeeps(timely, s, p, data);
    }
  }

  /** q is reached from p by these steps. */
  ghost predicate Reaches(s: Settings, p: Pipe, ops: seq<Op>, q: Pipe)
    decreases |ops|
  {
    if ops == [] then q == p
    else Enabled(p, ops[0]) && p.parser.Live() && Reaches(s, Perform(s, p, ops[0]), ops[1..], q)
  }

  /** A session that begins along the run begins in time. */
  predicate TimelyRun(s: Settings, p: Pipe, ops: seq<Op>)
    decreases |ops|
  {
    ops != [] && Enabled(p, ops[0]) && p.parser.Live() ==>
      TimelyStep(s, p, ops[0]) && TimelyRun(s, Perform(s, p, ops[0]), ops[1..])
  }

  lemma {:induction false} RunKeeps(timely: bool, s: Settings, p: Pipe, ops: seq<Op>, q: Pipe)
    requires Inv(timely, p) && Reaches(s, p, ops, q) && (timely ==> TimelyRun(s, p, ops))
    ensures Inv(timely, q)
    decreases |ops|
  {
    hide Inv, Perform, Enabled, TimelyStep;
    if ops != [] {
      StepKeeps(timely, s, p, ops[0]);
      RunKeeps(timely, s, Perform(s, p, ops[0]), ops[1..], q);
    }
  }

  lemma ConnectedInv(timely: bool)
    ensures Inv(timely, Connected())
  {
    var p := Connected();
    assert p.wire == Flat(p.tasks) + [];
  }

  /** Response order, for any number of pipelined requests and any interleaving whose session, if
      any, begins in time: the wire is whole responses in request order, then at most one partial
      one; or all of them whole and then nothing, one error response, the timeout response or what
      the websocket session wrote. */
  lemma ResponsesInOrder(s: Settings, ops: seq<Op>, p: Pipe) returns (k: nat, n: nat)
    requires Reaches(s, Connected(), ops, p) && TimelyRun(s, Connected(), ops)
    ensures ShapeAt(p.tasks, p.tail, p.wire, k, n)
    ensures forall i :: 0 <= i < |p.tasks| ==> ResponseShape(i, p.tasks[i].sent)
    ensures forall i :: 0 <= i < k ==> p.tasks[i].complete && p.tasks[i].sent != []
  {
    hide Reaches, TimelyRun;
    ConnectedInv(true);
    RunKeeps(true, s, Connected(), ops, p);
    SentShapes(true, p);
    k, n := ShapeOf(p);
  }

  lemma SentShapes(timely: bool, p: Pipe)
    requires Inv(timely, p)
    ensures forall i :: 0 <= i < |p.tasks| ==>
      ResponseShape(i, p.tasks[i].sent) && (p.tasks[i].complete ==> p.tasks[i].sent != [])
  {
    hide WireInv, Chain, Held;
    forall i | 0 <= i < |p.tasks| ensures ResponseShape(i, p.tasks[i].sent) && (p.tasks[i].complete ==> p.tasks[i].sent != []) {
      assert TaskOk(p, i);
    }
  }

  lemma ShapeOf(p: Pipe) returns (k: nat, n: nat)
    requires Inv(true, p)
    ensures ShapeAt(p.tasks, p.tail, p.wire, k, n)
  {
    if p.closing {
      k, n :| ShapeAt(p.tasks, p.tail, p.wire, k, n);
    } else {
      k, n := OpenShape(p);
    }
  }

  lemma RunKeepsCore(s: Settings, ops: seq<Op>, p: Pipe)
    requires Reaches(s, Connected(), ops, p)
    ensures Inv(false, p)
  {
    ConnectedInv(false);
    RunKeeps(false, s, Connected(), ops, p);
  }

  /** The earliest unfinished request always has its turn open, so no request can keep it
      from writing. */
  lemma EarliestHasItsTurn(s: Settings, ops: seq<Op>, p: Pipe, i: nat)
    requires Reaches(s, Connected(), ops, p)
    requires i < |p.tasks| && p.tasks[i].done !in p.fired
    requires forall j :: 0 <= j < i ==> p.tasks[j].done in p.fired
    ensures p.tasks[i].turn in p.fired
    ensures p.tasks[i].stage.AwaitTurn? ==> Enabled(p, Op.TurnArrives(i))
  {
    RunKeepsCore(s, ops, p);
    assert LinkOk(p.tasks, i);
  }
}
