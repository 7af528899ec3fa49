/** The HTTP half of the bridge as the object it is: callbacks and closures that update
    fields in place, each proved to be the step that the theorems speak of. */
module HttpConnections {
  import opened Bytes
  import opened Wrappers
  import opened HttpText
  import opened HttpParsing
  import opened HttpExchanges
  import opened Pipeline
  import opened PipelineTurns
  import opened PipelineBodies
  import WS = WsSession

  /** `_client_requested_close`. */
  method DecideClientClose(head: RequestHead) returns (close: bool)
    ensures close == ClientRequestedClose(head)
  {
    var tokens: set<Bytes> := {};
    for i := 0 to |head.headers|
      invariant tokens == AllTokens(Values(head.headers[..i], CONNECTION))
    {
      var h := head.headers[i];
      assert head.headers[..i + 1] == head.headers[..i] + [h];
      ValuesAppend(head.headers[..i], h, CONNECTION);
      if h.0 == CONNECTION {
        TokensAppend(Values(head.headers[..i], CONNECTION), h.1);
        tokens := tokens + Tokens(Split(h.1, COMMA));
      }
    }
    assert head.headers[..|head.headers|] == head.headers;
    if CLOSE in tokens {
      return true;
    }
    if head.line.version == Http10 {
      return KEEP_ALIVE !in tokens;
    }
    return false;
  }

  ghost predicate HasUpgrade(events: seq<Event>) {
    exists i :: 0 <= i < |events| && IsUpgrade(events[i])
  }

  /** Only a feed whose events may end in an upgrade head leaves HTTP or a changed parser. */
  lemma ListensUnlessUpgraded(s: Settings, p: Pipe, events: seq<Event>)
    requires !p.tail.Session? && UpgradeLast(events) && HasUpgrade(events)
    ensures !Listening(p.HandleAll(s, events))
    decreases |events|
  {
    hide Pipe.HandleEvent, EventEffect;
    EventAdds(s, p, events[0]);
    var q, rest := p.HandleEvent(s, events[0]), events[1..];
    if IsUpgrade(events[0]) {
      assert q.HandleAll(s, rest) == q;
    } else {
      assert forall i :: 0 <= i < |rest| ==> rest[i] == events[i + 1];
      assert HasUpgrade(rest) by {
        var i :| 0 <= i < |events| && IsUpgrade(events[i]);
        assert IsUpgrade(rest[i - 1]);
      }
      ListensUnlessUpgraded(s, q, rest);
    }
  }

  lemma StaysLive(s: Settings, p: Pipe, events: seq<Event>)
    requires p.parser.Live()
    ensures p.HandleAll(s, events).parser.Live()
    decreases |events|
  {
    if events != [] {
      EventAdds(s, p, events[0]);
      hide Pipe.HandleEvent, EventEffect;
      StaysLive(s, p.HandleEvent(s, events[0]), events[1..]);
    }
  }

  /** The HTTP fields of `HTTPProtocol` and its transport's flags. The ghost fields are
      history, and the parser's state as long as it has not raised. */
  class HttpConnection {
    const settings: Settings
    const parser: HTTP11Parser
    var closed: bool
    var disconnected: bool
    var closing: bool
    var gotFirstHead: bool
    var timerArmed: bool
    var shouldExit: bool
    var pausedWriting: bool
    var readingPaused: bool
    var turnstile: nat
    var nextEvent: nat
    var fired: set<nat>
    var tasks: seq<Task>
    var tail: Tail
    ghost var parsed: State
    ghost var wire: seq<WireItem>
    ghost var fed: seq<Bytes>
    ghost var handled: seq<Event>

    ghost function View(): Pipe
      reads this
    {
      Pipe(parsed, closed, disconnected, closing, gotFirstHead, timerArmed, shouldExit, pausedWriting, readingPaused,
           turnstile, nextEvent, fired, tasks, tail, wire, fed, handled)
    }

    /** The parser is fed only while it is sound: never once it raised, or HTTP ended. */
    ghost predicate Valid()
      reads this, parser
    {
      && parser.cfg == settings.parser
      && parsed.Live()
      && (!closed && !tail.Session? ==> InStep())
    }

    ghost predicate InStep()
      reads this, parser
    {
      parser.View() == parsed && parser.Valid()
    }

    /** `connection_made`. */
    constructor (settings: Settings)
      ensures this.settings == settings && Valid() && fresh(parser)
      ensures View() == Connected()
    {
      this.settings := settings;
      parser := new HTTP11Parser(settings.parser);
      closed, disconnected, closing, gotFirstHead, timerArmed := false, false, false, false, true;
      shouldExit, pausedWriting, readingPaused := false, false, false;
      turnstile, nextEvent, fired := 0, 1, {0};
      tasks, tail := [], NoTail;
      parsed, wire, fed, handled := Fresh([]), [], [], [];
    }

    /** `transport.write`, guarded by `is_closing()`. */
    method Write(item: WireItem)
      modifies this`wire
      ensures View() == old(View()).Write(item)
    {
      if !closing {
        wire := wire + [item];
      }
    }

    /** `_begin_request`. */
    method BeginRequest(head: RequestHead)
      modifies this`tasks, this`turnstile, this`nextEvent
      ensures View() == old(View()).BeginRequest(head)
    {
      var myTurn := turnstile;
      var myDone := nextEvent;
      turnstile, nextEvent := myDone, myDone + 1;
      tasks := tasks + [Task(head, myTurn, myDone, Running, false, false, false, [], true, false, [], [], [], 0)];
    }

    /** `_fail`, `_fail_handshake` and `_reject_upgrade`. */
    method Fail(status: nat)
      modifies this`closed, this`timerArmed, this`tail
      ensures View() == old(View()).Fail(status)
    {
      closed, timerArmed := true, false;
      tail := Failing(turnstile, status, false);
    }

    /** `_begin_websocket`. */
    method BeginWebsocket(head: RequestHead)
      requires InStep() && parsed.phase == Upgraded
      modifies this`parsed, this`closed, this`timerArmed, this`tail, this`turnstile, this`nextEvent, this`readingPaused
      modifies parser`buffer
      ensures View() == old(View()).BeginWebsocket(settings, head)
    {
      var prologue := parser.TakeBuffer();
      parsed := parsed.(buffer := []);
      var refusal := settings.handshake(head);
      if refusal.Some? {
        Fail(refusal.value);
      } else {
        BeginSession(prologue.value);
      }
    }

    /** The part of `_begin_websocket` behind a valid handshake. */
    method BeginSession(prologue: Bytes)
      modifies this`tail, this`turnstile, this`nextEvent, this`readingPaused
      ensures View() == old(View()).BeginSession(prologue)
    {
      tail := Session(turnstile, prologue, WS.Begin(prologue), NoPending);
      turnstile, nextEvent := nextEvent, nextEvent + 1;
      readingPaused := true;
    }

    /** `_push_body_chunk` and `_push_to_queue`. */
    method PushBodyChunk(m: Message)
      modifies this`tasks, this`readingPaused
      ensures View() == old(View()).PushChunk(settings, m)
    {
      hide Pipe.HandleHead, Pipe.Fail, Task.Taken;
      if tasks == [] {
        return;
      }
      var i := |tasks| - 1;
      var t := tasks[i];
      tasks := tasks[i := t.(queue := t.queue + [m], chunks := t.chunks + [m])];
      if !readingPaused && |tasks[i].queue| >= settings.pauseMark {
        readingPaused := true;
      }
    }

    /** The part of `_handle_event` about a head. */
    method HandleHead(head: RequestHead)
      requires head.upgrade.Some? ==> InStep() && parsed.phase == Upgraded
      modifies this`gotFirstHead, this`timerArmed, this`tasks, this`turnstile, this`nextEvent, this`parsed, this`closed
      modifies this`tail, this`readingPaused, parser`buffer
      ensures View() == old(View()).HandleHead(settings, head)
      ensures head.upgrade.None? ==> parsed == old(parsed) && parser.View() == old(parser.View())
    {
      hide Pipe.BeginRequest, Pipe.BeginWebsocket, Pipe.Fail;
      if !gotFirstHead {
        gotFirstHead := true;
      }
      timerArmed := false;
      if head.upgrade.None? {
        BeginRequest(head);
      } else if head.upgrade.value == WEBSOCKET {
        BeginWebsocket(head);
      } else {
        Fail(501);
      }
    }

    /** `_handle_event`. An upgrade head is the last event of a feed that raised nothing. */
    method HandleEvent(e: Event)
      requires IsUpgrade(e) ==> InStep() && parsed.phase == Upgraded
      modifies this, parser`buffer
      ensures View() == old(View()).HandleEvent(settings, e)
      ensures !IsUpgrade(e) ==> parsed == old(parsed) && parser.View() == old(parser.View())
    {
      hide Pipe.HandleHead, Pipe.PushChunk;
      handled := handled + [e];
      match e {
        case HeadComplete(head) => HandleHead(head);
        case BodyChunk(data, more) => PushBodyChunk(RequestBody(data, more));
        case RequestComplete =>
      }
    }

    method HandleEvents(events: seq<Event>)
      requires UpgradeLast(events)
      requires HasUpgrade(events) ==> InStep() && parsed.phase == Upgraded
      modifies this, parser`buffer
      ensures View() == old(View()).HandleAll(settings, events)
      ensures !HasUpgrade(events) ==> parser.View() == old(parser.View()) && parsed == old(parsed)
    {
      hide Pipe.HandleEvent;
      ghost var start, held, was := View(), parser.View(), parsed;
      assert events[0..] == events;
      for i := 0 to |events|
        invariant start.HandleAll(settings, events) == View().HandleAll(settings, events[i..])
        invariant i < |events| || !HasUpgrade(events) ==> parser.View() == held && parsed == was
      {
        assert events[i..][1..] == events[i + 1..];
        HandleEvent(events[i]);
      }
    }

    /** `data_received`. */
    method DataReceived(data: Bytes)
      requires Valid()
      modifies this, parser
      ensures View() == old(View()).DataReceived(settings, data)
      ensures Valid()
    {
      hide Drain, CompletedPrefix, Pipe.HandleAll, Pipe.InSession, Pipe.Sess, Pipe.Fail, WS.Conn.DataReceived;
      if tail.Session? {
        SessionData(data);
        return;
      }
      if closed {
        return;
      }
      ghost var r := Drain(settings.parser, parsed.Received(data));
      DrainUpgradeLast(settings.parser, parsed.Received(data));
      var events, error := parser.FeedData(data);
      parsed, fed := r.state, fed + [data];
      if error.Some? {
        HandleFailure(events, error.value);
        return;
      }
      HandleListening(events);
    }

    /** `data_received` once a session has begun: the octets go to it whatever turn it has. */
    method SessionData(data: Bytes)
      requires tail.Session? && parsed.Live()
      modifies this`tail, this`closing, this`readingPaused, this`wire
      ensures View() == old(View()).DataReceived(settings, data) && tail.Session?
    {
      hide WS.Conn.DataReceived, Pipe.Sess, Pipe.InSession;
      var c := SessionNow();
      var d := c.DataReceived(settings.session, data);
      SessionBecomes(d, tail.pending);
    }

    /** The session with the transport's flags. */
    method SessionNow() returns (c: WS.Conn)
      requires tail.Session?
      ensures c == View().Sess()
    {
      c := tail.conn.(link := WS.Link(closed, disconnected, closing, readingPaused, tail.conn.link.appDone, None));
    }

    method SessionBecomes(d: WS.Conn, pending: Pending)
      requires tail.Session?
      modifies this`tail, this`closing, this`readingPaused, this`wire
      ensures View() == old(View()).InSession(d, pending) && tail.Session?
    {
      wire := wire + NewItems(tail.conn.hist.wire, d.hist.wire);
      tail := tail.(conn := d, pending := pending);
      closing, readingPaused := d.link.closing, d.link.paused;
    }

    /** The events of a feed that raised nothing. */
    method HandleListening(events: seq<Event>)
      requires UpgradeLast(events) && InStep() && parser.cfg == settings.parser && !tail.Session?
      requires HasUpgrade(events) ==> parsed.phase == Upgraded
      modifies this, parser`buffer
      ensures View() == old(View()).HandleAll(settings, events)
      ensures Valid()
    {
      hide Pipe.HandleAll;
      if HasUpgrade(events) {
        ListensUnlessUpgraded(settings, View(), events);
      }
      ghost var p := View();
      HandleEvents(events);
      if HasUpgrade(events) {
        assert !Listening(View());
      }
      StaysLive(settings, p, events);
    }

    /** The partial events of a feed that raised, and the response to the error. */
    method HandleFailure(events: seq<Event>, error: Error)
      requires !HasUpgrade(events) && parsed.Live() && parser.cfg == settings.parser
      modifies this, parser`buffer
      ensures View() == old(View()).HandleAll(settings, CompletedPrefix(events)).Fail(
        match error case MalformedRequest => 400 case RequestTooLarge => 413)
      ensures Valid()
    {
      hide Pipe.HandleAll;
      var kept := CompletedRequestEvents(events);
      assert forall i :: 0 <= i < |kept| ==> kept[i] == events[i];
      HandleEvents(kept);
      match error {
        case MalformedRequest => Fail(400);
        case RequestTooLarge => Fail(413);
      }
    }

    /** `send` of a response head, up to its wait. */
    method SendStart(i: nat, status: int, headersOk: bool, declaresLength: bool)
      requires i < |tasks|
      modifies this`tasks, this`wire
      ensures View() == old(View()).SendStart(i, status, headersOk, declaresLength)
    {
      var t := tasks[i];
      if t.started {
        tasks := tasks[i := t.(stage := Erred)];
        return;
      }
      t := t.(started := true);
      if !headersOk {
        tasks := tasks[i := t.(stage := Erred)];
        return;
      }
      var close := DecideClientClose(t.head);
      if !declaresLength || shouldExit {
        close := true;
      }
      tasks := tasks[i := t.(close := close, stage := AwaitTurn(status))];
      if t.turn in fired {
        TurnArrives(i);
      }
    }

    /** `send` of a response head, behind its wait. */
    method TurnArrives(i: nat)
      requires i < |tasks| && tasks[i].stage.AwaitTurn?
      modifies this`tasks, this`wire
      ensures View() == old(View()).TurnArrives(i)
    {
      var t := tasks[i];
      var item := ResponseHead(i, t.stage.status, t.close);
      tasks := tasks[i := t.(stage := Running, sent := t.sent + [item])];
      Write(item);
    }

    /** `send` of a body part, up to the drain. */
    method SendBody(i: nat, data: Bytes, more: bool)
      requires i < |tasks|
      modifies this`tasks, this`wire, this`fired, this`closing
      ensures View() == old(View()).SendBody(i, data, more)
    {
      var t := tasks[i];
      if !t.started {
        tasks := tasks[i := t.(stage := Erred)];
        return;
      }
      if data != [] {
        var item := ResponseBody(i, data);
        tasks := tasks[i := t.(sent := t.sent + [item])];
        Write(item);
        if !closing && pausedWriting {
          tasks := tasks[i := tasks[i].(stage := Draining(more))];
          return;
        }
      }
      FinishBody(i, more);
    }

    /** `send` of a body part, behind the drain. */
    method FinishBody(i: nat, more: bool)
      requires i < |tasks|
      modifies this`tasks, this`fired, this`closing
      ensures View() == old(View()).FinishBody(i, more)
    {
      var t := tasks[i].(stage := Running);
      if !more {
        t := t.(complete := true);
        fired := fired + {t.done};
        if t.close {
          closing := true;
        }
      }
      tasks := tasks[i := t];
    }

    /** `_on_task_done`. */
    method OnTaskDone(i: nat)
      requires i < |tasks|
      modifies this`tasks, this`fired, this`closing
      ensures View() == old(View()).TaskDone(i)
    {
      var t := tasks[i];
      tasks := tasks[i := t.(stage := Gone, registered := false)];
      if t.done !in fired {
        fired := fired + {t.done};
      }
      assert fired == old(fired) + {t.done};
      if t.stage.Erred? && !closing {
        closing := true;
      }
    }

    /** `receive()`, once it has something to return. */
    method Receive(i: nat) returns (m: Message)
      requires i < |tasks| && (tasks[i].queue != [] || disconnected)
      modifies this`tasks, this`readingPaused
      ensures View() == old(View()).Receive(settings, i)
      ensures tasks[i].received == old(tasks[i].received) + [m]
    {
      var t := tasks[i];
      if t.queue == [] {
        m := HttpDisconnect;
        tasks := tasks[i := t.(received := t.received + [m], repeats := t.repeats + 1)];
        return;
      }
      m := t.queue[0];
      tasks := tasks[i := t.(received := t.received + [m], queue := t.queue[1..])];
      if readingPaused && |tasks[i].queue| <= settings.resumeMark {
        readingPaused := false;
      }
    }

    /** `_write_failure_response`, behind its wait. */
    method WriteFailureResponse()
      requires tail.Failing?
      modifies this`tail, this`wire, this`closing
      ensures View() == old(View()).WriteFailure()
    {
      tail := tail.(written := true);
      if !closing {
        Write(FailureResponse(tail.status));
        closing := true;
      }
    }

    /** `_on_head_timeout`. */
    method OnHeadTimeout()
      modifies this`timerArmed, this`closed, this`wire, this`closing, this`tail
      ensures View() == old(View()).HeadTimeout()
    {
      timerArmed := false;
      if gotFirstHead || closing {
        return;
      }
      closed := true;
      Write(TimeoutResponse);
      closing, tail := true, TimedOut;
    }

    /** `connection_lost`. */
    method ConnectionLost()
      modifies this`closed, this`disconnected, this`closing, this`timerArmed, this`tasks, this`tail
      ensures View() == old(View()).Lost()
    {
      hide LoseAll, Pipe.LostTail;
      SessionLost();
      closed, disconnected, closing, timerArmed := true, true, true, false;
      DisconnectQueues();
    }

    /** The session's part of `connection_lost`. */
    method SessionLost()
      modifies this`tail
      ensures View() == old(View()).(tail := old(View()).LostTail())
    {
      if tail.Session? {
        var c := SessionNow();
        tail := tail.(conn := c.Lost());
      }
    }

    /** The loop of `connection_lost` over the registered queues. */
    method DisconnectQueues()
      modifies this`tasks
      ensures View() == old(View()).(tasks := LoseAll(old(tasks)))
    {
      for i := 0 to |tasks|
        invariant |tasks| == |old(tasks)|
        invariant forall j :: 0 <= j < i ==> tasks[j] == old(tasks[j]).Disconnected()
        invariant forall j :: i <= j < |tasks| ==> tasks[j] == old(tasks[j])
      {
        var t := tasks[i];
        if t.registered {
          tasks := tasks[i := t.(queue := t.queue + [HttpDisconnect], lost := true)];
        }
      }
      assert tasks == LoseAll(old(tasks));
    }
  }
}
