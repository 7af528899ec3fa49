/** What comes behind the last request is decided by the octets alone: over every run an error
    response has the status of what was wrong with them, and a session is there exactly when they
    end in a handshake that is let in. */
module PipelineTails {
  import opened Bytes
  import opened Wrappers
  import opened Spelling
  import opened HttpParsing
  import opened HttpExchanges
  import opened Pipeline
  import opened PipelineTurns
  import opened PipelineBodies
  import WS = WsSession
  import PS = PipelineSent

  // ---- what the octets call for

  datatype Behind = Silence | Refusal(status: nat) | Admission

  /** A stream that does not parse is answered 400, or 413 when it is too large; one that ends in a
      head that asks for another protocol 501, or for a websocket what the handshake check says. */
  function CalledFor(s: Settings, error: Option<Error>, events: seq<Event>): Behind {
    if error == Some(MalformedRequest) then Refusal(400)
    else if error == Some(RequestTooLarge) then Refusal(413)
    else if events == [] || !IsUpgrade(events[|events| - 1]) then Silence
    else ForHead(s, events[|events| - 1].head)
  }

  function ForHead(s: Settings, head: RequestHead): Behind {
    if head.upgrade != Some(Octets("websocket")) then Refusal(501)
    else if s.handshake(head).Some? then Refusal(s.handshake(head).value)
    else Admission
  }

  /** The tail is that, unless a timeout came before anything was called for. */
  predicate TailIs(tail: Tail, behind: Behind) {
    match behind
    case Silence => tail.NoTail? || tail.TimedOut?
    case Refusal(status) => tail.Failing? && tail.status == status
    case Admission => tail.Session?
  }

  function Due(s: Settings, p: Pipe): Behind {
    CalledFor(s, FeedAll(s.parser, Fresh([]), p.fed).error, p.handled)
  }

  // ---- steps other than input

  /** The same kind of tail with the same status, or a timeout before there was one. */
  predicate SameTail(a: Tail, b: Tail) {
    match a
    case NoTail => b.NoTail? || b.TimedOut?
    case Failing(_, status, _) => b.Failing? && b.status == status
    case Session(_, _, _, _) => b.Session?
    case TimedOut => b.TimedOut?
  }

  lemma SameTailKeeps(s: Settings, p: Pipe, q: Pipe)
    requires TailIs(p.tail, Due(s, p)) && SameTail(p.tail, q.tail) && q.fed == p.fed && q.handled == p.handled
    ensures TailIs(q.tail, Due(s, q))
  {
    hide FeedAll, CalledFor;
  }

  lemma ConnectionTail(p: Pipe, op: Op)
    requires Enabled(p, op) && !op.Data? && !IsTaskOp(op) && !IsSessionOp(op)
    requires p.timerArmed && !p.gotFirstHead ==> p.tail.NoTail?
    ensures SameTail(p.tail, ConnectionPerform(p, op).tail)
  {
    hide WS.Conn.Lost, LoseAll;
    match op {
      case WriteFailure => FailureTail(p);
      case HeadTimeout => TimeoutTail(p);
      case ConnectionLost => LostTail(p);
      case _ =>
    }
  }

  lemma FailureTail(p: Pipe)
    requires p.tail.Failing?
    ensures SameTail(p.tail, p.WriteFailure().tail)
  {
  }

  lemma TimeoutTail(p: Pipe)
    requires !p.gotFirstHead ==> p.tail.NoTail?
    ensures SameTail(p.tail, p.HeadTimeout().tail)
  {
  }

  lemma LostTail(p: Pipe)
    ensures SameTail(p.tail, p.Lost().tail)
  {
    hide WS.Conn.Lost, LoseAll;
  }

  lemma TimerMeansNoTail(p: Pipe)
    requires Inv(false, p) && p.timerArmed && !p.gotFirstHead
    ensures p.tail.NoTail?
  {
  }

  lemma StepTail(s: Settings, p: Pipe, op: Op)
    requires Inv(false, p) && Enabled(p, op) && p.parser.Live() && !op.Data?
    ensures SameTail(p.tail, Perform(s, p, op).tail)
  {
    hide Inv, Enabled, TaskPerform, SessionPerform, ConnectionPerform;
    if IsTaskOp(op) {
      PS.TaskStepStays(s, p, op);
    } else if IsSessionOp(op) {
      SessionIsThere(p, op);
      PS.SessionStepStays(s, p, op);
    } else {
      if p.timerArmed && !p.gotFirstHead {
        TimerMeansNoTail(p);
      }
      ConnectionTail(p, op);
    }
  }

  lemma SessionIsThere(p: Pipe, op: Op)
    requires Enabled(p, op) && IsSessionOp(op)
    ensures p.tail.Session?
  {
  }

  lemma StepQuiet(s: Settings, p: Pipe, op: Op)
    requires BodyInv(s, p) && Enabled(p, op) && p.parser.Live() && !op.Data?
    ensures var q := Perform(s, p, op); q.fed == p.fed && q.handled == p.handled
  {
    hide Perform, Enabled, Parsed, Follows, Delivered;
    if IsMail(op) {
      MailDelivers(s, p, op);
    } else {
      StepIdle(s, p, op);
    }
  }

  // ---- input

  lemma WebsocketTail(s: Settings, p: Pipe, head: RequestHead)
    requires head.upgrade == Some(Octets("websocket"))
    ensures TailIs(p.BeginWebsocket(s, head).tail, ForHead(s, head))
  {
    hide Octets;
  }

  lemma HeadTail(s: Settings, p: Pipe, head: RequestHead)
    requires p.tail.NoTail?
    ensures TailIs(p.HandleHead(s, head).tail, if head.upgrade.None? then Silence else ForHead(s, head))
  {
    assert WEBSOCKET == Octets("websocket");
    hide Octets, Pipe.BeginWebsocket;
    if head.upgrade == Some(WEBSOCKET) {
      hide ForHead, TailIs;
      WebsocketTail(s, p.(gotFirstHead := true, timerArmed := false), head);
    }
  }

  lemma EventTail(s: Settings, p: Pipe, e: Event)
    requires p.tail.NoTail?
    ensures TailIs(p.HandleEvent(s, e).tail, if IsUpgrade(e) then ForHead(s, e.head) else Silence)
    ensures !IsUpgrade(e) ==> p.HandleEvent(s, e).tail == p.tail
  {
    TailStays(s, p, e);
    hide Pipe.HandleHead, Pipe.PushChunk, ForHead;
    if e.HeadComplete? {
      HeadTail(s, p.(handled := p.handled + [e]), e.head);
    }
  }

  lemma {:induction false} EventsTail(s: Settings, p: Pipe, events: seq<Event>)
    requires p.tail.NoTail? && UpgradeLast(events)
    ensures TailIs(p.HandleAll(s, events).tail, CalledFor(s, None, events))
    decreases |events|
  {
    hide Pipe.HandleEvent, ForHead;
    if events != [] {
      var q, rest := p.HandleEvent(s, events[0]), events[1..];
      EventTail(s, p, events[0]);
      assert forall i :: 0 <= i < |rest| ==> rest[i] == events[i + 1];
      if rest == [] {
        assert q.HandleAll(s, rest) == q;
      } else {
        EventsTail(s, q, rest);
      }
    }
  }

  /** Only the last event counts. */
  lemma CalledLater(s: Settings, error: Option<Error>, early: seq<Event>, events: seq<Event>)
    requires events != []
    ensures CalledFor(s, error, early + events) == CalledFor(s, error, events)
  {
    hide ForHead;
  }

  lemma GoodDataTail(s: Settings, p: Pipe, data: Bytes, r: Outcome)
    requires BodyInv(s, p) && TailIs(p.tail, Due(s, p)) && p.tail.NoTail? && Listening(p) && !p.disconnected && p.parser.Live()
    requires r == Drain(s.parser, p.parser.Received(data)) && r.error.None?
    ensures var q := p.(parser := r.state, fed := p.fed + [data]).HandleAll(s, r.events); TailIs(q.tail, Due(s, q))
  {
    var q := p.(parser := r.state, fed := p.fed + [data]);
    FedLast(s.parser, Fresh([]), p.fed, data);
    DrainUpgradeLast(s.parser, p.parser.Received(data));
    FollowsSame(p, q);
    AllFollow(s, q, r.events);
    EventsTail(s, q, r.events);
    hide FeedAll, Drain, Follows, Delivered, Pipe.HandleAll, CalledFor, Shaped;
    if r.events != [] {
      CalledLater(s, None, p.handled, r.events);
    } else {
      NothingMore(s, q, p.handled);
    }
  }

  lemma NothingMore(s: Settings, p: Pipe, handled: seq<Event>)
    ensures p.HandleAll(s, []) == p && handled + [] == handled
  {
  }

  lemma BadDataTail(s: Settings, p: Pipe, data: Bytes, r: Outcome, status: nat)
    requires BodyInv(s, p) && Listening(p) && !p.disconnected && p.parser.Live()
    requires r == Drain(s.parser, p.parser.Received(data))
    requires r.error == Some(if status == 400 then MalformedRequest else RequestTooLarge) && (status == 400 || status == 413)
    ensures var q := p.(parser := r.state, fed := p.fed + [data]).HandleAll(s, CompletedPrefix(r.events)).Fail(status);
      TailIs(q.tail, Due(s, q))
  {
    var q, kept := p.(parser := r.state, fed := p.fed + [data]), CompletedPrefix(r.events);
    FedLast(s.parser, Fresh([]), p.fed, data);
    FollowsSame(p, q);
    AllFollow(s, q, kept);
    hide FeedAll, Drain, Follows, Delivered, Pipe.HandleAll, CompletedPrefix, Shaped;
  }

  lemma DataTail(s: Settings, p: Pipe, data: Bytes)
    requires Inv(false, p) && BodyInv(s, p) && TailIs(p.tail, Due(s, p)) && !p.disconnected && p.parser.Live()
    ensures var q := p.DataReceived(s, data); TailIs(q.tail, Due(s, q))
  {
    if Listening(p) {
      OpenHasNoTail(p);
      var r := Drain(s.parser, p.parser.Received(data));
      hide Drain, BodyInv, Inv, Due, TailIs, Pipe.HandleAll, Pipe.Fail;
      if r.error.None? {
        GoodDataTail(s, p, data, r);
      } else {
        TwoErrors(r.error.value);
        BadDataTail(s, p, data, r, if r.error == Some(MalformedRequest) then 400 else 413);
      }
    } else if p.tail.Session? {
      PS.StillSession(p, p.Sess().DataReceived(s.session, data), p.tail.pending);
      hide Pipe.HandleAll, WS.Conn.DataReceived, BodyInv, Inv, FeedAll, CalledFor;
    }
  }

  lemma OpenHasNoTail(p: Pipe)
    requires Inv(false, p) && Listening(p)
    ensures p.tail.NoTail?
  {
  }

  // ---- whole runs

  lemma StepTailIs(s: Settings, p: Pipe, op: Op)
    requires Inv(false, p) && BodyInv(s, p) && TailIs(p.tail, Due(s, p)) && Enabled(p, op) && p.parser.Live()
    ensures var q := Perform(s, p, op); TailIs(q.tail, Due(s, q))
  {
    hide Inv, BodyInv, TailIs, Due, TaskPerform, SessionPerform, ConnectionPerform, Pipe.DataReceived;
    if op.Data? {
      DataTail(s, p, op.data);
    } else {
      StepTail(s, p, op);
      StepQuiet(s, p, op);
      SameTailKeeps(s, p, Perform(s, p, op));
    }
  }

  lemma {:induction false} RunTailIs(s: Settings, p: Pipe, ops: seq<Op>, q: Pipe)
    requires Inv(false, p) && BodyInv(s, p) && TailIs(p.tail, Due(s, p)) && Reaches(s, p, ops, q)
    ensures TailIs(q.tail, Due(s, q))
    decreases |ops|
  {
    hide Inv, BodyInv, TailIs, Due, Perform, Enabled;
    if ops != [] {
      StepTailIs(s, p, ops[0]);
      StepKeeps(false, s, p, ops[0]);
      PerformFollows(s, p, ops[0]);
      RunTailIs(s, Perform(s, p, ops[0]), ops[1..], q);
    }
  }

  /** Over every interleaving: what comes behind the last request is what one parse of the octets
      fed calls for, and only a connection with nothing behind it can time out. */
  lemma TailIsCalledFor(s: Settings, ops: seq<Op>, p: Pipe)
    requires Reaches(s, Connected(), ops, p)
    ensures TailIs(p.tail, CalledFor(s, FeedAll(s.parser, Fresh([]), p.fed).error, p.handled))
  {
    ConnectedInv(false);
    ConnectedFollows(s);
    assert TailIs(Connected().tail, Due(s, Connected()));
    hide Inv, BodyInv, TailIs, Reaches, CalledFor, FeedAll;
    RunTailIs(s, Connected(), ops, p);
  }
}
