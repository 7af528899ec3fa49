/** What each application says is what goes out: over every run, the response of a request is the
    status and the parts that its own application passed, and the connection closes behind it
    exactly when the request, the response's headers or a shutdown ask for that. */
module PipelineSent {
  import opened Bytes
  import opened Wrappers
  import opened Spelling
  import opened HttpLists
  import opened HttpGrammar
  import opened HttpParsing
  import opened HttpExchanges
  import opened Pipeline
  import opened PipelineTurns
  import WS = WsSession
  import WW = WsWrites

  // ---- what is said

  /** Whether the connection is to close behind a response: the request's Connection fields list
      `close`, or it is an old one that does not list `keep-alive`, or the response does not say
      how long it is, or the server is exiting. */
  ghost predicate WantsClose(head: RequestHead, declaresLength: bool, exiting: bool) {
    || Mentions(head.headers, Octets("close"))
    || (head.line.version == Http10 && !Mentions(head.headers, Octets("keep-alive")))
    || !declaresLength || exiting
  }

  /** Every request before has its whole response behind it, or its application is gone. */
  predicate HasTurn(p: Pipe, i: nat)
    requires i < |p.tasks|
  {
    i == 0 || p.tasks[i - 1].complete || p.tasks[i - 1].stage.Gone?
  }

  /** One application's part of a run so far: whether the server is exiting, whether a head was
      sent and how it closes, the head that still waits for its turn, and what is through. */
  datatype Voice = Voice(exiting: bool, started: bool, close: bool, held: Option<WireItem>, said: seq<WireItem>)
  {
    function Says(item: WireItem): Voice {
      this.(held := None, said := said + [item])
    }
  }

  const SILENT: Voice := Voice(false, false, false, None, [])

  /** A step's part in it, for the application of request i: its first good head with its status,
      now or when its turn comes, and each part that is not empty. Nothing else says anything. */
  ghost function Speak(p: Pipe, op: Op, i: nat, v: Voice): Voice {
    match op
    case SendStart(j, status, headersOk, declaresLength) =>
      if j != i || i >= |p.tasks| || v.started then v
      else if !headersOk then v.(started := true)
      else
        var close := WantsClose(p.tasks[i].head, declaresLength, v.exiting);
        var item := ResponseHead(i, status, close);
        var begun := v.(started := true, close := close, held := Some(item));
        if HasTurn(p, i) then begun.Says(item) else begun
    case TurnArrives(j) => if j == i && v.held.Some? then v.Says(v.held.value) else v
    case SendBody(j, data, _) => if j == i && v.started && data != [] then v.Says(ResponseBody(i, data)) else v
    case ShutdownBegins => v.(exiting := true)
    case _ => v
  }

  /** What it says along a run. */
  ghost function Spoken(s: Settings, p: Pipe, ops: seq<Op>, i: nat, v: Voice): Voice
    decreases |ops|
  {
    if ops == [] || !Enabled(p, ops[0]) || !p.parser.Live() then v
    else Spoken(s, Perform(s, p, ops[0]), ops[1..], i, Speak(p, ops[0], i, v))
  }

  /** Request by request. */
  ghost function AllSpoken(s: Settings, ops: seq<Op>, n: nat): seq<WireItem> {
    if n == 0 then [] else AllSpoken(s, ops, n - 1) + Spoken(s, Connected(), ops, n - 1, SILENT).said
  }

  // ---- the invariant

  /** What was said is what passed the turn, and a response that closes has closed. */
  predicate VoiceOk(p: Pipe, i: nat, v: Voice) {
    && v.exiting == p.shouldExit
    && if i < |p.tasks| then TaskVoice(p.tasks[i], i, v, p.closing) else v == SILENT.(exiting := v.exiting)
  }

  predicate TaskVoice(t: Task, i: nat, v: Voice, closing: bool) {
    && t.sent == v.said && t.started == v.started && t.close == v.close
    && (t.stage.AwaitTurn? ==> v.held == Some(ResponseHead(i, t.stage.status, t.close)))
    && (t.complete && t.close ==> closing)
  }

  lemma CloseIsAsked(head: RequestHead)
    ensures ClientRequestedClose(head) <==> WantsClose(head, true, false)
  {
    WordsAreSpelled();
    TokenIsMentioned(head.headers, CLOSE);
    TokenIsMentioned(head.headers, KEEP_ALIVE);
    hide AllTokens, Values, Mentions, IsKeyword;
  }

  lemma WordsAreSpelled()
    ensures CLOSE == Octets("close") && KEEP_ALIVE == Octets("keep-alive") && IsKeyword(CLOSE) && IsKeyword(KEEP_ALIVE)
  {
  }

  lemma TurnIsHad(p: Pipe, i: nat)
    requires Inv(false, p) && i < |p.tasks|
    ensures p.tasks[i].turn in p.fired <==> HasTurn(p, i)
  {
    hide WireInv, Flags;
    assert LinkOk(p.tasks, i);
    if i > 0 {
      assert TaskOk(p, i - 1);
    }
  }

  // ---- steps in which it says nothing

  predicate SameVoice(t: Task, u: Task) {
    && u.sent == t.sent && u.started == t.started && u.close == t.close && u.complete == t.complete
    && (u.stage == t.stage || !u.stage.AwaitTurn?)
  }

  predicate NewVoice(t: Task) {
    t.sent == [] && !t.started && !t.close && !t.complete && !t.stage.AwaitTurn?
  }

  predicate Mute(p: Pipe, q: Pipe, i: nat) {
    && q.shouldExit == p.shouldExit && (p.closing ==> q.closing) && |p.tasks| <= |q.tasks|
    && (i < |p.tasks| ==> SameVoice(p.tasks[i], q.tasks[i]))
    && (|p.tasks| <= i < |q.tasks| ==> NewVoice(q.tasks[i]))
  }

  lemma MuteTwice(p: Pipe, q: Pipe, r: Pipe, i: nat)
    requires Mute(p, q, i) && Mute(q, r, i)
    ensures Mute(p, r, i)
  {
  }

  lemma MuteKeeps(p: Pipe, q: Pipe, i: nat, v: Voice)
    requires VoiceOk(p, i, v) && Mute(p, q, i)
    ensures VoiceOk(q, i, v)
  {
  }

  lemma FlagsMute(p: Pipe, q: Pipe, i: nat)
    requires q.tasks == p.tasks && q.shouldExit == p.shouldExit && (p.closing ==> q.closing)
    ensures Mute(p, q, i)
  {
  }

  lemma OtherMute(p: Pipe, q: Pipe, j: nat, i: nat)
    requires j < |p.tasks| && |q.tasks| == |p.tasks| && q.tasks == p.tasks[j := q.tasks[j]]
    requires q.shouldExit == p.shouldExit && (p.closing ==> q.closing)
    requires j == i ==> SameVoice(p.tasks[i], q.tasks[i])
    ensures Mute(p, q, i)
  {
  }

  lemma SessionMute(p: Pipe, d: WS.Conn, pending: Pending, i: nat)
    requires p.tail.Session? && WW.Grows(p.Sess(), d)
    ensures Mute(p, p.InSession(d, pending), i)
  {
    var q := p.InSession(d, pending);
    assert q.tasks == p.tasks && q.shouldExit == p.shouldExit && (p.closing ==> q.closing);
    hide *;
    FlagsMute(p, q, i);
  }

  // ---- input

  lemma EventMute(s: Settings, p: Pipe, e: Event, i: nat)
    ensures Mute(p, p.HandleEvent(s, e), i)
  {
    hide Mute, Pipe.BeginRequest, Pipe.BeginWebsocket, Pipe.Fail, Pipe.PushChunk;
    var q := p.(handled := p.handled + [e]);
    FlagsMute(p, q, i);
    match e {
      case HeadComplete(head) => HeadMute(s, p, q, head, i);
      case BodyChunk(data, more) =>
        PushMute(s, q, RequestBody(data, more), i);
        MuteTwice(p, q, q.PushChunk(s, RequestBody(data, more)), i);
      case RequestComplete =>
    }
  }

  lemma HeadMute(s: Settings, p: Pipe, q: Pipe, head: RequestHead, i: nat)
    requires Mute(p, q, i)
    ensures Mute(p, q.HandleHead(s, head), i)
  {
    hide Mute, Pipe.BeginRequest, Pipe.BeginWebsocket, Pipe.Fail;
    var r := q.(gotFirstHead := true, timerArmed := false);
    FlagsMute(q, r, i);
    BeginMute(r, head, i);
    WebsocketMute(s, r, head, i);
    FailMute(r, 501, i);
    MuteTwice(q, r, q.HandleHead(s, head), i);
    MuteTwice(p, q, q.HandleHead(s, head), i);
  }

  lemma BeginMute(p: Pipe, head: RequestHead, i: nat)
    ensures Mute(p, p.BeginRequest(head), i)
  {
  }

  lemma PushMute(s: Settings, p: Pipe, m: Message, i: nat)
    ensures Mute(p, p.PushChunk(s, m), i)
  {
    var q := p.PushChunk(s, m);
    hide Mute;
    if p.tasks == [] {
      FlagsMute(p, p, i);
    } else {
      OtherMute(p, q, |p.tasks| - 1, i);
    }
  }

  lemma WebsocketMute(s: Settings, p: Pipe, head: RequestHead, i: nat)
    ensures Mute(p, p.BeginWebsocket(s, head), i)
  {
  }

  lemma FailMute(p: Pipe, status: nat, i: nat)
    ensures Mute(p, p.Fail(status), i)
  {
  }

  lemma {:induction false} EventsMute(s: Settings, p: Pipe, events: seq<Event>, i: nat)
    ensures Mute(p, p.HandleAll(s, events), i)
    decreases |events|
  {
    hide Pipe.HandleEvent;
    if events != [] {
      hide Mute;
      var q := p.HandleEvent(s, events[0]);
      EventMute(s, p, events[0], i);
      EventsMute(s, q, events[1..], i);
      MuteTwice(p, q, q.HandleAll(s, events[1..]), i);
    }
  }

  lemma DataMute(s: Settings, p: Pipe, data: Bytes, i: nat)
    requires p.parser.Live() && (p.tail.Session? ==> !p.closed)
    ensures Mute(p, p.DataReceived(s, data), i)
  {
    hide Mute, Drain, CompletedPrefix, Pipe.HandleAll, Pipe.Fail, Pipe.InSession, WS.Conn.DataReceived;
    if p.tail.Session? {
      WW.DataWrites(s.session, p.Sess(), data);
      SessionMute(p, p.Sess().DataReceived(s.session, data), p.tail.pending, i);
    } else if p.closed {
      FlagsMute(p, p, i);
    } else {
      var r := Drain(s.parser, p.parser.Received(data));
      var q := p.(parser := r.state, fed := p.fed + [data]);
      FlagsMute(p, q, i);
      FedMute(s, p, q, r.events, i);
      FedMute(s, p, q, CompletedPrefix(r.events), i);
    }
  }

  lemma FedMute(s: Settings, p: Pipe, q: Pipe, events: seq<Event>, i: nat)
    requires Mute(p, q, i)
    ensures var r := q.HandleAll(s, events); Mute(p, r, i) && Mute(p, r.Fail(400), i) && Mute(p, r.Fail(413), i)
  {
    hide Mute, Pipe.HandleAll, Pipe.Fail;
    var r := q.HandleAll(s, events);
    EventsMute(s, q, events, i);
    MuteTwice(p, q, r, i);
    FailMute(r, 400, i);
    FailMute(r, 413, i);
    MuteTwice(p, r, r.Fail(400), i);
    MuteTwice(p, r, r.Fail(413), i);
  }

  // ---- the session and the connection

  lemma SendMute(s: Settings, p: Pipe, m: WS.AppMessage, i: nat)
    requires p.tail.Session?
    ensures Mute(p, p.SessionSend(s, m), i)
  {
    hide Mute, Pipe.TakeTurn, Pipe.InSession, WS.Conn.Send, WS.Conn.StartDeny;
    var c := p.Sess();
    if p.tail.conn.wsState == Some(WS.Connecting) && m.Accept? && m.headersOk {
      var q := p.(tail := p.tail.(pending := AcceptPending(m.subprotocol)));
      FlagsMute(p, q, i);
      TurnMute(s, p, q, i);
    } else if p.tail.conn.wsState == Some(WS.Connecting) && m.CloseMessage? {
      WW.DenyWrites(c);
      SessionMute(p, c.StartDeny(), DenyPending, i);
      StillSession(p, c.StartDeny(), DenyPending);
      TurnMute(s, p, p.InSession(c.StartDeny(), DenyPending), i);
    } else {
      WW.SendActs(s.session, c, m);
      SessionMute(p, c.Send(s.session, m).conn, NoPending, i);
    }
  }

  lemma StillSession(p: Pipe, d: WS.Conn, pending: Pending)
    requires p.tail.Session?
    ensures p.InSession(d, pending).tail.Session?
  {
  }

  lemma TurnMute(s: Settings, p: Pipe, q: Pipe, i: nat)
    requires q.tail.Session? && Mute(p, q, i)
    ensures Mute(p, q.SessionTurn(s), i) && Mute(p, q.TakeTurn(s), i)
  {
    hide Mute, Pipe.InSession, WS.Conn.DoAccept, WS.Conn.EndDeny;
    FlagsMute(q, q, i);
    match q.tail.pending {
      case NoPending =>
      case AcceptPending(subprotocol) =>
        WW.AcceptWrites(s.session, q.Sess(), subprotocol);
        SessionMute(q, q.Sess().DoAccept(s.session, subprotocol, true).conn, NoPending, i);
      case DenyPending =>
        WW.DenyWrites(q.Sess());
        SessionMute(q, q.Sess().EndDeny(), NoPending, i);
    }
    MuteTwice(p, q, q.SessionTurn(s), i);
  }

  lemma SessionStepMute(s: Settings, p: Pipe, op: Op, i: nat)
    requires Enabled(p, op) && IsSessionOp(op)
    ensures Mute(p, SessionPerform(s, p, op), i)
  {
    hide Mute, Pipe.SessionSend, Pipe.SessionTurn, Pipe.InSession;
    hide WS.Conn.AfterReceive, WS.Conn.PingDue, WS.Conn.Shutdown, WS.Conn.TaskDone;
    match op {
      case SessionSend(m) => SendMute(s, p, m, i);
      case SessionTurn =>
        FlagsMute(p, p, i);
        TurnMute(s, p, p, i);
      case SessionReceive =>
        WW.ReceiveActs(s.session, p.Sess());
        SessionMute(p, p.Sess().AfterReceive(s.session), p.tail.pending, i);
      case SessionPing(payload) =>
        WW.PingActs(s.session, p.Sess(), payload);
        SessionMute(p, p.Sess().PingDue(s.session, payload), p.tail.pending, i);
      case SessionShutdown =>
        WW.ShutdownActs(p.Sess());
        SessionMute(p, p.Sess().Shutdown(), p.tail.pending, i);
      case SessionDone(raised) =>
        WW.DoneActs(p.Sess(), raised);
        SessionMute(p, p.Sess().TaskDone(raised), NoPending, i);
    }
  }

  lemma ConnectionStepMute(p: Pipe, op: Op, i: nat)
    requires Enabled(p, op) && !op.Data? && !IsTaskOp(op) && !IsSessionOp(op) && !op.ShutdownBegins?
    ensures Mute(p, ConnectionPerform(p, op), i)
  {
    var q := ConnectionPerform(p, op);
    hide Mute;
    if op.ConnectionLost? {
      LostMute(p, i);
    } else {
      FlagsMute(p, q, i);
    }
  }

  lemma LostMute(p: Pipe, i: nat)
    ensures Mute(p, p.Lost(), i)
  {
  }

  // ---- the application's own steps

  /** Of the tasks only i changed, to t, and the connection is as said. */
  predicate Becomes(p: Pipe, q: Pipe, i: nat, t: Task, closing: bool) {
    && i < |p.tasks| && q.tasks == p.tasks[i := t] && q.shouldExit == p.shouldExit && q.closing == closing
    && q.tail == p.tail && q.readingPaused == p.readingPaused && q.disconnected == p.disconnected && q.closed == p.closed
  }

  lemma BecomesTwice(p: Pipe, q: Pipe, r: Pipe, i: nat, t: Task, u: Task, closing: bool)
    requires Becomes(p, q, i, t, p.closing) && Becomes(q, r, i, u, closing)
    ensures Becomes(p, r, i, u, closing)
  {
  }

  lemma WriteBecomes(p: Pipe, i: nat, t: Task, item: WireItem)
    requires i < |p.tasks|
    ensures Becomes(p, p.WithTask(i, t), i, t, p.closing) && Becomes(p, p.WithTask(i, t).Write(item), i, t, p.closing)
  {
  }

  lemma BecomesSpeaks(p: Pipe, q: Pipe, i: nat, v: Voice)
    requires i < |p.tasks| && |q.tasks| == |p.tasks| && q.shouldExit == v.exiting && TaskVoice(q.tasks[i], i, v, q.closing)
    ensures VoiceOk(q, i, v)
  {
  }

  /** A task that has its turn. */
  function Through(i: nat, t: Task): Task
    requires t.stage.AwaitTurn?
  {
    t.(stage := Running, sent := t.sent + [ResponseHead(i, t.stage.status, t.close)])
  }

  lemma TurnBecomes(p: Pipe, i: nat)
    requires i < |p.tasks| && p.tasks[i].stage.AwaitTurn?
    ensures Becomes(p, p.TurnArrives(i), i, Through(i, p.tasks[i]), p.closing)
  {
    hide Becomes;
    var t := p.tasks[i];
    WriteBecomes(p, i, Through(i, t), ResponseHead(i, t.stage.status, t.close));
  }

  function Begun(p: Pipe, i: nat, status: int, headersOk: bool, declaresLength: bool): Task
    requires i < |p.tasks|
  {
    var t := p.tasks[i];
    if t.started then t.(stage := Erred)
    else if !headersOk then t.(started := true, stage := Erred)
    else
      var close := ClientRequestedClose(t.head) || !declaresLength || p.shouldExit;
      var u := t.(started := true, close := close, stage := AwaitTurn(status));
      if t.turn in p.fired then Through(i, u) else u
  }

  lemma StartBecomes(p: Pipe, i: nat, status: int, headersOk: bool, declaresLength: bool)
    requires i < |p.tasks|
    ensures Becomes(p, p.SendStart(i, status, headersOk, declaresLength), i, Begun(p, i, status, headersOk, declaresLength), p.closing)
  {
    hide Becomes, ClientRequestedClose, Through, Pipe.TurnArrives;
    var t := p.tasks[i];
    WriteBecomes(p, i, t.(stage := Erred), TimeoutResponse);
    WriteBecomes(p, i, t.(started := true, stage := Erred), TimeoutResponse);
    var close := ClientRequestedClose(t.head) || !declaresLength || p.shouldExit;
    WaitBecomes(p, i, t.(started := true, close := close, stage := AwaitTurn(status)));
  }

  lemma WaitBecomes(p: Pipe, i: nat, t: Task)
    requires i < |p.tasks| && t.stage.AwaitTurn?
    ensures Becomes(p, p.WithTask(i, t), i, t, p.closing)
    ensures Becomes(p, p.WithTask(i, t).TurnArrives(i), i, Through(i, t), p.closing)
  {
    hide Becomes, Through, Pipe.TurnArrives;
    var q := p.WithTask(i, t);
    WriteBecomes(p, i, t, TimeoutResponse);
    TurnBecomes(q, i);
    BecomesTwice(p, q, q.TurnArrives(i), i, t, Through(i, t), p.closing);
  }

  function Finished(t: Task, more: bool): Task {
    t.(stage := Running, complete := t.complete || !more)
  }

  lemma FinishBecomes(p: Pipe, i: nat, more: bool)
    requires i < |p.tasks|
    ensures Becomes(p, p.FinishBody(i, more), i, Finished(p.tasks[i], more), p.closing || (!more && p.tasks[i].close))
  {
  }

  function Spoke(i: nat, t: Task, data: Bytes): Task {
    if data == [] then t else t.(sent := t.sent + [ResponseBody(i, data)])
  }

  lemma PartBecomes(p: Pipe, i: nat, data: Bytes, more: bool)
    requires i < |p.tasks|
    ensures var q, t := p.SendBody(i, data, more), p.tasks[i];
      if !t.started then Becomes(p, q, i, t.(stage := Erred), p.closing)
      else if data != [] && p.pausedWriting && !p.closing then
        Becomes(p, q, i, Spoke(i, t, data).(stage := Draining(more)), p.closing)
      else Becomes(p, q, i, Finished(Spoke(i, t, data), more), p.closing || (!more && t.close))
  {
    hide Becomes, Finished, Pipe.FinishBody;
    var t := p.tasks[i];
    var u := Spoke(i, t, data);
    WriteBecomes(p, i, t.(stage := Erred), TimeoutResponse);
    FinishBecomes(p, i, more);
    if data != [] {
      WrittenBecomes(p, i, u, ResponseBody(i, data), more);
    }
  }

  lemma WrittenBecomes(p: Pipe, i: nat, t: Task, item: WireItem, more: bool)
    requires i < |p.tasks|
    ensures var q := p.WithTask(i, t).Write(item);
      && i < |q.tasks| && q.tasks[i] == t
      && Becomes(p, q.WithTask(i, t.(stage := Draining(more))), i, t.(stage := Draining(more)), p.closing)
      && Becomes(p, q.FinishBody(i, more), i, Finished(t, more), p.closing || (!more && t.close))
  {
    hide Finished, Pipe.FinishBody;
    var q := p.WithTask(i, t).Write(item);
    WriteBecomes(p, i, t, item);
    assert q.tasks[i] == t;
    hide Becomes;
    WriteBecomes(q, i, t.(stage := Draining(more)), item);
    BecomesTwice(p, q, q.WithTask(i, t.(stage := Draining(more))), i, t, t.(stage := Draining(more)), p.closing);
    FinishBecomes(q, i, more);
    BecomesTwice(p, q, q.FinishBody(i, more), i, t, Finished(t, more), p.closing || (!more && t.close));
  }

  lemma StartSpeaks(p: Pipe, i: nat, status: int, headersOk: bool, declaresLength: bool, v: Voice)
    requires Inv(false, p) && IsRunning(p, i) && !p.tasks[i].complete && VoiceOk(p, i, v)
    ensures VoiceOk(p.SendStart(i, status, headersOk, declaresLength), i,
      Speak(p, Op.SendStart(i, status, headersOk, declaresLength), i, v))
  {
    TurnIsHad(p, i);
    CloseIsAsked(p.tasks[i].head);
    StartBecomes(p, i, status, headersOk, declaresLength);
    hide Inv, HasTurn, ClientRequestedClose, Mentions, Octets, Pipe.SendStart;
    BecomesSpeaks(p, p.SendStart(i, status, headersOk, declaresLength), i,
      Speak(p, Op.SendStart(i, status, headersOk, declaresLength), i, v));
  }

  lemma PartVoice(p: Pipe, i: nat, data: Bytes, more: bool, v: Voice)
    requires IsRunning(p, i) && !p.tasks[i].complete && VoiceOk(p, i, v)
    ensures var t, w := p.tasks[i], Speak(p, Op.SendBody(i, data, more), i, v);
      && w.exiting == v.exiting
      && (!t.started ==> TaskVoice(t.(stage := Erred), i, w, p.closing))
      && (t.started ==>
        && TaskVoice(Spoke(i, t, data).(stage := Draining(more)), i, w, p.closing)
        && TaskVoice(Finished(Spoke(i, t, data), more), i, w, p.closing || (!more && t.close)))
  {
  }

  lemma BecomesVoice(p: Pipe, q: Pipe, i: nat, t: Task, closing: bool, v: Voice, w: Voice)
    requires VoiceOk(p, i, v) && Becomes(p, q, i, t, closing) && TaskVoice(t, i, w, closing) && w.exiting == v.exiting
    ensures VoiceOk(q, i, w)
  {
  }

  lemma PartSpeaks(p: Pipe, i: nat, data: Bytes, more: bool, v: Voice)
    requires IsRunning(p, i) && !p.tasks[i].complete && VoiceOk(p, i, v)
    ensures VoiceOk(p.SendBody(i, data, more), i, Speak(p, Op.SendBody(i, data, more), i, v))
  {
    PartBecomes(p, i, data, more);
    PartVoice(p, i, data, more, v);
    hide VoiceOk, TaskVoice, Becomes, Speak, Pipe.SendBody, Spoke, Finished;
    var q, t, w := p.SendBody(i, data, more), p.tasks[i], Speak(p, Op.SendBody(i, data, more), i, v);
    if !t.started {
      BecomesVoice(p, q, i, t.(stage := Erred), p.closing, v, w);
    } else if data != [] && p.pausedWriting && !p.closing {
      BecomesVoice(p, q, i, Spoke(i, t, data).(stage := Draining(more)), p.closing, v, w);
    } else {
      BecomesVoice(p, q, i, Finished(Spoke(i, t, data), more), p.closing || (!more && t.close), v, w);
    }
  }

  lemma TurnSpeaks(p: Pipe, i: nat, v: Voice)
    requires i < |p.tasks| && p.tasks[i].stage.AwaitTurn? && VoiceOk(p, i, v)
    ensures VoiceOk(p.TurnArrives(i), i, Speak(p, Op.TurnArrives(i), i, v))
  {
    TurnBecomes(p, i);
    hide Pipe.TurnArrives;
    BecomesSpeaks(p, p.TurnArrives(i), i, Speak(p, Op.TurnArrives(i), i, v));
  }

  lemma FinishSpeaks(p: Pipe, i: nat, more: bool, v: Voice)
    requires i < |p.tasks| && VoiceOk(p, i, v)
    ensures VoiceOk(p.FinishBody(i, more), i, v)
  {
    FinishBecomes(p, i, more);
    hide Pipe.FinishBody;
    BecomesSpeaks(p, p.FinishBody(i, more), i, v);
  }

  /** The steps of an application that say nothing. */
  predicate IsSilent(op: Op) {
    op.SendUnknown? || op.Receive? || op.Raise? || op.Return? || op.Cancel? || op.TaskDone?
  }

  lemma SilentStepMute(s: Settings, p: Pipe, op: Op, i: nat)
    requires Enabled(p, op) && IsSilent(op)
    ensures Mute(p, TaskPerform(s, p, op), i)
  {
    hide Mute, Pipe.SendStart, Pipe.TurnArrives, Pipe.SendBody, Pipe.FinishBody;
    OtherMute(p, TaskPerform(s, p, op), op.task, i);
  }

  lemma OwnStepSpeaks(s: Settings, p: Pipe, op: Op, i: nat, v: Voice)
    requires Inv(false, p) && Enabled(p, op) && IsTaskOp(op) && !IsSilent(op) && op.task == i && VoiceOk(p, i, v)
    ensures VoiceOk(TaskPerform(s, p, op), i, Speak(p, op, i, v))
  {
    hide Inv, VoiceOk, Pipe.SendStart, Pipe.TurnArrives, Pipe.SendBody, Pipe.FinishBody;
    match op {
      case SendStart(_, status, headersOk, declaresLength) => StartSpeaks(p, i, status, headersOk, declaresLength, v);
      case TurnArrives(_) => TurnSpeaks(p, i, v);
      case SendBody(_, data, more) => PartSpeaks(p, i, data, more, v);
      case DrainDone(_) => FinishSpeaks(p, i, p.tasks[i].stage.more, v);
    }
  }

  lemma OtherStepMute(s: Settings, p: Pipe, op: Op, i: nat)
    requires Enabled(p, op) && IsTaskOp(op) && !IsSilent(op) && op.task != i
    ensures Mute(p, TaskPerform(s, p, op), i)
  {
    OwnStepBecomes(s, p, op);
    var q := TaskPerform(s, p, op);
    hide Mute, TaskPerform;
    OtherMute(p, q, op.task, i);
  }

  predicate Closes(t: Task) {
    t.complete && t.close
  }

  /** A step of a task changes that task only, and closes the connection exactly with the last
      part of a response that is to close it. */
  lemma OwnStepBecomes(s: Settings, p: Pipe, op: Op)
    requires Enabled(p, op) && IsTaskOp(op) && !IsSilent(op)
    ensures var q, j := TaskPerform(s, p, op), op.task;
      && j < |q.tasks| && Becomes(p, q, j, q.tasks[j], q.closing)
      && (Closes(p.tasks[j]) ==> Closes(q.tasks[j])) && (p.closing ==> q.closing)
      && (q.closing ==> p.closing || Closes(q.tasks[j]))
  {
    hide Pipe.SendStart, Pipe.TurnArrives, Pipe.SendBody, Pipe.FinishBody, ClientRequestedClose;
    match op {
      case SendStart(i, status, headersOk, declaresLength) => StartBecomes(p, i, status, headersOk, declaresLength);
      case TurnArrives(i) => TurnBecomes(p, i);
      case SendBody(i, data, more) => PartBecomes(p, i, data, more);
      case DrainDone(i) => FinishBecomes(p, i, p.tasks[i].stage.more);
    }
  }

  lemma SilentSpeaks(p: Pipe, op: Op, i: nat, v: Voice)
    requires !op.ShutdownBegins? && (IsTaskOp(op) && !IsSilent(op) ==> op.task != i)
    ensures Speak(p, op, i, v) == v
  {
    hide WantsClose, HasTurn;
  }

  lemma StepMute(s: Settings, p: Pipe, op: Op, i: nat)
    requires Inv(false, p) && Enabled(p, op) && p.parser.Live() && !op.ShutdownBegins?
    requires IsTaskOp(op) && !IsSilent(op) ==> op.task != i
    ensures Mute(p, Perform(s, p, op), i)
  {
    hide Mute, Pipe.DataReceived, TaskPerform, SessionPerform, ConnectionPerform, Chain, TaskOk;
    if op.Data? {
      DataMute(s, p, op.data, i);
    } else if IsSessionOp(op) {
      SessionStepMute(s, p, op, i);
    } else if !IsTaskOp(op) {
      ConnectionStepMute(p, op, i);
    } else if IsSilent(op) {
      SilentStepMute(s, p, op, i);
    } else {
      OtherStepMute(s, p, op, i);
    }
  }

  lemma ShutdownSpeaks(s: Settings, p: Pipe, i: nat, v: Voice)
    requires p.parser.Live() && VoiceOk(p, i, v)
    ensures VoiceOk(Perform(s, p, ShutdownBegins), i, Speak(p, ShutdownBegins, i, v))
  {
  }

  lemma StepSpeaks(s: Settings, p: Pipe, op: Op, i: nat, v: Voice)
    requires Inv(false, p) && Enabled(p, op) && p.parser.Live() && VoiceOk(p, i, v)
    ensures VoiceOk(Perform(s, p, op), i, Speak(p, op, i, v))
  {
    hide Inv, VoiceOk, Mute, Speak, TaskPerform, SessionPerform, ConnectionPerform, Enabled;
    if op.ShutdownBegins? {
      ShutdownSpeaks(s, p, i, v);
    } else if IsTaskOp(op) && !IsSilent(op) && op.task == i {
      OwnStepSpeaks(s, p, op, i, v);
    } else {
      SilentSpeaks(p, op, i, v);
      StepMute(s, p, op, i);
      MuteKeeps(p, Perform(s, p, op), i, v);
    }
  }

  // ---- whole runs

  lemma {:induction false} RunSpeaks(s: Settings, p: Pipe, ops: seq<Op>, q: Pipe, i: nat, v: Voice)
    requires Inv(false, p) && VoiceOk(p, i, v) && Reaches(s, p, ops, q)
    ensures VoiceOk(q, i, Spoken(s, p, ops, i, v))
    decreases |ops|
  {
    hide Inv, VoiceOk, Speak, Perform, Enabled;
    if ops != [] {
      StepSpeaks(s, p, ops[0], i, v);
      StepKeeps(false, s, p, ops[0]);
      RunSpeaks(s, Perform(s, p, ops[0]), ops[1..], q, i, Speak(p, ops[0], i, v));
    }
  }

  /** Over every interleaving, what passed a request's turn towards the wire is what its own
      application said, and a response that was to close the connection has done so when it is
      complete. A request that is not there yet has said nothing. */
  lemma SentIsSpoken(s: Settings, ops: seq<Op>, p: Pipe, i: nat)
    requires Reaches(s, Connected(), ops, p)
    ensures var v := Spoken(s, Connected(), ops, i, SILENT);
      if i < |p.tasks| then
        && p.tasks[i].sent == v.said && p.tasks[i].close == v.close
        && (p.tasks[i].complete && v.close ==> p.closing)
      else v.said == []
  {
    ConnectedInv(false);
    assert VoiceOk(Connected(), i, SILENT);
    hide Inv, Reaches, Spoken, Perform, Enabled;
    RunSpeaks(s, Connected(), ops, p, i, SILENT);
  }

  lemma {:induction false} FlatIsSpoken(s: Settings, ops: seq<Op>, p: Pipe, k: nat)
    requires Reaches(s, Connected(), ops, p) && k <= |p.tasks|
    ensures Flat(p.tasks[..k]) == AllSpoken(s, ops, k)
  {
    hide Reaches, Spoken, Connected;
    if k > 0 {
      FlatIsSpoken(s, ops, p, k - 1);
      SentIsSpoken(s, ops, p, k - 1);
      assert p.tasks[..k][..k - 1] == p.tasks[..k - 1];
    }
  }

  /** On the wire, for any number of pipelined requests and any interleaving whose session, if
      any, begins in time: what the applications said in request order, each whole before the
      next, the last perhaps cut short; or all of it and then the one tail. */
  lemma WireIsSpoken(s: Settings, ops: seq<Op>, p: Pipe) returns (k: nat, n: nat)
    requires Reaches(s, Connected(), ops, p) && TimelyRun(s, Connected(), ops)
    ensures k <= |p.tasks| && AllComplete(p.tasks, k)
    ensures k < |p.tasks| ==> var said := Spoken(s, Connected(), ops, k, SILENT).said;
      n <= |said| && p.wire == AllSpoken(s, ops, k) + said[..n]
    ensures k == |p.tasks| ==> var all := AllSpoken(s, ops, k);
      |all| <= |p.wire| && p.wire[..|all|] == all && TailWire(p.tail, p.wire[|all|..])
  {
    hide Reaches, TimelyRun, Spoken, AllSpoken, Connected, TailWire, ResponseShape;
    k, n := ResponsesInOrder(s, ops, p);
    FlatIsSpoken(s, ops, p, k);
    if k < |p.tasks| {
      SentIsSpoken(s, ops, p, k);
    } else {
      assert p.tasks[..k] == p.tasks;
    }
  }

  // ---- when the connection closes

  /** What ends a connection besides a response: an application that raised, an error response,
      no head in time, and the transport. */
  predicate Cuts(p: Pipe, op: Op) {
    match op
    case TaskDone(i) => i < |p.tasks| && p.tasks[i].stage.Erred?
    case HeadTimeout => !p.gotFirstHead
    case WriteFailure => true
    case LosingTransport => true
    case ConnectionLost => true
    case _ => false
  }

  /** Some step of the run did. */
  predicate Cut(s: Settings, p: Pipe, ops: seq<Op>)
    decreases |ops|
  {
    ops != [] && Enabled(p, ops[0]) && p.parser.Live() && (Cuts(p, ops[0]) || Cut(s, Perform(s, p, ops[0]), ops[1..]))
  }

  predicate Asked(p: Pipe) {
    exists i :: 0 <= i < |p.tasks| && Closes(p.tasks[i])
  }

  predicate CloseOk(p: Pipe, cut: bool) {
    && (cut ==> p.closing)
    && (p.closing && !p.tail.Session? ==> cut || Asked(p))
  }

  lemma HeadLeavesOpen(s: Settings, p: Pipe, head: RequestHead)
    ensures p.BeginRequest(head).closing == p.closing && p.BeginWebsocket(s, head).closing == p.closing
  {
  }

  lemma PushLeavesOpen(s: Settings, p: Pipe, m: Message)
    ensures p.PushChunk(s, m).closing == p.closing
  {
  }

  lemma EventLeavesOpen(s: Settings, p: Pipe, e: Event)
    ensures p.HandleEvent(s, e).closing == p.closing
  {
    hide Pipe.BeginRequest, Pipe.BeginWebsocket, Pipe.PushChunk;
    var q := p.(handled := p.handled + [e]);
    match e {
      case HeadComplete(head) => HeadLeavesOpen(s, q.(gotFirstHead := true, timerArmed := false), head);
      case BodyChunk(data, more) => PushLeavesOpen(s, q, RequestBody(data, more));
      case RequestComplete =>
    }
  }

  lemma {:induction false} EventsLeaveOpen(s: Settings, p: Pipe, events: seq<Event>)
    ensures p.HandleAll(s, events).closing == p.closing
    decreases |events|
  {
    hide Pipe.HandleEvent;
    if events != [] {
      EventLeavesOpen(s, p, events[0]);
      EventsLeaveOpen(s, p.HandleEvent(s, events[0]), events[1..]);
    }
  }

  lemma FailLeavesOpen(p: Pipe)
    ensures p.Fail(400).closing == p.closing && p.Fail(413).closing == p.closing
  {
  }

  lemma DataLeavesOpen(s: Settings, p: Pipe, data: Bytes)
    requires p.parser.Live() && !p.tail.Session?
    ensures p.DataReceived(s, data).closing == p.closing
  {
    hide Drain, CompletedPrefix, Pipe.HandleAll, Pipe.Fail;
    if !p.closed {
      var r := Drain(s.parser, p.parser.Received(data));
      var q := p.(parser := r.state, fed := p.fed + [data]);
      EventsLeaveOpen(s, q, r.events);
      EventsLeaveOpen(s, q, CompletedPrefix(r.events));
      FailLeavesOpen(q.HandleAll(s, CompletedPrefix(r.events)));
    }
  }

  lemma OtherStepCloses(s: Settings, p: Pipe, op: Op)
    requires Enabled(p, op) && p.parser.Live() && (IsTaskOp(op) ==> IsSilent(op)) && !p.tail.Session?
    ensures Perform(s, p, op).closing <==> p.closing || Cuts(p, op)
  {
    hide Pipe.DataReceived, Task.Taken;
    if op.Data? {
      DataLeavesOpen(s, p, op.data);
    }
  }

  lemma TurnStays(s: Settings, p: Pipe)
    requires p.tail.Session?
    ensures p.SessionTurn(s).tail.Session? && p.TakeTurn(s).tail.Session?
  {
    hide WS.Conn.DoAccept, WS.Conn.EndDeny, Pipe.InSession;
    StillSession(p, p.Sess().EndDeny(), NoPending);
    if p.tail.pending.AcceptPending? {
      StillSession(p, p.Sess().DoAccept(s.session, p.tail.pending.subprotocol, true).conn, NoPending);
    }
  }

  lemma SendStays(s: Settings, p: Pipe, m: WS.AppMessage)
    requires p.tail.Session?
    ensures p.SessionSend(s, m).tail.Session?
  {
    hide Pipe.TakeTurn, Pipe.InSession, WS.Conn.Send, WS.Conn.StartDeny;
    var c := p.Sess();
    StillSession(p, c.StartDeny(), DenyPending);
    TurnStays(s, p.InSession(c.StartDeny(), DenyPending));
    StillSession(p, c.Send(s.session, m).conn, NoPending);
    if m.Accept? {
      TurnStays(s, p.(tail := p.tail.(pending := AcceptPending(m.subprotocol))));
    }
  }

  lemma SessionStepStays(s: Settings, p: Pipe, op: Op)
    requires Enabled(p, op) && IsSessionOp(op)
    ensures SessionPerform(s, p, op).tail.Session?
  {
    hide Pipe.SessionSend, Pipe.SessionTurn, Pipe.InSession;
    hide WS.Conn.AfterReceive, WS.Conn.PingDue, WS.Conn.Shutdown, WS.Conn.TaskDone;
    match op {
      case SessionSend(m) => SendStays(s, p, m);
      case SessionTurn => TurnStays(s, p);
      case SessionReceive => StillSession(p, p.Sess().AfterReceive(s.session), p.tail.pending);
      case SessionPing(payload) => StillSession(p, p.Sess().PingDue(s.session, payload), p.tail.pending);
      case SessionShutdown => StillSession(p, p.Sess().Shutdown(), p.tail.pending);
      case SessionDone(raised) => StillSession(p, p.Sess().TaskDone(raised), NoPending);
    }
  }

  lemma TimeoutStays(p: Pipe)
    requires p.gotFirstHead
    ensures p.HeadTimeout().tail == p.tail
  {
  }

  lemma LostStays(p: Pipe)
    requires p.tail.Session?
    ensures p.Lost().tail.Session?
  {
    hide WS.Conn.Lost, LoseAll;
  }

  lemma ConnectionStepStays(p: Pipe, op: Op)
    requires p.tail.Session? && Enabled(p, op) && !op.Data? && !IsTaskOp(op) && !IsSessionOp(op)
    requires p.timerArmed ==> p.gotFirstHead
    ensures ConnectionPerform(p, op).tail.Session?
  {
    LostStays(p);
    if p.timerArmed {
      TimeoutStays(p);
    }
    hide Pipe.Lost, Pipe.HeadTimeout, Pipe.WriteFailure;
  }

  lemma TaskStepStays(s: Settings, p: Pipe, op: Op)
    requires Enabled(p, op) && IsTaskOp(op)
    ensures TaskPerform(s, p, op).tail == p.tail
  {
    if IsSilent(op) {
      hide Pipe.SendStart, Pipe.TurnArrives, Pipe.SendBody, Pipe.FinishBody, Task.Taken;
    } else {
      OwnStepBecomes(s, p, op);
      hide TaskPerform;
    }
  }

  lemma TimerIsDone(p: Pipe)
    requires Inv(false, p) && p.tail.Session? && p.timerArmed
    ensures p.gotFirstHead
  {
  }

  /** A session that has begun stays. */
  lemma SessionStays(s: Settings, p: Pipe, op: Op)
    requires Inv(false, p) && p.tail.Session? && Enabled(p, op) && p.parser.Live()
    ensures Perform(s, p, op).tail.Session?
  {
    hide Inv, Enabled, TaskPerform, SessionPerform, ConnectionPerform, Pipe.InSession, WS.Conn.DataReceived;
    if op.Data? {
      StillSession(p, p.Sess().DataReceived(s.session, op.data), p.tail.pending);
    } else if IsTaskOp(op) {
      TaskStepStays(s, p, op);
    } else if IsSessionOp(op) {
      SessionStepStays(s, p, op);
    } else {
      if p.timerArmed {
        TimerIsDone(p);
      }
      ConnectionStepStays(p, op);
    }
  }

  /** A response that closes the connection still does, and the connection stays closed. */
  lemma StepKeepsClosed(s: Settings, p: Pipe, op: Op)
    requires Inv(false, p) && Enabled(p, op) && p.parser.Live()
    ensures var q := Perform(s, p, op); (Asked(p) ==> Asked(q)) && (p.closing ==> q.closing)
  {
    hide Inv, Perform, Mute;
    if Asked(p) {
      var i :| 0 <= i < |p.tasks| && Closes(p.tasks[i]);
      ResponseKeepsClosed(s, p, op, i);
    }
    ResponseKeepsClosed(s, p, op, |p.tasks|);
  }

  lemma ResponseKeepsClosed(s: Settings, p: Pipe, op: Op, i: nat)
    requires Inv(false, p) && Enabled(p, op) && p.parser.Live()
    ensures var q := Perform(s, p, op); p.closing ==> q.closing
    ensures var q := Perform(s, p, op); i < |p.tasks| && Closes(p.tasks[i]) ==> i < |q.tasks| && Closes(q.tasks[i])
  {
    hide Inv, TaskPerform, SessionPerform, ConnectionPerform;
    if IsTaskOp(op) && !IsSilent(op) && op.task == i {
      OwnStepBecomes(s, p, op);
    } else if op.ShutdownBegins? {
      hide *;
      ShutdownKeepsClosed(s, p);
    } else {
      StepMute(s, p, op, i);
    }
  }

  lemma ShutdownKeepsClosed(s: Settings, p: Pipe)
    requires p.parser.Live()
    ensures var q := Perform(s, p, ShutdownBegins); q.tasks == p.tasks && q.closing == p.closing && q.tail == p.tail
  {
  }

  lemma CutCloses(s: Settings, p: Pipe, op: Op)
    requires Enabled(p, op) && p.parser.Live() && Cuts(p, op)
    ensures Perform(s, p, op).closing
  {
    if op.TaskDone? {
      ErrorCloses(p, op.task);
      hide Pipe.TaskDone;
      assert Perform(s, p, op) == p.TaskDone(op.task);
    } else {
      hide TaskPerform;
      assert Perform(s, p, op) == ConnectionPerform(p, op);
    }
  }

  lemma ErrorCloses(p: Pipe, i: nat)
    requires i < |p.tasks| && p.tasks[i].stage.Erred?
    ensures p.TaskDone(i).closing
  {
  }

  lemma StepCloses(s: Settings, p: Pipe, op: Op, cut: bool)
    requires Inv(false, p) && Enabled(p, op) && p.parser.Live() && CloseOk(p, cut)
    ensures CloseOk(Perform(s, p, op), cut || Cuts(p, op))
  {
    StepKeepsClosed(s, p, op);
    hide Inv, Cuts, Perform, Asked, Enabled;
    if Cuts(p, op) {
      CutCloses(s, p, op);
    }
    if p.tail.Session? {
      SessionStays(s, p, op);
    } else if IsTaskOp(op) && !IsSilent(op) {
      PartCloses(s, p, op);
    } else {
      OtherStepCloses(s, p, op);
    }
  }

  lemma PartCloses(s: Settings, p: Pipe, op: Op)
    requires Enabled(p, op) && p.parser.Live() && IsTaskOp(op) && !IsSilent(op)
    ensures Perform(s, p, op).closing ==> p.closing || Asked(Perform(s, p, op))
  {
    hide TaskPerform;
    OwnStepBecomes(s, p, op);
  }

  lemma {:induction false} RunCloses(s: Settings, p: Pipe, ops: seq<Op>, q: Pipe, cut: bool)
    requires Inv(false, p) && CloseOk(p, cut) && Reaches(s, p, ops, q)
    ensures CloseOk(q, cut || Cut(s, p, ops))
    decreases |ops|
  {
    hide Inv, CloseOk, Cuts, Perform, Enabled;
    if ops != [] {
      StepCloses(s, p, ops[0], cut);
      StepKeeps(false, s, p, ops[0]);
      RunCloses(s, Perform(s, p, ops[0]), ops[1..], q, cut || Cuts(p, ops[0]));
    }
  }

  /** Response i is whole, and its application or its request wanted it to be the last. */
  ghost predicate IsLast(s: Settings, ops: seq<Op>, p: Pipe, i: nat) {
    i < |p.tasks| && p.tasks[i].complete && Spoken(s, Connected(), ops, i, SILENT).close
  }

  /** A connection without a session is closing exactly when something cut it, or a whole response
      was to be its last; otherwise it stays open for further requests. */
  lemma ClosesExactlyIfAsked(s: Settings, ops: seq<Op>, p: Pipe)
    requires Reaches(s, Connected(), ops, p) && !p.tail.Session?
    ensures p.closing <==> Cut(s, Connected(), ops) || exists i: nat :: IsLast(s, ops, p, i)
  {
    ConnectedInv(false);
    assert CloseOk(Connected(), false);
    hide Inv, Reaches, Spoken, Perform, Enabled, Cut;
    RunCloses(s, Connected(), ops, p, false);
    if Asked(p) {
      var i: nat :| i < |p.tasks| && Closes(p.tasks[i]);
      SentIsSpoken(s, ops, p, i);
      assert IsLast(s, ops, p, i);
    }
    if i: nat :| IsLast(s, ops, p, i) {
      SentIsSpoken(s, ops, p, i);
    }
  }
}
