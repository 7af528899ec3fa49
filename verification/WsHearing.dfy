/** What a client hears of a session, said in terms of what its application sent, what it read and
    what the server did, step by step along a run. */
module WsHearing {
  import opened Bytes
  import opened Utf8
  import opened Wrappers
  import opened Frames
  import opened CloseFrames
  import opened CloseCodes
  import opened WsSession
  import opened WsWrites
  import opened WsPeer
  import FD = FrameDecoding
  import FS = FrameSegmentation
  import RT = FrameRoundTrip

  /** The 101 with its subprotocol, the refusal, an event that the client's decoder reports behind
      the 101, or a close that it must refuse. */
  datatype Sound = Opens(subprotocol: Option<Utf8.Text>) | Denies(status: nat) | Hears(event: FrameEvent) | Refuses

  /** A text of ASCII characters. */
  function Letters(s: string): (t: Utf8.Text)
    requires forall i :: 0 <= i < |s| ==> s[i] < 128 as char
    ensures |t| == |s| && forall i :: 0 <= i < |s| ==> t[i] == s[i] as int
  {
    seq(|s|, i requires 0 <= i < |s| => s[i] as int)
  }

  const PING_LETTERS: Utf8.Text := Letters("ping timeout")
  const SHUTDOWN_LETTERS: Utf8.Text := Letters("server shutting down")

  /** The longest run of whole characters whose encoding is of at most 123 octets. */
  function Cut(reason: Utf8.Text): Utf8.Text
    requires Encodable(reason)
  {
    if |Encode(reason)| <= 123 then reason else Cut(reason[..|reason| - 1])
  }

  // ---- what one step tells the client

  /** A close frame, unless one was tried before or this one cannot be encoded. */
  function Closing(c: Conn, code: Option<int>, reason: Utf8.Text): seq<Sound> {
    if c.closeSent then []
    else if code.None? then [Hears(CloseReceived(1005, []))]
    else if !Encodable(reason) || !(0 <= code.value < 65536) then []
    else if MayTravel(code.value) then [Hears(CloseReceived(code.value, Cut(reason)))]
    else [Refuses]
  }

  /** A ping is answered with a pong of the same octets, a close with a close of the same code. */
  function Answer(c: Conn, e: FrameEvent): seq<Sound> {
    match e
    case PingReceived(data) => [Hears(PongReceived(data))]
    case CloseReceived(code, reason) => Closing(c, if code == 1005 then None else Some(code), reason)
    case _ => []
  }

  function Answers(c: Conn, events: seq<FrameEvent>): seq<Sound>
    decreases |events|
  {
    if events == [] then [] else Answer(c, events[0]) + Answers(c, events[1..])
  }

  /** What reading these octets is answered with: each event in turn, and a violation with its code. */
  function Reading(s: Settings, c: Conn, data: Bytes): seq<Sound> {
    var r := FD.Feed(s.Decoder(), c.decoder, data);
    Answers(c, r.events) + if r.error.Some? then Closing(c, r.error, s.why(c.decoder, data)) else []
  }

  function Sending(s: Settings, c: Conn, m: AppMessage): seq<Sound> {
    match m
    case Accept(subprotocol, headersOk) =>
      if c.wsState == Some(Connecting) && headersOk && SubprotocolOk(subprotocol) then
        [Opens(subprotocol)] + if c.prologue != [] then Reading(s, c, c.prologue) else []
      else []
    case SendText(text) =>
      if c.wsState == Some(Connected) && Encodable(text) && |Encode(text)| < TWO_64 then [Hears(TextMessage(text))] else []
    case SendBytes(data) =>
      if c.wsState == Some(Connected) && |data| < TWO_64 then [Hears(BinaryMessage(data))] else []
    case CloseMessage(code, reason) =>
      if c.wsState == Some(Connecting) then [Denies(403)]
      else if c.wsState == Some(Connected) then Closing(c, Some(code), reason) else []
    case _ => []
  }

  /** Nothing once the transport is closing, and else what the step calls for. */
  function ToldBy(s: Settings, c: Conn, op: Op): seq<Sound> {
    if c.link.closing then []
    else
      match op
      case Send(m) => Sending(s, c, m)
      case Data(data) => if c.wsState.None? || c.wsState == Some(Closed) || c.link.closed then [] else Reading(s, c, data)
      case PingDue(payload) =>
        if c.wsState != Some(Connected) then []
        else if c.pendingPing.Some? then Closing(c, Some(1011), PING_LETTERS)
        else [Hears(PingReceived(payload))]
      case Shutdown => if c.wsState == Some(Connected) then Closing(c, Some(1001), SHUTDOWN_LETTERS) else []
      case TaskDone(_) => if c.wsState == Some(Connected) then Closing(c, Some(1000), []) else []
      case _ => []
  }

  /** What a whole run tells the client, in order. */
  function Told(s: Settings, c: Conn, ops: seq<Op>): seq<Sound>
    decreases |ops|
  {
    if ops == [] || !Enabled(c, ops[0]) then [] else ToldBy(s, c, ops[0]) + Told(s, Step(s, c, ops[0]), ops[1..])
  }

  // ---- what a frame on the wire sounds like

  /** What the client makes of one item, and its decoder of one whole frame. */
  function SoundOf(item: WireItem): seq<Sound> {
    match item
    case Switching(subprotocol) => [Opens(subprotocol)]
    case Refusal(status) => [Denies(status)]
    case FrameOut(opcode, payload) => SoundOfEffect(FD.HandleFrame(FD.FRESH, FD.Frame(true, opcode, payload)).1)
  }

  function Sounds(items: seq<WireItem>): seq<Sound>
    decreases |items|
  {
    if items == [] then [] else Sounds(items[..|items| - 1]) + SoundOf(items[|items| - 1])
  }

  lemma SoundsAppend(items: seq<WireItem>, item: WireItem)
    ensures Sounds(items + [item]) == Sounds(items) + SoundOf(item)
  {
    assert (items + [item])[..|items|] == items;
  }

  /** d has told the client that much more than c. */
  predicate Tells(c: Conn, d: Conn, sounds: seq<Sound>) {
    Sounds(d.hist.wire) == Sounds(c.hist.wire) + sounds
  }

  lemma TellsNothing(c: Conn, d: Conn)
    requires d.hist.wire == c.hist.wire
    ensures Tells(c, d, [])
  {
    assert Sounds(c.hist.wire) + [] == Sounds(c.hist.wire);
  }

  lemma TellsTwice(c: Conn, d: Conn, e: Conn, first: seq<Sound>, second: seq<Sound>)
    requires Tells(c, d, first) && Tells(d, e, second)
    ensures Tells(c, e, first + second)
  {
    hide Sounds;
    assert Sounds(c.hist.wire) + first + second == Sounds(c.hist.wire) + (first + second);
  }

  lemma WriteTells(c: Conn, item: WireItem)
    requires !c.link.closing
    ensures Tells(c, c.Write(item), SoundOf(item))
  {
    SoundsAppend(c.hist.wire, item);
    hide Sounds, SoundOf;
  }

  // ---- closes

  lemma {:induction false} CutIs(reason: Utf8.Text, k: nat)
    requires Encodable(reason) && k <= |reason| && |Encode(reason[..k])| <= 123
    requires k < |reason| ==> |Encode(reason[..k + 1])| > 123
    ensures Cut(reason) == reason[..k]
    decreases |reason|
  {
    if k == |reason| {
      assert reason[..k] == reason;
    } else {
      var front := reason[..|reason| - 1];
      EncodePrefix(reason, k + 1);
      assert front[..k] == reason[..k];
      assert k < |front| ==> front[..k + 1] == reason[..k + 1];
      CutIs(front, k);
    }
  }

  /** The item that a close becomes sounds like that close. */
  lemma CloseSounds(c: Conn, code: Option<int>, reason: Utf8.Text)
    requires !c.closeSent
    ensures CloseItem(code, reason).None? ==> Closing(c, code, reason) == []
    ensures CloseItem(code, reason).Some? ==> SoundOf(CloseItem(code, reason).value) == Closing(c, code, reason)
  {
    if code.Some? && CloseItem(code, reason).Some? {
      var cut := LongestValidPrefix(Encode(reason), MAX_CLOSE_REASON_BYTES);
      var payload := ClosePayload(code.value, cut);
      var k := TruncationKeepsWholeCharacters(reason, MAX_CLOSE_REASON_BYTES, cut);
      CutIs(reason, k);
      PayloadParts(code.value, cut);
      DecodeEncode(reason[..k]);
      DecodeCloseExact(payload);
      hide ClosePayload, Encode, Decode, Cut, LongestValidPrefix, FD.DecodeClose;
      SameEncoding(payload, reason[..k]);
    }
  }

  lemma PayloadParts(code: int, cut: Bytes)
    requires 0 <= code < 65536
    ensures var payload := ClosePayload(code, cut);
      |payload| >= 2 && CodeOf(payload) == code && payload[2..] == cut
  {
    Pow256Values();
    var payload := ClosePayload(code, cut);
    FirstTwoOctets(payload);
    assert payload[..2] == ToBig(code, 2);
  }

  lemma SameEncoding(payload: Bytes, reason: Utf8.Text)
    requires |payload| >= 2 && Encodable(reason) && Encode(reason) == payload[2..] && ValidUtf8(payload[2..])
    requires Decode(payload[2..]) == Some(reason)
    ensures forall t: Utf8.Text :: Encodable(t) && Encode(t) == payload[2..] ==> t == reason
  {
    forall t: Utf8.Text | Encodable(t) && Encode(t) == payload[2..] ensures t == reason {
      DecodeEncode(t);
    }
  }

  lemma CloseTells(c: Conn, code: Option<int>, reason: Utf8.Text, told: int, why: Utf8.Text)
    requires !c.link.closing
    ensures Tells(c, c.CloseAndFinish(CloseItem(code, reason), told, why).conn, Closing(c, code, reason))
  {
    var item := CloseItem(code, reason);
    var d := c.CloseAndFinish(item, told, why).conn;
    if c.closeSent {
      TellsNothing(c, d);
    } else {
      CloseSounds(c, code, reason);
      if item.None? {
        TellsNothing(c, d);
      } else {
        WriteTells(c.(closeSent := true), item.value);
      }
    }
    hide CloseItem, Closing, Sounds, SoundOf;
  }

  // ---- events

  lemma EventTells(s: Settings, c: Conn, e: FrameEvent)
    requires !c.link.closing
    ensures var d := c.HandleEvent(s, e); Tells(c, d, Answer(c, e))
    ensures var d := c.HandleEvent(s, e); !e.CloseReceived? ==> d.link.closing == c.link.closing && d.closeSent == c.closeSent
  {
    var logged := c.(hist := c.hist.(events := c.hist.events + [e]));
    hide CloseItem, Conn.CloseAndFinish, Sounds, SoundOf, Closing;
    match e {
      case PingReceived(data) =>
        WriteTells(logged, FrameOut(Opcode.Pong, data));
        PongSounds(data);
      case CloseReceived(code, reason) =>
        CloseTells(logged, if code == CLOSE_NO_STATUS then None else Some(code), reason, code, reason);
        SameClosing(c, logged, if code == CLOSE_NO_STATUS then None else Some(code), reason);
      case _ => TellsNothing(c, c.HandleEvent(s, e));
    }
  }

  lemma PongSounds(data: Bytes)
    ensures SoundOf(FrameOut(Opcode.Pong, data)) == [Hears(PongReceived(data))]
    ensures SoundOf(FrameOut(Opcode.Ping, data)) == [Hears(PingReceived(data))]
  {
  }

  predicate CloseIsLast(events: seq<FrameEvent>) {
    forall i :: 0 <= i < |events| && events[i].CloseReceived? ==> i == |events| - 1
  }

  lemma {:induction false} EventsTell(s: Settings, c: Conn, events: seq<FrameEvent>)
    requires !c.link.closing && CloseIsLast(events)
    ensures var d := c.HandleAll(s, events);
      && Tells(c, d, Answers(c, events))
      && ((forall i :: 0 <= i < |events| ==> !events[i].CloseReceived?) ==> d.link.closing == c.link.closing && d.closeSent == c.closeSent)
    decreases |events|
  {
    hide Conn.HandleEvent, Tells, Answer;
    if events == [] {
      TellsNothing(c, c);
    } else {
      var d, rest := c.HandleEvent(s, events[0]), events[1..];
      EventTells(s, c, events[0]);
      assert forall i :: 0 <= i < |rest| ==> rest[i] == events[i + 1];
      if rest == [] {
        assert d.HandleAll(s, rest) == d && Answers(d, rest) == [];
        assert Answer(c, events[0]) + [] == Answer(c, events[0]);
      } else {
        assert !events[0].CloseReceived?;
        EventsTell(s, d, rest);
        SameAnswers(c, d, rest);
        TellsTwice(c, d, d.HandleAll(s, rest), Answer(c, events[0]), Answers(d, rest));
      }
    }
  }

  lemma {:induction false} SameAnswers(c: Conn, d: Conn, events: seq<FrameEvent>)
    requires d.closeSent == c.closeSent
    ensures Answers(d, events) == Answers(c, events)
    decreases |events|
  {
    if events != [] {
      SameAnswers(c, d, events[1..]);
    }
  }

  lemma DigestTells(s: Settings, c: Conn, r: FD.Outcome, why: PlainText)
    requires !c.link.closing && CloseIsLast(r.events)
    requires r.error.Some? ==> forall i :: 0 <= i < |r.events| ==> !r.events[i].CloseReceived?
    ensures Tells(c, c.Digest(s, r, why), Answers(c, r.events) + if r.error.Some? then Closing(c, r.error, why) else [])
  {
    EventsTell(s, c, r.events);
    var d := c.HandleAll(s, r.events);
    hide Conn.HandleAll, Tells, Answers, CloseItem, Conn.CloseAndFinish;
    if r.error.Some? {
      CloseTells(d, r.error, why, r.error.value, why);
      assert Closing(d, r.error, why) == Closing(c, r.error, why);
      TellsTwice(c, d, c.Digest(s, r, why), Answers(c, r.events), Closing(c, r.error, why));
    } else {
      assert Answers(c, r.events) + [] == Answers(c, r.events);
    }
  }

  /** A feed's events end at a close, and a violation comes with none. */
  lemma FeedClosesLast(s: Settings, st: FD.State, data: Bytes)
    ensures var r := FD.Feed(s.Decoder(), st, data);
      && CloseIsLast(r.events)
      && (r.error.Some? ==> forall i :: 0 <= i < |r.events| ==> !r.events[i].CloseReceived?)
  {
    if !st.asm.closed {
      FS.DrainEndsOnce(s.Decoder(), st.Received(data));
    }
    hide FD.Drain, FS.Answerable;
  }

  lemma FeedTells(s: Settings, c: Conn, data: Bytes)
    requires !c.link.closing && c.wsState.Some? && c.wsState != Some(Closed)
    ensures Tells(c, c.FeedFrames(s, data), Reading(s, c, data))
  {
    var r := FD.Feed(s.Decoder(), c.decoder, data);
    var mid := c.(pendingPing := None, decoder := r.state, hist := c.hist.(fed := c.hist.fed + data)).Arm(s);
    FeedClosesLast(s, c.decoder, data);
    assert c.FeedFrames(s, data) == mid.Digest(s, r, s.why(c.decoder, data));
    assert mid.closeSent == c.closeSent && mid.hist.wire == c.hist.wire;
    hide FD.Feed, Conn.Digest, Conn.FeedFrames, Sounds, CloseIsLast;
    DigestTells(s, mid, r, s.why(c.decoder, data));
    SameAnswers(c, mid, r.events);
    hide Answers, Closing;
    SameClosing(c, mid, r.error, s.why(c.decoder, data));
  }

  lemma SameClosing(c: Conn, d: Conn, code: Option<int>, reason: Utf8.Text)
    requires d.closeSent == c.closeSent
    ensures Closing(d, code, reason) == Closing(c, code, reason)
  {
  }

  // ---- steps

  lemma AcceptTells(s: Settings, c: Conn, subprotocol: Option<Utf8.Text>, headersOk: bool)
    requires !c.link.closing && c.wsState == Some(Connecting)
    ensures Tells(c, c.DoAccept(s, subprotocol, headersOk).conn, Sending(s, c, Accept(subprotocol, headersOk)))
  {
    if !headersOk || !SubprotocolOk(subprotocol) {
      TellsNothing(c, c.DoAccept(s, subprotocol, headersOk).conn);
    } else {
      var e := c.(wsState := Some(Connected)).Opened(s, subprotocol);
      WriteTells(c, Switching(subprotocol));
      assert Tells(c, e, [Opens(subprotocol)]);
      if c.prologue != [] {
        FeedTells(s, e, c.prologue);
        SameReading(s, c, e, c.prologue);
        TellsTwice(c, e, e.FeedFrames(s, c.prologue), [Opens(subprotocol)], Reading(s, c, c.prologue));
      } else {
        assert [Opens(subprotocol)] + [] == [Opens(subprotocol)];
      }
    }
    hide Sounds, Reading, Conn.FeedFrames;
  }

  lemma SameReading(s: Settings, c: Conn, d: Conn, data: Bytes)
    requires d.decoder == c.decoder && d.closeSent == c.closeSent
    ensures Reading(s, d, data) == Reading(s, c, data)
  {
    var r := FD.Feed(s.Decoder(), c.decoder, data);
    SameAnswers(c, d, r.events);
    SameClosing(c, d, r.error, s.why(c.decoder, data));
    hide Answers, Closing, FD.Feed;
  }

  lemma TextSounds(text: Utf8.Text)
    requires Encodable(text)
    ensures SoundOf(FrameOut(Opcode.Text, Encode(text))) == [Hears(TextMessage(text))]
  {
    DecodeEncode(text);
    OneFragment(Encode(text));
    hide Encode, Decode;
  }

  lemma BytesSound(data: Bytes)
    ensures SoundOf(FrameOut(Opcode.Binary, data)) == [Hears(BinaryMessage(data))]
  {
    OneFragment(data);
  }

  lemma OneFragment(data: Bytes)
    ensures Join([] + [data]) == data
  {
    assert [] + [data] == [data] && [data][1..] == [];
  }

  lemma SendTells(s: Settings, c: Conn, m: AppMessage)
    requires !c.link.closing && c.wsState.Some?
    ensures Tells(c, c.Send(s, m).conn, Sending(s, c, m))
  {
    AnyState(c.wsState);
    hide Sounds, SoundOf, CloseItem, Conn.CloseAndFinish, Conn.DoAccept, Closing;
    if c.wsState == Some(Connecting) {
      match m {
        case Accept(subprotocol, headersOk) => AcceptTells(s, c, subprotocol, headersOk);
        case CloseMessage(_, _) => DenyTells(c);
        case _ => TellsNothing(c, c);
      }
    } else if c.wsState == Some(Connected) {
      match m {
        case SendBytes(data) =>
          TellsNothing(c, c);
          BytesSound(data);
          WriteTells(c, FrameOut(Opcode.Binary, data));
        case SendText(text) =>
          TellsNothing(c, c);
          if Encodable(text) {
            TextSounds(text);
            WriteTells(c, FrameOut(Opcode.Text, Encode(text)));
          }
        case CloseMessage(code, reason) => CloseTells(c, Some(code), reason, code, reason);
        case _ => TellsNothing(c, c);
      }
    } else {
      TellsNothing(c, c);
    }
  }

  lemma DenyTells(c: Conn)
    requires !c.link.closing
    ensures Tells(c, c.Deny(), [Denies(403)])
  {
    WriteTells(c.StartDeny(), Refusal(403));
    hide Sounds;
  }

  lemma PingTells(s: Settings, c: Conn, payload: Bytes)
    requires !c.link.closing && c.wsState == Some(Connected)
    ensures Tells(c, c.PingDue(s, payload),
      if c.pendingPing.Some? then Closing(c, Some(1011), PING_LETTERS) else [Hears(PingReceived(payload))])
  {
    ServerTexts();
    PongSounds(payload);
    hide Sounds, SoundOf, CloseItem, Conn.CloseAndFinish, Closing, Letters;
    if c.pendingPing.Some? {
      CloseTells(c.(pingArmed := false), Some(1011), PING_TIMEOUT, 1011, PING_TIMEOUT);
      SameClosing(c, c.(pingArmed := false), Some(1011), PING_TIMEOUT);
    } else {
      WriteTells(c.(pingArmed := false, pendingPing := Some(payload)), FrameOut(Opcode.Ping, payload));
    }
  }

  lemma ServerTexts()
    ensures PING_TIMEOUT == PING_LETTERS && SHUTTING_DOWN == SHUTDOWN_LETTERS
  {
  }

  lemma EndingTells(c: Conn, raised: bool)
    requires !c.link.closing && c.wsState.Some?
    ensures Tells(c, c.Shutdown(), if c.wsState == Some(Connected) then Closing(c, Some(1001), SHUTDOWN_LETTERS) else [])
    ensures Tells(c, c.TaskDone(raised), if c.wsState == Some(Connected) then Closing(c, Some(1000), []) else [])
  {
    ServerTexts();
    AnyState(c.wsState);
    hide Sounds, CloseItem, Conn.CloseAndFinish, Closing, Letters;
    if c.wsState == Some(Connected) {
      CloseTells(c, Some(1001), SHUTTING_DOWN, 1001, SHUTTING_DOWN);
      var done := c.(link := c.link.(appDone := true));
      CloseTells(done, Some(1000), [], 1000, []);
      SameClosing(c, done, Some(1000), []);
    } else {
      TellsNothing(c, c.Shutdown());
      TellsNothing(c, c.TaskDone(raised));
    }
  }

  /** Once the transport is closing nothing is written. */
  lemma ClosingIsMute(s: Settings, c: Conn, op: Op)
    requires Enabled(c, op) && c.wsState.Some? && c.link.failure.None? && c.link.closing
    ensures Step(s, c, op).hist.wire == c.hist.wire
  {
    hide CloseItem, Conn.CloseAndFinish, Conn.FeedFrames, Conn.DoAccept, Conn.DataReceived;
    match op {
      case Send(m) =>
        if c.wsState == Some(Connecting) && m.Accept? && m.headersOk {
          AcceptWrites(s, c, m.subprotocol);
        } else if c.wsState == Some(Connecting) && m.CloseMessage? {
        } else {
          SendActs(s, c, m);
        }
      case Data(data) =>
      case PingDue(payload) => PingActs(s, c, payload);
      case Shutdown => ShutdownActs(c);
      case TaskDone(raised) => DoneActs(c, raised);
      case _ =>
    }
  }

  lemma StepTells(s: Settings, c: Conn, op: Op)
    requires Enabled(c, op) && c.wsState.Some? && c.link.failure.None?
    ensures Tells(c, Step(s, c, op), ToldBy(s, c, op))
  {
    hide Sounds, Reading, Sending, Closing, Conn.Send, Conn.FeedFrames, Conn.PingDue, Conn.Shutdown, Conn.TaskDone, Conn.Lost,
         PING_LETTERS, SHUTDOWN_LETTERS;
    if c.link.closing {
      ClosingIsMute(s, c, op);
      TellsNothing(c, Step(s, c, op));
    } else {
      match op {
        case Send(m) => SendTells(s, c, m);
        case Data(data) => DataTells(s, c, data);
        case PingDue(payload) => PingDueTells(s, c, payload);
        case Shutdown => EndingTells(c, false);
        case TaskDone(raised) => EndingTells(c, raised);
        case ConnectionLost => LostTells(c);
        case Receive => TellsNothing(c, c.AfterReceive(s));
        case LosingTransport => TellsNothing(c, c.(link := c.link.(closing := true)));
      }
    }
  }

  lemma LostTells(c: Conn)
    ensures Tells(c, c.Lost(), [])
  {
    TellsNothing(c, c.Lost());
  }

  lemma PingDueTells(s: Settings, c: Conn, payload: Bytes)
    requires !c.link.closing
    ensures Tells(c, c.PingDue(s, payload),
      if c.wsState != Some(Connected) then []
      else if c.pendingPing.Some? then Closing(c, Some(1011), PING_LETTERS) else [Hears(PingReceived(payload))])
  {
    hide Sounds, Closing, CloseItem, Conn.CloseAndFinish;
    if c.wsState == Some(Connected) {
      PingTells(s, c, payload);
    } else {
      TellsNothing(c, c.PingDue(s, payload));
    }
  }

  lemma DataTells(s: Settings, c: Conn, data: Bytes)
    requires !c.link.closing && c.wsState.Some?
    ensures Tells(c, c.DataReceived(s, data), if c.wsState == Some(Closed) || c.link.closed then [] else Reading(s, c, data))
  {
    var e := c.(hist := c.hist.(arrived := c.hist.arrived + data));
    if c.wsState == Some(Closed) || c.link.closed {
      TellsNothing(c, c.DataReceived(s, data));
    } else {
      FeedTells(s, e, data);
      SameReading(s, c, e, data);
    }
    hide Sounds, Reading, Conn.FeedFrames;
  }

  lemma StaysSession(s: Settings, c: Conn, op: Op)
    requires Enabled(c, op) && c.wsState.Some? && c.link.failure.None?
    ensures Step(s, c, op).wsState.Some? && Step(s, c, op).link.failure.None?
  {
    EndingStays(c, true);
    EndingStays(c, false);
    hide CloseItem, Conn.FeedFrames, Conn.Send, Conn.PingDue, Conn.Shutdown, Conn.TaskDone, Conn.Lost, Conn.AfterReceive, FD.Feed;
    match op {
      case Send(m) => SendStays(s, c, m);
      case Data(data) => FeedStays(s, c.(hist := c.hist.(arrived := c.hist.arrived + data)), data);
      case PingDue(payload) => PingStays(s, c, payload);
      case Receive => ReceiveStays(s, c);
      case ConnectionLost => LostStays(c);
      case _ =>
    }
  }

  lemma ReceiveStays(s: Settings, c: Conn)
    requires c.wsState.Some? && c.link.failure.None? && c.CanReceive()
    ensures c.AfterReceive(s).wsState.Some? && c.AfterReceive(s).link.failure.None?
  {
  }

  lemma LostStays(c: Conn)
    requires c.wsState.Some? && c.link.failure.None?
    ensures c.Lost().wsState.Some? && c.Lost().link.failure.None?
  {
  }

  lemma PingStays(s: Settings, c: Conn, payload: Bytes)
    requires c.wsState.Some? && c.link.failure.None?
    ensures c.PingDue(s, payload).wsState.Some? && c.PingDue(s, payload).link.failure.None?
  {
    hide CloseItem, Conn.CloseAndFinish;
    CloseStays(c.(pingArmed := false), CloseItem(Some(CLOSE_INTERNAL_ERROR), PING_TIMEOUT), CLOSE_INTERNAL_ERROR, PING_TIMEOUT);
  }

  lemma CloseStays(c: Conn, item: Option<WireItem>, code: int, reason: Utf8.Text)
    requires c.wsState.Some? && c.link.failure.None?
    ensures var d := c.CloseAndFinish(item, code, reason).conn; d.wsState.Some? && d.link.failure.None?
  {
  }

  lemma EndingStays(c: Conn, raised: bool)
    requires c.wsState.Some? && c.link.failure.None?
    ensures c.Shutdown().wsState.Some? && c.Shutdown().link.failure.None?
    ensures c.TaskDone(raised).wsState.Some? && c.TaskDone(raised).link.failure.None?
  {
    hide CloseItem, Conn.CloseAndFinish;
    CloseStays(c, CloseItem(Some(CLOSE_GOING_AWAY), SHUTTING_DOWN), CLOSE_GOING_AWAY, SHUTTING_DOWN);
    CloseStays(c.(link := c.link.(appDone := true)), CloseItem(Some(CLOSE_NORMAL), []), CLOSE_NORMAL, []);
  }

  lemma SendStays(s: Settings, c: Conn, m: AppMessage)
    requires c.wsState.Some? && c.link.failure.None?
    ensures c.Send(s, m).conn.wsState.Some? && c.Send(s, m).conn.link.failure.None?
  {
    hide CloseItem, Conn.FeedFrames;
    if m.Accept? {
      FeedStays(s, c.(wsState := Some(Connected)).Opened(s, m.subprotocol), c.prologue);
    }
  }

  lemma FeedStays(s: Settings, c: Conn, data: Bytes)
    requires c.wsState.Some? && c.link.failure.None?
    ensures c.FeedFrames(s, data).wsState.Some? && c.FeedFrames(s, data).link.failure.None?
  {
    var r := FD.Feed(s.Decoder(), c.decoder, data);
    hide CloseItem, FD.Feed;
    EventsStay(s, c.(pendingPing := None, decoder := r.state, hist := c.hist.(fed := c.hist.fed + data)).Arm(s), r.events);
    hide Conn.HandleAll;
  }

  lemma {:induction false} EventsStay(s: Settings, c: Conn, events: seq<FrameEvent>)
    requires c.wsState.Some? && c.link.failure.None?
    ensures c.HandleAll(s, events).wsState.Some? && c.HandleAll(s, events).link.failure.None?
    decreases |events|
  {
    if events != [] {
      OneStays(s, c, events[0]);
      hide Conn.HandleEvent;
      EventsStay(s, c.HandleEvent(s, events[0]), events[1..]);
    }
  }

  lemma OneStays(s: Settings, c: Conn, e: FrameEvent)
    requires c.wsState.Some? && c.link.failure.None?
    ensures c.HandleEvent(s, e).wsState.Some? && c.HandleEvent(s, e).link.failure.None?
  {
    hide CloseItem;
  }

  lemma {:induction false} RunTells(s: Settings, start: Conn, ops: seq<Op>, c: Conn)
    requires Reaches(s, start, ops, c) && start.wsState.Some? && start.link.failure.None?
    ensures Tells(start, c, Told(s, start, ops))
    decreases |ops|
  {
    hide Step, Enabled, ToldBy, Tells;
    if ops == [] {
      TellsNothing(start, c);
    } else {
      var next := Step(s, start, ops[0]);
      StepTells(s, start, ops[0]);
      StaysSession(s, start, ops[0]);
      RunTells(s, next, ops[1..], c);
      TellsTwice(start, next, c, ToldBy(s, start, ops[0]), Told(s, next, ops[1..]));
    }
  }

  // ---- the client's decoder

  function EventsIn(sounds: seq<Sound>): seq<FrameEvent>
    decreases |sounds|
  {
    if sounds == [] then []
    else
      EventsIn(sounds[..|sounds| - 1]) +
      match sounds[|sounds| - 1]
      case Hears(event) => [event]
      case _ => []
  }

  /** Reading the frames reports what is heard, in order, and refuses nothing but a code that may
      not travel. */
  predicate HeardAs(r: FD.Outcome, sounds: seq<Sound>) {
    r.events == EventsIn(sounds) && r.error == if Refuses in sounds then Some(1002) else None
  }

  lemma EventsInAppend(sounds: seq<Sound>, last: Sound)
    ensures EventsIn(sounds + [last]) == EventsIn(sounds) + if last.Hears? then [last.event] else []
  {
    assert (sounds + [last])[..|sounds|] == sounds;
  }

  /** A frame other than a close sounds like the event that it is read as. */
  lemma FrameSounds(limit: nat, item: WireItem)
    requires Fits(limit, item)
    ensures |EventOf(item)| == 1 && SoundOf(item) == [Hears(EventOf(item)[0])]
  {
    OneFragment(item.payload);
    hide Decode;
  }

  lemma {:induction false} EventsOfAppend(items: seq<WireItem>, last: WireItem)
    ensures EventsOf(items + [last]) == EventsOf(items) + EventOf(last)
    decreases |items|
  {
    hide EventOf;
    var all := items + [last];
    if items == [] {
      assert all[1..] == [];
      assert EventsOf(all) == EventOf(last) + [];
    } else {
      assert all[1..] == items[1..] + [last] && all[0] == items[0];
      EventsOfAppend(items[1..], last);
    }
  }

  lemma {:induction false} FramesSound(limit: nat, start: WireItem, items: seq<WireItem>)
    requires start.Switching? && AllFit(limit, items)
    ensures EventsIn(Sounds([start] + items)) == EventsOf(items) && Refuses !in Sounds([start] + items)
    decreases |items|
  {
    if items == [] {
      assert [start] + items == [] + [start];
      SoundsAppend([], start);
      StartIsMute(start);
    } else {
      var front, last := items[..|items| - 1], items[|items| - 1];
      assert AllFit(limit, front) && Fits(limit, last);
      assert items == front + [last] && [start] + items == [start] + front + [last];
      hide *;
      FramesSound(limit, start, front);
      FrameSoundsBehind(limit, [start] + front, last);
      EventsOfAppend(front, last);
    }
  }

  lemma FrameSoundsBehind(limit: nat, front: seq<WireItem>, last: WireItem)
    requires Fits(limit, last) && Refuses !in Sounds(front)
    ensures EventsIn(Sounds(front + [last])) == EventsIn(Sounds(front)) + EventOf(last)
    ensures Refuses !in Sounds(front + [last])
  {
    SoundsAppend(front, last);
    FrameSounds(limit, last);
    hide *;
    EventsInAppend(Sounds(front), Hears(EventOf(last)[0]));
    assert EventOf(last) == [EventOf(last)[0]];
  }

  lemma StartIsMute(start: WireItem)
    requires start.Switching?
    ensures SoundOf(start) == [Opens(start.subprotocol)] && Sounds([]) == [] && EventsIn([]) == []
    ensures EventsIn([] + SoundOf(start)) == []
  {
    EventsInAppend([], Opens(start.subprotocol));
  }

  /** The client reads a close frame as it sounds. */
  lemma CloseHeard(limit: nat, last: WireItem)
    requires GoodFrame(last) && last.opcode == Opcode.Close
    ensures HeardAs(FD.Drain(Client(limit), FD.State(ItemBytes(last), FD.FRESH)), SoundOf(last))
  {
    var bytes, payload := ItemBytes(last), last.payload;
    assert bytes == RT.FrameBytes(Opcode.Close, payload, true, None) && IsClosePayload(payload);
    assert |payload| <= 125 && !FD.FRESH.closed && RT.MaskFits(Client(limit), None);
    CloseSoundIs(last);
    hide *;
    ClosePayloadIsValid(payload);
    CloseDrains(Client(limit), FD.FRESH, payload, None, []);
    assert bytes + [] == bytes;
    RefusedOnlyByCode(payload);
    EffectHeard(FD.DecodeClose(payload), FD.Drain(Client(limit), FD.State(bytes, FD.FRESH)));
  }

  function SoundOfEffect(effect: FD.Effect): seq<Sound> {
    match effect
    case Quiet => []
    case Emit(event) => [Hears(event)]
    case Breach(_) => [Refuses]
  }

  lemma CloseSoundIs(last: WireItem)
    requires last.FrameOut? && last.opcode == Opcode.Close
    ensures SoundOf(last) == SoundOfEffect(FD.DecodeClose(last.payload))
  {
    hide FD.DecodeClose;
  }

  lemma RefusedOnlyByCode(payload: Bytes)
    requires payload == [] || (|payload| >= 2 && ValidUtf8(payload[2..]))
    ensures var effect := FD.DecodeClose(payload); effect.Emit? || effect == FD.Breach(1002)
  {
    DecodeCloseExact(payload);
    hide FD.DecodeClose;
  }

  lemma EffectHeard(effect: FD.Effect, r: FD.Outcome)
    requires effect.Emit? || effect == FD.Breach(1002)
    requires r.events == (if effect.Emit? then [effect.event] else []) && r.error == (if effect.Emit? then None else Some(1002))
    ensures HeardAs(r, SoundOfEffect(effect))
  {
    NoSounds();
    if effect.Emit? {
      OneSound(effect.event);
    }
    hide EventsIn;
  }

  /** What the session puts in a close frame is empty, or has a code and a reason in UTF-8. */
  lemma ClosePayloadIsValid(payload: Bytes)
    requires IsClosePayload(payload)
    ensures payload == [] || (|payload| >= 2 && ValidUtf8(payload[2..]))
  {
    if payload != [] {
      var code: int, reason: Utf8.Text :| IsPayloadOf(payload, code, reason);
      PayloadParts(code, LongestValidPrefix(Encode(reason), MAX_CLOSE_REASON_BYTES));
    }
  }

  lemma NoSounds()
    ensures EventsIn([Refuses]) == []
  {
    EventsInAppend([], Refuses);
    assert [] + [Refuses] == [Refuses];
  }

  lemma OneSound(event: FrameEvent)
    ensures EventsIn([Hears(event)]) == [event]
  {
    EventsInAppend([], Hears(event));
    assert [] + [Hears(event)] == [Hears(event)];
  }

  lemma {:induction false} EventsInJoin(a: seq<Sound>, b: seq<Sound>)
    ensures EventsIn(a + b) == EventsIn(a) + EventsIn(b)
    decreases |b|
  {
    if b == [] {
      assert a + b == a;
    } else {
      var front, last := b[..|b| - 1], b[|b| - 1];
      assert b == front + [last] && a + b == a + front + [last];
      EventsInJoin(a, front);
      EventsInAppend(a + front, last);
      EventsInAppend(front, last);
    }
  }

  lemma HeardBehind(r: FD.Outcome, early: seq<FrameEvent>, first: seq<Sound>, last: seq<Sound>)
    requires HeardAs(r, last) && early == EventsIn(first) && Refuses !in first
    ensures HeardAs(r.After(early), first + last)
  {
    EventsInJoin(first, last);
    hide EventsIn;
  }

  /** Data frames of the sizes that the client takes. */
  predicate SizesFit(limit: nat, wire: seq<WireItem>) {
    forall i :: 0 <= i < |wire| && wire[i].FrameOut? ==> Takes(limit, wire[i])
  }

  /** A client that reads the octets behind the 101 hears the wire. */
  lemma WireHeard(limit: nat, wire: seq<WireItem>)
    requires WireOk(wire) && wire != [] && wire[0].Switching? && SizesFit(limit, wire)
    ensures HeardAs(FD.Feed(Client(limit), NEW_DECODER, FramesBytes(wire[1..])), Sounds(wire))
  {
    var n := |wire| - 1;
    if n > 0 && wire[n].FrameOut? && wire[n].opcode == Opcode.Close {
      ClosingWireHeard(limit, wire);
    } else {
      NoCloseInside(wire);
      OpenWireFits(wire, limit);
      assert wire == [wire[0]] + wire[1..];
      hide *;
      ReadsWhole(limit, wire[1..]);
      FramesSound(limit, wire[0], wire[1..]);
      HeardIf(FD.Outcome(NEW_DECODER, EventsOf(wire[1..]), None), Sounds(wire));
    }
  }

  lemma HeardIf(r: FD.Outcome, sounds: seq<Sound>)
    requires r.events == EventsIn(sounds) && r.error.None? && Refuses !in sounds
    ensures HeardAs(r, sounds)
  {
  }

  /** A close frame is the last. */
  lemma NoCloseInside(wire: seq<WireItem>)
    requires WireOk(wire) && wire != [] && wire[0].Switching?
    requires |wire| > 1 && wire[|wire| - 1].FrameOut? ==> wire[|wire| - 1].opcode != Opcode.Close
    ensures forall i :: 1 <= i < |wire| ==> wire[i].FrameOut? && wire[i].opcode != Opcode.Close
  {
    var front := wire[..|wire| - 1];
    assert forall i :: 0 <= i < |front| ==> front[i] == wire[i];
  }

  lemma ClosingWireHeard(limit: nat, wire: seq<WireItem>)
    requires WireOk(wire) && |wire| > 1 && wire[0].Switching? && SizesFit(limit, wire)
    requires wire[|wire| - 1].FrameOut? && wire[|wire| - 1].opcode == Opcode.Close
    ensures HeardAs(FD.Feed(Client(limit), NEW_DECODER, FramesBytes(wire[1..])), Sounds(wire))
  {
    hide *;
    var items, last := wire[1..|wire| - 1], wire[|wire| - 1];
    InsideTakes(limit, wire);
    Sliced(wire);
    var code, reason := ClosedWireFits(wire, limit);
    CloseHeard(limit, last);
    FramesSound(limit, wire[0], items);
    ReadsAll(limit, items, ItemBytes(last));
    FramesThenOne(items, last);
    SoundsAppend([wire[0]] + items, last);
    HeardBehind(FD.Drain(Client(limit), FD.State(ItemBytes(last), FD.FRESH)), EventsOf(items), Sounds([wire[0]] + items), SoundOf(last));
    FeedIsDrain(limit, FramesBytes(wire[1..]));
  }

  lemma InsideTakes(limit: nat, wire: seq<WireItem>)
    requires WireOk(wire) && |wire| > 1 && wire[0].Switching? && SizesFit(limit, wire)
    requires wire[|wire| - 1].FrameOut? && wire[|wire| - 1].opcode == Opcode.Close
    ensures forall i :: 1 <= i < |wire| - 1 ==> Takes(limit, wire[i])
    ensures GoodFrame(wire[|wire| - 1])
  {
    var front := wire[..|wire| - 1];
    assert forall i :: 0 <= i < |front| ==> front[i] == wire[i];
    hide GoodFrame, Takes;
    assert LiveWire(front);
  }

  lemma Sliced(wire: seq<WireItem>)
    requires |wire| > 1
    ensures var items, last := wire[1..|wire| - 1], wire[|wire| - 1];
      wire[1..] == items + [last] && wire == [wire[0]] + items + [last]
  {
  }

  lemma FeedIsDrain(limit: nat, bytes: Bytes)
    ensures FD.Feed(Client(limit), NEW_DECODER, bytes) == FD.Drain(Client(limit), FD.State(bytes, FD.FRESH))
  {
    assert [] + bytes == bytes;
    hide FD.Drain;
  }

  // ---- sizes

  /** What the application sends is of a size that the client takes. */
  predicate SendFits(limit: nat, op: Op) {
    && (op.Send? && op.message.SendText? && Encodable(op.message.text) ==> |Encode(op.message.text)| <= limit)
    && (op.Send? && op.message.SendBytes? ==> |op.message.data| <= limit)
  }

  predicate Small(limit: nat, sound: Sound) {
    && (sound.Hears? && sound.event.TextMessage? && Encodable(sound.event.text) ==> |Encode(sound.event.text)| <= limit)
    && (sound.Hears? && sound.event.BinaryMessage? ==> |sound.event.data| <= limit)
  }

  predicate AllSmall(limit: nat, sounds: seq<Sound>) {
    forall i :: 0 <= i < |sounds| ==> Small(limit, sounds[i])
  }

  lemma {:induction false} AnswersSmall(limit: nat, c: Conn, events: seq<FrameEvent>)
    ensures AllSmall(limit, Answers(c, events))
    decreases |events|
  {
    hide Encode, Cut;
    if events != [] {
      AnswersSmall(limit, c, events[1..]);
    }
  }

  lemma ReadingSmall(limit: nat, s: Settings, c: Conn, data: Bytes)
    ensures AllSmall(limit, Reading(s, c, data))
  {
    AnswersSmall(limit, c, FD.Feed(s.Decoder(), c.decoder, data).events);
    hide FD.Feed, Answers, Encode, Cut;
  }

  lemma ToldBySmall(limit: nat, s: Settings, c: Conn, op: Op)
    requires SendFits(limit, op)
    ensures AllSmall(limit, ToldBy(s, c, op))
  {
    match op {
      case Send(m) =>
        ReadingSmall(limit, s, c, c.prologue);
      case Data(data) => ReadingSmall(limit, s, c, data);
      case _ =>
    }
    hide Reading, Encode, Cut, PING_LETTERS, SHUTDOWN_LETTERS;
  }

  lemma {:induction false} ToldSmall(limit: nat, s: Settings, c: Conn, ops: seq<Op>)
    requires forall i :: 0 <= i < |ops| ==> SendFits(limit, ops[i])
    ensures AllSmall(limit, Told(s, c, ops))
    decreases |ops|
  {
    hide ToldBy, Small, SendFits, Enabled, Step;
    if ops != [] && Enabled(c, ops[0]) {
      ToldBySmall(limit, s, c, ops[0]);
      ToldSmall(limit, s, Step(s, c, ops[0]), ops[1..]);
    }
  }

  lemma {:induction false} SoundIsThere(wire: seq<WireItem>, i: nat)
    requires i < |wire|
    ensures forall sound :: sound in SoundOf(wire[i]) ==> sound in Sounds(wire)
    decreases |wire|
  {
    hide SoundOf;
    if i < |wire| - 1 {
      SoundIsThere(wire[..|wire| - 1], i);
    }
  }

  /** Frames whose sounds are small are of a size that the client takes. */
  lemma FrameTakes(limit: nat, item: WireItem)
    requires limit < TWO_63 && GoodFrame(item) && forall sound :: sound in SoundOf(item) ==> Small(limit, sound)
    ensures Takes(limit, item)
  {
    if item.opcode == Opcode.Text {
      OneFragment(item.payload);
      EncodeDecode(item.payload);
      assert SoundOf(item)[0] in SoundOf(item);
    } else if item.opcode == Opcode.Binary {
      BytesSound(item.payload);
      assert SoundOf(item)[0] in SoundOf(item);
    }
    hide Encode, Decode;
  }

  lemma SmallFits(limit: nat, wire: seq<WireItem>)
    requires limit < TWO_63 && WireOk(wire) && AllSmall(limit, Sounds(wire))
    ensures SizesFit(limit, wire)
  {
    FramesAreGood(wire);
    hide Sounds, Takes, Small, SoundOf, GoodFrame, WireOk;
    forall i | 0 <= i < |wire| && wire[i].FrameOut? ensures Takes(limit, wire[i]) {
      SoundIsThere(wire, i);
      FrameTakes(limit, wire[i]);
    }
  }

  lemma FramesAreGood(wire: seq<WireItem>)
    requires WireOk(wire)
    ensures forall i :: 0 <= i < |wire| && wire[i].FrameOut? ==> GoodFrame(wire[i])
  {
    hide GoodFrame;
    if wire != [] {
      var front := wire[..|wire| - 1];
      assert forall i :: 0 <= i < |front| ==> front[i] == wire[i];
    }
  }

  // ---- the theorem

  /** Without a 101 there is at most the refusal. */
  lemma NoStartNoSound(wire: seq<WireItem>)
    requires WireOk(wire) && (wire == [] || !wire[0].Switching?)
    ensures if wire == [] then Sounds(wire) == [] else wire[0].Refusal? && Sounds(wire) == [Denies(wire[0].status)]
  {
    hide *;
    NothingIsMute();
    if wire != [] {
      AloneUnlessStarted(wire);
      SoundsAppend([], wire[0]);
      RefusalSounds(wire[0]);
    }
  }

  /** The 101 is heard first. */
  lemma {:induction false} StartIsFirst(wire: seq<WireItem>)
    requires wire != [] && wire[0].Switching?
    ensures Sounds(wire) != [] && Sounds(wire)[0] == Opens(wire[0].subprotocol)
    decreases |wire|
  {
    var front, last := wire[..|wire| - 1], wire[|wire| - 1];
    assert wire == front + [last];
    SoundsAppend(front, last);
    hide Sounds;
    if front == [] {
      NothingIsMute();
    } else {
      StartIsFirst(front);
    }
  }

  lemma NothingIsMute()
    ensures Sounds([]) == []
  {
  }

  lemma RefusalSounds(item: WireItem)
    requires item.Refusal?
    ensures SoundOf(item) == [Denies(item.status)]
  {
  }

  lemma AloneUnlessStarted(wire: seq<WireItem>)
    requires WireOk(wire) && wire != []
    ensures wire[0].Switching? || (wire == [] + [wire[0]] && wire[0].Refusal?)
  {
    assert |wire| > 1 ==> wire[..|wire| - 1][0] == wire[0];
  }

  /** Over every run the client is told, first, the 101 with the subprotocol of the accept, and then
      a client that takes the application's messages decodes to exactly what the run told it: each
      text and each octet string sent, each ping, a pong for each ping that was read, and at most one
      close, whole and in order. Without a 101 the run told it nothing, or that it is denied. */
  lemma ClientHearsTheRun(s: Settings, prologue: Bytes, ops: seq<Op>, c: Conn, limit: nat)
    requires Reaches(s, Begin(prologue), ops, c) && limit < TWO_63
    requires forall i :: 0 <= i < |ops| ==> Writable(ops[i]) && SendFits(limit, ops[i])
    ensures if c.hist.wire != [] && c.hist.wire[0].Switching? then
        var told := Told(s, Begin(prologue), ops);
        && told != [] && told[0] == Opens(c.hist.wire[0].subprotocol)
        && HeardAs(FD.Feed(Client(limit), NEW_DECODER, FramesBytes(c.hist.wire[1..])), told)
      else if c.hist.wire == [] then Told(s, Begin(prologue), ops) == []
      else c.hist.wire[0].Refusal? && Told(s, Begin(prologue), ops) == [Denies(c.hist.wire[0].status)]
  {
    FromNothing(s, prologue, ops, c);
    hide *;
    WireGrammar(s, prologue, ops, c);
    ToldSmall(limit, s, Begin(prologue), ops);
    if c.hist.wire != [] && c.hist.wire[0].Switching? {
      SmallFits(limit, c.hist.wire);
      WireHeard(limit, c.hist.wire);
      StartIsFirst(c.hist.wire);
    } else {
      NoStartNoSound(c.hist.wire);
    }
  }

  lemma FromNothing(s: Settings, prologue: Bytes, ops: seq<Op>, c: Conn)
    requires Reaches(s, Begin(prologue), ops, c)
    ensures Sounds(c.hist.wire) == Told(s, Begin(prologue), ops)
  {
    assert Begin(prologue).hist.wire == [] && Begin(prologue).wsState.Some? && Begin(prologue).link.failure.None?;
    hide Reaches, Told, Begin;
    RunTells(s, Begin(prologue), ops, c);
    assert Sounds([]) == [] && [] + Told(s, Begin(prologue), ops) == Told(s, Begin(prologue), ops);
  }

  /** In particular, in an open session that has not tried to close, a handler that returns is heard
      as 1000, shutdown as 1001 and an unanswered ping as 1011, each with its text. */
  lemma ServerClosesAreHeard(s: Settings, c: Conn, payload: Bytes, raised: bool)
    requires c.wsState == Some(Connected) && !c.link.closing && !c.closeSent
    ensures ToldBy(s, c, TaskDone(raised)) == [Hears(CloseReceived(1000, []))]
    ensures ToldBy(s, c, Shutdown) == [Hears(CloseReceived(1001, SHUTDOWN_LETTERS))]
    ensures c.pendingPing.Some? ==> ToldBy(s, c, PingDue(payload)) == [Hears(CloseReceived(1011, PING_LETTERS))]
  {
    hide *;
    ServerTexts();
    ShortTexts();
    CallsFor(s, c, payload, raised);
    ClosingSays(c, 1000, []);
    ClosingSays(c, 1001, SHUTDOWN_LETTERS);
    ClosingSays(c, 1011, PING_LETTERS);
  }

  lemma CallsFor(s: Settings, c: Conn, payload: Bytes, raised: bool)
    requires c.wsState == Some(Connected) && !c.link.closing
    ensures ToldBy(s, c, TaskDone(raised)) == Closing(c, Some(1000), [])
    ensures ToldBy(s, c, Shutdown) == Closing(c, Some(1001), SHUTDOWN_LETTERS)
    ensures c.pendingPing.Some? ==> ToldBy(s, c, PingDue(payload)) == Closing(c, Some(1011), PING_LETTERS)
  {
    hide Reading, Closing, Sending, PING_LETTERS, SHUTDOWN_LETTERS;
  }

  lemma ClosingSays(c: Conn, code: int, reason: Utf8.Text)
    requires !c.closeSent && Encodable(reason) && (1000 <= code <= 1003 || 1007 <= code <= 1014)
    ensures Closing(c, Some(code), reason) == [Hears(CloseReceived(code, Cut(reason)))]
  {
    hide Encode, Cut;
  }

  /** And a violation is heard as 1002, 1007 or 1009, behind the answers to what came before it. */
  lemma ViolationsAreHeard(s: Settings, c: Conn, data: Bytes)
    requires c.wsState == Some(Connected) && !c.link.closing && !c.closeSent && !c.link.closed
    requires FD.Feed(s.Decoder(), c.decoder, data).error.Some?
    ensures var r := FD.Feed(s.Decoder(), c.decoder, data);
      && r.error.value in {1002, 1007, 1009} && Encodable(s.why(c.decoder, data))
      && ToldBy(s, c, Data(data)) == Answers(c, r.events) + [Hears(CloseReceived(r.error.value, Cut(s.why(c.decoder, data))))]
  {
    ViolationCodes(s, c.decoder, data);
    var r := FD.Feed(s.Decoder(), c.decoder, data);
    AsciiIsShort(s.why(c.decoder, data));
    hide FD.Feed, Answers, Encode, Cut, Closing;
    ClosingSays(c, r.error.value, s.why(c.decoder, data));
  }

  lemma ViolationCodes(s: Settings, st: FD.State, data: Bytes)
    requires FD.Feed(s.Decoder(), st, data).error.Some?
    ensures FD.Feed(s.Decoder(), st, data).error.value in {1002, 1007, 1009}
  {
    FS.DrainEndsOnce(s.Decoder(), st.Received(data));
    hide FD.Drain, FS.Answerable;
  }

  lemma ShortTexts()
    ensures Encodable(PING_TIMEOUT) && Cut(PING_TIMEOUT) == PING_TIMEOUT
    ensures Encodable(SHUTTING_DOWN) && Cut(SHUTTING_DOWN) == SHUTTING_DOWN
    ensures Encodable([]) && Cut([]) == []
  {
    hide *;
    TextLengths();
    ShortStays(PING_TIMEOUT);
    ShortStays(SHUTTING_DOWN);
    NothingStays();
  }

  lemma NothingStays()
    ensures Encodable([]) && Cut([]) == []
  {
  }

  lemma TextLengths()
    ensures |PING_TIMEOUT| <= 123 && |SHUTTING_DOWN| <= 123
  {
  }

  lemma ShortStays(text: PlainText)
    requires |text| <= 123
    ensures Encodable(text) && Cut(text) == text
  {
    AsciiIsShort(text);
    hide Encode;
  }

  lemma {:induction false} AsciiIsShort(text: PlainText)
    ensures Encodable(text) && |Encode(text)| == |text|
    decreases |text|
  {
    if text != [] {
      AsciiIsShort(text[1..]);
    }
  }
}
