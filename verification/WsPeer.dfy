/** The other end of the wire: a client's decoder reads back exactly the frames that the
    session wrote. */
module WsPeer {
  import opened Bytes
  import opened Utf8
  import opened Wrappers
  import opened Frames
  import opened CloseFrames
  import opened WsSession
  import FD = FrameDecoding
  import RT = FrameRoundTrip

  /** A client's decoder: servers must not mask. */
  function Client(limit: nat): FD.Config {
    FD.Config(limit, false)
  }

  function ItemBytes(item: WireItem): Bytes {
    if item.FrameOut? then RT.FrameBytes(item.opcode, item.payload, true, None) else []
  }

  function FramesBytes(items: seq<WireItem>): Bytes {
    if items == [] then [] else ItemBytes(items[0]) + FramesBytes(items[1..])
  }

  /** A frame of a size that the client takes. */
  predicate Takes(limit: nat, item: WireItem) {
    item.FrameOut? && (!item.opcode.IsControl() ==> |item.payload| <= limit && |item.payload| < TWO_63)
  }

  /** A good frame of that size other than a close frame. */
  ghost predicate Fits(limit: nat, item: WireItem) {
    GoodFrame(item) && item.opcode != Opcode.Close && Takes(limit, item)
  }

  ghost predicate AllFit(limit: nat, items: seq<WireItem>) {
    forall i :: 0 <= i < |items| ==> Fits(limit, items[i])
  }

  /** What the peer must read in a frame. */
  function EventOf(item: WireItem): seq<FrameEvent> {
    match item
    case FrameOut(Text, payload) => if ValidUtf8(payload) then [TextMessage(Decode(payload).value)] else []
    case FrameOut(Binary, payload) => [BinaryMessage(payload)]
    case FrameOut(Ping, payload) => [PingReceived(payload)]
    case FrameOut(Pong, payload) => [PongReceived(payload)]
    case _ => []
  }

  function EventsOf(items: seq<WireItem>): seq<FrameEvent> {
    if items == [] then [] else EventOf(items[0]) + EventsOf(items[1..])
  }

  /** The item that a close frame becomes is what `encode_close_frame` returns, and there
      is none exactly where that raises. */
  lemma CloseItemIsCloseFrame(code: Option<int>, reason: Utf8.Text)
    ensures var item := CloseItem(code, reason);
      if item.Some? then CloseFrame(code, reason, None) == Ok(ItemBytes(item.value))
      else CloseFrame(code, reason, None).Err?
  {
  }

  lemma ReadsOne(limit: nat, item: WireItem, rest: Bytes)
    requires Fits(limit, item)
    ensures EncodeFrame(item.opcode, item.payload, true, None).Ok?
    ensures FD.Drain(Client(limit), FD.State(ItemBytes(item) + rest, FD.FRESH)) ==
            FD.Drain(Client(limit), FD.State(rest, FD.FRESH)).After(EventOf(item))
  {
    RT.TakesEncoded(Client(limit), item.opcode, item.payload, true, None, rest, 0);
    RT.DrainsEncoded(Client(limit), FD.FRESH, item.opcode, item.payload, true, None, rest);
    assert Join([item.payload]) == item.payload;
    assert [] + [item.payload] == [item.payload];
  }

  lemma {:induction false} ReadsAll(limit: nat, items: seq<WireItem>, rest: Bytes)
    requires AllFit(limit, items)
    ensures FD.Drain(Client(limit), FD.State(FramesBytes(items) + rest, FD.FRESH)) ==
            FD.Drain(Client(limit), FD.State(rest, FD.FRESH)).After(EventsOf(items))
    decreases |items|
  {
    hide FD.Drain, Fits, ItemBytes, EventOf;
    if items == [] {
      assert FramesBytes(items) + rest == rest;
      var r := FD.Drain(Client(limit), FD.State(rest, FD.FRESH));
      assert [] + r.events == r.events;
    } else {
      var tail := FramesBytes(items[1..]) + rest;
      assert FramesBytes(items) + rest == ItemBytes(items[0]) + tail;
      ReadsOne(limit, items[0], tail);
      ReadsAll(limit, items[1..], rest);
      FD.AfterTwice(FD.Drain(Client(limit), FD.State(rest, FD.FRESH)), EventsOf(items[1..]), EventOf(items[0]));
    }
  }

  /** Whatever the interleaving, as long as no close frame was written, a client that takes
      data frames up to `limit` decodes the octets behind the 101 to exactly the messages,
      pings and pongs written, in order. */
  lemma PeerReadsLiveSession(s: Settings, prologue: Bytes, ops: seq<Op>, c: Conn, limit: nat)
    requires Reaches(s, Begin(prologue), ops, c)
    requires forall i :: 0 <= i < |ops| ==> Writable(ops[i])
    requires c.hist.wire != [] && c.hist.wire[0].Switching?
    requires forall i :: 1 <= i < |c.hist.wire| ==>
      Takes(limit, c.hist.wire[i]) && c.hist.wire[i].opcode != Opcode.Close
    ensures FD.Feed(Client(limit), NEW_DECODER, FramesBytes(c.hist.wire[1..])) ==
            FD.Outcome(NEW_DECODER, EventsOf(c.hist.wire[1..]), None)
  {
    WireGrammar(s, prologue, ops, c);
    OpenWireFits(c.hist.wire, limit);
    hide *;
    ReadsWhole(limit, c.hist.wire[1..]);
  }

  /** A wire that is in order and has no close frame fits a client with that limit. */
  lemma OpenWireFits(wire: seq<WireItem>, limit: nat)
    requires WireOk(wire) && wire != [] && wire[0].Switching?
    requires forall i :: 1 <= i < |wire| ==>
      Takes(limit, wire[i]) && wire[i].opcode != Opcode.Close
    ensures AllFit(limit, wire[1..])
  {
    var front, items := wire[..|wire| - 1], wire[1..];
    forall i | 0 <= i < |items| ensures Fits(limit, items[i]) {
      assert items[i] == wire[i + 1];
      if i + 1 < |front| {
        assert front[i + 1] == wire[i + 1];
      }
    }
  }

  lemma ReadsWhole(limit: nat, items: seq<WireItem>)
    requires AllFit(limit, items)
    ensures FD.Feed(Client(limit), NEW_DECODER, FramesBytes(items)) == FD.Outcome(NEW_DECODER, EventsOf(items), None)
  {
    hide AllFit, FD.Drain, FramesBytes, EventsOf, Client;
    NothingToRead(limit);
    ReadsAll(limit, items, []);
    var bytes, events := FramesBytes(items), EventsOf(items);
    assert bytes + [] == bytes == [] + bytes && events + [] == events;
  }

  lemma NothingToRead(limit: nat)
    ensures FD.Drain(Client(limit), FD.State([], FD.FRESH)) == FD.Outcome(NEW_DECODER, [], None)
  {
  }

  /** What a client reads in the close frame for a code and a reason: no status, the code and
      k characters of the reason, or a protocol error when the code is not a sendable one. */
  predicate ReadsAsClose(r: FD.Outcome, early: seq<FrameEvent>, code: Option<int>, reason: Utf8.Text, k: nat) {
    if code.Some? && !IsValidCloseCode(code.value) then
      r.events == early && r.error == Some(CLOSE_PROTOCOL_ERROR)
    else
      && r.error.None? && r.state == FD.State([], FD.FRESH.(closed := true))
      && k <= |reason|
      && r.events == early + [if code.None? then CloseReceived(CLOSE_NO_STATUS, []) else CloseReceived(code.value, reason[..k])]
  }

  lemma ReadsClose(code: Option<int>, reason: Utf8.Text, limit: nat) returns (k: nat)
    requires CloseItem(code, reason).Some?
    ensures ReadsAsClose(FD.Drain(Client(limit), FD.State(ItemBytes(CloseItem(code, reason).value), FD.FRESH)), [], code, reason, k)
    ensures code.Some? && |Encode(reason)| <= MAX_CLOSE_REASON_BYTES && IsValidCloseCode(code.value) ==> k == |reason|
  {
    var last := ItemBytes(CloseItem(code, reason).value);
    CloseItemIsCloseFrame(code, reason);
    assert last + [] == last;
    k := 0;
    if code.None? {
      BareCloseRoundTrip(Client(limit), FD.FRESH, reason, None, []);
    } else if IsValidCloseCode(code.value) {
      k := CloseRoundTrip(Client(limit), FD.FRESH, code.value, reason, None, []);
    } else {
      UnsendableCode(limit, code.value, reason);
    }
  }

  /** A code that no endpoint may send is answered with a protocol error. */
  lemma UnsendableCode(limit: nat, code: int, reason: Utf8.Text)
    requires CloseItem(Some(code), reason).Some? && !IsValidCloseCode(code)
    ensures var r := FD.Drain(Client(limit), FD.State(ItemBytes(CloseItem(Some(code), reason).value), FD.FRESH));
      r.events == [] && r.error == Some(CLOSE_PROTOCOL_ERROR)
  {
    var payload := CloseItem(Some(code), reason).value.payload;
    Pow256Values();
    assert payload[..2] == ToBig(code, 2);
    ItemTaken(limit, payload);
    assert FD.DecodeClose(payload) == FD.Breach(CLOSE_PROTOCOL_ERROR);
  }

  lemma ItemTaken(limit: nat, payload: Bytes)
    requires |payload| <= MAX_CONTROL_PAYLOAD
    ensures var bytes, frame := RT.FrameBytes(Opcode.Close, payload, true, None), FD.Frame(true, Opcode.Close, payload);
      FD.HandleFrame(FD.FRESH, frame).1.Breach? ==>
        FD.Drain(Client(limit), FD.State(bytes, FD.FRESH)).events == [] &&
        FD.Drain(Client(limit), FD.State(bytes, FD.FRESH)).error == Some(FD.HandleFrame(FD.FRESH, frame).1.code)
  {
    var bytes := RT.FrameBytes(Opcode.Close, payload, true, None);
    RT.DrainsEncoded(Client(limit), FD.FRESH, Opcode.Close, payload, true, None, []);
    assert bytes + [] == bytes;
    hide FD.HandleFrame, FD.Drain, RT.FrameBytes;
  }

  lemma {:induction false} FramesThenOne(items: seq<WireItem>, last: WireItem)
    ensures FramesBytes(items + [last]) == FramesBytes(items) + ItemBytes(last)
    decreases |items|
  {
    hide ItemBytes;
    var all := items + [last];
    if items == [] {
      assert all == [last] && all[1..] == [];
      assert FramesBytes(all[1..]) == [];
      assert ItemBytes(last) + [] == ItemBytes(last) == [] + ItemBytes(last);
    } else {
      assert all[0] == items[0] && all[1..] == items[1..] + [last];
      FramesThenOne(items[1..], last);
      Grouped(ItemBytes(items[0]), FramesBytes(items[1..]), ItemBytes(last));
    }
  }

  lemma Grouped(a: Bytes, b: Bytes, c: Bytes)
    ensures a + (b + c) == a + b + c
  {
  }

  /** A wire that ends in a close frame: frames that fit, then what some code and reason became. */
  lemma ClosedWireFits(wire: seq<WireItem>, limit: nat) returns (code: Option<int>, reason: Utf8.Text)
    requires WireOk(wire) && |wire| > 1 && wire[0].Switching?
    requires wire[|wire| - 1].FrameOut? && wire[|wire| - 1].opcode == Opcode.Close
    requires forall i :: 1 <= i < |wire| - 1 ==> Takes(limit, wire[i])
    ensures AllFit(limit, wire[1..|wire| - 1]) && CloseItem(code, reason) == Some(wire[|wire| - 1])
  {
    var front, last := wire[..|wire| - 1], wire[|wire| - 1];
    assert LiveWire(front) && GoodFrame(last);
    var items := wire[1..|wire| - 1];
    forall i | 0 <= i < |items| ensures Fits(limit, items[i]) {
      assert items[i] == front[i + 1] == wire[i + 1];
    }
    code, reason := None, [];
    if last.payload != [] {
      var n: int, text: Utf8.Text :| IsPayloadOf(last.payload, n, text);
      code, reason := Some(n), text;
    }
  }

  /** Whatever the interleaving, when a close frame was written it was the last, some code and
      reason became it, and a client that takes data frames up to `limit` reads everything
      before it, then that code and a whole-character prefix of that reason, then nothing. */
  lemma PeerReadsClose(s: Settings, prologue: Bytes, ops: seq<Op>, c: Conn, limit: nat)
    returns (code: Option<int>, reason: Utf8.Text, k: nat)
    requires Reaches(s, Begin(prologue), ops, c)
    requires forall i :: 0 <= i < |ops| ==> Writable(ops[i])
    requires |c.hist.wire| > 1 && c.hist.wire[0].Switching?
    requires c.hist.wire[|c.hist.wire| - 1].FrameOut? && c.hist.wire[|c.hist.wire| - 1].opcode == Opcode.Close
    requires forall i :: 1 <= i < |c.hist.wire| - 1 ==> Takes(limit, c.hist.wire[i])
    ensures CloseItem(code, reason) == Some(c.hist.wire[|c.hist.wire| - 1])
    ensures code.Some? && |Encode(reason)| <= MAX_CLOSE_REASON_BYTES && IsValidCloseCode(code.value) ==> k == |reason|
    ensures ReadsAsClose(FD.Feed(Client(limit), NEW_DECODER, FramesBytes(c.hist.wire[1..])),
                         EventsOf(c.hist.wire[1..|c.hist.wire| - 1]), code, reason, k)
  {
    WireGrammar(s, prologue, ops, c);
    var wire := c.hist.wire;
    code, reason := ClosedWireFits(wire, limit);
    assert wire[1..|wire| - 1] + [wire[|wire| - 1]] == wire[1..];
    hide *;
    k := ReadsThenClose(limit, wire[1..|wire| - 1], wire[|wire| - 1], code, reason);
  }

  lemma ReadsThenClose(limit: nat, items: seq<WireItem>, last: WireItem, code: Option<int>, reason: Utf8.Text) returns (k: nat)
    requires AllFit(limit, items) && CloseItem(code, reason) == Some(last)
    ensures code.Some? && |Encode(reason)| <= MAX_CLOSE_REASON_BYTES && IsValidCloseCode(code.value) ==> k == |reason|
    ensures ReadsAsClose(FD.Feed(Client(limit), NEW_DECODER, FramesBytes(items + [last])), EventsOf(items), code, reason, k)
  {
    k := ReadsClose(code, reason, limit);
    var tail := FD.Drain(Client(limit), FD.State(ItemBytes(last), FD.FRESH));
    CloseBehind(tail, EventsOf(items), code, reason, k);
    hide AllFit, FD.Drain, CloseItem, ItemBytes, FramesBytes, IsValidCloseCode, ReadsAsClose, Encode;
    ReadsAll(limit, items, ItemBytes(last));
    FramesThenOne(items, last);
    var bytes := FramesBytes(items + [last]);
    assert [] + bytes == bytes;
  }

  lemma CloseBehind(r: FD.Outcome, early: seq<FrameEvent>, code: Option<int>, reason: Utf8.Text, k: nat)
    requires ReadsAsClose(r, [], code, reason, k)
    ensures ReadsAsClose(r.After(early), early, code, reason, k)
  {
    assert early + [] == early;
  }
}
