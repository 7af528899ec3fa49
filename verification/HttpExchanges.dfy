/** What the parser's events add up to: whole exchanges whose bodies have the length
    that their own heads declare, at most one request still open, and nothing behind
    an upgrade. */
module HttpExchanges {
  import opened Bytes
  import opened Wrappers
  import opened HttpText
  import opened HttpParsing

  // ---- framing, read from a head alone

  /** The values of every field of that name, in order. */
  function Values(headers: seq<Header>, name: Bytes): seq<Bytes>
    decreases |headers|
  {
    if headers == [] then []
    else
      var n := |headers| - 1;
      Values(headers[..n], name) + (if headers[n].0 == name then [headers[n].1] else [])
  }

  predicate IsChunked(headers: seq<Header>) {
    Values(headers, TRANSFER_ENCODING) != []
  }

  /** The body length that the fields declare: 0 without a Content-Length. */
  function DeclaredLength(headers: seq<Header>): nat {
    var lengths := Values(headers, CONTENT_LENGTH);
    if lengths != [] && IsDigits(lengths[0]) then Decimal(lengths[0]) else 0
  }

  function AllTokens(values: seq<Bytes>): set<Bytes>
    decreases |values|
  {
    if values == [] then {}
    else AllTokens(values[..|values| - 1]) + Tokens(Split(values[|values| - 1], COMMA))
  }

  /** The protocol a head switches to: one Upgrade field with one supported token, the
      word "upgrade" in some Connection field, and an HTTP/1.1 GET. */
  function UpgradeOf(cfg: Config, line: RequestLine, headers: seq<Header>): Option<Bytes> {
    var offers := Values(headers, UPGRADE);
    if |offers| != 1 || UPGRADE !in AllTokens(Values(headers, CONNECTION)) then None
    else
      var token := Lower(Strip(offers[0], IsSpace));
      if token != [] && COMMA !in token && line.verb == GET && line.version == Http11
        && IsAscii(token) && token in cfg.upgradeProtocols
      then Some(token) else None
  }

  ghost predicate LengthFaithful(cfg: Config, f: Fields) {
    var lengths := Values(f.headers, CONTENT_LENGTH);
    && |lengths| <= 1
    && (lengths != [] ==> IsDigits(lengths[0]) && Decimal(lengths[0]) <= cfg.maxBodySize)
    && f.contentLength == (if lengths == [] then None else Some(DeclaredLength(f.headers)))
  }

  ghost predicate CodingFaithful(f: Fields) {
    var codings := Values(f.headers, TRANSFER_ENCODING);
    && |codings| <= 1
    && (codings != [] ==> Lower(codings[0]) == CHUNKED)
    && f.chunked == f.transferEncodingSeen == (codings != [])
  }

  ghost predicate TokensFaithful(f: Fields) {
    f.connectionTokens == AllTokens(Values(f.headers, CONNECTION))
  }

  ghost predicate OfferFaithful(f: Fields) {
    var offers := Values(f.headers, UPGRADE);
    && f.upgradeToken == (if offers == [] then None else Some(Lower(Strip(offers[0], IsSpace))))
    && (f.upgradeTokenValid <==>
          |offers| == 1 && f.upgradeToken.value != [] && COMMA !in f.upgradeToken.value)
  }

  /** The running fields say what the recorded header list says. */
  ghost predicate Faithful(cfg: Config, f: Fields) {
    && f.headerCount == |f.headers| <= cfg.maxHeaders
    && f.headersSize <= cfg.maxHeaderSize
    && LengthFaithful(cfg, f) && CodingFaithful(f) && TokensFaithful(f) && OfferFaithful(f)
  }

  lemma ValuesAppend(headers: seq<Header>, h: Header, name: Bytes)
    ensures Values(headers + [h], name) ==
      if h.0 == name then Values(headers, name) + [h.1] else Values(headers, name)
  {
    assert (headers + [h])[..|headers|] == headers;
  }

  lemma TokensAppend(values: seq<Bytes>, v: Bytes)
    ensures AllTokens(values + [v]) == AllTokens(values) + Tokens(Split(v, COMMA))
  {
    assert (values + [v])[..|values|] == values;
  }

  /** The four framing names are pairwise different. */
  lemma NamesDiffer()
    ensures |CONTENT_LENGTH| == 14 && |TRANSFER_ENCODING| == 17 && |CONNECTION| == 10 && |UPGRADE| == 7
  {
  }

  /** g is f with one more header line recorded and nothing else changed. */
  ghost predicate RecordedAs(f: Fields, g: Fields, name: Bytes, value: Bytes) {
    exists text :: g == f.Record(text, name, value)
  }

  lemma LengthKept(cfg: Config, f: Fields, g: Fields, name: Bytes, value: Bytes)
    requires LengthFaithful(cfg, f) && RecordedAs(f, g, name, value)
    requires ApplyField(cfg, g, name, value).GoodFields?
    ensures LengthFaithful(cfg, ApplyField(cfg, g, name, value).fields)
  {
    ValuesAppend(f.headers, (name, value), CONTENT_LENGTH);
    if name == CONTENT_LENGTH {
      NamesDiffer();
    } else {
      hide ApplyField;
    }
  }

  lemma CodingKept(cfg: Config, f: Fields, g: Fields, name: Bytes, value: Bytes)
    requires CodingFaithful(f) && RecordedAs(f, g, name, value)
    requires ApplyField(cfg, g, name, value).GoodFields?
    ensures CodingFaithful(ApplyField(cfg, g, name, value).fields)
  {
    ValuesAppend(f.headers, (name, value), TRANSFER_ENCODING);
    if name == TRANSFER_ENCODING {
      NamesDiffer();
    } else {
      hide ApplyField;
    }
  }

  lemma TokensKept(cfg: Config, f: Fields, g: Fields, name: Bytes, value: Bytes)
    requires TokensFaithful(f) && RecordedAs(f, g, name, value)
    requires ApplyField(cfg, g, name, value).GoodFields?
    ensures TokensFaithful(ApplyField(cfg, g, name, value).fields)
  {
    ValuesAppend(f.headers, (name, value), CONNECTION);
    if name == CONNECTION {
      NamesDiffer();
      TokensAppend(Values(f.headers, CONNECTION), value);
    } else {
      hide ApplyField;
    }
  }

  lemma OfferKept(cfg: Config, f: Fields, g: Fields, name: Bytes, value: Bytes)
    requires OfferFaithful(f) && RecordedAs(f, g, name, value)
    requires ApplyField(cfg, g, name, value).GoodFields?
    ensures OfferFaithful(ApplyField(cfg, g, name, value).fields)
  {
    ValuesAppend(f.headers, (name, value), UPGRADE);
    if name == UPGRADE {
      NamesDiffer();
    } else {
      hide ApplyField;
    }
  }

  lemma RecordKeeps(cfg: Config, f: Fields, text: Bytes, name: Bytes, value: Bytes)
    requires Faithful(cfg, f)
    requires var g := f.Record(text, name, value); g.headersSize <= cfg.maxHeaderSize && g.headerCount <= cfg.maxHeaders
    requires ApplyField(cfg, f.Record(text, name, value), name, value).GoodFields?
    ensures Faithful(cfg, ApplyField(cfg, f.Record(text, name, value), name, value).fields)
  {
    hide LengthFaithful, CodingFaithful, TokensFaithful, OfferFaithful, ApplyField;
    var g := f.Record(text, name, value);
    assert RecordedAs(f, g, name, value);
    LengthKept(cfg, f, g, name, value);
    CodingKept(cfg, f, g, name, value);
    TokensKept(cfg, f, g, name, value);
    OfferKept(cfg, f, g, name, value);
  }

  lemma FaithfulUpgrade(cfg: Config, line: RequestLine, f: Fields)
    requires Faithful(cfg, f)
    ensures DetectUpgrade(cfg, line, f) == UpgradeOf(cfg, line, f.headers)
  {
  }

  // ---- exchanges

  /** One whole request: its head, the body pieces that said more follows, and the last. */
  datatype Exchange = Exchange(head: RequestHead, parts: seq<Bytes>, last: Bytes)

  datatype Open = Nothing | InBody(head: RequestHead, parts: seq<Bytes>) | Switched(head: RequestHead)

  datatype Shape = Shape(done: seq<Exchange>, open: Open)

  function RenderParts(parts: seq<Bytes>): seq<Event>
    decreases |parts|
  {
    if parts == [] then []
    else RenderParts(parts[..|parts| - 1]) + [BodyChunk(parts[|parts| - 1], true)]
  }

  function RenderExchange(x: Exchange): seq<Event> {
    [HeadComplete(x.head)] + RenderParts(x.parts) + [BodyChunk(x.last, false), RequestComplete]
  }

  function RenderDone(done: seq<Exchange>): seq<Event>
    decreases |done|
  {
    if done == [] then [] else RenderDone(done[..|done| - 1]) + RenderExchange(done[|done| - 1])
  }

  function RenderOpen(open: Open): seq<Event> {
    match open
    case Nothing => []
    case InBody(head, parts) => [HeadComplete(head)] + RenderParts(parts)
    case Switched(head) => [HeadComplete(head)]
  }

  /** The grammar: whole exchanges, then at most one open request or an upgrade head. */
  function Render(shape: Shape): seq<Event> {
    RenderDone(shape.done) + RenderOpen(shape.open)
  }

  function Size(parts: seq<Bytes>): nat
    decreases |parts|
  {
    if parts == [] then 0 else Size(parts[..|parts| - 1]) + |parts[|parts| - 1]|
  }

  /** An exchange's body is as long as its head declares, and never over the limit. */
  ghost predicate ExchangeOk(cfg: Config, x: Exchange) {
    && HeadOk(cfg, x.head) && x.head.upgrade == None
    && Size(x.parts) + |x.last| <= cfg.maxBodySize
    && (!IsChunked(x.head.headers) ==> Size(x.parts) + |x.last| == DeclaredLength(x.head.headers))
  }

  /** Heads carry at most one of the two framings, within the limits, and the upgrade
      that their own fields ask for; an upgrade head declares no body. */
  ghost predicate HeadOk(cfg: Config, head: RequestHead) {
    && |head.headers| <= cfg.maxHeaders
    && head.upgrade == UpgradeOf(cfg, head.line, head.headers)
    && !(IsChunked(head.headers) && Values(head.headers, CONTENT_LENGTH) != [])
    && DeclaredLength(head.headers) <= cfg.maxBodySize
    && (head.upgrade.Some? ==> !IsChunked(head.headers) && DeclaredLength(head.headers) == 0)
  }

  /** The parser's state is accounted for by the events so far. */
  ghost predicate Matches(cfg: Config, st: State, shape: Shape) {
    && st.Live()
    && (forall i :: 0 <= i < |shape.done| ==> ExchangeOk(cfg, shape.done[i]))
    && (st.phase != Upgraded ==> Faithful(cfg, st.fields))
    && match st.phase
       case StartLine => shape.open == Nothing && st == Fresh(st.buffer)
       case Headers => shape.open == Nothing && st == Fresh(st.buffer).(phase := Headers, line := st.line, fields := st.fields)
       case Upgraded => shape.open.Switched? && HeadOk(cfg, shape.open.head) && shape.open.head.upgrade.Some?
       case Body => InBodyMatches(cfg, st, shape.open)
  }

  /** The ledger of the request in progress. */
  ghost predicate InBodyMatches(cfg: Config, st: State, open: Open) {
    && open.InBody? && HeadOk(cfg, open.head)
    && open.head == RequestHead(st.line, st.fields.headers, None)
    && (if st.fields.chunked then
          && Size(open.parts) + st.chunkRemaining == st.bodyTotal <= cfg.maxBodySize
          && (st.chunkPhase != Data ==> st.chunkRemaining == 0)
        else
          Size(open.parts) + st.bodyRemaining == DeclaredLength(open.head.headers))
  }

  lemma FreshMatches(cfg: Config, buffer: Bytes, done: seq<Exchange>)
    requires forall i :: 0 <= i < |done| ==> ExchangeOk(cfg, done[i])
    ensures Matches(cfg, Fresh(buffer), Shape(done, Nothing))
  {
  }

  lemma SizeAppend(parts: seq<Bytes>, part: Bytes)
    ensures Size(parts + [part]) == Size(parts) + |part|
    ensures RenderParts(parts + [part]) == RenderParts(parts) + [BodyChunk(part, true)]
  {
    assert (parts + [part])[..|parts|] == parts;
  }

  lemma AddPart(shape: Shape, part: Bytes) returns (next: Shape)
    requires shape.open.InBody?
    ensures next == Shape(shape.done, InBody(shape.open.head, shape.open.parts + [part]))
    ensures Render(next) == Render(shape) + [BodyChunk(part, true)]
    ensures Size(next.open.parts) == Size(shape.open.parts) + |part|
  {
    SizeAppend(shape.open.parts, part);
    next := Shape(shape.done, InBody(shape.open.head, shape.open.parts + [part]));
    assert Render(next) == Render(shape) + [BodyChunk(part, true)];
  }

  lemma CloseBody(shape: Shape, last: Bytes) returns (next: Shape)
    requires shape.open.InBody?
    ensures next == Shape(shape.done + [Exchange(shape.open.head, shape.open.parts, last)], Nothing)
    ensures Render(next) == Render(shape) + [BodyChunk(last, false), RequestComplete]
  {
    var x := Exchange(shape.open.head, shape.open.parts, last);
    next := Shape(shape.done + [x], Nothing);
    assert (shape.done + [x])[..|shape.done|] == shape.done;
    assert Render(next) == RenderDone(shape.done) + RenderExchange(x);
  }

  lemma FinishStep(cfg: Config, st: State, exact: bool, shape: Shape) returns (next: Shape)
    requires Matches(cfg, st, shape) && st.phase == Headers && FinishHeaders(cfg, st, exact).Advanced?
    ensures var step := FinishHeaders(cfg, st, exact);
      Matches(cfg, step.state, next) && Render(next) == Render(shape) + step.events
  {
    FaithfulUpgrade(cfg, st.line, st.fields);
    var head := RequestHead(st.line, st.fields.headers, UpgradeOf(cfg, st.line, st.fields.headers));
    next := Shape(shape.done, if head.upgrade.Some? then Switched(head) else InBody(head, []));
    assert Render(next) == Render(shape) + [HeadComplete(head)];
  }

  lemma FieldStep(cfg: Config, st: State, line: Bytes)
    requires Faithful(cfg, st.fields) && ConsumeHeaderLine(cfg, st.fields, line).GoodFields?
    ensures Faithful(cfg, ConsumeHeaderLine(cfg, st.fields, line).fields)
  {
    var cut := Partition(line, COLON);
    RecordKeeps(cfg, st.fields, line, Lower(cut.before), Trim(cut.after));
  }

  lemma HeadersStep(cfg: Config, st: State, shape: Shape) returns (next: Shape)
    requires Matches(cfg, st, shape) && st.phase == Headers && StepHeaders(cfg, st).Advanced?
    ensures var step := StepHeaders(cfg, st);
      Matches(cfg, step.state, next) && Render(next) == Render(shape) + step.events
  {
    hide FinishHeaders, ConsumeHeaderLine, Faithful;
    var r := TakeLine(cfg.maxHeaderSize, st.buffer);
    if r.line == [] {
      next := FinishStep(cfg, st.(buffer := r.rest), Exact(cfg, r.line), shape);
    } else {
      next := shape;
      FieldStep(cfg, st, r.line);
      assert Render(next) == Render(shape) + [];
    }
  }

  lemma SizedStep(cfg: Config, st: State, shape: Shape) returns (next: Shape)
    requires Matches(cfg, st, shape) && st.phase == Body && !st.fields.chunked && StepSized(st).Advanced?
    ensures var step := StepSized(st);
      Matches(cfg, step.state, next) && Render(next) == Render(shape) + step.events
  {
    if st.bodyRemaining == 0 {
      next := CloseBody(shape, []);
      FreshMatches(cfg, st.buffer, next.done);
    } else {
      var take := Min(|st.buffer|, st.bodyRemaining);
      if take < st.bodyRemaining {
        next := AddPart(shape, st.buffer[..take]);
      } else {
        next := CloseBody(shape, st.buffer[..take]);
        FreshMatches(cfg, st.buffer[take..], next.done);
      }
    }
  }

  lemma TrailersStep(cfg: Config, st: State, shape: Shape) returns (next: Shape)
    requires Matches(cfg, st, shape) && st.phase == Body && st.fields.chunked && st.chunkPhase == Trailers
    requires StepTrailers(cfg, st).Advanced?
    ensures var step := StepTrailers(cfg, st);
      Matches(cfg, step.state, next) && Render(next) == Render(shape) + step.events
  {
    var r := TakeLine(cfg.maxHeaderSize, st.buffer);
    if r.line == [] {
      next := CloseBody(shape, []);
      FreshMatches(cfg, r.rest, next.done);
    } else {
      next := shape;
      assert Render(next) == Render(shape) + [];
    }
  }

  lemma ChunkedStep(cfg: Config, st: State, shape: Shape) returns (next: Shape)
    requires Matches(cfg, st, shape) && st.phase == Body && st.fields.chunked && StepChunked(cfg, st).Advanced?
    ensures var step := StepChunked(cfg, st);
      Matches(cfg, step.state, next) && Render(next) == Render(shape) + step.events
  {
    hide Faithful, HeadOk, Render, ExchangeOk, StepTrailers;
    if st.chunkPhase == Trailers {
      next := TrailersStep(cfg, st, shape);
    } else if st.chunkPhase == Data {
      next := AddPart(shape, st.buffer[..Min(|st.buffer|, st.chunkRemaining)]);
      hide Size;
    } else {
      next := shape;
      SizeStep(cfg, st, shape);
      assert Render(next) + [] == Render(next);
      hide StepSize, StepDataCrlf, Matches;
    }
  }

  lemma SizeStep(cfg: Config, st: State, shape: Shape)
    requires Matches(cfg, st, shape) && st.phase == Body && st.fields.chunked && StepChunked(cfg, st).Advanced?
    requires st.chunkPhase == ChunkPhase.Size || st.chunkPhase == DataCrlf
    ensures Matches(cfg, StepChunked(cfg, st).state, shape) && StepChunked(cfg, st).events == []
  {
    hide Faithful, HeadOk, ExchangeOk, ChunkSize, TakeLine;
  }

  lemma NextMatches(cfg: Config, st: State, shape: Shape) returns (next: Shape)
    requires Matches(cfg, st, shape) && Next(cfg, st).Advanced?
    ensures var step := Next(cfg, st);
      Matches(cfg, step.state, next) && Render(next) == Render(shape) + step.events
  {
    match st.phase {
      case StartLine =>
        next := shape;
        assert Render(next) == Render(shape) + [];
      case Headers => next := HeadersStep(cfg, st, shape);
      case Body => if st.fields.chunked { next := ChunkedStep(cfg, st, shape); } else { next := SizedStep(cfg, st, shape); }
      case Upgraded => next := shape;
    }
  }

  lemma {:induction false} DrainMatches(cfg: Config, st: State, shape: Shape) returns (next: Shape)
    requires Matches(cfg, st, shape)
    ensures var r := Drain(cfg, st);
      Matches(cfg, r.state, next) && Render(next) == Render(shape) + r.events
    decreases |st.buffer|, st.Pending()
  {
    hide Next, Render, InBodyMatches, Faithful, ExchangeOk, HeadOk;
    next := shape;
    var step := Next(cfg, st);
    if step.Advanced? {
      var mid := NextMatches(cfg, st, shape);
      next := DrainMatches(cfg, step.state, mid);
      var later := Drain(cfg, step.state).events;
      assert Render(shape) + step.events + later == Render(shape) + (step.events + later);
    } else {
      assert Render(shape) + [] == Render(shape);
    }
  }

  // ---- any sequence of feeds

  lemma ReceivedMatches(cfg: Config, st: State, data: Bytes, shape: Shape)
    requires Matches(cfg, st, shape)
    ensures Matches(cfg, st.Received(data), shape)
  {
  }

  lemma {:induction false} FeedAllMatches(cfg: Config, st: State, chunks: seq<Bytes>, shape: Shape) returns (next: Shape)
    requires Matches(cfg, st, shape)
    ensures var r := FeedAll(cfg, st, chunks);
      Matches(cfg, r.state, next) && Render(next) == Render(shape) + r.events
    decreases |chunks|
  {
    hide Drain, Render, InBodyMatches, Faithful, ExchangeOk, HeadOk;
    next := shape;
    if chunks == [] {
      assert Render(shape) + [] == Render(shape);
    } else {
      ReceivedMatches(cfg, st, chunks[0], shape);
      next := DrainMatches(cfg, st.Received(chunks[0]), shape);
      var r := Drain(cfg, st.Received(chunks[0]));
      if r.error.None? {
        next := FeedAllMatches(cfg, r.state, chunks[1..], next);
        var later := FeedAll(cfg, r.state, chunks[1..]).events;
        assert Render(shape) + r.events + later == Render(shape) + (r.events + later);
      }
    }
  }

  /** Event grammar and body accounting, on every input cut in every way: the events are
      whole exchanges, each with the body length its own head declares, then at most one
      open request in step with the parser's counters, or one upgrade head and nothing more. */
  lemma EventsAreExchanges(cfg: Config, chunks: seq<Bytes>) returns (shape: Shape)
    ensures var r := FeedAll(cfg, Fresh([]), chunks);
      r.events == Render(shape) && Matches(cfg, r.state, shape)
  {
    var empty := Shape([], Nothing);
    assert Render(empty) == [];
    hide *;
    FreshMatches(cfg, [], []);
    shape := FeedAllMatches(cfg, Fresh([]), chunks, empty);
    var events := FeedAll(cfg, Fresh([]), chunks).events;
    assert [] + events == events;
  }

  // ---- partial events of an error

  /** `_completed_request_events`. */
  method CompletedRequestEvents(events: seq<Event>) returns (kept: seq<Event>)
    ensures kept == CompletedPrefix(events)
  {
    var lastComplete := -1;
    for i := 0 to |events|
      invariant -1 <= lastComplete < i
      invariant CompletedPrefix(events[..i]) == events[..lastComplete + 1]
    {
      assert events[..i + 1][..i] == events[..i];
      if events[i].RequestComplete? {
        lastComplete := i;
      }
    }
    assert events[..|events|] == events;
    kept := events[..lastComplete + 1];
  }

  /** The events up to the last RequestComplete. */
  function CompletedPrefix(events: seq<Event>): (r: seq<Event>)
    ensures r <= events
    ensures r != [] ==> r[|r| - 1].RequestComplete?
    ensures forall i :: |r| <= i < |events| ==> !events[i].RequestComplete?
    decreases |events|
  {
    if events == [] then []
    else if events[|events| - 1].RequestComplete? then events
    else CompletedPrefix(events[..|events| - 1])
  }

  lemma {:induction false} NoCompleteInParts(parts: seq<Bytes>)
    ensures RequestComplete !in RenderParts(parts)
    decreases |parts|
  {
    if parts != [] {
      NoCompleteInParts(parts[..|parts| - 1]);
    }
  }

  /** A prefix of the grammar that ends in RequestComplete is a sequence of whole exchanges. */
  lemma {:induction false} CutAtComplete(done: seq<Exchange>, open: Open, n: nat) returns (k: nat)
    requires 0 < n <= |Render(Shape(done, open))|
    requires Render(Shape(done, open))[n - 1].RequestComplete?
    ensures k <= |done| && Render(Shape(done, open))[..n] == RenderDone(done[..k])
    decreases |done|
  {
    var all := Render(Shape(done, open));
    match open {
      case Nothing =>
      case InBody(head, parts) => NoCompleteInParts(parts);
      case Switched(head) =>
    }
    var whole := RenderDone(done);
    forall i | |whole| <= i < |all| ensures all[i] != RequestComplete {
      assert all[i] == RenderOpen(open)[i - |whole|];
    }
    if n == |whole| {
      k := |done|;
      assert done[..k] == done && all[..n] == whole;
    } else {
      var m := |done| - 1;
      var before, last := RenderDone(done[..m]), RenderExchange(done[m]);
      NoCompleteInParts(done[m].parts);
      forall i | |before| <= i < |whole| - 1 ensures all[i] != RequestComplete {
        assert all[i] == last[i - |before|];
      }
      assert Render(Shape(done[..m], Nothing)) == before;
      assert before[..n] == all[..n];
      k := CutAtComplete(done[..m], Nothing, n);
      assert done[..m][..k] == done[..k];
    }
  }

  /** Whatever a feed's error leaves: after its kept events, no head is without its own
      Complete. `earlier` is what the feeds before it emitted. */
  lemma PartialEventsAreWhole(cfg: Config, chunks: seq<Bytes>, last: Bytes, earlier: seq<Event>)
    requires FeedAll(cfg, Fresh([]), chunks).error.None?
    requires earlier == FeedAll(cfg, Fresh([]), chunks).events
    ensures
      var kept := CompletedPrefix(Drain(cfg, FeedAll(cfg, Fresh([]), chunks).state.Received(last)).events);
      kept == [] || exists done: seq<Exchange> :: earlier + kept == RenderDone(done)
  {
    hide *;
    var st := FeedAll(cfg, Fresh([]), chunks).state;
    var shape := EventsAreExchanges(cfg, chunks);
    ReceivedMatches(cfg, st, last, shape);
    var next := DrainMatches(cfg, st.Received(last), shape);
    var events := Drain(cfg, st.Received(last)).events;
    var kept := CompletedPrefix(events);
    if kept != [] {
      var n := |earlier| + |kept|;
      assert Render(next)[..n] == earlier + kept;
      var k := CutAtComplete(next.done, next.open, n);
      assert earlier + kept == RenderDone(next.done[..k]);
    }
  }
}
