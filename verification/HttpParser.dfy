/** The incremental HTTP/1.1 request parser: one step of its loop as a function on
    the parser's state, the loop, and the class that runs it in place. */
module HttpParsing {
  import opened Bytes
  import opened Wrappers
  import opened HttpText

  datatype Config = Config(maxHeaderSize: nat, maxHeaders: nat, maxBodySize: nat, upgradeProtocols: set<Bytes>)

  datatype Error = MalformedRequest | RequestTooLarge

  datatype Version = Http10 | Http11

  type Header = (Bytes, Bytes)

  datatype RequestHead = RequestHead(
    line: RequestLine,
    headers: seq<Header>,
    upgrade: Option<Bytes>)

  datatype Event = HeadComplete(head: RequestHead) | BodyChunk(data: Bytes, more: bool) | RequestComplete

  datatype RequestLine = RequestLine(verb: Bytes, target: Bytes, path: Bytes, query: Bytes, version: Version)

  /** Stands for the unset fields between requests. */
  const NO_LINE := RequestLine([], [], [], [], Http11)

  datatype Phase = StartLine | Headers | Body | Upgraded

  datatype ChunkPhase = Size | Data | DataCrlf | Trailers

  /** What the header lines of the request in progress have said so far. */
  datatype Fields = Fields(
    headers: seq<Header>,
    headersSize: nat,
    headerCount: nat,
    contentLength: Option<nat>,
    transferEncodingSeen: bool,
    chunked: bool,
    connectionTokens: set<Bytes>,
    upgradeToken: Option<Bytes>,
    upgradeTokenValid: bool)
  {
    /** A header line entered in the list and in the two counters. */
    function Record(text: Bytes, name: Bytes, value: Bytes): Fields {
      this.(headers := headers + [(name, value)], headersSize := headersSize + |text| + 2,
            headerCount := headerCount + 1)
    }
  }

  const NO_FIELDS := Fields([], 0, 0, None, false, false, {}, None, false)

  datatype State = State(
    buffer: Bytes,
    phase: Phase,
    line: RequestLine,
    fields: Fields,
    bodyRemaining: nat,
    chunkPhase: ChunkPhase,
    chunkRemaining: nat,
    bodyTotal: nat)
  {
    function Received(data: Bytes): State {
      this.(buffer := buffer + data)
    }

    /** In DATA there is always something left to read: the loop cannot spin. */
    predicate Live() {
      chunkPhase == Data ==> chunkRemaining > 0
    }

    /** 1 exactly where the next step emits an empty body without reading an octet. */
    function Pending(): nat {
      if phase == Body && !fields.chunked && bodyRemaining == 0 then 1 else 0
    }
  }

  /** `_reset_for_next_request`, which keeps the buffer. */
  function Fresh(buffer: Bytes): (st: State)
    ensures st.Live()
  {
    State(buffer, StartLine, NO_LINE, NO_FIELDS, 0, Size, 0, 0)
  }

  // ---- request line

  datatype LineResult = GoodLine(line: RequestLine) | BadLine

  predicate IsControl(c: byte) {
    c < 0x20 || c == 0x7F
  }

  predicate HasControl(b: Bytes) {
    exists i :: 0 <= i < |b| && IsControl(b[i])
  }

  function VersionText(v: Version): Bytes {
    // HTTP/1.0, HTTP/1.1
    [72, 84, 84, 80, 47, 49, 46, if v == Http10 then 48 else 49]
  }

  /** `_parse_request_line`. */
  function ParseRequestLine(line: Bytes): LineResult
  {
    if line == [] || HasControl(line) then BadLine
    else
      var parts := Split(line, SP);
      if |parts| != 3 then BadLine
      else
        var (verb, target, version) := (parts[0], parts[1], parts[2]);
        if !IsToken(verb) then BadLine
        else if version != VersionText(Http10) && version != VersionText(Http11) then BadLine
        else if target == [] || !IsAscii(target) then BadLine
        else
          var cut := Partition(target, QUESTION);
          GoodLine(RequestLine(verb, target, cut.before, cut.after,
                               if version == VersionText(Http10) then Http10 else Http11))
  }

  // ---- header lines

  // content-length, transfer-encoding, connection, upgrade, chunked, GET
  const CONTENT_LENGTH: Bytes := [99, 111, 110, 116, 101, 110, 116, 45, 108, 101, 110, 103, 116, 104]
  const TRANSFER_ENCODING: Bytes := [116, 114, 97, 110, 115, 102, 101, 114, 45, 101, 110, 99, 111, 100, 105, 110, 103]
  const CONNECTION: Bytes := [99, 111, 110, 110, 101, 99, 116, 105, 111, 110]
  const UPGRADE: Bytes := [117, 112, 103, 114, 97, 100, 101]
  const CHUNKED: Bytes := [99, 104, 117, 110, 107, 101, 100]
  const GET: Bytes := [71, 69, 84]

  datatype FieldsResult = GoodFields(fields: Fields) | BadFields(error: Error)

  function Trim(value: Bytes): Bytes {
    Strip(value, IsOws)
  }

  function Tokens(parts: seq<Bytes>): set<Bytes> {
    if parts == [] then {} else {Lower(Strip(parts[0], IsSpace))} + Tokens(parts[1..])
  }

  function HandleContentLength(cfg: Config, f: Fields, value: Bytes): FieldsResult {
    if f.contentLength.Some? then BadFields(MalformedRequest)
    else if !IsDigits(value) then BadFields(MalformedRequest)
    else if Decimal(value) > cfg.maxBodySize then BadFields(RequestTooLarge)
    else GoodFields(f.(contentLength := Some(Decimal(value))))
  }

  function HandleTransferEncoding(f: Fields, value: Bytes): FieldsResult {
    if f.transferEncodingSeen then BadFields(MalformedRequest)
    else if COMMA in value then BadFields(MalformedRequest)
    else if Lower(value) != CHUNKED then BadFields(MalformedRequest)
    else GoodFields(f.(transferEncodingSeen := true, chunked := true))
  }

  function HandleUpgrade(f: Fields, value: Bytes): Fields {
    var token := Lower(Strip(value, IsSpace));
    if f.upgradeToken.Some? then f.(upgradeTokenValid := false)
    else f.(upgradeToken := Some(token), upgradeTokenValid := token != [] && COMMA !in token)
  }

  /** A line that is not a field: folded, with a control octet, or without a token name. */
  predicate NotAField(line: Bytes) {
    || (line != [] && IsOws(line[0]))
    || (exists i :: 0 <= i < |line| && IsControl(line[i]) && line[i] != HTAB)
    || !Partition(line, COLON).found
    || !IsToken(Partition(line, COLON).before)
  }

  /** What the names that decide framing do to the fields, each to its own. */
  function ApplyField(cfg: Config, f: Fields, name: Bytes, value: Bytes): (r: FieldsResult)
    ensures r.GoodFields? ==> r.fields.headers == f.headers
    ensures r.GoodFields? ==> r.fields.headersSize == f.headersSize && r.fields.headerCount == f.headerCount
    ensures r.GoodFields? && name != CONTENT_LENGTH ==> r.fields.contentLength == f.contentLength
    ensures r.GoodFields? && name != TRANSFER_ENCODING ==>
      r.fields.chunked == f.chunked && r.fields.transferEncodingSeen == f.transferEncodingSeen
    ensures r.GoodFields? && name != CONNECTION ==> r.fields.connectionTokens == f.connectionTokens
    ensures r.GoodFields? && name != UPGRADE ==>
      r.fields.upgradeToken == f.upgradeToken && r.fields.upgradeTokenValid == f.upgradeTokenValid
  {
    if name == CONTENT_LENGTH then HandleContentLength(cfg, f, value)
    else if name == TRANSFER_ENCODING then HandleTransferEncoding(f, value)
    else if name == CONNECTION then
      GoodFields(f.(connectionTokens := f.connectionTokens + Tokens(Split(value, COMMA))))
    else if name == UPGRADE then GoodFields(HandleUpgrade(f, value))
    else GoodFields(f)
  }

  /** `_consume_header_line`. */
  function ConsumeHeaderLine(cfg: Config, f: Fields, line: Bytes): FieldsResult
  {
    if NotAField(line) then BadFields(MalformedRequest)
    else
      var cut := Partition(line, COLON);
      var name, value := Lower(cut.before), Trim(cut.after);
      var g := f.Record(line, name, value);
      if g.headersSize > cfg.maxHeaderSize || g.headerCount > cfg.maxHeaders then BadFields(RequestTooLarge)
      else ApplyField(cfg, g, name, value)
  }

  /** `_detect_upgrade`. */
  function DetectUpgrade(cfg: Config, line: RequestLine, f: Fields): Option<Bytes> {
    if UPGRADE !in f.connectionTokens then None
    else if f.upgradeToken.None? || !f.upgradeTokenValid then None
    else if line.verb != GET || line.version != Http11 then None
    else if !IsAscii(f.upgradeToken.value) then None
    else if f.upgradeToken.value !in cfg.upgradeProtocols then None
    else f.upgradeToken
  }

  // ---- one step of the loop

  /** `exact` records that the step read a line of exactly the limit's length. */
  datatype Step =
    | Stuck
    | Failed(error: Error, exact: bool)
    | Advanced(state: State, events: seq<Event>, exact: bool)

  predicate Exact(cfg: Config, line: Bytes) {
    |line| == cfg.maxHeaderSize
  }

  function StepStartLine(cfg: Config, st: State): Step {
    match TakeLine(cfg.maxHeaderSize, st.buffer)
    case NoLine => Stuck
    case LineTooLong => Failed(RequestTooLarge, false)
    case Line(line, rest) =>
      match ParseRequestLine(line)
      case BadLine => Failed(MalformedRequest, Exact(cfg, line))
      case GoodLine(requestLine) =>
        Advanced(st.(buffer := rest, line := requestLine, phase := Headers), [], Exact(cfg, line))
  }

  /** `_finish_headers`, on the buffer behind the blank line. */
  function FinishHeaders(cfg: Config, st: State, exact: bool): Step {
    var f := st.fields;
    if f.contentLength.Some? && f.chunked then Failed(MalformedRequest, exact)
    else
      var upgrade := DetectUpgrade(cfg, st.line, f);
      var length := if f.contentLength.Some? then f.contentLength.value else 0;
      if upgrade.Some? && (f.chunked || length > 0) then Failed(MalformedRequest, exact)
      else
        var head := HeadComplete(RequestHead(st.line, f.headers, upgrade));
        if upgrade.Some? then Advanced(st.(phase := Upgraded), [head], exact)
        else Advanced(st.(bodyRemaining := length, phase := Body), [head], exact)
  }

  function StepHeaders(cfg: Config, st: State): Step {
    match TakeLine(cfg.maxHeaderSize, st.buffer)
    case NoLine => Stuck
    case LineTooLong => Failed(RequestTooLarge, false)
    case Line(line, rest) =>
      if line == [] then FinishHeaders(cfg, st.(buffer := rest), Exact(cfg, line))
      else
        match ConsumeHeaderLine(cfg, st.fields, line)
        case BadFields(error) => Failed(error, Exact(cfg, line))
        case GoodFields(fields) => Advanced(st.(buffer := rest, fields := fields), [], Exact(cfg, line))
  }

  function Min(a: nat, b: nat): nat {
    if a < b then a else b
  }

  const LAST: seq<Event> := [BodyChunk([], false), RequestComplete]

  /** `_consume_body` for a body of declared length. */
  function StepSized(st: State): Step {
    if st.bodyRemaining == 0 then Advanced(Fresh(st.buffer), LAST, false)
    else if st.buffer == [] then Stuck
    else
      var take := Min(|st.buffer|, st.bodyRemaining);
      var chunk, rest := st.buffer[..take], st.buffer[take..];
      if take < st.bodyRemaining then
        Advanced(st.(buffer := rest, bodyRemaining := st.bodyRemaining - take), [BodyChunk(chunk, true)], false)
      else
        Advanced(Fresh(rest), [BodyChunk(chunk, false), RequestComplete], false)
  }

  /** The chunk-size text in front of any extension; None when it is no number. */
  function ChunkSize(line: Bytes): Option<nat> {
    var token := Strip(Split(line, SEMICOLON)[0], IsSpace);
    if IsHex(token) then Some(Hexadecimal(token)) else None
  }

  function StepSize(cfg: Config, st: State): Step {
    match TakeLine(cfg.maxHeaderSize, st.buffer)
    case NoLine => Stuck
    case LineTooLong => Failed(RequestTooLarge, false)
    case Line(line, rest) =>
      match ChunkSize(line)
      case None => Failed(MalformedRequest, Exact(cfg, line))
      case Some(size) =>
        if size == 0 then Advanced(st.(buffer := rest, chunkPhase := Trailers), [], Exact(cfg, line))
        else if st.bodyTotal + size > cfg.maxBodySize then Failed(RequestTooLarge, Exact(cfg, line))
        else
          Advanced(st.(buffer := rest, bodyTotal := st.bodyTotal + size, chunkRemaining := size,
                       chunkPhase := Data), [], Exact(cfg, line))
  }

  function StepData(st: State): Step {
    if st.buffer == [] then Stuck
    else
      var take := Min(|st.buffer|, st.chunkRemaining);
      var left := st.chunkRemaining - take;
      Advanced(st.(buffer := st.buffer[take..], chunkRemaining := left,
                   chunkPhase := if left == 0 then DataCrlf else Data),
               [BodyChunk(st.buffer[..take], true)], false)
  }

  function StepDataCrlf(st: State): Step {
    if |st.buffer| < 2 then Stuck
    else if st.buffer[..2] != CRLF then Failed(MalformedRequest, false)
    else Advanced(st.(buffer := st.buffer[2..], chunkPhase := Size), [], false)
  }

  function StepTrailers(cfg: Config, st: State): Step {
    match TakeLine(cfg.maxHeaderSize, st.buffer)
    case NoLine => Stuck
    case LineTooLong => Failed(RequestTooLarge, false)
    case Line(line, rest) =>
      if line == [] then Advanced(Fresh(rest), LAST, Exact(cfg, line))
      else Advanced(st.(buffer := rest), [], Exact(cfg, line))
  }

  /** `_consume_chunked_body`. */
  function StepChunked(cfg: Config, st: State): Step {
    match st.chunkPhase
    case Size => StepSize(cfg, st)
    case Data => StepData(st)
    case DataCrlf => StepDataCrlf(st)
    case Trailers => StepTrailers(cfg, st)
  }

  /** Each step that advances shortens the buffer, or takes the one pending step and
      leaves the buffer alone. */
  function Next(cfg: Config, st: State): (r: Step)
    requires st.Live()
    ensures r.Advanced? ==> r.state.Live()
    ensures r.Advanced? ==>
      |r.state.buffer| < |st.buffer| || (r.state.buffer == st.buffer && r.state.Pending() < st.Pending())
  {
    match st.phase
    case StartLine => StepStartLine(cfg, st)
    case Headers => StepHeaders(cfg, st)
    case Body => if st.fields.chunked then StepChunked(cfg, st) else StepSized(st)
    case Upgraded => Stuck
  }

  /** `error` is the exception's class; with it, `state` is where the failing step began. */
  datatype Outcome = Outcome(state: State, events: seq<Event>, error: Option<Error>, exact: bool)
  {
    function After(earlier: seq<Event>, sawExact: bool): Outcome {
      this.(events := earlier + events, exact := sawExact || exact)
    }
  }

  /** The loop of `feed_data`. */
  function Drain(cfg: Config, st: State): (r: Outcome)
    requires st.Live()
    ensures r.state.Live()
    decreases |st.buffer|, st.Pending()
  {
    match Next(cfg, st)
    case Stuck => Outcome(st, [], None, false)
    case Failed(error, exact) => Outcome(st, [], Some(error), exact)
    case Advanced(next, events, exact) => Drain(cfg, next).After(events, exact)
  }

  /** Feeding chunk after chunk, up to the first error. */
  function FeedAll(cfg: Config, st: State, chunks: seq<Bytes>): (r: Outcome)
    requires st.Live()
    ensures r.state.Live()
    decreases |chunks|
  {
    if chunks == [] then Outcome(st, [], None, false)
    else
      var r := Drain(cfg, st.Received(chunks[0]));
      if r.error.Some? then r else FeedAll(cfg, r.state, chunks[1..]).After(r.events, r.exact)
  }

  lemma AfterTwice(r: Outcome, late: seq<Event>, sawLate: bool, early: seq<Event>, sawEarly: bool)
    ensures r.After(late, sawLate).After(early, sawEarly) == r.After(early + late, sawEarly || sawLate)
  {
    assert early + (late + r.events) == early + late + r.events;
  }

  /** One turn of the loop behind what came before. */
  lemma DrainTurn(cfg: Config, st: State, events: seq<Event>, saw: bool)
    requires st.Live()
    ensures var step, all := Next(cfg, st), Drain(cfg, st).After(events, saw);
      && (step.Stuck? ==> all == Outcome(st, events, None, saw))
      && (step.Failed? ==> all == Outcome(st, events, Some(step.error), saw || step.exact))
      && (step.Advanced? ==> all == Drain(cfg, step.state).After(events + step.events, saw || step.exact))
  {
    var step := Next(cfg, st);
    assert events + [] == events;
    if step.Advanced? {
      AfterTwice(Drain(cfg, step.state), step.events, step.exact, events, saw);
    }
  }

  // ---- the parser object

  datatype Progress = Moved | Waiting | Raised(error: Error)

  /** `HTTP11Parser`. The connection never feeds a parser again once it has raised. */
  class HTTP11Parser {
    const cfg: Config
    var buffer: Bytes
    var phase: Phase
    var line: RequestLine
    var fields: Fields
    var bodyRemaining: nat
    var chunkPhase: ChunkPhase
    var chunkRemaining: nat
    var bodyTotal: nat

    ghost function View(): State
      reads this
    {
      State(buffer, phase, line, fields, bodyRemaining, chunkPhase, chunkRemaining, bodyTotal)
    }

    ghost predicate Valid()
      reads this
    {
      View().Live()
    }

    constructor (cfg: Config)
      ensures this.cfg == cfg && View() == Fresh([]) && Valid()
    {
      this.cfg := cfg;
      buffer := [];
      new;
      Reset();
    }

    method Reset()
      modifies this
      ensures View() == Fresh(old(buffer))
    {
      phase, line, fields := StartLine, NO_LINE, NO_FIELDS;
      bodyRemaining, chunkPhase, chunkRemaining, bodyTotal := 0, Size, 0, 0;
    }

    /** `_find_bounded_line`: takes the line up to the first CRLF off the buffer, unless it is
        longer than the limit or not all there. */
    method FindBoundedLine() returns (r: LineRead)
      modifies this`buffer
      ensures r.Line? ==> old(buffer) == r.line + CRLF + buffer && |r.line| <= cfg.maxHeaderSize
      ensures r.Line? ==> forall i :: CrlfAt(old(buffer), i) ==> |r.line| <= i
      ensures !r.Line? ==> buffer == old(buffer) && forall i :: CrlfAt(buffer, i) ==> cfg.maxHeaderSize < i
      ensures r.NoLine? ==> NoCrlf(buffer) && |buffer| <= cfg.maxHeaderSize
      ensures r.LineTooLong? ==> cfg.maxHeaderSize < |buffer|
      ensures r == TakeLine(cfg.maxHeaderSize, old(buffer)) && (r.Line? ==> buffer == r.rest)
    {
      var i := FindCrlf(buffer);
      if i == -1 {
        return if |buffer| > cfg.maxHeaderSize then LineTooLong else NoLine;
      }
      if i > cfg.maxHeaderSize {
        return LineTooLong;
      }
      r := Line(buffer[..i], buffer[i + 2..]);
      buffer := buffer[i + 2..];
    }

    method ConsumeStartLine() returns (r: Progress)
      modifies this
      ensures Reports(r, [], old(View()), StepStartLine(cfg, old(View())))
    {
      var read := FindBoundedLine();
      match read {
        case NoLine => return Waiting;
        case LineTooLong => return Raised(RequestTooLarge);
        case Line(text, _) =>
          var parsed := ParseRequestLine(text);
          if parsed.BadLine? {
            return Raised(MalformedRequest);
          }
          line, phase := parsed.line, Headers;
          return Moved;
      }
    }

    /** What a consuming method reports and leaves behind is what the step says. */
    ghost predicate Reports(r: Progress, events: seq<Event>, before: State, step: Step)
      reads this
    {
      match step
      case Stuck => r == Waiting && events == [] && View() == before
      case Failed(error, _) => r == Raised(error) && events == []
      case Advanced(state, stepEvents, _) => r == Moved && events == stepEvents && View() == state
    }

    method HandleHeaderLine(text: Bytes) returns (error: Option<Error>)
      modifies this`fields
      ensures Applied(error, ConsumeHeaderLine(cfg, old(fields), text))
    {
      if NotAField(text) {
        return Some(MalformedRequest);
      }
      var cut := Partition(text, COLON);
      var value, name := Trim(cut.after), Lower(cut.before);
      fields := fields.Record(text, name, value);
      if fields.headersSize > cfg.maxHeaderSize || fields.headerCount > cfg.maxHeaders {
        return Some(RequestTooLarge);
      }
      error := ReadField(name, value);
    }

    /** The header names that decide framing. */
    method ReadField(name: Bytes, value: Bytes) returns (error: Option<Error>)
      modifies this`fields
      ensures Applied(error, ApplyField(cfg, old(fields), name, value))
    {
      error := None;
      if name == CONTENT_LENGTH {
        error := ReadContentLength(value);
      } else if name == TRANSFER_ENCODING {
        error := ReadTransferEncoding(value);
      } else if name == CONNECTION {
        fields := fields.(connectionTokens := fields.connectionTokens + Tokens(Split(value, COMMA)));
      } else if name == UPGRADE {
        ReadUpgrade(value);
      }
    }

    ghost predicate Applied(error: Option<Error>, r: FieldsResult)
      reads this
    {
      match r
      case BadFields(e) => error == Some(e)
      case GoodFields(f) => error == None && fields == f
    }

    method ReadContentLength(value: Bytes) returns (error: Option<Error>)
      modifies this`fields
      ensures Applied(error, HandleContentLength(cfg, old(fields), value))
    {
      if fields.contentLength.Some? || !IsDigits(value) {
        return Some(MalformedRequest);
      }
      var length := Decimal(value);
      if length > cfg.maxBodySize {
        return Some(RequestTooLarge);
      }
      fields := fields.(contentLength := Some(length));
      error := None;
    }

    method ReadTransferEncoding(value: Bytes) returns (error: Option<Error>)
      modifies this`fields
      ensures Applied(error, HandleTransferEncoding(old(fields), value))
    {
      if fields.transferEncodingSeen {
        return Some(MalformedRequest);
      }
      fields := fields.(transferEncodingSeen := true);
      if COMMA in value || Lower(value) != CHUNKED {
        return Some(MalformedRequest);
      }
      fields := fields.(chunked := true);
      error := None;
    }

    method ReadUpgrade(value: Bytes)
      modifies this`fields
      ensures fields == HandleUpgrade(old(fields), value)
    {
      var token := Lower(Strip(value, IsSpace));
      if fields.upgradeToken.Some? {
        fields := fields.(upgradeTokenValid := false);
        return;
      }
      fields := fields.(upgradeToken := Some(token));
      fields := fields.(upgradeTokenValid := token != [] && COMMA !in token);
    }

    method ConsumeHeaders() returns (r: Progress, events: seq<Event>)
      modifies this
      ensures Reports(r, events, old(View()), StepHeaders(cfg, old(View())))
    {
      events := [];
      var read := FindBoundedLine();
      match read {
        case NoLine => return Waiting, [];
        case LineTooLong => return Raised(RequestTooLarge), [];
        case Line(text, _) =>
          if text == [] {
            if fields.contentLength.Some? && fields.chunked {
              return Raised(MalformedRequest), [];
            }
            var upgrade := DetectUpgrade(cfg, line, fields);
            var length := if fields.contentLength.Some? then fields.contentLength.value else 0;
            if upgrade.Some? && (fields.chunked || length > 0) {
              return Raised(MalformedRequest), [];
            }
            events := [HeadComplete(RequestHead(line, fields.headers, upgrade))];
            if upgrade.Some? {
              phase := Upgraded;
              return Moved, events;
            }
            bodyRemaining, phase := length, Body;
            return Moved, events;
          }
          var error := HandleHeaderLine(text);
          if error.Some? {
            return Raised(error.value), [];
          }
          return Moved, [];
      }
    }

    method ConsumeBody() returns (r: Progress, events: seq<Event>)
      requires Valid() && phase == Body
      modifies this
      ensures Reports(r, events, old(View()), Next(cfg, old(View())))
    {
      if fields.chunked {
        r, events := ConsumeChunkedBody();
        return;
      }
      if bodyRemaining == 0 {
        Reset();
        return Moved, LAST;
      }
      if buffer == [] {
        return Waiting, [];
      }
      var take := Min(|buffer|, bodyRemaining);
      var chunk := buffer[..take];
      buffer, bodyRemaining := buffer[take..], bodyRemaining - take;
      if bodyRemaining > 0 {
        return Moved, [BodyChunk(chunk, true)];
      }
      Reset();
      return Moved, [BodyChunk(chunk, false), RequestComplete];
    }

    method ConsumeChunkedBody() returns (r: Progress, events: seq<Event>)
      requires Valid()
      modifies this
      ensures Reports(r, events, old(View()), StepChunked(cfg, old(View())))
    {
      events := [];
      match chunkPhase {
        case Size =>
          var read := FindBoundedLine();
          match read {
            case NoLine => return Waiting, [];
            case LineTooLong => return Raised(RequestTooLarge), [];
            case Line(text, _) =>
              var token := Strip(Split(text, SEMICOLON)[0], IsSpace);
              if !IsHex(token) {
                return Raised(MalformedRequest), [];
              }
              var size := Hexadecimal(token);
              if size == 0 {
                chunkPhase := Trailers;
                return Moved, [];
              }
              bodyTotal := bodyTotal + size;
              if bodyTotal > cfg.maxBodySize {
                return Raised(RequestTooLarge), [];
              }
              chunkRemaining, chunkPhase := size, Data;
              return Moved, [];
          }
        case Data =>
          if buffer == [] {
            return Waiting, [];
          }
          var take := Min(|buffer|, chunkRemaining);
          events := [BodyChunk(buffer[..take], true)];
          buffer, chunkRemaining := buffer[take..], chunkRemaining - take;
          if chunkRemaining == 0 {
            chunkPhase := DataCrlf;
          }
          return Moved, events;
        case DataCrlf =>
          if |buffer| < 2 {
            return Waiting, [];
          }
          if buffer[..2] != CRLF {
            return Raised(MalformedRequest), [];
          }
          buffer, chunkPhase := buffer[2..], Size;
          return Moved, [];
        case Trailers =>
          var read := FindBoundedLine();
          match read {
            case NoLine => return Waiting, [];
            case LineTooLong => return Raised(RequestTooLarge), [];
            case Line(text, _) =>
              if text == [] {
                Reset();
                return Moved, LAST;
              }
              return Moved, [];
          }
      }
    }

    /** One turn of the loop in `feed_data`. */
    method Consume() returns (r: Progress, events: seq<Event>)
      requires Valid()
      modifies this
      ensures Reports(r, events, old(View()), Next(cfg, old(View())))
    {
      r, events := Waiting, [];
      match phase {
        case StartLine => r := ConsumeStartLine();
        case Headers => r, events := ConsumeHeaders();
        case Body => r, events := ConsumeBody();
        case Upgraded =>
      }
    }

    /** `feed_data`; `error` stands for the exception, `events` for its partial events. */
    method FeedData(data: Bytes) returns (events: seq<Event>, error: Option<Error>)
      requires Valid()
      modifies this
      ensures
        var r := Drain(cfg, old(View()).Received(data));
        events == r.events && error == r.error && (error.None? ==> View() == r.state)
      ensures error.None? ==> Valid()
    {
      events, error := [], None;
      if phase == Upgraded {
        buffer := buffer + data;
        return;
      }
      buffer := buffer + data;
      ghost var start, saw := View(), false;
      while true
        invariant Valid()
        invariant Drain(cfg, start) == Drain(cfg, View()).After(events, saw)
        decreases |buffer|, View().Pending()
      {
        ghost var here := View();
        DrainTurn(cfg, here, events, saw);
        var r, more := Consume();
        if r.Raised? {
          error := Some(r.error);
          return;
        }
        if r.Waiting? {
          return;
        }
        events := events + more;
        saw := saw || Next(cfg, here).exact;
      }
    }

    /** `take_buffer`; None stands for the RuntimeError raised before an upgrade. */
    method TakeBuffer() returns (data: Option<Bytes>)
      modifies this`buffer
      ensures data == if phase == Upgraded then Some(old(buffer)) else None
      ensures buffer == if phase == Upgraded then [] else old(buffer)
    {
      if phase != Upgraded {
        return None;
      }
      data := Some(buffer);
      buffer := [];
    }

    /** `feed_eof`: true when the stream may end here, false for MalformedRequest. */
    method FeedEof() returns (ok: bool)
      ensures ok <==> phase == Upgraded || (phase == StartLine && buffer == [])
    {
      if phase == Upgraded {
        return true;
      }
      ok := phase == StartLine && buffer == [];
    }
  }
}
