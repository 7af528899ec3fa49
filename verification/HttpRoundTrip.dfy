/** Printing requests and parsing them back: request line, header fields, sized and
    chunked bodies, back to back on one connection. */
module HttpRoundTrip {
  import opened Bytes
  import opened Wrappers
  import opened HttpText
  import opened HttpParsing
  import opened HttpSegmentation
  import opened HttpExchanges

  // ---- requests and their text

  datatype FieldLine = FieldLine(name: Bytes, raw: Bytes)

  /** A chunk's size text, its extension and its data. */
  datatype ChunkText = ChunkText(size: Bytes, ext: Bytes, data: Bytes)

  datatype Payload =
    | Sized(data: Bytes)
    | Chunked(chunks: seq<ChunkText>, end: ChunkText, trailers: seq<Bytes>)

  datatype Request = Request(
    verb: Bytes, path: Bytes, query: Option<Bytes>, version: Version, fields: seq<FieldLine>, payload: Payload)

  function Target(r: Request): Bytes {
    r.path + (if r.query.Some? then [QUESTION] + r.query.value else [])
  }

  function LineText(r: Request): Bytes {
    r.verb + [SP] + (Target(r) + [SP] + VersionText(r.version))
  }

  function FieldText(f: FieldLine): Bytes {
    f.name + [COLON] + f.raw
  }

  function FieldsText(fields: seq<FieldLine>): Bytes {
    if fields == [] then [] else FieldText(fields[0]) + CRLF + FieldsText(fields[1..])
  }

  function ChunksText(chunks: seq<ChunkText>): Bytes {
    if chunks == [] then []
    else (chunks[0].size + chunks[0].ext) + CRLF + (chunks[0].data + CRLF + ChunksText(chunks[1..]))
  }

  function TrailersText(trailers: seq<Bytes>): Bytes {
    if trailers == [] then CRLF else trailers[0] + CRLF + TrailersText(trailers[1..])
  }

  function PayloadText(p: Payload): Bytes {
    match p
    case Sized(data) => data
    case Chunked(chunks, end, trailers) =>
      ChunksText(chunks) + ((end.size + end.ext) + CRLF + TrailersText(trailers))
  }

  function RequestText(r: Request): Bytes {
    LineText(r) + CRLF + (FieldsText(r.fields) + ([] + CRLF + PayloadText(r.payload)))
  }

  function StreamText(requests: seq<Request>): Bytes {
    if requests == [] then [] else RequestText(requests[0]) + StreamText(requests[1..])
  }

  // ---- what is well formed

  predicate IsTargetChar(c: byte) {
    0x20 < c < 0x7F
  }

  predicate IsFieldChar(c: byte) {
    c == HTAB || !IsControl(c)
  }

  ghost predicate LineOk(cfg: Config, r: Request) {
    && IsToken(r.verb) && Target(r) != [] && QUESTION !in r.path
    && (forall i :: 0 <= i < |Target(r)| ==> IsTargetChar(Target(r)[i]))
    && |LineText(r)| < cfg.maxHeaderSize
  }

  predicate FieldOk(cfg: Config, f: FieldLine) {
    && IsToken(f.name) && (forall i :: 0 <= i < |f.raw| ==> IsFieldChar(f.raw[i]))
    && |FieldText(f)| < cfg.maxHeaderSize
  }

  /** The octets that count towards the cumulative header limit. */
  function FieldsSize(fields: seq<FieldLine>): nat {
    if fields == [] then 0 else |FieldText(fields[0])| + 2 + FieldsSize(fields[1..])
  }

  /** Names lowercased, values trimmed. */
  function Normal(fields: seq<FieldLine>): seq<Header> {
    if fields == [] then [] else [(Lower(fields[0].name), Trim(fields[0].raw))] + Normal(fields[1..])
  }

  /** At most one framing, within the limits. */
  predicate FramingOk(cfg: Config, headers: seq<Header>) {
    var lengths, codings := Values(headers, CONTENT_LENGTH), Values(headers, TRANSFER_ENCODING);
    && |lengths| <= 1 && |codings| <= 1 && (lengths == [] || codings == [])
    && (lengths != [] ==> IsDigits(lengths[0]) && Decimal(lengths[0]) <= cfg.maxBodySize)
    && (codings != [] ==> Lower(codings[0]) == CHUNKED)
  }

  ghost predicate SizeLineOk(cfg: Config, c: ChunkText) {
    && IsHex(c.size) && (c.ext == [] || c.ext[0] == SEMICOLON)
    && NoCrlf(c.size + c.ext) && |c.size + c.ext| < cfg.maxHeaderSize
    && Hexadecimal(c.size) == |c.data|
  }

  ghost predicate ChunksOk(cfg: Config, chunks: seq<ChunkText>) {
    forall i :: 0 <= i < |chunks| ==> SizeLineOk(cfg, chunks[i]) && chunks[i].data != []
  }

  function TotalSize(chunks: seq<ChunkText>): nat {
    if chunks == [] then 0 else |chunks[0].data| + TotalSize(chunks[1..])
  }

  ghost predicate TrailerOk(cfg: Config, t: Bytes) {
    t != [] && NoCrlf(t) && |t| < cfg.maxHeaderSize
  }

  ghost predicate PayloadOk(cfg: Config, headers: seq<Header>, p: Payload) {
    match p
    case Sized(data) => !IsChunked(headers) && DeclaredLength(headers) == |data|
    case Chunked(chunks, end, trailers) =>
      && IsChunked(headers)
      && ChunksOk(cfg, chunks)
      && TotalSize(chunks) <= cfg.maxBodySize
      && SizeLineOk(cfg, end) && end.data == []
      && (forall i :: 0 <= i < |trailers| ==> TrailerOk(cfg, trailers[i]))
  }

  function ParsedLine(r: Request): RequestLine {
    RequestLine(r.verb, Target(r), r.path, if r.query.Some? then r.query.value else [], r.version)
  }

  ghost predicate RequestOk(cfg: Config, r: Request) {
    && LineOk(cfg, r)
    && (forall i :: 0 <= i < |r.fields| ==> FieldOk(cfg, r.fields[i]))
    && FieldsSize(r.fields) <= cfg.maxHeaderSize && |r.fields| <= cfg.maxHeaders
    && FramingOk(cfg, Normal(r.fields))
    && UpgradeOf(cfg, ParsedLine(r), Normal(r.fields)).None?
    && PayloadOk(cfg, Normal(r.fields), r.payload)
    && 0 < cfg.maxHeaderSize
  }

  // ---- what must come back

  function ChunkEvents(chunks: seq<ChunkText>): seq<Event> {
    if chunks == [] then [] else [BodyChunk(chunks[0].data, true)] + ChunkEvents(chunks[1..])
  }

  function PayloadEvents(p: Payload): seq<Event> {
    match p
    case Sized(data) => [BodyChunk(data, false), RequestComplete]
    case Chunked(chunks, _, _) => ChunkEvents(chunks) + LAST
  }

  function RequestEvents(r: Request): seq<Event> {
    [HeadComplete(RequestHead(ParsedLine(r), Normal(r.fields), None))] + PayloadEvents(r.payload)
  }

  function StreamEvents(requests: seq<Request>): seq<Event> {
    if requests == [] then [] else RequestEvents(requests[0]) + StreamEvents(requests[1..])
  }

  // ---- runs in pieces

  /** Parsing from st emits `events` on the way to `next`, reading no line of exactly the limit. */
  ghost predicate Reads(cfg: Config, st: State, next: State, events: seq<Event>) {
    st.Live() && next.Live() && Drain(cfg, st) == Drain(cfg, next).After(events, false)
  }

  lemma ReadsTwice(cfg: Config, a: State, b: State, c: State, early: seq<Event>, late: seq<Event>)
    requires Reads(cfg, a, b, early) && Reads(cfg, b, c, late)
    ensures Reads(cfg, a, c, early + late)
  {
    hide Drain;
    AfterTwice(Drain(cfg, c), late, false, early, false);
  }

  lemma ReadsStep(cfg: Config, st: State, next: State, events: seq<Event>)
    requires st.Live() && Next(cfg, st) == Advanced(next, events, false)
    ensures Reads(cfg, st, next, events)
  {
    hide Next;
  }

  lemma ReadsNothing(cfg: Config, st: State)
    requires st.Live()
    ensures Reads(cfg, st, st, [])
  {
    hide Drain;
    var r := Drain(cfg, st);
    assert [] + r.events == r.events;
  }

  // ---- the request line

  lemma LineHasNoControl(r: Request)
    requires IsToken(r.verb) && forall i :: 0 <= i < |Target(r)| ==> IsTargetChar(Target(r)[i])
    ensures !HasControl(LineText(r)) && NoCrlf(LineText(r))
  {
    var target, version, text := Target(r), VersionText(r.version), LineText(r);
    assert text == r.verb + [SP] + (target + [SP] + version);
    hide Target, LineText;
    forall i | 0 <= i < |text| ensures !IsControl(text[i]) {
      if i < |r.verb| {
        assert text[i] == r.verb[i];
      } else if |r.verb| < i < |r.verb| + 1 + |target| {
        assert text[i] == target[i - |r.verb| - 1];
      } else if |r.verb| + 1 + |target| < i {
        assert text[i] == version[i - |r.verb| - |target| - 2];
      }
    }
    assert IsControl(CR);
  }

  lemma LineSplits(r: Request)
    requires IsToken(r.verb) && forall i :: 0 <= i < |Target(r)| ==> IsTargetChar(Target(r)[i])
    ensures Split(LineText(r), SP) == [r.verb, Target(r), VersionText(r.version)]
  {
    var target, version := Target(r), VersionText(r.version);
    assert SP !in r.verb && SP !in target && SP !in version;
    hide Target;
    SplitFirst(r.verb, SP, target + [SP] + version);
    SplitFirst(target, SP, version);
    SplitNone(version, SP);
  }

  lemma ReadsRequestLine(r: Request)
    requires IsToken(r.verb) && Target(r) != [] && QUESTION !in r.path
    requires forall i :: 0 <= i < |Target(r)| ==> IsTargetChar(Target(r)[i])
    ensures ParseRequestLine(LineText(r)) == GoodLine(ParsedLine(r))
    ensures NoCrlf(LineText(r))
  {
    LineHasNoControl(r);
    LineSplits(r);
    TargetParts(r);
    assert IsAscii(Target(r));
    assert |LineText(r)| > 0;
    assert VersionText(Http10)[7] != VersionText(Http11)[7];
    hide Split, Partition, HasControl, IsToken, IsAscii, Target, LineText;
  }

  lemma TargetParts(r: Request)
    requires QUESTION !in r.path
    ensures var cut := Partition(Target(r), QUESTION);
      cut.before == r.path && cut.after == (if r.query.Some? then r.query.value else [])
  {
    if r.query.Some? {
      var query := r.query.value;
      assert Target(r) == r.path + ([QUESTION] + query);
      hide Partition, Target;
      PartitionUnique(r.path, QUESTION, query);
      Regroup(r.path, [QUESTION], query);
    } else {
      assert r.path + [] == r.path;
      assert Target(r) == r.path;
      hide Partition, Target;
      PartitionNone(r.path, QUESTION);
    }
  }

  lemma Regroup(a: Bytes, b: Bytes, c: Bytes)
    ensures a + (b + c) == a + b + c
  {
  }

  function InHeaders(line: RequestLine, fields: Fields, buffer: Bytes): State {
    Fresh(buffer).(phase := Headers, line := line, fields := fields)
  }

  lemma StartsRequest(cfg: Config, r: Request, rest: Bytes)
    requires LineOk(cfg, r)
    ensures Reads(cfg, Fresh(LineText(r) + CRLF + rest), InHeaders(ParsedLine(r), NO_FIELDS, rest), [])
  {
    hide ParseRequestLine;
    ReadsRequestLine(r);
    TakesLine(cfg.maxHeaderSize, LineText(r), rest);
    ReadsStep(cfg, Fresh(LineText(r) + CRLF + rest), InHeaders(ParsedLine(r), NO_FIELDS, rest), []);
  }

  // ---- header fields

  lemma {:induction false} ValuesConcat(a: seq<Header>, b: seq<Header>, name: Bytes)
    ensures Values(a + b, name) == Values(a, name) + Values(b, name)
    decreases |b|
  {
    if b == [] {
      assert a + b == a;
    } else {
      var n := |b| - 1;
      ValuesConcat(a, b[..n], name);
      assert (a + b)[..|a| + n] == a + b[..n];
      assert (a + b)[|a| + n] == b[n];
    }
  }

  lemma FieldParses(f: FieldLine)
    requires IsToken(f.name) && forall i :: 0 <= i < |f.raw| ==> IsFieldChar(f.raw[i])
    ensures !NotAField(FieldText(f)) && NoCrlf(FieldText(f)) && FieldText(f) != []
    ensures Partition(FieldText(f), COLON) == Parts(f.name, true, f.raw)
  {
    var text := FieldText(f);
    forall i | 0 <= i < |text| ensures IsFieldChar(text[i]) {
      if i < |f.name| {
        assert text[i] == f.name[i];
      } else if |f.name| < i {
        assert text[i] == f.raw[i - |f.name| - 1];
      }
    }
    assert COLON !in f.name;
    PartitionUnique(f.name, COLON, f.raw);
    assert text[0] == f.name[0];
  }

  lemma NoCommaInChunked(value: Bytes)
    requires Lower(value) == CHUNKED
    ensures COMMA !in value
  {
    forall i | 0 <= i < |value| ensures value[i] != COMMA {
      assert Lower(value)[i] == CHUNKED[i];
    }
  }

  lemma OnlyOfItsName(before: seq<Header>, name: Bytes, value: Bytes, later: seq<Header>)
    requires |Values(before + ([(name, value)] + later), name)| <= 1
    ensures Values(before, name) == []
    ensures Values(before + ([(name, value)] + later), name) == [value]
  {
    var here: seq<Header> := [(name, value)];
    ValuesConcat(before, here + later, name);
    ValuesConcat(here, later, name);
    assert here[..0] == [];
    assert Values(here, name) == [value];
  }

  /** A field of a list with at most one framing is accepted where it stands. */
  lemma FieldApplies(cfg: Config, f: Fields, text: Bytes, name: Bytes, value: Bytes, later: seq<Header>)
    requires Faithful(cfg, f)
    requires FramingOk(cfg, f.headers + ([(name, value)] + later))
    ensures ApplyField(cfg, f.Record(text, name, value), name, value).GoodFields?
  {
    if name == CONTENT_LENGTH {
      OnlyOfItsName(f.headers, name, value, later);
      hide Values, IsDigits, Decimal, DeclaredLength, CodingFaithful, TokensFaithful, OfferFaithful;
    } else if name == TRANSFER_ENCODING {
      NamesDiffer();
      OnlyOfItsName(f.headers, name, value, later);
      NoCommaInChunked(value);
      hide Values, Lower, LengthFaithful, TokensFaithful, OfferFaithful;
    } else {
      hide FramingOk, LengthFaithful, CodingFaithful, TokensFaithful, OfferFaithful;
    }
  }

  lemma {:induction false} ReadsFields(cfg: Config, line: RequestLine, f: Fields, fields: seq<FieldLine>, rest: Bytes)
    returns (g: Fields)
    requires Faithful(cfg, f)
    requires forall i :: 0 <= i < |fields| ==> FieldOk(cfg, fields[i])
    requires f.headersSize + FieldsSize(fields) <= cfg.maxHeaderSize
    requires |f.headers| + |fields| <= cfg.maxHeaders
    requires FramingOk(cfg, f.headers + Normal(fields))
    ensures Faithful(cfg, g) && g.headers == f.headers + Normal(fields)
    ensures Reads(cfg, InHeaders(line, f, FieldsText(fields) + rest), InHeaders(line, g, rest), [])
    decreases |fields|
  {
    hide Next, FramingOk, LengthFaithful, CodingFaithful, TokensFaithful, OfferFaithful;
    if fields == [] {
      g := f;
      assert FieldsText(fields) + rest == rest;
      assert f.headers + Normal(fields) == f.headers;
      ReadsNothing(cfg, InHeaders(line, f, rest));
    } else {
      hide Drain, Reads;
      var tail := FieldsText(fields[1..]) + rest;
      var h := ReadsField(cfg, line, f, fields[0], Normal(fields[1..]), tail);
      FrontField(fields, f.headers, rest);
      hide FieldsText, Normal, FieldsSize;
      g := ReadsFields(cfg, line, h, fields[1..], rest);
      ReadsTwice(cfg, InHeaders(line, f, FieldsText(fields) + rest), InHeaders(line, h, tail), InHeaders(line, g, rest), [], []);
      var none: seq<Event> := [];
      assert none + none == none;
    }
  }

  lemma FrontField(fields: seq<FieldLine>, before: seq<Header>, rest: Bytes)
    requires fields != []
    ensures FieldsText(fields) + rest == FieldText(fields[0]) + CRLF + (FieldsText(fields[1..]) + rest)
    ensures before + Normal(fields) == before + [(Lower(fields[0].name), Trim(fields[0].raw))] + Normal(fields[1..])
    ensures FieldsSize(fields) == |FieldText(fields[0])| + 2 + FieldsSize(fields[1..])
  {
    hide FieldText, Trim, Lower;
    assert FieldsText(fields) == FieldText(fields[0]) + CRLF + FieldsText(fields[1..]);
  }

  lemma ReadsField(cfg: Config, line: RequestLine, f: Fields, field: FieldLine, later: seq<Header>, rest: Bytes)
    returns (g: Fields)
    requires Faithful(cfg, f) && FieldOk(cfg, field)
    requires f.headersSize + |FieldText(field)| + 2 <= cfg.maxHeaderSize && |f.headers| < cfg.maxHeaders
    requires FramingOk(cfg, f.headers + ([(Lower(field.name), Trim(field.raw))] + later))
    ensures Faithful(cfg, g) && g.headers == f.headers + [(Lower(field.name), Trim(field.raw))]
    ensures g.headersSize == f.headersSize + |FieldText(field)| + 2
    ensures Reads(cfg, InHeaders(line, f, FieldText(field) + CRLF + rest), InHeaders(line, g, rest), [])
  {
    hide ApplyField, FramingOk, NotAField, LengthFaithful, CodingFaithful, TokensFaithful, OfferFaithful;
    var text, name, value := FieldText(field), Lower(field.name), Trim(field.raw);
    FieldParses(field);
    FieldApplies(cfg, f, text, name, value, later);
    RecordKeeps(cfg, f, text, name, value);
    g := ApplyField(cfg, f.Record(text, name, value), name, value).fields;
    assert ConsumeHeaderLine(cfg, f, text) == GoodFields(g);
    TakesLine(cfg.maxHeaderSize, text, rest);
    StepsField(cfg, line, f, g, text, rest);
  }

  lemma StepsField(cfg: Config, line: RequestLine, f: Fields, g: Fields, text: Bytes, rest: Bytes)
    requires ConsumeHeaderLine(cfg, f, text) == GoodFields(g) && text != [] && |text| < cfg.maxHeaderSize
    requires TakeLine(cfg.maxHeaderSize, text + CRLF + rest) == Line(text, rest)
    ensures Reads(cfg, InHeaders(line, f, text + CRLF + rest), InHeaders(line, g, rest), [])
  {
    hide ConsumeHeaderLine, TakeLine;
    ReadsStep(cfg, InHeaders(line, f, text + CRLF + rest), InHeaders(line, g, rest), []);
  }

  /** The state behind a head whose fields are f. */
  function InBody(line: RequestLine, f: Fields, buffer: Bytes): State {
    InHeaders(line, f, buffer).(phase := Body, bodyRemaining := DeclaredLength(f.headers))
  }

  lemma FinishesHead(cfg: Config, line: RequestLine, f: Fields, rest: Bytes)
    requires Faithful(cfg, f) && FramingOk(cfg, f.headers) && 0 < cfg.maxHeaderSize
    requires UpgradeOf(cfg, line, f.headers).None?
    ensures Reads(cfg, InHeaders(line, f, [] + CRLF + rest), InBody(line, f, rest),
                  [HeadComplete(RequestHead(line, f.headers, None))])
  {
    assert NoCrlf([]);
    TakesLine(cfg.maxHeaderSize, [], rest);
    BlankFinishes(cfg, line, f, rest);
    hide ConsumeHeaderLine, TakeLine, FinishHeaders, InBody, Reads, Faithful, FramingOk, UpgradeOf, NoCrlf;
    ReadsStep(cfg, InHeaders(line, f, [] + CRLF + rest), InBody(line, f, rest),
              [HeadComplete(RequestHead(line, f.headers, None))]);
  }

  lemma BlankFinishes(cfg: Config, line: RequestLine, f: Fields, rest: Bytes)
    requires Faithful(cfg, f) && FramingOk(cfg, f.headers) && UpgradeOf(cfg, line, f.headers).None?
    ensures FinishHeaders(cfg, InHeaders(line, f, rest), false) ==
      Advanced(InBody(line, f, rest), [HeadComplete(RequestHead(line, f.headers, None))], false)
  {
    FaithfulUpgrade(cfg, line, f);
    hide DetectUpgrade, UpgradeOf, TokensFaithful, OfferFaithful;
  }

  // ---- bodies

  lemma ReadsSized(cfg: Config, line: RequestLine, f: Fields, data: Bytes, rest: Bytes)
    requires !f.chunked && DeclaredLength(f.headers) == |data|
    ensures Reads(cfg, InBody(line, f, data + rest), Fresh(rest), [BodyChunk(data, false), RequestComplete])
  {
    assert (data + rest)[..|data|] == data && (data + rest)[|data|..] == rest;
    ReadsStep(cfg, InBody(line, f, data + rest), Fresh(rest), [BodyChunk(data, false), RequestComplete]);
  }

  lemma StripHex(b: Bytes)
    requires IsHex(b)
    ensures Strip(b, IsSpace) == b
  {
  }

  lemma SizeParses(cfg: Config, c: ChunkText)
    requires SizeLineOk(cfg, c)
    ensures ChunkSize(c.size + c.ext) == Some(|c.data|)
  {
    assert SEMICOLON !in c.size;
    if c.ext == [] {
      assert c.size + c.ext == c.size;
      SplitNone(c.size, SEMICOLON);
    } else {
      assert c.size + c.ext == c.size + [SEMICOLON] + c.ext[1..];
      SplitFirst(c.size, SEMICOLON, c.ext[1..]);
    }
    StripHex(c.size);
  }

  /** Between two chunks, `total` octets into the body. */
  function AtSize(base: State, total: nat, buffer: Bytes): State {
    base.(buffer := buffer, bodyTotal := total, chunkPhase := ChunkPhase.Size, chunkRemaining := 0)
  }

  lemma ReadsSizeLine(cfg: Config, base: State, total: nat, c: ChunkText, rest: Bytes)
    requires base.phase == Body && base.fields.chunked && SizeLineOk(cfg, c)
    requires total + |c.data| <= cfg.maxBodySize
    ensures Reads(cfg, AtSize(base, total, (c.size + c.ext) + CRLF + rest),
                  if c.data == [] then AtSize(base, total, rest).(chunkPhase := Trailers)
                  else AtSize(base, total + |c.data|, rest).(chunkPhase := Data, chunkRemaining := |c.data|), [])
  {
    SizeParses(cfg, c);
    TakesLine(cfg.maxHeaderSize, c.size + c.ext, rest);
    hide ChunkSize, TakeLine, NoCrlf, IsHex, Hexadecimal;
    ReadsStep(cfg, AtSize(base, total, (c.size + c.ext) + CRLF + rest),
              if c.data == [] then AtSize(base, total, rest).(chunkPhase := Trailers)
              else AtSize(base, total + |c.data|, rest).(chunkPhase := Data, chunkRemaining := |c.data|), []);
  }

  lemma ReadsData(cfg: Config, base: State, total: nat, data: Bytes, rest: Bytes)
    requires base.phase == Body && base.fields.chunked && data != []
    ensures Reads(cfg, AtSize(base, total, data + CRLF + rest).(chunkPhase := Data, chunkRemaining := |data|),
                  AtSize(base, total, rest), [BodyChunk(data, true)])
  {
    var b := data + CRLF + rest;
    var mid := AtSize(base, total, CRLF + rest).(chunkPhase := DataCrlf);
    assert b[..|data|] == data && b[|data|..] == CRLF + rest;
    ReadsStep(cfg, AtSize(base, total, b).(chunkPhase := Data, chunkRemaining := |data|), mid, [BodyChunk(data, true)]);
    assert (CRLF + rest)[..2] == CRLF && (CRLF + rest)[2..] == rest;
    ReadsStep(cfg, mid, AtSize(base, total, rest), []);
    ReadsTwice(cfg, AtSize(base, total, b).(chunkPhase := Data, chunkRemaining := |data|), mid,
               AtSize(base, total, rest), [BodyChunk(data, true)], []);
    assert [BodyChunk(data, true)] + [] == [BodyChunk(data, true)];
  }

  lemma {:induction false} ReadsChunks(cfg: Config, base: State, total: nat, chunks: seq<ChunkText>, rest: Bytes)
    requires base.phase == Body && base.fields.chunked
    requires ChunksOk(cfg, chunks)
    requires total + TotalSize(chunks) <= cfg.maxBodySize
    ensures Reads(cfg, AtSize(base, total, ChunksText(chunks) + rest),
                  AtSize(base, total + TotalSize(chunks), rest), ChunkEvents(chunks))
    decreases |chunks|
  {
    hide *;
    ChunksLayout(cfg, chunks, rest);
    if chunks == [] {
      SizeIsLive(base, total, rest);
      ReadsNothing(cfg, AtSize(base, total, rest));
    } else {
      var c, more := chunks[0], chunks[1..];
      var tail := ChunksText(more) + rest;
      ReadsChunk(cfg, base, total, c, tail);
      ReadsChunks(cfg, base, total + |c.data|, more, rest);
      ReadsTwice(cfg, AtSize(base, total, ChunksText(chunks) + rest), AtSize(base, total + |c.data|, tail),
                 AtSize(base, total + TotalSize(chunks), rest), [BodyChunk(c.data, true)], ChunkEvents(more));
    }
  }

  lemma SizeIsLive(base: State, total: nat, buffer: Bytes)
    ensures AtSize(base, total, buffer).Live()
  {
  }

  lemma ChunksLayout(cfg: Config, chunks: seq<ChunkText>, rest: Bytes)
    requires ChunksOk(cfg, chunks)
    ensures chunks == [] ==> ChunksText(chunks) + rest == rest && TotalSize(chunks) == 0 && ChunkEvents(chunks) == []
    ensures chunks != [] ==>
      && SizeLineOk(cfg, chunks[0]) && chunks[0].data != [] && ChunksOk(cfg, chunks[1..])
      && TotalSize(chunks) == |chunks[0].data| + TotalSize(chunks[1..])
      && ChunkEvents(chunks) == [BodyChunk(chunks[0].data, true)] + ChunkEvents(chunks[1..])
      && var c := chunks[0];
         ChunksText(chunks) + rest == (c.size + c.ext) + CRLF + (c.data + CRLF + (ChunksText(chunks[1..]) + rest))
  {
    hide SizeLineOk;
  }

  lemma ReadsChunk(cfg: Config, base: State, total: nat, c: ChunkText, tail: Bytes)
    requires base.phase == Body && base.fields.chunked && SizeLineOk(cfg, c) && c.data != []
    requires total + |c.data| <= cfg.maxBodySize
    ensures Reads(cfg, AtSize(base, total, (c.size + c.ext) + CRLF + (c.data + CRLF + tail)),
                  AtSize(base, total + |c.data|, tail), [BodyChunk(c.data, true)])
  {
    hide Next, SizeLineOk, Reads;
    var a := AtSize(base, total, (c.size + c.ext) + CRLF + (c.data + CRLF + tail));
    var b := AtSize(base, total + |c.data|, c.data + CRLF + tail).(chunkPhase := Data, chunkRemaining := |c.data|);
    ReadsSizeLine(cfg, base, total, c, c.data + CRLF + tail);
    ReadsData(cfg, base, total + |c.data|, c.data, tail);
    ReadsTwice(cfg, a, b, AtSize(base, total + |c.data|, tail), [], [BodyChunk(c.data, true)]);
    assert [] + [BodyChunk(c.data, true)] == [BodyChunk(c.data, true)];
  }

  lemma {:induction false} ReadsTrailers(cfg: Config, st: State, trailers: seq<Bytes>, rest: Bytes)
    requires st.phase == Body && st.fields.chunked && st.chunkPhase == Trailers && 0 < cfg.maxHeaderSize
    requires forall i :: 0 <= i < |trailers| ==> TrailerOk(cfg, trailers[i])
    ensures Reads(cfg, st.(buffer := TrailersText(trailers) + rest), Fresh(rest), LAST)
    decreases |trailers|
  {
    var a := st.(buffer := TrailersText(trailers) + rest);
    if trailers == [] {
      assert NoCrlf([]);
      TakesLine(cfg.maxHeaderSize, [], rest);
      assert [] + CRLF + rest == CRLF + rest;
      ReadsStep(cfg, a, Fresh(rest), LAST);
    } else {
      var tail := TrailersText(trailers[1..]) + rest;
      assert TrailersText(trailers) + rest == trailers[0] + CRLF + tail;
      TakesLine(cfg.maxHeaderSize, trailers[0], tail);
      ReadsStep(cfg, a, st.(buffer := tail), []);
      ReadsTrailers(cfg, st, trailers[1..], rest);
      ReadsTwice(cfg, a, st.(buffer := tail), Fresh(rest), [], LAST);
      assert [] + LAST == LAST;
    }
  }

  lemma ReadsChunkedPayload(cfg: Config, base: State, chunks: seq<ChunkText>, end: ChunkText, trailers: seq<Bytes>, rest: Bytes)
    requires base.phase == Body && base.fields.chunked && 0 < cfg.maxHeaderSize
    requires ChunksOk(cfg, chunks)
    requires TotalSize(chunks) <= cfg.maxBodySize
    requires SizeLineOk(cfg, end) && end.data == []
    requires forall i :: 0 <= i < |trailers| ==> TrailerOk(cfg, trailers[i])
    ensures
      var text := ChunksText(chunks) + ((end.size + end.ext) + CRLF + (TrailersText(trailers) + rest));
      Reads(cfg, AtSize(base, 0, text), Fresh(rest), ChunkEvents(chunks) + LAST)
  {
    hide Next, Reads, ChunksOk, SizeLineOk, TrailerOk, ChunksText, TrailersText, ChunkEvents, TotalSize;
    var total, tail := TotalSize(chunks), TrailersText(trailers) + rest;
    var close := (end.size + end.ext) + CRLF + tail;
    var c := AtSize(base, total, tail).(chunkPhase := Trailers);
    ReadsChunks(cfg, base, 0, chunks, close);
    ReadsSizeLine(cfg, base, total, end, tail);
    ReadsTrailers(cfg, c, trailers, rest);
    assert c.(buffer := tail) == c;
    ReadsThrice(cfg, AtSize(base, 0, ChunksText(chunks) + close), AtSize(base, total, close), c, Fresh(rest),
                ChunkEvents(chunks), LAST);
  }

  lemma ReadsThrice(cfg: Config, a: State, b: State, c: State, d: State, early: seq<Event>, late: seq<Event>)
    requires Reads(cfg, a, b, early) && Reads(cfg, b, c, []) && Reads(cfg, c, d, late)
    ensures Reads(cfg, a, d, early + late)
  {
    hide Reads;
    ReadsTwice(cfg, b, c, d, [], late);
    ReadsTwice(cfg, a, b, d, early, [] + late);
    assert [] + late == late;
  }

  lemma ReadsPayload(cfg: Config, line: RequestLine, f: Fields, p: Payload, rest: Bytes)
    requires Faithful(cfg, f) && FramingOk(cfg, f.headers) && PayloadOk(cfg, f.headers, p) && 0 < cfg.maxHeaderSize
    ensures Reads(cfg, InBody(line, f, PayloadText(p) + rest), Fresh(rest), PayloadEvents(p))
  {
    match p {
      case Sized(data) => ReadsSized(cfg, line, f, data, rest);
      case Chunked(chunks, end, trailers) =>
        NoDeclaredLength(cfg, f);
        PayloadLayout(p, rest);
        hide Next, Reads, SizeLineOk, ChunksOk, TrailerOk, Faithful, FramingOk, ChunksText, TrailersText, PayloadText;
        var tail := (end.size + end.ext) + CRLF + (TrailersText(trailers) + rest);
        assert AtSize(InBody(line, f, []), 0, ChunksText(chunks) + tail) == InBody(line, f, ChunksText(chunks) + tail);
        ReadsChunkedPayload(cfg, InBody(line, f, []), chunks, end, trailers, rest);
    }
  }

  lemma PayloadLayout(p: Payload, rest: Bytes)
    requires p.Chunked?
    ensures PayloadText(p) + rest ==
      ChunksText(p.chunks) + ((p.end.size + p.end.ext) + CRLF + (TrailersText(p.trailers) + rest))
  {
  }

  lemma NoDeclaredLength(cfg: Config, f: Fields)
    requires Faithful(cfg, f) && FramingOk(cfg, f.headers) && IsChunked(f.headers)
    ensures f.chunked
  {
  }

  // ---- requests

  lemma NoFieldsFaithful(cfg: Config)
    ensures Faithful(cfg, NO_FIELDS)
  {
  }

  lemma RequestLayout(r: Request, rest: Bytes)
    ensures RequestText(r) + rest ==
      LineText(r) + CRLF + (FieldsText(r.fields) + ([] + CRLF + (PayloadText(r.payload) + rest)))
    ensures ([] + [] + [HeadComplete(RequestHead(ParsedLine(r), Normal(r.fields), None))]) + PayloadEvents(r.payload) == RequestEvents(r)
  {
  }

  lemma ReadsRequest(cfg: Config, r: Request, rest: Bytes)
    requires RequestOk(cfg, r)
    ensures Reads(cfg, Fresh(RequestText(r) + rest), Fresh(rest), RequestEvents(r))
  {
    var line, headers := ParsedLine(r), Normal(r.fields);
    var body := PayloadText(r.payload) + rest;
    var blank := [] + CRLF + body;
    var fieldsAndOn := FieldsText(r.fields) + blank;
    RequestLayout(r, rest);
    assert NO_FIELDS.headers + headers == headers;
    NoFieldsFaithful(cfg);
    var head := [HeadComplete(RequestHead(line, headers, None))];
    var none: seq<Event> := [];
    assert NO_FIELDS.headersSize == 0 && NO_FIELDS.headers == [];
    hide *;
    StartsRequest(cfg, r, fieldsAndOn);
    var f := ReadsFields(cfg, line, NO_FIELDS, r.fields, blank);
    FinishesHead(cfg, line, f, body);
    ReadsPayload(cfg, line, f, r.payload, rest);
    var a, b, c := Fresh(RequestText(r) + rest), InHeaders(line, NO_FIELDS, fieldsAndOn), InHeaders(line, f, blank);
    ReadsTwice(cfg, a, b, c, none, none);
    ReadsTwice(cfg, a, c, InBody(line, f, body), none + none, head);
    ReadsTwice(cfg, a, InBody(line, f, body), Fresh(rest), none + none + head, PayloadEvents(r.payload));
  }

  lemma {:induction false} ReadsStream(cfg: Config, requests: seq<Request>, rest: Bytes)
    requires forall i :: 0 <= i < |requests| ==> RequestOk(cfg, requests[i])
    ensures Reads(cfg, Fresh(StreamText(requests) + rest), Fresh(rest), StreamEvents(requests))
    decreases |requests|
  {
    hide Reads, RequestOk;
    if requests == [] {
      assert StreamText(requests) + rest == rest;
      ReadsNothing(cfg, Fresh(rest));
    } else {
      var tail := StreamText(requests[1..]) + rest;
      assert StreamText(requests) + rest == RequestText(requests[0]) + tail;
      ReadsRequest(cfg, requests[0], tail);
      ReadsStream(cfg, requests[1..], rest);
      ReadsTwice(cfg, Fresh(StreamText(requests) + rest), Fresh(tail), Fresh(rest),
                 RequestEvents(requests[0]), StreamEvents(requests[1..]));
    }
  }

  /** The pipelined round trip: any well-formed requests printed back to back and fed come
      back as exactly those heads and bodies, in order, with nothing left in the buffer. */
  lemma PipelinedRoundTrip(cfg: Config, requests: seq<Request>)
    requires forall i :: 0 <= i < |requests| ==> RequestOk(cfg, requests[i])
    ensures Drain(cfg, Fresh(StreamText(requests))) == Outcome(Fresh([]), StreamEvents(requests), None, false)
  {
    FreshRests(cfg);
    hide Next, RequestOk;
    ReadsStream(cfg, requests, []);
    assert StreamText(requests) + [] == StreamText(requests);
    assert StreamEvents(requests) + [] == StreamEvents(requests);
  }

  /** The same through any way of cutting the text into feeds, with the body pieces joined. */
  lemma RoundTripInPieces(cfg: Config, requests: seq<Request>, chunks: seq<Bytes>)
    requires forall i :: 0 <= i < |requests| ==> RequestOk(cfg, requests[i])
    requires Join(chunks) == StreamText(requests)
    ensures Show([], FeedAll(cfg, Fresh([]), chunks)) ==
            Shown(MergeAll([], StreamEvents(requests)), None, Some(Fresh([])))
  {
    hide Next, RequestOk;
    PipelinedRoundTrip(cfg, requests);
    NoExactLineNoDifference(cfg, StreamText(requests), chunks);
  }

  // ---- the exception to segmentation independence, on a real request line

  const ROOT := Request([71, 69, 84], [47], None, Http11, [], Sized([]))

  lemma FeedOnce(cfg: Config, st: State, data: Bytes)
    requires st.Live()
    ensures FeedAll(cfg, st, [data]).error == Drain(cfg, st.Received(data)).error
  {
    hide Drain;
    var one: seq<Bytes> := [data];
    assert |one[1..]| == 0;
  }

  lemma FailsFirst(cfg: Config, st: State, chunks: seq<Bytes>)
    requires st.Live() && chunks != []
    requires Drain(cfg, st.Received(chunks[0])).error.Some?
    ensures FeedAll(cfg, st, chunks).error == Drain(cfg, st.Received(chunks[0])).error
  {
    hide Drain;
  }

  lemma RootLine()
    ensures |LineText(ROOT)| == 14
    ensures ParseRequestLine(LineText(ROOT)) == GoodLine(ParsedLine(ROOT)) && NoCrlf(LineText(ROOT))
  {
    assert Target(ROOT) == [47];
    ReadsRequestLine(ROOT);
  }

  /** With `maxHeaderSize` 14, the line "GET / HTTP/1.1" is read when its CRLF arrives in
      one piece and refused as too large when the feed ends between CR and LF. */
  lemma ExactLineDependsOnCut(cfg: Config)
    requires cfg.maxHeaderSize == 14
    ensures FeedAll(cfg, Fresh([]), [LineText(ROOT) + CRLF]).error == None
    ensures FeedAll(cfg, Fresh([]), [LineText(ROOT) + [CR], [LF]]).error == Some(RequestTooLarge)
  {
    WholeLineReads(cfg);
    CutLineFails(cfg);
  }

  lemma WholeLineReads(cfg: Config)
    requires cfg.maxHeaderSize == 14
    ensures FeedAll(cfg, Fresh([]), [LineText(ROOT) + CRLF]).error == None
  {
    var text := LineText(ROOT);
    RootLine();
    TakesLine(14, text, []);
    hide LineText, ParseRequestLine, ParsedLine, StepHeaders, StepChunked, StepSized, TakeLine, FeedAll;
    var whole := text + CRLF;
    assert whole + [] == whole && [] + whole == whole;
    var next := InHeaders(ParsedLine(ROOT), NO_FIELDS, []);
    assert Next(cfg, Fresh(whole)) == Advanced(next, [], true);
    WaitsForFields(cfg, next);
    hide Next;
    FeedOnce(cfg, Fresh([]), whole);
  }

  lemma CutLineFails(cfg: Config)
    requires cfg.maxHeaderSize == 14
    ensures FeedAll(cfg, Fresh([]), [LineText(ROOT) + [CR], [LF]]).error == Some(RequestTooLarge)
  {
    var text := LineText(ROOT);
    RootLine();
    hide LineText, ParseRequestLine, ParsedLine, StepHeaders, StepChunked, StepSized, FeedAll;
    var cut := text + [CR];
    assert [] + cut == cut;
    CutHasNoLine(text);
    assert Next(cfg, Fresh(cut)) == Failed(RequestTooLarge, false);
    hide Next;
    FailsFirst(cfg, Fresh([]), [cut, [LF]]);
  }

  lemma WaitsForFields(cfg: Config, st: State)
    requires st.Live() && st.phase == Headers && st.buffer == []
    ensures Next(cfg, st).Stuck?
  {
  }

  lemma CutHasNoLine(text: Bytes)
    requires NoCrlf(text)
    ensures FindCrlf(text + [CR]) == -1
  {
    var cut := text + [CR];
    forall i | 0 <= i ensures !CrlfAt(cut, i) {
      if i + 1 < |text| {
        assert !CrlfAt(text, i);
        assert cut[i] == text[i] && cut[i + 1] == text[i + 1];
      }
    }
  }
}
