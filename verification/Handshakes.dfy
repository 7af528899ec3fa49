/** A handshake's head on the wire: printing one, parsing it back behind a request, and one
    handshake written out. */
module Handshakes {
  import opened Bytes
  import opened Wrappers
  import opened HttpText
  import opened HttpParsing
  import opened HttpExchanges
  import opened HttpRoundTrip
  import opened Pipeline
  import PT = PipelineTurns

  // ---- one segment

  /** A head without a body that asks for a websocket. */
  ghost predicate HandshakeOk(cfg: Config, h: Request) {
    && LineOk(cfg, h) && 0 < cfg.maxHeaderSize
    && (forall i :: 0 <= i < |h.fields| ==> FieldOk(cfg, h.fields[i]))
    && FieldsSize(h.fields) <= cfg.maxHeaderSize && |h.fields| <= cfg.maxHeaders
    && FramingOk(cfg, Normal(h.fields)) && !IsChunked(Normal(h.fields)) && DeclaredLength(Normal(h.fields)) == 0
    && UpgradeOf(cfg, ParsedLine(h), Normal(h.fields)) == Some(WEBSOCKET)
  }

  function HandshakeText(h: Request): Bytes {
    LineText(h) + CRLF + (FieldsText(h.fields) + ([] + CRLF + []))
  }

  function HandshakeHead(h: Request): RequestHead {
    RequestHead(ParsedLine(h), Normal(h.fields), Some(WEBSOCKET))
  }

  lemma FinishesHandshake(cfg: Config, line: RequestLine, f: Fields)
    requires Faithful(cfg, f) && FramingOk(cfg, f.headers) && !IsChunked(f.headers) && DeclaredLength(f.headers) == 0
    requires UpgradeOf(cfg, line, f.headers) == Some(WEBSOCKET)
    ensures FinishHeaders(cfg, InHeaders(line, f, []), false) ==
      Advanced(InHeaders(line, f, []).(phase := Upgraded), [HeadComplete(RequestHead(line, f.headers, Some(WEBSOCKET)))], false)
  {
    FaithfulUpgrade(cfg, line, f);
    hide DetectUpgrade, UpgradeOf, TokensFaithful, OfferFaithful;
  }

  /** A blank line behind such fields ends HTTP. */
  lemma EndsHttp(cfg: Config, line: RequestLine, f: Fields)
    requires Faithful(cfg, f) && FramingOk(cfg, f.headers) && !IsChunked(f.headers) && DeclaredLength(f.headers) == 0
    requires UpgradeOf(cfg, line, f.headers) == Some(WEBSOCKET) && 0 < cfg.maxHeaderSize
    ensures Drain(cfg, InHeaders(line, f, [] + CRLF + [])) ==
      Outcome(InHeaders(line, f, []).(phase := Upgraded), [HeadComplete(RequestHead(line, f.headers, Some(WEBSOCKET)))], None, false)
  {
    assert NoCrlf([]);
    TakesLine(cfg.maxHeaderSize, [], []);
    FinishesHandshake(cfg, line, f);
    var st := InHeaders(line, f, [] + CRLF + []);
    var head := [HeadComplete(RequestHead(line, f.headers, Some(WEBSOCKET)))];
    hide ConsumeHeaderLine, TakeLine, FinishHeaders, Faithful, FramingOk, UpgradeOf, NoCrlf;
    assert Next(cfg, st) == Advanced(InHeaders(line, f, []).(phase := Upgraded), head, false);
    PT.UpgradedIsQuiet(cfg, InHeaders(line, f, []).(phase := Upgraded));
    hide Next;
    assert head + [] == head;
  }

  lemma HandshakeReads(cfg: Config, h: Request) returns (st: State)
    requires HandshakeOk(cfg, h)
    ensures st.Live() && Drain(cfg, Fresh(HandshakeText(h))) == Outcome(st, [HeadComplete(HandshakeHead(h))], None, false)
  {
    var line, blank := ParsedLine(h), [] + CRLF + [];
    assert NO_FIELDS.headers + Normal(h.fields) == Normal(h.fields);
    assert NO_FIELDS.headersSize == 0 && NO_FIELDS.headers == [];
    NoFieldsFaithful(cfg);
    hide FramingOk, Faithful, FieldOk, UpgradeOf, Next, Drain, LineOk;
    StartsRequest(cfg, h, FieldsText(h.fields) + blank);
    var f := ReadsFields(cfg, line, NO_FIELDS, h.fields, blank);
    EndsHttp(cfg, line, f);
    var none: seq<Event> := [];
    ReadsTwice(cfg, Fresh(HandshakeText(h)), InHeaders(line, NO_FIELDS, FieldsText(h.fields) + blank),
               InHeaders(line, f, blank), none, none);
    assert none + none == none && none + [HeadComplete(HandshakeHead(h))] == [HeadComplete(HandshakeHead(h))];
    st := InHeaders(line, f, []).(phase := Upgraded);
  }

  /** Both heads are parsed from the one segment, with the request's body between them. */
  lemma SegmentReads(cfg: Config, r: Request, h: Request, data: Bytes) returns (st: State)
    requires RequestOk(cfg, r) && r.payload == Sized(data) && HandshakeOk(cfg, h)
    ensures st.Live()
    ensures Drain(cfg, Fresh(RequestText(r) + HandshakeText(h))) ==
      Outcome(st, [HeadComplete(RequestHead(ParsedLine(r), Normal(r.fields), None)), BodyChunk(data, false), RequestComplete,
                   HeadComplete(HandshakeHead(h))], None, false)
  {
    hide RequestOk, HandshakeOk, Drain, RequestText, HandshakeText, HandshakeHead, ParsedLine, Normal, State.Live;
    var head := RequestHead(ParsedLine(r), Normal(r.fields), None);
    assert RequestEvents(r) + [HeadComplete(HandshakeHead(h))] ==
      [HeadComplete(head), BodyChunk(data, false), RequestComplete, HeadComplete(HandshakeHead(h))];
    hide RequestEvents, PayloadEvents;
    st := HandshakeReads(cfg, h);
    ReadsRequest(cfg, r, HandshakeText(h));
  }

  // ---- such a segment

  // sec-websocket-version: 13, sec-websocket-key: dGhlIHNhbXBsZSBub25jZQ==
  const VERSION_FIELD := FieldLine([115, 101, 99, 45, 119, 101, 98, 115, 111, 99, 107, 101, 116, 45, 118, 101, 114, 115, 105, 111, 110], [49, 51])
  const KEY_FIELD := FieldLine([115, 101, 99, 45, 119, 101, 98, 115, 111, 99, 107, 101, 116, 45, 107, 101, 121], [100, 71, 104, 108, 73, 72, 78, 104, 98, 88, 66, 115, 90, 83, 66, 117, 98, 50, 53, 106, 90, 81, 61, 61])

  const HANDSHAKE_FIELDS := [FieldLine(UPGRADE, WEBSOCKET), FieldLine(CONNECTION, UPGRADE), VERSION_FIELD, KEY_FIELD]

  const HANDSHAKE := ROOT.(fields := HANDSHAKE_FIELDS)

  predicate IsPlain(b: Bytes) {
    b != [] && !IsSpace(b[0]) && !IsSpace(b[|b| - 1])
  }

  lemma PlainStays(b: Bytes)
    requires IsPlain(b)
    ensures Trim(b) == b && Strip(b, IsSpace) == b
  {
  }

  lemma LowerStays(b: Bytes)
    requires forall i :: 0 <= i < |b| ==> !(65 <= b[i] <= 90)
    ensures Lower(b) == b
  {
  }

  lemma HandshakeFields()
    ensures Normal(HANDSHAKE_FIELDS) ==
      [(UPGRADE, WEBSOCKET), (CONNECTION, UPGRADE), (VERSION_FIELD.name, VERSION_FIELD.raw), (KEY_FIELD.name, KEY_FIELD.raw)]
  {
    OfferNormal();
    OtherNormal();
    hide Lower, Trim, Normal;
    NormalFour(FieldLine(UPGRADE, WEBSOCKET), FieldLine(CONNECTION, UPGRADE), VERSION_FIELD, KEY_FIELD);
  }

  lemma OfferNormal()
    ensures Lower(UPGRADE) == UPGRADE && Trim(WEBSOCKET) == WEBSOCKET
    ensures Lower(CONNECTION) == CONNECTION && Trim(UPGRADE) == UPGRADE
  {
    NormalOne(UPGRADE, WEBSOCKET);
    NormalOne(CONNECTION, UPGRADE);
    hide Lower, Trim;
  }

  lemma OtherNormal()
    ensures Lower(VERSION_FIELD.name) == VERSION_FIELD.name && Trim(VERSION_FIELD.raw) == VERSION_FIELD.raw
    ensures Lower(KEY_FIELD.name) == KEY_FIELD.name && Trim(KEY_FIELD.raw) == KEY_FIELD.raw
  {
    NormalOne(VERSION_FIELD.name, VERSION_FIELD.raw);
    NormalOne(KEY_FIELD.name, KEY_FIELD.raw);
    hide Lower, Trim;
  }

  lemma NormalOne(name: Bytes, raw: Bytes)
    requires IsPlain(raw) && forall i :: 0 <= i < |name| ==> !(65 <= name[i] <= 90)
    ensures Lower(name) == name && Trim(raw) == raw
  {
    LowerStays(name);
    PlainStays(raw);
  }

  lemma NormalFour(a: FieldLine, b: FieldLine, c: FieldLine, d: FieldLine)
    ensures Normal([a, b, c, d]) ==
      [(Lower(a.name), Trim(a.raw)), (Lower(b.name), Trim(b.raw)), (Lower(c.name), Trim(c.raw)), (Lower(d.name), Trim(d.raw))]
  {
    hide Trim, Lower;
    assert [a, b, c, d][1..] == [b, c, d] && [b, c, d][1..] == [c, d] && [c, d][1..] == [d] && [d][1..] == [];
    assert Normal([d]) == [(Lower(d.name), Trim(d.raw))];
    assert Normal([c, d]) == [(Lower(c.name), Trim(c.raw)), (Lower(d.name), Trim(d.raw))];
  }

  const HANDSHAKE_HEADERS: seq<Header> :=
    [(UPGRADE, WEBSOCKET), (CONNECTION, UPGRADE), (VERSION_FIELD.name, VERSION_FIELD.raw), (KEY_FIELD.name, KEY_FIELD.raw)]

  lemma ValuesFour(a: Header, b: Header, c: Header, d: Header, name: Bytes)
    ensures Values([a, b, c, d], name) ==
      (if a.0 == name then [a.1] else []) + (if b.0 == name then [b.1] else []) +
      (if c.0 == name then [c.1] else []) + (if d.0 == name then [d.1] else [])
  {
    var none: seq<Header> := [];
    assert [a, b, c, d][..3] == [a, b, c] && [a, b, c][..2] == [a, b] && [a, b][..1] == [a] && [a][..0] == none;
    assert Values([a], name) == if a.0 == name then [a.1] else [];
    assert Values([a, b], name) == Values([a], name) + if b.0 == name then [b.1] else [];
    assert Values([a, b, c], name) == Values([a, b], name) + if c.0 == name then [c.1] else [];
  }

  lemma HandshakeNames()
    ensures UPGRADE != CONNECTION && UPGRADE != CONTENT_LENGTH && UPGRADE != TRANSFER_ENCODING
    ensures CONNECTION != CONTENT_LENGTH && CONNECTION != TRANSFER_ENCODING
    ensures VERSION_FIELD.name !in {UPGRADE, CONNECTION, CONTENT_LENGTH, TRANSFER_ENCODING}
    ensures KEY_FIELD.name !in {UPGRADE, CONNECTION, CONTENT_LENGTH, TRANSFER_ENCODING}
  {
    NamesDiffer();
    assert |VERSION_FIELD.name| == 21 && |KEY_FIELD.name| == 17;
    assert KEY_FIELD.name[0] != TRANSFER_ENCODING[0];
  }

  lemma HandshakeValues()
    ensures Values(HANDSHAKE_HEADERS, CONTENT_LENGTH) == [] && Values(HANDSHAKE_HEADERS, TRANSFER_ENCODING) == []
    ensures Values(HANDSHAKE_HEADERS, UPGRADE) == [WEBSOCKET] && Values(HANDSHAKE_HEADERS, CONNECTION) == [UPGRADE]
  {
    HandshakeNames();
    forall name: Bytes ensures Values(HANDSHAKE_HEADERS, name) ==
      (if UPGRADE == name then [WEBSOCKET] else []) + (if CONNECTION == name then [UPGRADE] else []) +
      (if VERSION_FIELD.name == name then [VERSION_FIELD.raw] else []) + (if KEY_FIELD.name == name then [KEY_FIELD.raw] else [])
    {
      ValuesFour((UPGRADE, WEBSOCKET), (CONNECTION, UPGRADE), (VERSION_FIELD.name, VERSION_FIELD.raw), (KEY_FIELD.name, KEY_FIELD.raw), name);
    }
  }

  lemma AsksFor(cfg: Config, line: RequestLine, headers: seq<Header>, protocol: Bytes)
    requires line.verb == GET && line.version == Http11 && protocol in cfg.upgradeProtocols
    requires Values(headers, UPGRADE) == [protocol] && Values(headers, CONNECTION) == [UPGRADE]
    requires IsPlain(protocol) && COMMA !in protocol && IsAscii(protocol) && Lower(protocol) == protocol
    ensures UpgradeOf(cfg, line, headers) == Some(protocol)
  {
    SplitNone(UPGRADE, COMMA);
    NormalOne(UPGRADE, UPGRADE);
    PlainStays(protocol);
    PlainStays(UPGRADE);
    OneToken(UPGRADE);
    hide Values, AllTokens, Strip, Lower, Split, IsAscii, IsPlain;
  }

  /** It asks for a websocket. */
  lemma HandshakeUpgrades(cfg: Config)
    requires WEBSOCKET in cfg.upgradeProtocols
    ensures UpgradeOf(cfg, ParsedLine(HANDSHAKE), HANDSHAKE_HEADERS) == Some(WEBSOCKET)
  {
    HandshakeValues();
    LowerStays(WEBSOCKET);
    hide Values, UpgradeOf, Lower;
    AsksFor(cfg, ParsedLine(HANDSHAKE), HANDSHAKE_HEADERS, WEBSOCKET);
  }

  lemma OneToken(word: Bytes)
    requires Split(word, COMMA) == [word] && Strip(word, IsSpace) == word && Lower(word) == word
    ensures word in AllTokens([word])
  {
    hide Split, Strip, Lower;
    assert [word][..0] == [];
    assert word in Tokens([word]);
  }

  lemma SizeOfFour(a: FieldLine, b: FieldLine, c: FieldLine, d: FieldLine)
    ensures FieldsSize([a, b, c, d]) == |FieldText(a)| + |FieldText(b)| + |FieldText(c)| + |FieldText(d)| + 8
  {
    hide FieldText;
    assert [a, b, c, d][1..] == [b, c, d] && [b, c, d][1..] == [c, d] && [c, d][1..] == [d] && [d][1..] == [];
    assert FieldsSize([d]) == |FieldText(d)| + 2;
    assert FieldsSize([c, d]) == |FieldText(c)| + 2 + FieldsSize([d]);
  }

  lemma OfferFieldsOk(cfg: Config)
    requires 128 <= cfg.maxHeaderSize
    ensures FieldOk(cfg, FieldLine(UPGRADE, WEBSOCKET)) && FieldOk(cfg, FieldLine(CONNECTION, UPGRADE))
  {
  }

  lemma OtherFieldsOk(cfg: Config)
    requires 128 <= cfg.maxHeaderSize
    ensures FieldOk(cfg, VERSION_FIELD) && FieldOk(cfg, KEY_FIELD)
  {
  }

  lemma HandshakeFieldsFit()
    ensures FieldsSize(HANDSHAKE_FIELDS) <= 128
  {
    SizeOfFour(FieldLine(UPGRADE, WEBSOCKET), FieldLine(CONNECTION, UPGRADE), VERSION_FIELD, KEY_FIELD);
    hide FieldsSize;
  }

  lemma HandshakeLine(cfg: Config)
    requires 128 <= cfg.maxHeaderSize
    ensures LineOk(cfg, HANDSHAKE) && ParsedLine(HANDSHAKE) == ParsedLine(ROOT)
  {
    RootLine();
    assert LineText(HANDSHAKE) == LineText(ROOT);
  }

  /** The handshake is read as one wherever the limits let it in. */
  lemma HandshakeIsOk(cfg: Config)
    requires 128 <= cfg.maxHeaderSize && 4 <= cfg.maxHeaders && WEBSOCKET in cfg.upgradeProtocols
    ensures HandshakeOk(cfg, HANDSHAKE)
  {
    HandshakeLine(cfg);
    HandshakeFields();
    HandshakeValues();
    HandshakeUpgrades(cfg);
    OfferFieldsOk(cfg);
    OtherFieldsOk(cfg);
    HandshakeFieldsFit();
    hide UpgradeOf, Values, Normal, FieldsSize, FieldOk, LineOk, ParsedLine;
    assert Normal(HANDSHAKE.fields) == HANDSHAKE_HEADERS;
    FramingIsOk(cfg);
    hide FramingOk, IsChunked, DeclaredLength;
  }

  lemma FramingIsOk(cfg: Config)
    requires Values(HANDSHAKE_HEADERS, CONTENT_LENGTH) == [] && Values(HANDSHAKE_HEADERS, TRANSFER_ENCODING) == []
    ensures FramingOk(cfg, HANDSHAKE_HEADERS) && !IsChunked(HANDSHAKE_HEADERS) && DeclaredLength(HANDSHAKE_HEADERS) == 0
  {
    hide Values;
  }

  lemma RootIsOk(cfg: Config)
    requires 128 <= cfg.maxHeaderSize
    ensures RequestOk(cfg, ROOT)
  {
    RootLine();
  }
}
