/** Requests printed from what a client means: the length of a body in decimal, the sizes of its
    pieces in base 16. The parser gives back the bodies, octet for octet. */
module HttpPrinting {
  import opened Bytes
  import opened Wrappers
  import opened HttpText
  import opened HttpParsing
  import opened HttpSegmentation
  import opened HttpExchanges
  import opened HttpRoundTrip
  import opened Numerals
  import opened Spelling
  import opened HttpGrammar

  /** A piece of a chunked body; its size is printed with any zeros in front and in either case. */
  datatype Piece = Piece(data: Bytes, zeros: nat, capital: bool, ext: Bytes)

  datatype Body =
    | Whole(data: Bytes, zeros: nat)
    | Pieces(pieces: seq<Piece>, end: Piece, trailers: seq<Bytes>)

  /** `before` and `after` are the header fields around the one that frames the body. */
  datatype Message = Message(
    verb: Bytes, path: Bytes, query: Option<Bytes>, version: Version,
    before: seq<FieldLine>, after: seq<FieldLine>, body: Body)

  function SizeText(p: Piece): ChunkText {
    ChunkText(Zeros(p.zeros) + HexText(|p.data|, (i: nat) => p.capital, 0), p.ext, p.data)
  }

  function SizeTexts(pieces: seq<Piece>): seq<ChunkText> {
    if pieces == [] then [] else [SizeText(pieces[0])] + SizeTexts(pieces[1..])
  }

  function FramingField(body: Body): FieldLine {
    match body
    case Whole(data, zeros) => FieldLine(Octets("Content-Length"), [' ' as int] + (Zeros(zeros) + DecimalText(|data|)))
    case Pieces(_, _, _) => FieldLine(Octets("Transfer-Encoding"), Octets(" Chunked"))
  }

  function FieldsOf(m: Message): seq<FieldLine> {
    m.before + ([FramingField(m.body)] + m.after)
  }

  function PayloadOf(body: Body): Payload {
    match body
    case Whole(data, _) => Sized(data)
    case Pieces(pieces, end, trailers) => Chunked(SizeTexts(pieces), SizeText(end), trailers)
  }

  function RequestOf(m: Message): Request {
    Request(m.verb, m.path, m.query, m.version, FieldsOf(m), PayloadOf(m.body))
  }

  function RequestsOf(messages: seq<Message>): seq<Request> {
    if messages == [] then [] else [RequestOf(messages[0])] + RequestsOf(messages[1..])
  }

  // ---- what may be printed

  /** A field that frames nothing and offers nothing. */
  predicate Harmless(cfg: Config, f: FieldLine) {
    && FieldOk(cfg, f)
    && !SameWord(f.name, Octets("content-length")) && !SameWord(f.name, Octets("transfer-encoding"))
    && !SameWord(f.name, Octets("upgrade"))
  }

  predicate AllHarmless(cfg: Config, fields: seq<FieldLine>) {
    forall i :: 0 <= i < |fields| ==> Harmless(cfg, fields[i])
  }

  predicate PieceOk(cfg: Config, p: Piece) {
    && (p.ext == [] || p.ext[0] == ';' as int) && CR !in p.ext
    && |SizeText(p).size + p.ext| < cfg.maxHeaderSize
  }

  function PiecesSize(pieces: seq<Piece>): nat {
    if pieces == [] then 0 else |pieces[0].data| + PiecesSize(pieces[1..])
  }

  ghost predicate BodyOk(cfg: Config, body: Body) {
    match body
    case Whole(data, _) => |data| <= cfg.maxBodySize
    case Pieces(pieces, end, trailers) =>
      && (forall i :: 0 <= i < |pieces| ==> PieceOk(cfg, pieces[i]) && pieces[i].data != [])
      && PiecesSize(pieces) <= cfg.maxBodySize && PieceOk(cfg, end) && end.data == []
      && (forall i :: 0 <= i < |trailers| ==> TrailerOk(cfg, trailers[i]))
  }

  ghost predicate MessageOk(cfg: Config, m: Message) {
    && LineOk(cfg, RequestOf(m)) && 0 < cfg.maxHeaderSize
    && AllHarmless(cfg, m.before) && AllHarmless(cfg, m.after)
    && |FieldText(FramingField(m.body))| < cfg.maxHeaderSize
    && FieldsSize(FieldsOf(m)) <= cfg.maxHeaderSize && |FieldsOf(m)| <= cfg.maxHeaders
    && BodyOk(cfg, m.body)
  }

  // ---- what must come back

  function PieceEvents(pieces: seq<Piece>): seq<Event> {
    if pieces == [] then [] else [BodyChunk(pieces[0].data, true)] + PieceEvents(pieces[1..])
  }

  function BodyEvents(body: Body): seq<Event> {
    match body
    case Whole(data, _) => [BodyChunk(data, false), RequestComplete]
    case Pieces(pieces, _, _) => PieceEvents(pieces) + [BodyChunk([], false), RequestComplete]
  }

  function HeadOf(m: Message): RequestHead {
    RequestHead(ParsedLine(RequestOf(m)), Normal(FieldsOf(m)), None)
  }

  function EventsOf(messages: seq<Message>): seq<Event> {
    if messages == [] then []
    else [HeadComplete(HeadOf(messages[0]))] + BodyEvents(messages[0].body) + EventsOf(messages[1..])
  }

  // ---- the framing field

  lemma {:induction false} NormalConcat(a: seq<FieldLine>, b: seq<FieldLine>)
    ensures Normal(a + b) == Normal(a) + Normal(b)
    decreases |a|
  {
    hide Lower, Trim;
    if a == [] {
      assert a + b == b;
    } else {
      NormalConcat(a[1..], b);
      assert (a + b)[1..] == a[1..] + b && (a + b)[0] == a[0];
    }
  }

  lemma {:induction false} NoneNamed(cfg: Config, fields: seq<FieldLine>, name: Bytes)
    requires AllHarmless(cfg, fields) && name in {CONTENT_LENGTH, TRANSFER_ENCODING, UPGRADE}
    ensures Values(Normal(fields), name) == []
    decreases |fields|
  {
    if fields != [] {
      var first: seq<Header> := [(Lower(fields[0].name), Trim(fields[0].raw))];
      NoneNamed(cfg, fields[1..], name);
      NotNamed(cfg, fields[0], name);
      ValuesConcat(first, Normal(fields[1..]), name);
      hide Values, Lower, Trim, Harmless;
      OneValue(first[0], name);
    }
  }

  lemma NotNamed(cfg: Config, f: FieldLine, name: Bytes)
    requires Harmless(cfg, f) && name in {CONTENT_LENGTH, TRANSFER_ENCODING, UPGRADE}
    ensures Lower(f.name) != name
  {
    NamesAreSpelled();
    NamesAreLower();
    LowerIsCaseless(f.name, name);
    hide Octets, Lower, SameWord, FieldOk;
  }

  lemma NamesAreLower()
    ensures Lower(CONTENT_LENGTH) == CONTENT_LENGTH && Lower(TRANSFER_ENCODING) == TRANSFER_ENCODING && Lower(UPGRADE) == UPGRADE
    ensures Lower(CHUNKED) == CHUNKED
  {
  }

  lemma OneValue(h: Header, name: Bytes)
    ensures Values([h], name) == if h.0 == name then [h.1] else []
  {
    assert [h][..0] == [];
  }

  lemma WholeFraming(data: Bytes, zeros: nat)
    ensures var f, text := FramingField(Whole(data, zeros)), Zeros(zeros) + DecimalText(|data|);
      && Lower(f.name) == CONTENT_LENGTH && Trim(f.raw) == text && IsDigits(text) && Decimal(text) == |data|
      && IsToken(f.name) && forall i :: 0 <= i < |f.raw| ==> IsFieldChar(f.raw[i])
  {
    var text := Zeros(zeros) + DecimalText(|data|);
    DecimalReadsBack(|data|, zeros);
    TrimsOneSpace(text);
    hide DecimalText, Zeros, Decimal, Trim;
    ContentLengthName();
    assert forall i :: 0 <= i < |text| ==> ([' ' as int] + text)[i + 1] == text[i];
  }

  lemma ContentLengthName()
    ensures var name := Octets("Content-Length"); Lower(name) == CONTENT_LENGTH && IsToken(name)
  {
    var name := Octets("Content-Length");
    assert name == [67, 111, 110, 116, 101, 110, 116, 45, 76, 101, 110, 103, 116, 104];
    hide Octets;
    assert Lower(name) == CONTENT_LENGTH;
  }

  lemma PiecesFraming(pieces: seq<Piece>, end: Piece, trailers: seq<Bytes>)
    ensures var f := FramingField(Pieces(pieces, end, trailers));
      && Lower(f.name) == TRANSFER_ENCODING && Lower(Trim(f.raw)) == CHUNKED
      && IsToken(f.name) && forall i :: 0 <= i < |f.raw| ==> IsFieldChar(f.raw[i])
  {
    TransferEncodingName();
    ChunkedWord();
    hide Lower, Trim, Octets;
  }

  lemma TransferEncodingName()
    ensures var name := Octets("Transfer-Encoding"); Lower(name) == TRANSFER_ENCODING && IsToken(name)
  {
    var name := Octets("Transfer-Encoding");
    assert name == [84, 114, 97, 110, 115, 102, 101, 114, 45, 69, 110, 99, 111, 100, 105, 110, 103];
    hide Octets;
    assert Lower(name) == TRANSFER_ENCODING;
  }

  lemma ChunkedWord()
    ensures var raw := Octets(" Chunked");
      Lower(Trim(raw)) == CHUNKED && forall i :: 0 <= i < |raw| ==> IsFieldChar(raw[i])
  {
    var word: Bytes := [67, 104, 117, 110, 107, 101, 100];
    assert Octets(" Chunked") == [' ' as int] + word;
    hide Octets;
    TrimsOneSpace(word);
    hide Trim;
    assert Lower(word) == CHUNKED;
  }

  lemma TrimsOneSpace(text: Bytes)
    requires text != [] && !IsOws(text[0]) && !IsOws(text[|text| - 1])
    ensures Trim([' ' as int] + text) == text
  {
    var b := [' ' as int] + text;
    assert b[1..] == text;
    assert StripLeft(b, IsOws) == StripLeft(text, IsOws) == text;
  }

  /** The framing field's value is the only one of its name, and there is no other framing. */
  lemma OneFraming(cfg: Config, m: Message, name: Bytes)
    requires AllHarmless(cfg, m.before) && AllHarmless(cfg, m.after)
    requires name in {CONTENT_LENGTH, TRANSFER_ENCODING, UPGRADE}
    ensures var f := FramingField(m.body);
      Values(Normal(FieldsOf(m)), name) == if Lower(f.name) == name then [Trim(f.raw)] else []
  {
    var f := FramingField(m.body);
    var here: seq<Header> := [(Lower(f.name), Trim(f.raw))];
    NoneNamed(cfg, m.before, name);
    NoneNamed(cfg, m.after, name);
    assert Normal([f]) == here by {
      assert [f][1..] == [];
    }
    hide Values, Normal, Lower, Trim, FramingField, AllHarmless;
    NormalConcat(m.before, [f] + m.after);
    NormalConcat([f], m.after);
    ValuesConcat(Normal(m.before), here + Normal(m.after), name);
    ValuesConcat(here, Normal(m.after), name);
    OneValue(here[0], name);
  }

  lemma NoUpgrade(cfg: Config, line: RequestLine, headers: seq<Header>)
    requires Values(headers, UPGRADE) == []
    ensures UpgradeOf(cfg, line, headers).None?
  {
  }

  lemma FramingIsSound(cfg: Config, m: Message)
    requires MessageOk(cfg, m)
    ensures FramingOk(cfg, Normal(FieldsOf(m))) && UpgradeOf(cfg, ParsedLine(RequestOf(m)), Normal(FieldsOf(m))).None?
    ensures m.body.Whole? ==>
      !IsChunked(Normal(FieldsOf(m))) && DeclaredLength(Normal(FieldsOf(m))) == |m.body.data|
    ensures m.body.Pieces? ==> IsChunked(Normal(FieldsOf(m)))
    ensures FieldOk(cfg, FramingField(m.body))
  {
    NamesDiffer();
    OneFraming(cfg, m, CONTENT_LENGTH);
    OneFraming(cfg, m, TRANSFER_ENCODING);
    OneFraming(cfg, m, UPGRADE);
    var headers := Normal(FieldsOf(m));
    if m.body.Whole? {
      WholeFraming(m.body.data, m.body.zeros);
      LengthFrames(cfg, headers, Trim(FramingField(m.body).raw), |m.body.data|);
    } else {
      PiecesFraming(m.body.pieces, m.body.end, m.body.trailers);
      CodingFrames(cfg, headers, Trim(FramingField(m.body).raw));
    }
    hide Values, Normal, Lower, Trim, FramingField, AllHarmless, FieldsOf, Decimal, IsDigits, ParsedLine, FramingOk, UpgradeOf, LineOk,
         IsChunked, DeclaredLength, FieldsSize;
    NoUpgrade(cfg, ParsedLine(RequestOf(m)), headers);
  }

  lemma LengthFrames(cfg: Config, headers: seq<Header>, text: Bytes, n: nat)
    requires Values(headers, CONTENT_LENGTH) == [text] && Values(headers, TRANSFER_ENCODING) == []
    requires IsDigits(text) && Decimal(text) == n && n <= cfg.maxBodySize
    ensures FramingOk(cfg, headers) && !IsChunked(headers) && DeclaredLength(headers) == n
  {
  }

  lemma CodingFrames(cfg: Config, headers: seq<Header>, value: Bytes)
    requires Values(headers, CONTENT_LENGTH) == [] && Values(headers, TRANSFER_ENCODING) == [value]
    requires Lower(value) == CHUNKED
    ensures FramingOk(cfg, headers) && IsChunked(headers)
  {
  }

  lemma FieldsAreOk(cfg: Config, m: Message)
    requires MessageOk(cfg, m) && FieldOk(cfg, FramingField(m.body))
    ensures forall i :: 0 <= i < |FieldsOf(m)| ==> FieldOk(cfg, FieldsOf(m)[i])
  {
    hide FieldOk, FramingField, BodyOk, LineOk;
    forall i | 0 <= i < |FieldsOf(m)| ensures FieldOk(cfg, FieldsOf(m)[i]) {
      if i < |m.before| {
        assert FieldsOf(m)[i] == m.before[i] && Harmless(cfg, m.before[i]);
      } else if i > |m.before| {
        assert FieldsOf(m)[i] == m.after[i - |m.before| - 1] && Harmless(cfg, m.after[i - |m.before| - 1]);
      }
    }
  }

  // ---- pieces

  lemma PieceIsOk(cfg: Config, p: Piece)
    requires PieceOk(cfg, p)
    ensures SizeLineOk(cfg, SizeText(p))
  {
    var c := SizeText(p);
    HexReadsBack(|p.data|, (i: nat) => p.capital, 0, p.zeros);
    hide HexText, Zeros, Hexadecimal;
    forall i ensures !CrlfAt(c.size + c.ext, i) {
      if 0 <= i < |c.size| {
        assert (c.size + c.ext)[i] == c.size[i];
      } else if |c.size| <= i < |c.size| + |c.ext| {
        assert (c.size + c.ext)[i] == c.ext[i - |c.size|];
      }
    }
  }

  lemma {:induction false} PiecesAreOk(cfg: Config, pieces: seq<Piece>)
    requires forall i :: 0 <= i < |pieces| ==> PieceOk(cfg, pieces[i]) && pieces[i].data != []
    ensures ChunksOk(cfg, SizeTexts(pieces)) && TotalSize(SizeTexts(pieces)) == PiecesSize(pieces)
    ensures ChunkEvents(SizeTexts(pieces)) == PieceEvents(pieces)
    decreases |pieces|
  {
    if pieces != [] {
      PieceIsOk(cfg, pieces[0]);
      PiecesAreOk(cfg, pieces[1..]);
      hide SizeLineOk, PieceOk;
      var all := SizeTexts(pieces);
      assert all[1..] == SizeTexts(pieces[1..]);
      assert all[0].data == pieces[0].data;
      assert forall i :: 1 <= i < |all| ==> all[i] == all[1..][i - 1];
    }
  }

  lemma PayloadIsOk(cfg: Config, m: Message)
    requires MessageOk(cfg, m)
    ensures PayloadOk(cfg, Normal(FieldsOf(m)), PayloadOf(m.body)) && PayloadEvents(PayloadOf(m.body)) == BodyEvents(m.body)
  {
    FramingIsSound(cfg, m);
    hide Normal, FieldsOf, IsChunked, DeclaredLength, FramingOk, SizeLineOk, ChunksOk, LineOk;
    if m.body.Pieces? {
      PiecesAreOk(cfg, m.body.pieces);
      PieceIsOk(cfg, m.body.end);
    }
  }

  lemma MessageIsOk(cfg: Config, m: Message)
    requires MessageOk(cfg, m)
    ensures RequestOk(cfg, RequestOf(m)) && RequestEvents(RequestOf(m)) == [HeadComplete(HeadOf(m))] + BodyEvents(m.body)
  {
    FramingIsSound(cfg, m);
    FieldsAreOk(cfg, m);
    PayloadIsOk(cfg, m);
    hide LineOk, FieldOk, FieldsOf, FramingOk, UpgradeOf, PayloadOk, Normal, FieldsSize, BodyOk, PayloadOf, ParsedLine, FramingField;
  }

  lemma {:induction false} MessagesAreOk(cfg: Config, messages: seq<Message>)
    requires forall i :: 0 <= i < |messages| ==> MessageOk(cfg, messages[i])
    ensures forall i :: 0 <= i < |RequestsOf(messages)| ==> RequestOk(cfg, RequestsOf(messages)[i])
    ensures StreamEvents(RequestsOf(messages)) == EventsOf(messages)
    decreases |messages|
  {
    hide RequestOk, MessageOk, RequestEvents, RequestOf, HeadOf, BodyEvents;
    if messages != [] {
      MessageIsOk(cfg, messages[0]);
      MessagesAreOk(cfg, messages[1..]);
      var all := RequestsOf(messages);
      assert all[1..] == RequestsOf(messages[1..]);
      assert forall i :: 1 <= i < |all| ==> all[i] == all[1..][i - 1];
    }
  }

  /** Any messages, printed back to back with their lengths in decimal or their pieces' sizes in
      base 16, come back as those heads and those bodies, in order, with nothing left. */
  lemma PrintedRoundTrip(cfg: Config, messages: seq<Message>)
    requires forall i :: 0 <= i < |messages| ==> MessageOk(cfg, messages[i])
    ensures Drain(cfg, Fresh(StreamText(RequestsOf(messages)))) == Outcome(Fresh([]), EventsOf(messages), None, false)
  {
    hide *;
    MessagesAreOk(cfg, messages);
    PipelinedRoundTrip(cfg, RequestsOf(messages));
  }

  /** The same through any cutting of the octets into feeds, with the body pieces joined. */
  lemma PrintedInPieces(cfg: Config, messages: seq<Message>, chunks: seq<Bytes>)
    requires forall i :: 0 <= i < |messages| ==> MessageOk(cfg, messages[i])
    requires Join(chunks) == StreamText(RequestsOf(messages))
    ensures Show([], FeedAll(cfg, Fresh([]), chunks)) == Shown(MergeAll([], EventsOf(messages)), None, Some(Fresh([])))
  {
    hide *;
    MessagesAreOk(cfg, messages);
    RoundTripInPieces(cfg, RequestsOf(messages), chunks);
  }
}
