/** What the parser refuses and with which of its two errors, read off the octets: a step fails with
    an error exactly when the line, the number or the boundary in front of it calls for that one. */
module HttpRefusals {
  import opened Bytes
  import opened Wrappers
  import opened HttpText
  import opened HttpParsing
  import opened Numerals
  import opened Spelling
  import opened HttpGrammar
  import RT = HttpRoundTrip
  import HP = HttpPrinting

  // ---- lines

  /** The first line end is at i, within the limit. */
  ghost predicate EndsAt(limit: nat, b: Bytes, i: nat) {
    CrlfAt(b, i) && i <= limit && forall j :: CrlfAt(b, j) ==> i <= j
  }

  /** No line can end within the limit any more. */
  ghost predicate TooLong(limit: nat, b: Bytes) {
    limit < |b| && forall j :: CrlfAt(b, j) ==> limit < j
  }

  lemma TakeLineExact(limit: nat, b: Bytes)
    ensures TakeLine(limit, b).LineTooLong? <==> TooLong(limit, b)
    ensures forall i: nat :: EndsAt(limit, b, i) ==> i + 2 <= |b| && TakeLine(limit, b) == Line(b[..i], b[i + 2..])
    ensures TakeLine(limit, b).Line? ==> EndsAt(limit, b, |TakeLine(limit, b).line|)
  {
    var at := FindCrlf(b);
    if at != -1 {
      assert CrlfAt(b, at);
    }
  }

  // ---- field lines

  ghost predicate IsNumber(value: Bytes, n: nat) {
    exists zeros: nat :: value == Zeros(zeros) + DecimalText(n)
  }

  /** A value that its name makes unacceptable: a second length, no number, or too high a one; a
      second coding, or another than chunked. */
  ghost predicate ValueRefused(cfg: Config, f: Fields, name: Bytes, value: Bytes, e: Error) {
    || (SameWord(name, Octets("content-length")) &&
        if f.contentLength.Some? || !exists n: nat :: IsNumber(value, n) then e == MalformedRequest
        else e == RequestTooLarge && exists n: nat :: n > cfg.maxBodySize && IsNumber(value, n))
    || (SameWord(name, Octets("transfer-encoding")) &&
        e == MalformedRequest && (f.transferEncodingSeen || !SameWord(value, Octets("chunked"))))
  }

  /** No field line at all, or one more than the limits allow, or such a value. */
  ghost predicate FieldRefused(cfg: Config, f: Fields, line: Bytes, e: Error) {
    if !exists k: nat :: FieldCut(line, k) then e == MalformedRequest
    else if f.headersSize + |line| + 2 > cfg.maxHeaderSize || f.headerCount + 1 > cfg.maxHeaders then e == RequestTooLarge
    else exists k: nat, a: nat, b: nat ::
      FieldCut(line, k) && ValueAt(line, k, a, b) && ValueRefused(cfg, f, line[..k], line[a..b], e)
  }

  lemma LengthRefused(cfg: Config, f: Fields, value: Bytes, e: Error)
    ensures HandleContentLength(cfg, f, value) == BadFields(e) <==>
      if f.contentLength.Some? || !exists n: nat :: IsNumber(value, n) then e == MalformedRequest
      else e == RequestTooLarge && exists n: nat :: n > cfg.maxBodySize && IsNumber(value, n)
  {
    hide Decimal, DecimalText, Zeros;
    if IsDigits(value) {
      var zeros := DigitsArePrinted(value);
      assert IsNumber(value, Decimal(value));
    }
    forall n: nat | IsNumber(value, n) ensures IsDigits(value) && Decimal(value) == n {
      var zeros: nat :| value == Zeros(zeros) + DecimalText(n);
      DecimalReadsBack(n, zeros);
    }
  }

  lemma CodingRefused(f: Fields, value: Bytes, e: Error)
    ensures HandleTransferEncoding(f, value) == BadFields(e) <==>
      e == MalformedRequest && (f.transferEncodingSeen || !SameWord(value, Octets("chunked")))
  {
    TransferEncodingExact(f, value);
    hide SameWord, Octets, Lower;
  }

  lemma NameIs(name: Bytes)
    ensures Lower(name) == CONTENT_LENGTH <==> SameWord(name, Octets("content-length"))
    ensures Lower(name) == TRANSFER_ENCODING <==> SameWord(name, Octets("transfer-encoding"))
    ensures CONTENT_LENGTH != TRANSFER_ENCODING
  {
    NamesAreSpelled();
    LowerIsCaseless(name, CONTENT_LENGTH);
    LowerIsCaseless(CONTENT_LENGTH, CONTENT_LENGTH);
    LowerIsCaseless(name, TRANSFER_ENCODING);
    LowerIsCaseless(TRANSFER_ENCODING, TRANSFER_ENCODING);
    assert NoCapitals(CONTENT_LENGTH) && NoCapitals(TRANSFER_ENCODING);
    hide Octets, SameWord, Lower, NoCapitals;
    assert |CONTENT_LENGTH| != |TRANSFER_ENCODING|;
  }

  lemma ApplyRefused(cfg: Config, f: Fields, name: Bytes, value: Bytes, e: Error)
    ensures ApplyField(cfg, f, Lower(name), value) == BadFields(e) <==> ValueRefused(cfg, f, name, value, e)
  {
    NameIs(name);
    LengthRefused(cfg, f, value, e);
    CodingRefused(f, value, e);
    hide SameWord, Octets, Lower, HandleContentLength, HandleTransferEncoding, HandleUpgrade, Tokens, Split, IsNumber;
  }

  lemma NotBefore(line: Bytes, k: nat, l: nat)
    requires FieldCut(line, k) && FieldCut(line, l)
    ensures l <= k
  {
    assert !IsTokenChar(COLON);
  }

  lemma EmptyValue(line: Bytes, k: nat, a: nat, c: nat, d: nat)
    requires ValueAt(line, k, a, a) && ValueAt(line, k, c, d)
    ensures c == d
  {
    hide Octets;
  }

  /** There is one value only. */
  lemma ValueIsUnique(line: Bytes, k: nat, a: nat, b: nat, c: nat, d: nat)
    requires ValueAt(line, k, a, b) && ValueAt(line, k, c, d)
    ensures line[a..b] == line[c..d]
  {
    hide Octets;
    if a == b {
      EmptyValue(line, k, a, c, d);
    } else if c == d {
      EmptyValue(line, k, c, a, b);
    }
  }

  predicate OverLimits(cfg: Config, f: Fields, line: Bytes) {
    f.headersSize + |line| + 2 > cfg.maxHeaderSize || f.headerCount + 1 > cfg.maxHeaders
  }

  lemma ConsumedAs(cfg: Config, f: Fields, line: Bytes, name: Bytes, value: Bytes, e: Error)
    requires !NotAField(line) && Partition(line, COLON) == Parts(name, true, value)
    ensures ConsumeHeaderLine(cfg, f, line) == BadFields(e) <==>
      if OverLimits(cfg, f, line) then e == RequestTooLarge
      else ApplyField(cfg, f.Record(line, Lower(name), Trim(value)), Lower(name), Trim(value)) == BadFields(e)
  {
    hide ApplyField, Partition, NotAField, Trim, Lower;
  }

  lemma RecordRefuses(cfg: Config, f: Fields, line: Bytes, name: Bytes, value: Bytes, lowered: Bytes, e: Error)
    ensures ValueRefused(cfg, f.Record(line, lowered, value), name, value, e) <==> ValueRefused(cfg, f, name, value, e)
  {
    hide SameWord, Octets, IsNumber;
  }

  lemma FieldRefusedAt(cfg: Config, f: Fields, line: Bytes, k: nat, a: nat, b: nat, e: Error)
    requires FieldCut(line, k) && ValueAt(line, k, a, b)
    ensures FieldRefused(cfg, f, line, e) <==>
      if OverLimits(cfg, f, line) then e == RequestTooLarge else ValueRefused(cfg, f, line[..k], line[a..b], e)
  {
    hide FieldCut, ValueAt, ValueRefused;
    forall l: nat, c: nat, d: nat | FieldCut(line, l) && ValueAt(line, l, c, d) ensures l == k && k <= |line| && a <= b <= |line| && c <= d <= |line| && line[c..d] == line[a..b] {
      NotBefore(line, k, l);
      NotBefore(line, l, k);
      InLine(line, k, a, b);
      InLine(line, k, c, d);
      ValueIsUnique(line, k, a, b, c, d);
    }
  }

  lemma InLine(line: Bytes, k: nat, a: nat, b: nat)
    requires ValueAt(line, k, a, b)
    ensures k < a <= b <= |line|
  {
  }

  lemma NoFieldRefused(cfg: Config, f: Fields, line: Bytes, e: Error)
    requires NotAField(line)
    ensures ConsumeHeaderLine(cfg, f, line) == BadFields(e) <==> FieldRefused(cfg, f, line, e)
  {
    HeaderLineExact(line);
    hide NotAField, FieldCut, ValueAt, ValueRefused;
  }

  /** Which field lines are refused, and how. */
  lemma FieldRefusedExact(cfg: Config, f: Fields, line: Bytes, e: Error)
    ensures ConsumeHeaderLine(cfg, f, line) == BadFields(e) <==> FieldRefused(cfg, f, line, e)
  {
    hide *;
    if NotAField(line) {
      NoFieldRefused(cfg, f, line, e);
    } else {
      var k := FieldLineIs(line);
      var name, value := line[..k], line[k + 1..];
      var x, y := TrimIs(value);
      ValueIsAt(line, k, x, y);
      ConsumedAs(cfg, f, line, name, value, e);
      ApplyRefused(cfg, f.Record(line, Lower(name), Trim(value)), name, Trim(value), e);
      RecordRefuses(cfg, f, line, name, Trim(value), Lower(name), e);
      FieldRefusedAt(cfg, f, line, k, k + 1 + x, k + 1 + y, e);
    }
  }

  // ---- steps

  /** A chunk-size line that says n, in base 16. */
  ghost predicate Announces(line: Bytes, n: nat) {
    exists zeros: nat, capital: nat -> bool, i: nat, j: nat, k: nat :: ChunkLine(line, n, zeros, capital, i, j, k)
  }

  ghost predicate IsRequestLine(line: Bytes) {
    exists r: RequestLine, i: nat, j: nat :: LineReadAt(line, i, j, r)
  }

  /** A head that says its length in two ways, or that asks to switch and has a body. */
  predicate HeadRefused(cfg: Config, st: State) {
    || (st.fields.contentLength.Some? && st.fields.chunked)
    || (DetectUpgrade(cfg, st.line, st.fields).Some? &&
        (st.fields.chunked || (st.fields.contentLength.Some? && st.fields.contentLength.value > 0)))
  }

  /** The parser is about to read a line. */
  predicate ReadsLine(st: State) {
    st.phase.StartLine? || st.phase.Headers? || (st.phase.Body? && st.fields.chunked && (st.chunkPhase.Size? || st.chunkPhase.Trailers?))
  }

  /** What is wrong with a line where the parser stands; with a trailer nothing is. */
  ghost predicate LineRefused(cfg: Config, st: State, line: Bytes, e: Error) {
    match st.phase
    case StartLine => e == MalformedRequest && !IsRequestLine(line)
    case Headers => if line == [] then e == MalformedRequest && HeadRefused(cfg, st) else FieldRefused(cfg, st.fields, line, e)
    case _ =>
      st.chunkPhase.Size? &&
      if !exists n: nat :: Announces(line, n) then e == MalformedRequest
      else e == RequestTooLarge && exists n: nat :: 0 < n && st.bodyTotal + n > cfg.maxBodySize && Announces(line, n)
  }

  ghost predicate Refused(cfg: Config, st: State, e: Error) {
    || (ReadsLine(st) && e == RequestTooLarge && TooLong(cfg.maxHeaderSize, st.buffer))
    || (ReadsLine(st) && exists i: nat :: EndsAt(cfg.maxHeaderSize, st.buffer, i) && LineRefused(cfg, st, st.buffer[..i], e))
    || (st.phase.Body? && st.fields.chunked && st.chunkPhase.DataCrlf? &&
        |st.buffer| >= 2 && st.buffer[..2] != Octets("\r\n") && e == MalformedRequest)
  }

  lemma StartRefused(line: Bytes)
    ensures ParseRequestLine(line).BadLine? <==> !IsRequestLine(line)
  {
    hide ParseRequestLine, LineReadAt;
    if ParseRequestLine(line).GoodLine? {
      RequestLineExact(line, ParseRequestLine(line).line);
    }
    if IsRequestLine(line) {
      var r: RequestLine, i: nat, j: nat :| LineReadAt(line, i, j, r);
      RequestLineExact(line, r);
    }
  }

  lemma SizeRefused(cfg: Config, line: Bytes, total: nat)
    ensures ChunkSize(line).None? <==> !exists n: nat :: Announces(line, n)
    ensures ChunkSize(line).Some? && 0 < ChunkSize(line).value && total + ChunkSize(line).value > cfg.maxBodySize <==>
      exists n: nat :: 0 < n && total + n > cfg.maxBodySize && Announces(line, n)
  {
    hide ChunkSize, Announces;
    if ChunkSize(line).Some? {
      SizeAnnounced(line, ChunkSize(line).value);
    }
    forall n: nat | Announces(line, n) ensures ChunkSize(line) == Some(n) {
      SizeAnnounced(line, n);
    }
  }

  lemma SizeAnnounced(line: Bytes, n: nat)
    ensures Announces(line, n) <==> ChunkSize(line) == Some(n)
  {
    hide ChunkSize, ChunkLine;
    ChunkSizeExact(line, n);
  }

  lemma StartStepRefused(cfg: Config, st: State, line: Bytes, rest: Bytes, e: Error)
    requires st.Live() && st.phase.StartLine? && TakeLine(cfg.maxHeaderSize, st.buffer) == Line(line, rest)
    ensures Next(cfg, st).Failed? && Next(cfg, st).error == e <==> LineRefused(cfg, st, line, e)
  {
    StartRefused(line);
    hide TakeLine, ParseRequestLine, IsRequestLine, FieldRefused, Announces;
  }

  lemma HeadersStepRefused(cfg: Config, st: State, line: Bytes, rest: Bytes, e: Error)
    requires st.Live() && st.phase.Headers? && TakeLine(cfg.maxHeaderSize, st.buffer) == Line(line, rest)
    ensures Next(cfg, st).Failed? && Next(cfg, st).error == e <==> LineRefused(cfg, st, line, e)
  {
    FieldRefusedExact(cfg, st.fields, line, e);
    hide TakeLine, ConsumeHeaderLine, FieldRefused, DetectUpgrade, IsRequestLine, Announces;
  }

  lemma ChunkStepRefused(cfg: Config, st: State, line: Bytes, rest: Bytes, e: Error)
    requires st.Live() && st.phase.Body? && ReadsLine(st) && TakeLine(cfg.maxHeaderSize, st.buffer) == Line(line, rest)
    ensures Next(cfg, st).Failed? && Next(cfg, st).error == e <==> LineRefused(cfg, st, line, e)
  {
    SizeRefused(cfg, line, st.bodyTotal);
    hide TakeLine, ChunkSize, Announces, IsRequestLine, FieldRefused;
  }

  /** Where the line is whole, the step fails as the line says. */
  lemma LineStepRefused(cfg: Config, st: State, i: nat, e: Error)
    requires st.Live() && ReadsLine(st) && EndsAt(cfg.maxHeaderSize, st.buffer, i)
    ensures i <= |st.buffer| && (Next(cfg, st).Failed? && Next(cfg, st).error == e <==> LineRefused(cfg, st, st.buffer[..i], e))
  {
    TakeLineExact(cfg.maxHeaderSize, st.buffer);
    hide TakeLine, EndsAt, Next, LineRefused;
    var line, rest := st.buffer[..i], st.buffer[i + 2..];
    match st.phase {
      case StartLine => StartStepRefused(cfg, st, line, rest, e);
      case Headers => HeadersStepRefused(cfg, st, line, rest, e);
      case Body => ChunkStepRefused(cfg, st, line, rest, e);
    }
  }

  lemma NoLineStepRefused(cfg: Config, st: State, e: Error)
    requires st.Live() && ReadsLine(st) && !TakeLine(cfg.maxHeaderSize, st.buffer).Line?
    ensures Next(cfg, st).Failed? && Next(cfg, st).error == e <==> e == RequestTooLarge && TooLong(cfg.maxHeaderSize, st.buffer)
  {
    TakeLineExact(cfg.maxHeaderSize, st.buffer);
    hide TakeLine, EndsAt, TooLong, ParseRequestLine, ConsumeHeaderLine, ChunkSize, DetectUpgrade;
  }

  lemma OtherStepRefused(cfg: Config, st: State, e: Error)
    requires st.Live() && !ReadsLine(st)
    ensures Next(cfg, st).Failed? && Next(cfg, st).error == e <==> Refused(cfg, st, e)
  {
    assert Octets("\r\n") == CRLF;
    hide Octets, LineRefused;
  }

  /** In every state, for every buffer and both errors. */
  lemma RefusalsExact(cfg: Config, st: State, e: Error)
    requires st.Live()
    ensures Next(cfg, st).Failed? && Next(cfg, st).error == e <==> Refused(cfg, st, e)
  {
    if ReadsLine(st) {
      hide Next, LineRefused, Octets, EndsAt, TooLong, TakeLine, CrlfAt;
      TakeLineExact(cfg.maxHeaderSize, st.buffer);
      if TakeLine(cfg.maxHeaderSize, st.buffer).Line? {
        var i := |TakeLine(cfg.maxHeaderSize, st.buffer).line|;
        LineStepRefused(cfg, st, i, e);
      } else {
        NoLineStepRefused(cfg, st, e);
      }
    } else {
      hide *;
      OtherStepRefused(cfg, st, e);
    }
  }

  lemma FailsAtOnce(cfg: Config, st: State, e: Error)
    requires st.Live() && Next(cfg, st).Failed? && Next(cfg, st).error == e
    ensures Drain(cfg, st).error == Some(e) && Drain(cfg, st).events == []
  {
    hide Next;
  }

  lemma AfterEvents(r: Outcome, events: seq<Event>)
    requires r.events == []
    ensures r.After(events, false).events == events && r.After(events, false).error == r.error
  {
  }

  /** Whatever well-formed messages come first, printed with their numbers, they are all reported,
      and then input that is refused where a request should begin ends the parse with its error. */
  lemma PrintedThenRefused(cfg: Config, messages: seq<HP.Message>, rest: Bytes, e: Error)
    requires forall i :: 0 <= i < |messages| ==> HP.MessageOk(cfg, messages[i])
    requires Refused(cfg, Fresh(rest), e)
    ensures var r := Drain(cfg, Fresh(RT.StreamText(HP.RequestsOf(messages)) + rest));
      r.error == Some(e) && r.events == HP.EventsOf(messages)
  {
    hide *;
    HP.MessagesAreOk(cfg, messages);
    RT.ReadsStream(cfg, HP.RequestsOf(messages), rest);
    RefusalsExact(cfg, Fresh(rest), e);
    FailsAtOnce(cfg, Fresh(rest), e);
    AfterEvents(Drain(cfg, Fresh(rest)), HP.EventsOf(messages));
    ReadsAre(cfg, Fresh(RT.StreamText(HP.RequestsOf(messages)) + rest), Fresh(rest), HP.EventsOf(messages));
  }

  lemma ReadsAre(cfg: Config, st: State, next: State, events: seq<Event>)
    requires RT.Reads(cfg, st, next, events)
    ensures st.Live() && next.Live() && Drain(cfg, st) == Drain(cfg, next).After(events, false)
  {
    hide Drain;
  }
}
