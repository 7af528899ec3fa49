/** What the parser accepts line by line, as grammars over the line's own octets: each test is an
    if-and-only-if, and none names the parser's functions on its right-hand side. */
module HttpGrammar {
  import opened Bytes
  import opened Wrappers
  import opened HttpText
  import opened HttpParsing
  import opened HttpExchanges
  import opened Numerals
  import opened Spelling
  import opened HttpLists

  lemma NamesAreSpelled()
    ensures CONTENT_LENGTH == Octets("content-length") && TRANSFER_ENCODING == Octets("transfer-encoding")
    ensures CONNECTION == Octets("connection") && UPGRADE == Octets("upgrade")
    ensures CHUNKED == Octets("chunked") && GET == Octets("GET")
  {
  }

  // ---- Content-Length and Transfer-Encoding

  /** A Content-Length is taken exactly when it is the first, is a number in decimal with any
      zeros in front, and is within the limit; and then it is that number. */
  lemma ContentLengthExact(cfg: Config, f: Fields, value: Bytes, n: nat)
    ensures HandleContentLength(cfg, f, value) == GoodFields(f.(contentLength := Some(n))) <==>
      f.contentLength.None? && n <= cfg.maxBodySize && exists zeros: nat :: value == Zeros(zeros) + DecimalText(n)
    ensures HandleContentLength(cfg, f, value) == BadFields(RequestTooLarge) <==>
      f.contentLength.None? &&
      exists zeros: nat, m: nat :: m > cfg.maxBodySize && value == Zeros(zeros) + DecimalText(m)
  {
    hide Decimal, DecimalText, Zeros;
    if IsDigits(value) {
      var zeros := DigitsArePrinted(value);
      assert value == Zeros(zeros) + DecimalText(Decimal(value));
    }
    forall zeros: nat, m: nat | value == Zeros(zeros) + DecimalText(m) ensures IsDigits(value) && Decimal(value) == m {
      DecimalReadsBack(m, zeros);
    }
  }

  /** A Transfer-Encoding is taken exactly when it is the first and the word "chunked". */
  lemma TransferEncodingExact(f: Fields, value: Bytes)
    ensures HandleTransferEncoding(f, value).GoodFields? <==>
      !f.transferEncodingSeen && SameWord(value, Octets("chunked"))
    ensures HandleTransferEncoding(f, value).GoodFields? ==>
      HandleTransferEncoding(f, value).fields == f.(transferEncodingSeen := true, chunked := true)
  {
    NamesAreSpelled();
    LowerIsCaseless(value, CHUNKED);
    LowerIsCaseless(CHUNKED, CHUNKED);
    if COMMA in value && Lower(value) == CHUNKED {
      CommaStays(value);
    }
    hide Octets, SameWord, Lower, NoCapitals;
  }

  lemma CommaStays(value: Bytes)
    requires COMMA in value
    ensures COMMA in Lower(value)
  {
    var i :| 0 <= i < |value| && value[i] == COMMA;
    assert Lower(value)[i] == COMMA;
  }

  // ---- the request line

  function VersionOctets(v: Version): Bytes {
    match v
    case Http10 => Octets("HTTP/1.0")
    case Http11 => Octets("HTTP/1.1")
  }

  lemma VersionsAreSpelled(v: Version)
    ensures VersionText(v) == VersionOctets(v)
    ensures forall w: Version :: VersionText(v) == VersionText(w) <==> v == w
  {
    assert forall w: Version :: VersionText(w)[7] == if w == Http10 then '0' as int else '1' as int;
  }

  /** verb SP target SP version, cut at the two spaces. */
  predicate LineCut(line: Bytes, i: nat, j: nat) {
    && 0 < i && i + 1 < j < |line| && line[i] == ' ' as int && line[j] == ' ' as int
    && (forall k :: 0 <= k < i ==> IsTokenChar(line[k]))
    && (forall k :: i < k < j ==> '!' as int <= line[k] <= '~' as int)
    && (line[j + 1..] == VersionOctets(Http10) || line[j + 1..] == VersionOctets(Http11))
  }

  /** The target's parts: what stands before its first question mark, and what behind. */
  predicate TargetCut(target: Bytes, path: Bytes, query: Bytes) {
    && '?' as int !in path
    && (if '?' as int in target then target == path + ['?' as int] + query else target == path && query == [])
  }

  predicate LineReadAt(line: Bytes, i: nat, j: nat, r: RequestLine) {
    && LineCut(line, i, j)
    && r.verb == line[..i] && r.target == line[i + 1..j] && TargetCut(r.target, r.path, r.query)
    && line[j + 1..] == VersionOctets(r.version)
  }

  lemma {:induction false} ThreeParts(line: Bytes, verb: Bytes, target: Bytes, version: Bytes)
    requires SP !in verb && SP !in target && SP !in version && line == verb + [SP] + (target + [SP] + version)
    ensures Split(line, SP) == [verb, target, version]
  {
    SplitFirst(verb, SP, target + [SP] + version);
    SplitFirst(target, SP, version);
    SplitNone(version, SP);
    hide Split;
  }

  lemma CutsInThree(line: Bytes, i: nat, j: nat)
    requires i < j < |line| && line[i] == SP && line[j] == SP
    requires SP !in line[..i] && SP !in line[i + 1..j] && SP !in line[j + 1..]
    ensures Split(line, SP) == [line[..i], line[i + 1..j], line[j + 1..]]
  {
    hide *;
    CutAndGlued(line, i, j);
    ThreeParts(line, line[..i], line[i + 1..j], line[j + 1..]);
  }

  lemma CutAndGlued(line: Bytes, i: nat, j: nat)
    requires i < j < |line| && line[i] == SP && line[j] == SP
    ensures line == line[..i] + [SP] + (line[i + 1..j] + [SP] + line[j + 1..])
  {
    assert line[i + 1..] == line[i + 1..j] + [SP] + line[j + 1..];
    assert line == line[..i] + [SP] + line[i + 1..];
  }

  function Rejoined(parts: seq<Bytes>, sep: byte): Bytes
    requires parts != []
  {
    if |parts| == 1 then parts[0] else parts[0] + [sep] + Rejoined(parts[1..], sep)
  }

  lemma {:induction false} SplitRejoins(b: Bytes, sep: byte)
    ensures Rejoined(Split(b, sep), sep) == b
    ensures forall k :: 0 <= k < |Split(b, sep)| ==> sep !in Split(b, sep)[k]
    decreases |b|
  {
    if b != [] {
      var rest := Split(b[1..], sep);
      SplitRejoins(b[1..], sep);
      assert b == [b[0]] + b[1..];
      if b[0] == sep {
        assert Split(b, sep)[1..] == rest;
      } else {
        assert Split(b, sep)[1..] == rest[1..];
      }
    }
  }

  lemma RejoinedThree(parts: seq<Bytes>, sep: byte)
    requires |parts| == 3
    ensures Rejoined(parts, sep) == parts[0] + [sep] + (parts[1] + [sep] + parts[2])
  {
    assert Rejoined(parts[1..], sep) == parts[1] + [sep] + Rejoined(parts[1..][1..], sep);
  }

  /** A line in three parts is cut at two spaces. */
  lemma SpacesOf(line: Bytes) returns (i: nat, j: nat)
    requires |Split(line, SP)| == 3
    ensures i < j < |line| && line[i] == SP && line[j] == SP
    ensures Split(line, SP) == [line[..i], line[i + 1..j], line[j + 1..]]
    ensures SP !in line[..i] && SP !in line[i + 1..j] && SP !in line[j + 1..]
  {
    var parts := Split(line, SP);
    SplitRejoins(line, SP);
    RejoinedThree(parts, SP);
    hide *;
    i, j := |parts[0]|, |parts[0]| + 1 + |parts[1]|;
    CutBack(parts[0], parts[1], parts[2]);
    assert parts == [parts[0], parts[1], parts[2]];
  }

  lemma CutBack(a: Bytes, b: Bytes, c: Bytes)
    ensures var line, i, j := a + [SP] + (b + [SP] + c), |a|, |a| + 1 + |b|;
      line[i] == SP && line[j] == SP && line[..i] == a && line[i + 1..j] == b && line[j + 1..] == c
  {
  }

  /** The parser's cut of a target is the one at the first question mark. */
  lemma TargetIsCut(target: Bytes, path: Bytes, query: Bytes)
    ensures TargetCut(target, path, query) <==>
      Partition(target, QUESTION).before == path && Partition(target, QUESTION).after == query
  {
    var cut := Partition(target, QUESTION);
    if cut.found {
      assert target[|cut.before|] == QUESTION;
    }
    hide Partition;
    if TargetCut(target, path, query) {
      if QUESTION in target {
        PartitionUnique(path, QUESTION, query);
      } else {
        PartitionNone(target, QUESTION);
      }
    }
  }

  /** A line whose parts are those of a request has no control octet. */
  lemma CutHasNoControl(line: Bytes, i: nat, j: nat)
    requires LineCut(line, i, j)
    ensures !HasControl(line) && SP !in line[..i] && SP !in line[i + 1..j] && SP !in line[j + 1..]
    ensures IsToken(line[..i]) && IsAscii(line[i + 1..j])
  {
    VersionsAreSpelled(Http10);
    VersionsAreSpelled(Http11);
    hide VersionOctets;
    forall k | 0 <= k < |line| ensures !IsControl(line[k]) {
      if k > j {
        assert line[k] == line[j + 1..][k - j - 1];
      }
    }
  }

  lemma GoodLineIsCut(line: Bytes, r: RequestLine) returns (i: nat, j: nat)
    requires ParseRequestLine(line) == GoodLine(r)
    ensures LineReadAt(line, i, j, r)
  {
    VersionsAreSpelled(Http10);
    VersionsAreSpelled(Http11);
    i, j := SpacesOf(line);
    hide Split, Partition, LineCut, TargetCut, VersionText, VersionOctets, HasControl;
    TargetIsCut(r.target, r.path, r.query);
    PartsAreLegal(line, i, j);
  }

  lemma CutIsGoodLine(line: Bytes, i: nat, j: nat, r: RequestLine)
    requires LineReadAt(line, i, j, r)
    ensures ParseRequestLine(line) == GoodLine(r)
  {
    VersionsAreSpelled(Http10);
    VersionsAreSpelled(Http11);
    CutHasNoControl(line, i, j);
    CutsInThree(line, i, j);
    TargetIsCut(r.target, r.path, r.query);
    hide Split, Partition, TargetCut, VersionText, VersionOctets, HasControl, IsToken, IsAscii;
  }

  /** Which request lines are read, and as what. */
  lemma RequestLineExact(line: Bytes, r: RequestLine)
    ensures ParseRequestLine(line) == GoodLine(r) <==> exists i: nat, j: nat :: LineReadAt(line, i, j, r)
  {
    hide *;
    if ParseRequestLine(line) == GoodLine(r) {
      var i, j := GoodLineIsCut(line, r);
    }
    if i: nat, j: nat :| LineReadAt(line, i, j, r) {
      CutIsGoodLine(line, i, j, r);
    }
  }

  lemma PartsAreLegal(line: Bytes, i: nat, j: nat)
    requires i < j < |line| && line[i] == SP && line[j] == SP && SP !in line[i + 1..j]
    requires !HasControl(line) && IsToken(line[..i]) && line[i + 1..j] != [] && IsAscii(line[i + 1..j])
    requires line[j + 1..] == VersionText(Http10) || line[j + 1..] == VersionText(Http11)
    ensures LineCut(line, i, j)
  {
    VersionsAreSpelled(Http10);
    VersionsAreSpelled(Http11);
    hide VersionOctets;
    forall k | 0 <= k < i ensures IsTokenChar(line[k]) {
      assert line[k] == line[..i][k];
    }
    forall k | i < k < j ensures '!' as int <= line[k] <= '~' as int {
      assert line[k] == line[i + 1..j][k - i - 1];
      assert !IsControl(line[k]);
    }
  }

  // ---- header lines

  /** A token, a colon, and no control octet but tabs. */
  predicate FieldCut(line: Bytes, k: nat) {
    && 0 < k < |line| && line[k] == ':' as int && (forall i :: 0 <= i < k ==> IsTokenChar(line[i]))
    && (forall i :: 0 <= i < |line| ==> line[i] == '\t' as int || (' ' as int <= line[i] && line[i] != 0x7F))
  }

  /** From a up to b stands the value: nothing but spaces and tabs before and behind it, and
      neither at its ends. */
  ghost predicate ValueAt(line: Bytes, k: nat, a: nat, b: nat) {
    && k < a <= b <= |line|
    && (forall i :: k < i < a || b <= i < |line| ==> line[i] in Octets(" \t"))
    && (a < b ==> line[a] !in Octets(" \t") && line[b - 1] !in Octets(" \t"))
  }

  lemma FieldLineIs(line: Bytes) returns (k: nat)
    requires !NotAField(line)
    ensures k < |line| && FieldCut(line, k) && Partition(line, COLON) == Parts(line[..k], true, line[k + 1..])
  {
    var cut := Partition(line, COLON);
    k := |cut.before|;
    assert line == cut.before + [COLON] + cut.after;
    assert forall i :: 0 <= i < |line| ==> line[i] == HTAB || !IsControl(line[i]);
    hide Partition;
    assert cut.before == line[..k] && cut.after == line[k + 1..];
  }

  lemma FieldLineIf(line: Bytes, k: nat)
    requires FieldCut(line, k)
    ensures !NotAField(line) && Partition(line, COLON) == Parts(line[..k], true, line[k + 1..])
  {
    assert COLON !in line[..k];
    assert line == line[..k] + [COLON] + line[k + 1..];
    PartitionUnique(line[..k], COLON, line[k + 1..]);
    assert IsToken(line[..k]) && !IsOws(line[0]);
    hide Partition, IsToken, IsTokenChar;
  }

  /** Which lines are header lines. */
  lemma HeaderLineExact(line: Bytes)
    ensures !NotAField(line) <==> exists k: nat :: FieldCut(line, k)
  {
    hide *;
    if !NotAField(line) {
      var k := FieldLineIs(line);
    }
    if k: nat :| FieldCut(line, k) {
      FieldLineIf(line, k);
    }
  }

  lemma {:induction false} TrimsLeft(p: Bytes) returns (a: nat)
    ensures a <= |p| && StripLeft(p, IsOws) == p[a..] && (forall i :: 0 <= i < a ==> IsOws(p[i])) && (a < |p| ==> !IsOws(p[a]))
    decreases |p|
  {
    a := 0;
    if p != [] && IsOws(p[0]) {
      var n := TrimsLeft(p[1..]);
      a := n + 1;
    }
  }

  lemma {:induction false} TrimsRight(p: Bytes) returns (b: nat)
    ensures b <= |p| && StripRight(p, IsOws) == p[..b] && (forall i :: b <= i < |p| ==> IsOws(p[i])) && (b > 0 ==> !IsOws(p[b - 1]))
    decreases |p|
  {
    b := |p|;
    if p != [] && IsOws(p[|p| - 1]) {
      b := TrimsRight(p[..|p| - 1]);
      LongerEnd(p, b);
    }
  }

  /** From x up to y stands what is left of the value. */
  predicate TrimmedTo(value: Bytes, x: nat, y: nat) {
    && x <= y <= |value|
    && (forall i :: 0 <= i < x ==> IsOws(value[i])) && (forall i :: y <= i < |value| ==> IsOws(value[i]))
    && (x < y ==> !IsOws(value[x]) && !IsOws(value[y - 1]))
  }

  lemma TrimIs(value: Bytes) returns (x: nat, y: nat)
    ensures TrimmedTo(value, x, y) && Trim(value) == value[x..y]
  {
    x := TrimsLeft(value);
    var n := TrimsRight(value[x..]);
    y := x + n;
    hide StripLeft, StripRight;
    assert value[x..][..n] == value[x..y];
    forall i | y <= i < |value| ensures IsOws(value[i]) {
      assert value[i] == value[x..][i - x];
    }
  }

  lemma ValueIsAt(line: Bytes, k: nat, x: nat, y: nat)
    requires k < |line| && TrimmedTo(line[k + 1..], x, y)
    ensures ValueAt(line, k, k + 1 + x, k + 1 + y) && line[k + 1..][x..y] == line[k + 1 + x..k + 1 + y]
  {
    var blanks, value := Octets(" \t"), line[k + 1..];
    forall c: byte ensures c in blanks <==> IsOws(c) {
      ClassesAreSpelled(c);
    }
    hide Octets, IsOws;
    assert forall i :: k < i < |line| ==> line[i] == value[i - k - 1];
  }

  predicate RecordedAs(f: Fields, g: Fields, name: Bytes, value: Bytes) {
    g.headers == f.headers + [(name, value)]
  }

  /** What a header line is recorded as: its name in lower case, and its value. */
  lemma HeaderLineMeans(cfg: Config, f: Fields, line: Bytes) returns (k: nat, a: nat, b: nat, name: Bytes)
    requires ConsumeHeaderLine(cfg, f, line).GoodFields?
    ensures FieldCut(line, k) && ValueAt(line, k, a, b) && SameWord(name, line[..k]) && NoCapitals(name)
    ensures RecordedAs(f, ConsumeHeaderLine(cfg, f, line).fields, name, line[a..b])
  {
    hide *;
    LegalLine(cfg, f, line);
    k := FieldLineIs(line);
    var value := line[k + 1..];
    name := Lower(line[..k]);
    RecordsLine(cfg, f, line, line[..k], value);
    NameIsLowered(line[..k]);
    var x, y := TrimIs(value);
    ValueIsAt(line, k, x, y);
    a, b := k + 1 + x, k + 1 + y;
  }

  lemma NameIsLowered(name: Bytes)
    ensures SameWord(Lower(name), name) && NoCapitals(Lower(name))
  {
    LowerIsCaseless(Lower(name), name);
    LowerIsCaseless(name, name);
    LowerIsCaseless(Lower(name), Lower(name));
  }

  lemma LegalLine(cfg: Config, f: Fields, line: Bytes)
    requires ConsumeHeaderLine(cfg, f, line).GoodFields?
    ensures !NotAField(line)
  {
  }

  lemma RecordsLine(cfg: Config, f: Fields, line: Bytes, name: Bytes, value: Bytes)
    requires ConsumeHeaderLine(cfg, f, line).GoodFields? && Partition(line, COLON) == Parts(name, true, value)
    ensures RecordedAs(f, ConsumeHeaderLine(cfg, f, line).fields, Lower(name), Trim(value))
  {
    hide ApplyField, Partition, NotAField, Trim, Lower;
  }

  // ---- chunk sizes

  /** Blanks, a number in base 16 with any zeros in front, blanks, and then the end or a semicolon. */
  predicate ChunkLine(line: Bytes, n: nat, zeros: nat, capital: nat -> bool, i: nat, j: nat, k: nat) {
    && i <= j <= k <= |line| && AllBlank(line[..i]) && AllBlank(line[j..k])
    && line[i..j] == Zeros(zeros) + HexText(n, capital, 0)
    && (k == |line| || line[k] == ';' as int)
  }

  /** Which chunk-size lines are read, and as what size. */
  lemma ChunkSizeExact(line: Bytes, n: nat)
    ensures ChunkSize(line) == Some(n) <==>
      exists zeros: nat, capital: nat -> bool, i: nat, j: nat, k: nat :: ChunkLine(line, n, zeros, capital, i, j, k)
  {
    hide *;
    if ChunkSize(line) == Some(n) {
      var zeros, capital, i, j, k := SizeIsPrinted(line, n);
    }
    if zeros: nat, capital: nat -> bool, i: nat, j: nat, k: nat :| ChunkLine(line, n, zeros, capital, i, j, k) {
      PrintedIsSize(line, n, zeros, capital, i, j, k);
    }
  }

  lemma SizeIsPrinted(line: Bytes, n: nat) returns (zeros: nat, capital: nat -> bool, i: nat, j: nat, k: nat)
    requires ChunkSize(line) == Some(n)
    ensures ChunkLine(line, n, zeros, capital, i, j, k)
  {
    var part := Split(line, SEMICOLON)[0];
    k := |part|;
    FirstPart(line, SEMICOLON);
    i, j := StripIs(part);
    var token := part[i..j];
    zeros := HexDigitsArePrinted(token);
    capital := CapitalsOf(token);
    hide Split, Strip, Hexadecimal, HexText, Zeros, CapitalsOf;
    assert token == line[i..j] && part[..i] == line[..i] && part[j..] == line[j..k];
  }

  lemma PrintedIsSize(line: Bytes, n: nat, zeros: nat, capital: nat -> bool, i: nat, j: nat, k: nat)
    requires ChunkLine(line, n, zeros, capital, i, j, k)
    ensures ChunkSize(line) == Some(n)
  {
    var part := Split(line, SEMICOLON)[0];
    HexReadsBack(n, capital, 0, zeros);
    FirstPart(line, SEMICOLON);
    NoSemicolon(line, i, j, k);
    SameEnd(line, SEMICOLON, k, |part|);
    assert part == line[..k];
    hide Split, Hexadecimal, HexText, Zeros, IsHex;
    assert part[..i] == line[..i] && part[j..] == line[j..k] && line[i..j] == part[i..j];
    StripsToHex(part, i, j);
    hide Strip;
  }

  lemma StripsToHex(part: Bytes, i: nat, j: nat)
    requires i <= j <= |part| && AllBlank(part[..i]) && AllBlank(part[j..]) && IsHex(part[i..j])
    ensures Strip(part, IsSpace) == part[i..j]
  {
    var a, b := StripIs(part);
    HexHasNoBlankEnds(part[i..j]);
    hide Strip, IsHex;
    BlanksAreUnique(part, a, b, i, j);
  }

  lemma HexHasNoBlankEnds(token: Bytes)
    requires IsHex(token)
    ensures token != [] && !IsSpace(token[0]) && !IsSpace(token[|token| - 1])
  {
  }

  lemma NoSemicolon(line: Bytes, i: nat, j: nat, k: nat)
    requires i <= j <= k <= |line| && AllBlank(line[..i]) && AllBlank(line[j..k]) && IsHex(line[i..j])
    ensures SEMICOLON !in line[..k]
  {
    forall x | 0 <= x < k ensures line[x] != SEMICOLON {
      if x < i {
        assert line[x] == line[..i][x];
      } else if x < j {
        assert line[x] == line[i..j][x - i];
      } else {
        assert line[x] == line[j..k][x - j];
      }
    }
  }

  // ---- what a head asks for

  /** Some Connection field lists that word. */
  ghost predicate Mentions(headers: seq<Header>, word: Bytes) {
    exists i :: 0 <= i < |headers| && MentionsAt(headers[i], word)
  }

  ghost predicate MentionsAt(header: Header, word: Bytes) {
    header.0 == Octets("connection") && Lists(header.1, word)
  }

  lemma {:induction false} TokenIsMentioned(headers: seq<Header>, word: Bytes)
    requires IsKeyword(word)
    ensures word in AllTokens(Values(headers, CONNECTION)) <==> Mentions(headers, word)
    decreases |headers|
  {
    hide IsKeyword, Tokens, Lists;
    if headers != [] {
      var n := |headers| - 1;
      var front, last := headers[..n], headers[n];
      TokenIsMentioned(front, word);
      LastMentions(last, word);
      assert headers == front + [last];
      hide Mentions;
      LastHeader(front, last, word);
      MentionsLast(front, last, word);
    }
  }

  lemma LastMentions(last: Header, word: Bytes)
    requires IsKeyword(word)
    ensures MentionsAt(last, word) <==> last.0 == CONNECTION && word in Tokens(Split(last.1, COMMA))
  {
    NamesAreSpelled();
    TokensAreListed(last.1, word);
    hide Tokens, Split, Lists, IsKeyword;
  }

  lemma LastHeader(front: seq<Header>, last: Header, word: Bytes)
    ensures word in AllTokens(Values(front + [last], CONNECTION)) <==>
      word in AllTokens(Values(front, CONNECTION)) || (last.0 == CONNECTION && word in Tokens(Split(last.1, COMMA)))
  {
    ValuesAppend(front, last, CONNECTION);
    TokensAppend(Values(front, CONNECTION), last.1);
    hide Values, AllTokens, Tokens, Split;
  }

  lemma MentionsLast(front: seq<Header>, last: Header, word: Bytes)
    ensures Mentions(front + [last], word) <==> Mentions(front, word) || MentionsAt(last, word)
  {
    var all := front + [last];
    assert all[|front|] == last;
    assert forall i :: 0 <= i < |front| ==> all[i] == front[i];
    hide MentionsAt;
  }

  /** The one field of that name. */
  predicate OnlyAt(headers: seq<Header>, name: Bytes, i: nat) {
    i < |headers| && headers[i].0 == name && forall j :: 0 <= j < |headers| && j != i ==> headers[j].0 != name
  }

  lemma {:induction false} ValuesCount(headers: seq<Header>, name: Bytes)
    ensures Values(headers, name) == [] <==> forall j :: 0 <= j < |headers| ==> headers[j].0 != name
    ensures forall i: nat :: OnlyAt(headers, name, i) ==> Values(headers, name) == [headers[i].1]
    ensures |Values(headers, name)| == 1 ==> exists i: nat :: OnlyAt(headers, name, i)
    decreases |headers|
  {
    if headers != [] {
      var n := |headers| - 1;
      var front := headers[..n];
      ValuesCount(front, name);
      assert headers == front + [headers[n]];
      ValuesAppend(front, headers[n], name);
      assert forall j :: 0 <= j < n ==> front[j] == headers[j];
      hide Values;
      if headers[n].0 == name {
        if Values(front, name) == [] {
          assert OnlyAt(headers, name, n);
        }
        forall i: nat | OnlyAt(headers, name, i) ensures i == n {
          assert headers[n].0 == name;
        }
      } else {
        assert forall i: nat :: OnlyAt(headers, name, i) <==> OnlyAt(front, name, i);
      }
    }
  }

  /** Which heads switch to that protocol: an HTTP/1.1 GET with that one Upgrade offer and the
      word "upgrade" in some Connection field. */
  ghost predicate AsksToSwitch(cfg: Config, line: RequestLine, headers: seq<Header>, protocol: Bytes, i: nat) {
    && line.verb == Octets("GET") && line.version == Http11 && protocol in cfg.upgradeProtocols
    && OnlyAt(headers, Octets("upgrade"), i) && IsPaddedWord(headers[i].1, protocol)
    && Mentions(headers, Octets("upgrade"))
  }

  lemma UpgradeExact(cfg: Config, line: RequestLine, headers: seq<Header>, protocol: Bytes)
    requires IsKeyword(protocol) && IsAscii(protocol)
    ensures UpgradeOf(cfg, line, headers) == Some(protocol) <==> exists i: nat :: AsksToSwitch(cfg, line, headers, protocol, i)
  {
    NamesAreSpelled();
    UpgradeIsKeyword();
    TokenIsMentioned(headers, UPGRADE);
    ValuesCount(headers, UPGRADE);
    hide Octets, IsKeyword, AllTokens, Values, Mentions, Strip, Lower, OnlyAt, IsAscii, IsPaddedWord;
    if UpgradeOf(cfg, line, headers) == Some(protocol) {
      var i: nat :| OnlyAt(headers, UPGRADE, i);
      OnlyIsThere(headers, UPGRADE, i);
      StripFindsWord(headers[i].1, protocol);
      assert AsksToSwitch(cfg, line, headers, protocol, i);
    }
    if i: nat :| AsksToSwitch(cfg, line, headers, protocol, i) {
      OnlyIsThere(headers, UPGRADE, i);
      StripFindsWord(headers[i].1, protocol);
      KeywordHasNoComma(protocol);
    }
  }

  lemma UpgradeIsKeyword()
    ensures IsKeyword(UPGRADE)
  {
  }

  lemma KeywordHasNoComma(word: Bytes)
    requires IsKeyword(word)
    ensures word != [] && COMMA !in word
  {
  }

  lemma OnlyIsThere(headers: seq<Header>, name: Bytes, i: nat)
    requires OnlyAt(headers, name, i)
    ensures i < |headers|
  {
  }
}
