/** Octet-string operations that the HTTP parser uses: lines, splitting, stripping,
    character classes and numbers. */
module HttpText {
  import opened Bytes

  const CR: byte := 13
  const LF: byte := 10
  const SP: byte := 32
  const HTAB: byte := 9
  const COLON: byte := 58
  const SEMICOLON: byte := 59
  const COMMA: byte := 44
  const QUESTION: byte := 63
  const CRLF: Bytes := [CR, LF]

  predicate CrlfAt(b: Bytes, i: int) {
    0 <= i && i + 1 < |b| && b[i] == CR && b[i + 1] == LF
  }

  /** `b.find(b"\r\n")`. */
  function FindCrlf(b: Bytes): (r: int)
    ensures r == -1 || CrlfAt(b, r)
    ensures forall i :: CrlfAt(b, i) ==> 0 <= r <= i
  {
    if |b| < 2 then -1
    else if b[0] == CR && b[1] == LF then 0
    else
      var r := FindCrlf(b[1..]);
      assert forall i :: CrlfAt(b, i) ==> CrlfAt(b[1..], i - 1);
      if r == -1 then -1 else r + 1
  }

  datatype LineRead = NoLine | LineTooLong | Line(line: Bytes, rest: Bytes)

  /** `_find_bounded_line`: the next CRLF-terminated line and what follows it. */
  function TakeLine(limit: nat, buffer: Bytes): (r: LineRead)
    ensures r.Line? ==> buffer == r.line + CRLF + r.rest && |r.line| <= limit
    ensures r.Line? ==> |r.rest| < |buffer|
    ensures r.NoLine? ==> |buffer| <= limit
  {
    var i := FindCrlf(buffer);
    if i == -1 then (if |buffer| > limit then LineTooLong else NoLine)
    else if i > limit then LineTooLong
    else
      assert buffer == buffer[..i] + [buffer[i], buffer[i + 1]] + buffer[i + 2..];
      Line(buffer[..i], buffer[i + 2..])
  }

  ghost predicate NoCrlf(b: Bytes) {
    forall i :: !CrlfAt(b, i)
  }

  lemma TakesLine(limit: nat, line: Bytes, rest: Bytes)
    requires NoCrlf(line) && |line| <= limit
    ensures TakeLine(limit, line + CRLF + rest) == Line(line, rest)
  {
    var b := line + CRLF + rest;
    assert b[|line|] == CR && b[|line| + 1] == LF;
    assert CrlfAt(b, |line|);
    forall i | 0 <= i && i + 1 < |line| ensures !CrlfAt(b, i) {
      assert !CrlfAt(line, i);
    }
    assert FindCrlf(b) == |line|;
    assert b[..|line|] == line && b[|line| + 2..] == rest;
  }

  /** `b.split(bytes([sep]))`. */
  function Split(b: Bytes, sep: byte): (r: seq<Bytes>)
    ensures |r| >= 1
  {
    if b == [] then [[]]
    else
      var rest := Split(b[1..], sep);
      if b[0] == sep then [[]] + rest else [[b[0]] + rest[0]] + rest[1..]
  }

  lemma {:induction false} SplitFirst(a: Bytes, sep: byte, rest: Bytes)
    requires sep !in a
    ensures Split(a + [sep] + rest, sep) == [a] + Split(rest, sep)
  {
    if a == [] {
      assert ([sep] + rest)[1..] == rest;
      assert a + [sep] + rest == [sep] + rest;
    } else {
      SplitFirst(a[1..], sep, rest);
      assert (a + [sep] + rest)[1..] == a[1..] + [sep] + rest;
      assert [a[0]] + a[1..] == a;
    }
  }

  lemma {:induction false} SplitNone(a: Bytes, sep: byte)
    requires sep !in a
    ensures Split(a, sep) == [a]
  {
    if a != [] {
      SplitNone(a[1..], sep);
      assert [a[0]] + a[1..] == a;
    }
  }

  datatype Parts = Parts(before: Bytes, found: bool, after: Bytes)

  /** `b.partition(bytes([sep]))`. */
  function Partition(b: Bytes, sep: byte): (r: Parts)
    ensures sep !in r.before
    ensures b == if r.found then r.before + [sep] + r.after else r.before
    ensures !r.found ==> r.after == []
  {
    if b == [] then Parts([], false, [])
    else if b[0] == sep then
      assert b == [] + [sep] + b[1..];
      Parts([], true, b[1..])
    else
      var r := Partition(b[1..], sep);
      assert b == [b[0]] + b[1..];
      Parts([b[0]] + r.before, r.found, r.after)
  }

  lemma {:induction false} PartitionUnique(before: Bytes, sep: byte, after: Bytes)
    requires sep !in before
    ensures Partition(before + [sep] + after, sep) == Parts(before, true, after)
  {
    if before == [] {
      assert ([] + [sep] + after)[1..] == after;
    } else {
      PartitionUnique(before[1..], sep, after);
      FirstApart(before, [sep], after);
    }
  }

  lemma FirstApart(a: Bytes, b: Bytes, c: Bytes)
    requires a != []
    ensures (a + b + c)[0] == a[0] && (a + b + c)[1..] == a[1..] + b + c && [a[0]] + a[1..] == a
  {
    assert (a + b + c)[1..] == a[1..] + b + c;
  }

  lemma {:induction false} PartitionNone(b: Bytes, sep: byte)
    requires sep !in b
    ensures Partition(b, sep) == Parts(b, false, [])
  {
    if b != [] {
      PartitionNone(b[1..], sep);
      assert [b[0]] + b[1..] == b;
    }
  }

  predicate IsOws(c: byte) {
    c == SP || c == HTAB
  }

  /** What `bytes.strip()` removes when given no argument. */
  predicate IsSpace(c: byte) {
    c == SP || 9 <= c <= 13
  }

  function StripLeft(b: Bytes, drop: byte -> bool): Bytes {
    if b != [] && drop(b[0]) then StripLeft(b[1..], drop) else b
  }

  function StripRight(b: Bytes, drop: byte -> bool): Bytes {
    if b != [] && drop(b[|b| - 1]) then StripRight(b[..|b| - 1], drop) else b
  }

  function Strip(b: Bytes, drop: byte -> bool): Bytes {
    StripRight(StripLeft(b, drop), drop)
  }

  function LowerByte(c: byte): byte {
    if 65 <= c <= 90 then c + 32 else c
  }

  function Lower(b: Bytes): (r: Bytes)
    ensures |r| == |b|
  {
    seq(|b|, i requires 0 <= i < |b| => LowerByte(b[i]))
  }

  predicate IsAlpha(c: byte) {
    65 <= c <= 90 || 97 <= c <= 122
  }

  predicate IsDigit(c: byte) {
    48 <= c <= 57
  }

  predicate IsHexDigit(c: byte) {
    IsDigit(c) || 65 <= c <= 70 || 97 <= c <= 102
  }

  /** The `tchar` octets. */
  predicate IsTokenChar(c: byte) {
    IsAlpha(c) || IsDigit(c) || c in {33, 35, 36, 37, 38, 39, 42, 43, 45, 46, 94, 95, 96, 124, 126}
  }

  predicate IsToken(b: Bytes) {
    b != [] && forall i :: 0 <= i < |b| ==> IsTokenChar(b[i])
  }

  predicate IsDigits(b: Bytes) {
    b != [] && forall i :: 0 <= i < |b| ==> IsDigit(b[i])
  }

  predicate IsHex(b: Bytes) {
    b != [] && forall i :: 0 <= i < |b| ==> IsHexDigit(b[i])
  }

  predicate IsAscii(b: Bytes) {
    forall i :: 0 <= i < |b| ==> b[i] < 128
  }

  function DigitValue(c: byte): nat
    requires IsDigit(c)
  {
    c as int - 48
  }

  function HexDigitValue(c: byte): nat
    requires IsHexDigit(c)
  {
    if IsDigit(c) then DigitValue(c) else if c <= 70 then c - 55 else c - 87
  }

  /** `int(b)` of a digit string. */
  function Decimal(b: Bytes): nat
    requires forall i :: 0 <= i < |b| ==> IsDigit(b[i])
  {
    if b == [] then 0 else 10 * Decimal(b[..|b| - 1]) + DigitValue(b[|b| - 1])
  }

  /** `int(b, 16)` of a string of hexadecimal digits. */
  function Hexadecimal(b: Bytes): nat
    requires forall i :: 0 <= i < |b| ==> IsHexDigit(b[i])
  {
    if b == [] then 0 else 16 * Hexadecimal(b[..|b| - 1]) + HexDigitValue(b[|b| - 1])
  }
}
