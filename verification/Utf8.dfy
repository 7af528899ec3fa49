/** UTF-8 (section 3 and 4 of RFC 3629): encoding, strict decoding, and cutting
    an encoded text on a character boundary. */
module Utf8 {
  import opened Bytes
  import opened Wrappers

  /** A code point that UTF-8 can carry: no surrogates. */
  type Scalar = c: int | 0 <= c < 0xD800 || 0xE000 <= c < 0x110000

  /** A text as the host language holds it: any code points, lone surrogates included. */
  type CodePoint = c: int | 0 <= c < 0x110000
  type Text = seq<CodePoint>

  function EncodeChar(c: Scalar): (b: Bytes)
    ensures 1 <= |b| <= 4
  {
    if c < 0x80 then [c]
    else if c < 0x800 then [0xC0 + c / 64, 0x80 + c % 64]
    else if c < 0x10000 then [0xE0 + c / 4096, 0x80 + c / 64 % 64, 0x80 + c % 64]
    else [0xF0 + c / 262144, 0x80 + c / 4096 % 64, 0x80 + c / 64 % 64, 0x80 + c % 64]
  }

  predicate IsScalar(c: CodePoint) {
    c < 0xD800 || 0xE000 <= c
  }

  predicate Encodable(s: Text) {
    forall i :: 0 <= i < |s| ==> IsScalar(s[i])
  }

  /** `s.encode("utf-8")` for a text without surrogates. */
  function Encode(s: Text): (b: Bytes)
    requires Encodable(s)
  {
    if s == [] then [] else EncodeChar(s[0]) + Encode(s[1..])
  }

  /** How many octets a sequence that starts with `lead` has; 0 when none may start so. */
  function SequenceLength(lead: byte): (n: nat)
    ensures n <= 4
  {
    if lead < 0x80 then 1
    else if lead < 0xC2 then 0
    else if lead < 0xE0 then 2
    else if lead < 0xF0 then 3
    else if lead < 0xF5 then 4
    else 0
  }

  predicate Tail(b: byte) {
    0x80 <= b < 0xC0
  }

  /** Append the six bits that a continuation octet carries. */
  function AddSix(high: int, b: byte): int {
    high * 64 + (b as int - 0x80)
  }

  /** The code point that the first octets of b spell, by the table of section 4 of
      RFC 3629, which shuts out overlong forms, surrogates and values over 10FFFF. */
  function DecodeFirst(b: Bytes): (r: Option<Scalar>)
    requires b != []
  {
    var n := SequenceLength(b[0]);
    if n == 0 || |b| < n then None
    else if n == 1 then Some(b[0])
    else if !(forall i :: 1 <= i < n ==> Tail(b[i])) then None
    else if n == 2 then Some(AddSix(b[0] as int - 0xC0, b[1]))
    else if n == 3 then
      if (b[0] == 0xE0 && b[1] < 0xA0) || (b[0] == 0xED && b[1] >= 0xA0) then None
      else Some(AddSix(AddSix(b[0] as int - 0xE0, b[1]), b[2]))
    else
      if (b[0] == 0xF0 && b[1] < 0x90) || (b[0] == 0xF4 && b[1] >= 0x90) then None
      else Some(AddSix(AddSix(AddSix(b[0] as int - 0xF0, b[1]), b[2]), b[3]))
  }

  /** `b.decode("utf-8")`; None is UnicodeDecodeError. */
  function Decode(b: Bytes): (r: Option<Text>)
  {
    if b == [] then Some([])
    else
      match DecodeFirst(b)
      case None => None
      case Some(c) =>
        match Decode(b[SequenceLength(b[0])..])
        case None => None
        case Some(rest) => Some([c] + rest)
  }

  predicate ValidUtf8(b: Bytes) {
    Decode(b).Some?
  }

  lemma DecodeFirstOfEncoded(c: Scalar, rest: Bytes)
    ensures var b := EncodeChar(c) + rest;
      SequenceLength(b[0]) == |EncodeChar(c)| && DecodeFirst(b) == Some(c)
  {
    var e := EncodeChar(c);
    var b := e + rest;
    assert forall i :: 0 <= i < |e| ==> b[i] == e[i];
    if 0x80 <= c < 0x800 {
      assert Tail(b[1]);
    } else if 0x800 <= c < 0x10000 {
      assert Tail(b[1]) && Tail(b[2]);
      assert AddSix(c / 4096, b[1]) == c / 64;
    } else if 0x10000 <= c {
      DecodeLongest(c, b);
    }
  }

  lemma DecodeLongest(c: Scalar, b: Bytes)
    requires 0x10000 <= c && |b| >= 4 && b[..4] == EncodeChar(c)
    ensures SequenceLength(b[0]) == 4 && DecodeFirst(b) == Some(c)
  {
    var e := EncodeChar(c);
    assert b[0] == e[0] && b[1] == e[1] && b[2] == e[2] && b[3] == e[3];
    assert Tail(b[1]) && Tail(b[2]) && Tail(b[3]);
    assert AddSix(c / 262144, b[1]) == c / 4096;
    assert AddSix(c / 4096, b[2]) == c / 64;
  }

  lemma EncodedOfDecodeFirst(b: Bytes)
    requires b != [] && DecodeFirst(b).Some?
    ensures var n := SequenceLength(b[0]);
      0 < n <= |b| && EncodeChar(DecodeFirst(b).value) == b[..n]
  {
    var n := SequenceLength(b[0]);
    if n == 2 {
      assert Tail(b[1]);
      AddSixDigits(b[0] as int - 0xC0, b[1]);
    } else if n == 3 {
      assert Tail(b[1]) && Tail(b[2]);
      var x1 := AddSix(b[0] as int - 0xE0, b[1]);
      AddSixDigits(b[0] as int - 0xE0, b[1]);
      AddSixDigits(x1, b[2]);
    } else if n == 4 {
      EncodedOfLongest(b);
    }
  }

  lemma EncodedOfLongest(b: Bytes)
    requires b != [] && DecodeFirst(b).Some? && SequenceLength(b[0]) == 4
    ensures 4 <= |b| && EncodeChar(DecodeFirst(b).value) == b[..4]
  {
    assert Tail(b[1]) && Tail(b[2]) && Tail(b[3]);
    FourDigits(b[0] as int - 0xF0, b[1] as int - 0x80, b[2] as int - 0x80, b[3] as int - 0x80);
    var e := EncodeChar(DecodeFirst(b).value);
    assert |e| == 4 && e[0] == b[0] && e[1] == b[1] && e[2] == b[2] && e[3] == b[3];
  }

  /** A number written in groups of six bits, taken apart again. */
  lemma FourDigits(h: nat, d1: nat, d2: nat, d3: nat)
    requires d1 < 64 && d2 < 64 && d3 < 64
    ensures var c := ((h * 64 + d1) * 64 + d2) * 64 + d3;
      c / 262144 == h && c / 4096 % 64 == d1 && c / 64 % 64 == d2 && c % 64 == d3
  {
    var c := ((h * 64 + d1) * 64 + d2) * 64 + d3;
    assert c / 64 == (h * 64 + d1) * 64 + d2;
    assert c / 4096 == h * 64 + d1;
  }

  lemma AddSixDigits(high: int, b: byte)
    requires high >= 0 && Tail(b)
    ensures AddSix(high, b) / 64 == high && 0x80 + AddSix(high, b) % 64 == b
  {
  }

  /** Decoding inverts encoding on every encodable text. */
  lemma {:induction false} DecodeEncode(s: Text)
    requires Encodable(s)
    ensures Decode(Encode(s)) == Some(s)
  {
    if s != [] {
      DecodeFirstOfEncoded(s[0], Encode(s[1..]));
      DecodeEncode(s[1..]);
      hide DecodeFirst, EncodeChar, SequenceLength;
      assert Encode(s)[|EncodeChar(s[0])|..] == Encode(s[1..]);
      assert [s[0]] + s[1..] == s;
    }
  }

  /** Encoding inverts decoding on every valid octet string, so decoding is strict. */
  lemma {:induction false} EncodeDecode(b: Bytes)
    requires ValidUtf8(b)
    ensures Encodable(Decode(b).value) && Encode(Decode(b).value) == b
  {
    if b != [] {
      var n := SequenceLength(b[0]);
      EncodedOfDecodeFirst(b);
      EncodeDecode(b[n..]);
      var t := Decode(b).value;
      assert t[1..] == Decode(b[n..]).value;
      assert b[..n] + b[n..] == b;
    }
  }

  lemma {:induction false} EncodePrefix(s: Text, k: nat)
    requires Encodable(s) && k <= |s|
    ensures |Encode(s[..k])| <= |Encode(s)|
    ensures Encode(s)[..|Encode(s[..k])|] == Encode(s[..k])
  {
    if k > 0 {
      EncodePrefix(s[1..], k - 1);
      assert s[..k][1..] == s[1..][..k - 1];
      var e := EncodeChar(s[0]);
      assert Encode(s[..k]) == e + Encode(s[1..][..k - 1]);
    }
  }

  /** The valid prefixes of an encoded text are exactly its whole-character prefixes. */
  lemma {:induction false} ValidPrefixIsBoundary(s: Text, p: nat) returns (k: nat)
    requires Encodable(s) && p <= |Encode(s)|
    requires ValidUtf8(Encode(s)[..p])
    ensures k <= |s| && Encode(s[..k]) == Encode(s)[..p]
  {
    if p == 0 {
      k := 0;
    } else {
      var b := Encode(s);
      var e := EncodeChar(s[0]);
      DecodeFirstOfEncoded(s[0], Encode(s[1..]));
      assert b[..p][0] == b[0];
      assert |e| <= p;
      assert b[..p][|e|..] == Encode(s[1..])[..p - |e|];
      k := ValidPrefixIsBoundary(s[1..], p - |e|);
      assert s[..k + 1][1..] == s[1..][..k];
      k := k + 1;
    }
  }

  /** Each further character costs at most four octets. */
  lemma {:induction false} EncodeGrowth(s: Text, k: nat)
    requires Encodable(s) && k < |s|
    ensures |Encode(s[..k])| < |Encode(s[..k + 1])| <= |Encode(s[..k])| + 4
  {
    if k == 0 {
      assert s[..1][1..] == [];
    } else {
      EncodeGrowth(s[1..], k - 1);
      assert s[..k][1..] == s[1..][..k - 1];
      assert s[..k + 1][1..] == s[1..][..k];
    }
  }

  /** r is the longest valid prefix of b of at most limit octets. */
  predicate IsLongestValidPrefix(r: Bytes, b: Bytes, limit: nat) {
    && |r| <= limit && r <= b && ValidUtf8(r)
    && (forall p :: |r| < p <= limit && p <= |b| ==> !ValidUtf8(b[..p]))
  }

  function LongestValidPrefix(b: Bytes, limit: nat): (r: Bytes)
    ensures IsLongestValidPrefix(r, b, limit)
    decreases limit
  {
    if limit == 0 then []
    else if limit > |b| then
      var r := LongestValidPrefix(b, limit - 1);
      assert b[..|b|] == b;
      r
    else if ValidUtf8(b[..limit]) then b[..limit]
    else LongestValidPrefix(b, limit - 1)
  }

  /** `_truncate_utf8`: drop octets from the cut until what is left decodes. */
  method TruncateUtf8(data: Bytes, limit: nat) returns (truncated: Bytes)
    ensures truncated == LongestValidPrefix(data, limit)
  {
    truncated := if |data| <= limit then data else data[..limit];
    while truncated != []
      invariant |truncated| <= limit && truncated <= data
      invariant forall p :: |truncated| < p <= limit && p <= |data| ==> !ValidUtf8(data[..p])
      decreases |truncated|
    {
      if Decode(truncated).Some? {
        break;
      }
      assert data[..|truncated|] == truncated;
      truncated := truncated[..|truncated| - 1];
    }
    LongestIsUnique(truncated, LongestValidPrefix(data, limit), data, limit);
  }

  lemma LongestIsUnique(r: Bytes, q: Bytes, b: Bytes, limit: nat)
    requires IsLongestValidPrefix(r, b, limit) && IsLongestValidPrefix(q, b, limit)
    ensures r == q
  {
    assert r == b[..|r|] && q == b[..|q|];
  }

  /** What the loop leaves of an encoded text: the longest run of whole characters
      that fits, at most three octets below the limit unless the text fits whole. */
  lemma TruncationKeepsWholeCharacters(s: Text, limit: nat, r: Bytes) returns (k: nat)
    requires Encodable(s) && r == LongestValidPrefix(Encode(s), limit)
    ensures k <= |s| && r == Encode(s[..k])
    ensures k < |s| ==> |Encode(s[..k + 1])| > limit
    ensures k < |s| ==> |r| + 3 >= limit
    ensures |Encode(s)| <= limit <==> k == |s|
  {
    var b := Encode(s);
    assert r == b[..|r|];
    k := ValidPrefixIsBoundary(s, |r|);
    assert s[..|s|] == s;
    if k < |s| {
      EncodeGrowth(s, k);
      EncodePrefix(s, k + 1);
      DecodeEncode(s[..k + 1]);
      var p := |Encode(s[..k + 1])|;
      assert ValidUtf8(b[..p]);
    }
  }
}
