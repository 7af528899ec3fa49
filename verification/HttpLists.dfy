/** Comma-separated field values: the tokens that the parser finds in one are exactly the words
    that a reader finds between the commas, whatever their case and the blanks around them. */
module HttpLists {
  import opened Bytes
  import opened HttpText
  import opened HttpParsing
  import opened Spelling

  // ---- what a reader sees

  /** From i up to j there is one whole element between separators. */
  predicate ElementAt(value: Bytes, sep: byte, i: nat, j: nat) {
    && i <= j <= |value| && sep !in value[i..j]
    && (i == 0 || value[i - 1] == sep) && (j == |value| || value[j] == sep)
  }

  predicate AllBlank(b: Bytes) {
    forall i :: 0 <= i < |b| ==> IsSpace(b[i])
  }

  /** Blanks, the word in any case, blanks. */
  predicate PaddedWord(part: Bytes, word: Bytes, a: nat, b: nat) {
    a <= b <= |part| && AllBlank(part[..a]) && AllBlank(part[b..]) && SameWord(part[a..b], word)
  }

  ghost predicate IsPaddedWord(part: Bytes, word: Bytes) {
    exists a: nat, b: nat :: PaddedWord(part, word, a, b)
  }

  predicate WordAt(value: Bytes, word: Bytes, i: nat, j: nat, a: nat, b: nat) {
    ElementAt(value, ',' as int, i, j) && PaddedWord(value[i..j], word, a, b)
  }

  /** Some element of the list is that word. */
  ghost predicate Lists(value: Bytes, word: Bytes) {
    exists i: nat, j: nat, a: nat, b: nat :: WordAt(value, word, i, j, a, b)
  }

  /** A word to look for: lower case, with no comma in it and no blank at its ends. */
  predicate IsKeyword(word: Bytes) {
    && word != [] && NoCapitals(word) && ',' as int !in word
    && !IsSpace(word[0]) && !IsSpace(word[|word| - 1])
  }

  // ---- splitting

  /** Where part k begins. */
  function PartStart(b: Bytes, sep: byte, k: nat): (i: nat)
    requires k < |Split(b, sep)|
    decreases |b|
  {
    if k == 0 then 0
    else if b[0] == sep then 1 + PartStart(b[1..], sep, k - 1)
    else 1 + PartStart(b[1..], sep, k)
  }

  lemma FirstPart(b: Bytes, sep: byte)
    ensures var part := Split(b, sep)[0];
      |part| <= |b| && part == b[..|part|] && sep !in part && (|part| == |b| || b[|part|] == sep)
    decreases |b|
  {
    if b != [] && b[0] != sep {
      FirstPart(b[1..], sep);
      var first := Split(b[1..], sep)[0];
      assert b[..|first| + 1] == [b[0]] + b[1..][..|first|];
    }
  }

  lemma LaterElement(b: Bytes, sep: byte, i: nat, j: nat)
    requires b != [] && i <= j < |b|
    ensures b[1..][i..j] == b[i + 1..j + 1]
    ensures ElementAt(b[1..], sep, i, j) && (i == 0 ==> b[0] == sep) ==> ElementAt(b, sep, i + 1, j + 1)
    ensures ElementAt(b, sep, i + 1, j + 1) ==> ElementAt(b[1..], sep, i, j) && (i == 0 ==> b[0] == sep)
  {
    assert b[1..][i..j] == b[i + 1..j + 1];
  }

  /** Part k is a whole element. */
  lemma {:induction false} PartIsElement(b: Bytes, sep: byte, k: nat)
    requires k < |Split(b, sep)|
    ensures var i, part := PartStart(b, sep, k), Split(b, sep)[k];
      ElementAt(b, sep, i, i + |part|) && part == b[i..i + |part|]
    decreases |b|
  {
    FirstPart(b, sep);
    if k > 0 {
      var m := if b[0] == sep then k - 1 else k;
      PartIsElement(b[1..], sep, m);
      var i, part := PartStart(b[1..], sep, m), Split(b[1..], sep)[m];
      assert Split(b, sep)[k] == part && PartStart(b, sep, k) == i + 1 && (i == 0 ==> b[0] == sep);
      hide Split, PartStart, ElementAt;
      LaterElement(b, sep, i, i + |part|);
    }
  }

  lemma SameEnd(b: Bytes, sep: byte, j: nat, n: nat)
    requires j <= |b| && n <= |b| && sep !in b[..j] && sep !in b[..n]
    requires (j == |b| || b[j] == sep) && (n == |b| || b[n] == sep)
    ensures j == n
  {
    if j < n {
      SepBefore(b, sep, j, n);
    } else if n < j {
      SepBefore(b, sep, n, j);
    }
  }

  lemma SepBefore(b: Bytes, sep: byte, j: nat, n: nat)
    requires j < n <= |b| && b[j] == sep
    ensures sep in b[..n]
  {
    assert b[..n][j] == sep;
  }

  /** Every whole element is a part. */
  lemma {:induction false} ElementIsPart(b: Bytes, sep: byte, i: nat, j: nat) returns (k: nat)
    requires ElementAt(b, sep, i, j)
    ensures k < |Split(b, sep)| && PartStart(b, sep, k) == i && Split(b, sep)[k] == b[i..j]
    decreases |b|
  {
    FirstPart(b, sep);
    if i == 0 {
      k := 0;
      SameEnd(b, sep, j, |Split(b, sep)[0]|);
    } else {
      LaterElement(b, sep, i - 1, j - 1);
      var m := ElementIsPart(b[1..], sep, i - 1, j - 1);
      k := if b[0] == sep then m + 1 else m;
    }
  }

  // ---- stripping

  lemma {:induction false} StripsLeft(p: Bytes) returns (a: nat)
    ensures a <= |p| && StripLeft(p, IsSpace) == p[a..] && AllBlank(p[..a]) && (a < |p| ==> !IsSpace(p[a]))
    decreases |p|
  {
    a := 0;
    if p != [] && IsSpace(p[0]) {
      var n := StripsLeft(p[1..]);
      a := n + 1;
      assert p[..a] == [p[0]] + p[1..][..n];
    }
  }

  lemma {:induction false} StripsRight(p: Bytes) returns (b: nat)
    ensures b <= |p| && StripRight(p, IsSpace) == p[..b] && AllBlank(p[b..]) && (b > 0 ==> !IsSpace(p[b - 1]))
    decreases |p|
  {
    b := |p|;
    if p != [] && IsSpace(p[|p| - 1]) {
      b := StripsRight(p[..|p| - 1]);
      LongerEnd(p, b);
    }
    hide StripRight;
  }

  lemma LongerEnd(p: Bytes, b: nat)
    requires b < |p|
    ensures var front := p[..|p| - 1]; p[b..] == front[b..] + [p[|p| - 1]] && p[..b] == front[..b]
  {
  }

  lemma StripIs(p: Bytes) returns (a: nat, b: nat)
    ensures a <= b <= |p| && Strip(p, IsSpace) == p[a..b] && AllBlank(p[..a]) && AllBlank(p[b..])
    ensures (a < |p| ==> !IsSpace(p[a])) && (a < b ==> !IsSpace(p[b - 1]))
  {
    a := StripsLeft(p);
    var n := StripsRight(p[a..]);
    b := a + n;
    hide StripLeft, StripRight;
    assert p[a..][..n] == p[a..b] && p[a..][n..] == p[b..];
  }

  /** Stripping finds the word between the blanks. */
  lemma StripFindsWord(p: Bytes, word: Bytes)
    requires IsKeyword(word)
    ensures Lower(Strip(p, IsSpace)) == word <==> IsPaddedWord(p, word)
  {
    var a, b := StripIs(p);
    LowerIsCaseless(p[a..b], word);
    LowerIsCaseless(word, word);
    hide Strip, Lower, AllBlank, SameWord;
    if Lower(p[a..b]) == word {
      assert PaddedWord(p, word, a, b);
    }
    if IsPaddedWord(p, word) {
      var x: nat, y: nat :| PaddedWord(p, word, x, y);
      WordHasNoBlankEnds(p, word, x, y);
      BlanksAreUnique(p, a, b, x, y);
    }
  }

  lemma WordHasNoBlankEnds(p: Bytes, word: Bytes, x: nat, y: nat)
    requires IsKeyword(word) && PaddedWord(p, word, x, y)
    ensures x < y && AllBlank(p[..x]) && AllBlank(p[y..]) && !IsSpace(p[x]) && !IsSpace(p[y - 1])
  {
    assert SameLetter(p[x..y][0], word[0]) && SameLetter(p[x..y][|word| - 1], word[|word| - 1]);
  }

  /** What stands between blanks, when it does not begin or end with one, is there once. */
  lemma BlanksAreUnique(p: Bytes, a: nat, b: nat, x: nat, y: nat)
    requires x < y <= |p| && AllBlank(p[..x]) && AllBlank(p[y..]) && !IsSpace(p[x]) && !IsSpace(p[y - 1])
    requires a <= b <= |p| && AllBlank(p[..a]) && AllBlank(p[b..])
    requires (a < |p| ==> !IsSpace(p[a])) && (a < b ==> !IsSpace(p[b - 1]))
    ensures a == x && b == y
  {
    if x < a {
      NotAllBlank(p, a, x);
    } else if a < x {
      NotAllBlank(p, x, a);
    } else if b < y {
      NotAllBlankBehind(p, b, y);
    } else if y < b {
      NotAllBlankBehind(p, y, b);
    }
  }

  lemma NotAllBlank(p: Bytes, end: nat, at: nat)
    requires at < end <= |p| && !IsSpace(p[at])
    ensures !AllBlank(p[..end])
  {
    assert p[..end][at] == p[at];
  }

  lemma NotAllBlankBehind(p: Bytes, start: nat, end: nat)
    requires start < end <= |p| && !IsSpace(p[end - 1])
    ensures !AllBlank(p[start..])
  {
    assert p[start..][end - 1 - start] == p[end - 1];
  }

  // ---- tokens

  lemma {:induction false} TokenOfPart(parts: seq<Bytes>, token: Bytes)
    ensures token in Tokens(parts) <==> exists k :: 0 <= k < |parts| && Lower(Strip(parts[k], IsSpace)) == token
    decreases |parts|
  {
    hide Strip, Lower;
    if parts != [] {
      TokenOfPart(parts[1..], token);
      assert forall k :: 1 <= k < |parts| ==> parts[k] == parts[1..][k - 1];
      if token in Tokens(parts[1..]) {
        var k :| 0 <= k < |parts[1..]| && Lower(Strip(parts[1..][k], IsSpace)) == token;
        assert Lower(Strip(parts[k + 1], IsSpace)) == token;
      }
      if k :| 1 <= k < |parts| && Lower(Strip(parts[k], IsSpace)) == token {
        assert Lower(Strip(parts[1..][k - 1], IsSpace)) == token;
      }
    }
  }

  /** The tokens of a field value are the words that it lists. */
  lemma TokensAreListed(value: Bytes, word: Bytes)
    requires IsKeyword(word)
    ensures word in Tokens(Split(value, COMMA)) <==> Lists(value, word)
  {
    var parts := Split(value, COMMA);
    TokenOfPart(parts, word);
    hide Strip, Lower, Tokens, IsKeyword;
    if word in Tokens(parts) {
      var k :| 0 <= k < |parts| && Lower(Strip(parts[k], IsSpace)) == word;
      StripFindsWord(parts[k], word);
      PartIsElement(value, COMMA, k);
      var a: nat, b: nat :| PaddedWord(parts[k], word, a, b);
      var i := PartStart(value, COMMA, k);
      assert WordAt(value, word, i, i + |parts[k]|, a, b);
    }
    if Lists(value, word) {
      var i: nat, j: nat, a: nat, b: nat :| WordAt(value, word, i, j, a, b);
      var k := ElementIsPart(value, COMMA, i, j);
      StripFindsWord(parts[k], word);
    }
  }
}
