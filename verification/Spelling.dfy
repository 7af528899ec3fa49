/** The octets that texts and characters stand for, so that names, numbers and character classes
    can be said in their own spelling. */
module Spelling {
  import opened Bytes
  import opened HttpText

  /** `s.encode("ascii")`. */
  function Octets(s: string): (b: Bytes)
    requires forall i :: 0 <= i < |s| ==> s[i] < 128 as char
    ensures |b| == |s|
    ensures forall i :: 0 <= i < |s| ==> b[i] == s[i] as int
  {
    seq(|s|, i requires 0 <= i < |s| => s[i] as int)
  }

  // ---- letters

  /** The same octet, or the two cases of one letter. */
  predicate SameLetter(a: byte, b: byte) {
    a == b || ('A' as int <= a <= 'Z' as int && b == a + 32) || ('A' as int <= b <= 'Z' as int && a == b + 32)
  }

  /** Equal but for the case of letters. */
  predicate SameWord(a: Bytes, b: Bytes) {
    |a| == |b| && forall i :: 0 <= i < |a| ==> SameLetter(a[i], b[i])
  }

  predicate NoCapitals(b: Bytes) {
    forall i :: 0 <= i < |b| ==> !('A' as int <= b[i] <= 'Z' as int)
  }

  /** Lowering makes words equal exactly when they differ in case only. */
  lemma LowerIsCaseless(a: Bytes, b: Bytes)
    ensures Lower(a) == Lower(b) <==> SameWord(a, b)
    ensures NoCapitals(Lower(a)) && (NoCapitals(a) ==> Lower(a) == a)
  {
    if Lower(a) == Lower(b) {
      forall i | 0 <= i < |a| ensures SameLetter(a[i], b[i]) {
        assert Lower(a)[i] == Lower(b)[i];
      }
    }
  }

  // ---- character classes

  /** The classes that the parser tests for, character by character. */
  lemma ClassesAreSpelled(c: byte)
    ensures IsTokenChar(c) <==>
      || 'a' as int <= c <= 'z' as int || 'A' as int <= c <= 'Z' as int || '0' as int <= c <= '9' as int
      || c in Octets("!#$%&'*+-.^_`|~")
    ensures IsDigit(c) <==> '0' as int <= c <= '9' as int
    ensures IsOws(c) <==> c in Octets(" \t")
    ensures IsSpace(c) <==> c in Octets(" \t\n\r") + [11, 12]
  {
    assert Octets("!#$%&'*+-.^_`|~") == [33, 35, 36, 37, 38, 39, 42, 43, 45, 46, 94, 95, 96, 124, 126];
    assert Octets(" \t") == [32, 9] && Octets(" \t\n\r") == [32, 9, 10, 13];
  }
}
