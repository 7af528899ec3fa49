/** Printing numbers, digit by digit, and reading them back: what a Content-Length and a chunk size
    mean, said without the reader. */
module Numerals {
  import opened Bytes
  import opened HttpText

  function DigitChar(d: nat): byte
    requires d < 10
  {
    '0' as int + d
  }

  /** `str(n)`. */
  function DecimalText(n: nat): Bytes {
    (if n < 10 then [] else DecimalText(n / 10)) + [DigitChar(n % 10)]
  }

  function HexChar(d: nat, capital: bool): byte
    requires d < 16
  {
    if d < 10 then '0' as int + d else (if capital then 'A' as int else 'a' as int) + d - 10
  }

  /** n in base 16; `capital` says which digits are upper case, counted from the last. */
  function HexText(n: nat, capital: nat -> bool, at: nat): Bytes
    decreases n
  {
    (if n < 16 then [] else HexText(n / 16, capital, at + 1)) + [HexChar(n % 16, capital(at))]
  }

  function Zeros(k: nat): (b: Bytes)
    ensures |b| == k
  {
    seq(k, i requires 0 <= i < k => '0' as int)
  }

  // ---- reading back

  lemma {:induction false} ZerosReadAsNothing(k: nat)
    ensures forall i :: 0 <= i < k ==> IsDigit(Zeros(k)[i]) && IsHexDigit(Zeros(k)[i])
    ensures Decimal(Zeros(k)) == 0 && Hexadecimal(Zeros(k)) == 0
  {
    if k > 0 {
      ZerosReadAsNothing(k - 1);
      assert Zeros(k)[..k - 1] == Zeros(k - 1);
    }
  }

  predicate Digits(b: Bytes) {
    forall i :: 0 <= i < |b| ==> IsDigit(b[i])
  }

  predicate HexDigits(b: Bytes) {
    forall i :: 0 <= i < |b| ==> IsHexDigit(b[i])
  }

  lemma Grouped(a: Bytes, b: Bytes, c: Bytes)
    ensures a + (b + c) == a + b + c
  {
  }

  lemma OneMoreZero(k: nat)
    ensures Zeros(k) + ['0' as int] == Zeros(k + 1)
  {
  }

  /** One more digit. */
  lemma DecimalEnd(front: Bytes, c: byte)
    ensures Digits(front) && IsDigit(c) <==> IsDigits(front + [c])
    ensures front != [] && Digits(front) ==> IsDigits(front)
    ensures IsDigits(front + [c]) ==> Decimal(front + [c]) == 10 * Decimal(front) + (c - '0' as int)
  {
    var b := front + [c];
    assert b[..|b| - 1] == front && b[|b| - 1] == c;
    assert forall i :: 0 <= i < |front| ==> front[i] == b[i];
  }

  lemma DecimalTextEnd(n: nat)
    ensures DecimalText(n) == (if n < 10 then [] else DecimalText(n / 10)) + [DigitChar(n % 10)]
  {
  }

  /** A number with any zeros in front reads back as itself. */
  lemma {:induction false} DecimalReadsBack(n: nat, zeros: nat)
    ensures IsDigits(Zeros(zeros) + DecimalText(n)) && Decimal(Zeros(zeros) + DecimalText(n)) == n
    decreases n
  {
    var front, c := Zeros(zeros), DigitChar(n % 10);
    ZerosReadAsNothing(zeros);
    DecimalTextEnd(n);
    assert [] + [c] == [c];
    hide Zeros, DecimalText, Decimal;
    if n >= 10 {
      DecimalReadsBack(n / 10, zeros);
      front := Zeros(zeros) + DecimalText(n / 10);
      Grouped(Zeros(zeros), DecimalText(n / 10), [c]);
    }
    hide IsDigits;
    DecimalEnd(front, c);
  }

  predicate Printed(b: Bytes, zeros: nat) {
    IsDigits(b) && b == Zeros(zeros) + DecimalText(Decimal(b))
  }

  /** Every string of digits is such a text. */
  lemma {:induction false} DigitsArePrinted(b: Bytes) returns (zeros: nat)
    requires IsDigits(b)
    ensures Printed(b, zeros)
    decreases |b|
  {
    var front, c := b[..|b| - 1], b[|b| - 1];
    assert b == front + [c];
    DecimalEnd(front, c);
    hide *;
    var z := 0;
    if front != [] {
      z := DigitsArePrinted(front);
    }
    zeros := DigitBehind(front, c, z);
  }

  lemma DigitBehind(front: Bytes, c: byte, z: nat) returns (zeros: nat)
    requires IsDigits(front + [c]) && (front != [] ==> Printed(front, z))
    ensures Printed(front + [c], zeros)
  {
    hide *;
    DecimalEnd(front, c);
    DigitCharOf(c);
    DecimalNothing();
    var m := Decimal(front);
    DecimalTextBehind(m, c - '0' as int);
    if front == [] {
      zeros := 0;
      assert front + [c] == Zeros(0) + ([] + [c]);
    } else {
      PrintedMeans(front, z);
      zeros := PrintedEnd(z, DecimalText(m), m, c);
    }
    PrintedIf(front + [c], zeros);
  }

  lemma DecimalNothing()
    ensures Decimal([]) == 0 && DecimalText(0) == ['0' as int]
  {
  }

  lemma PrintedMeans(b: Bytes, zeros: nat)
    requires Printed(b, zeros)
    ensures IsDigits(b) && b == Zeros(zeros) + DecimalText(Decimal(b))
  {
  }

  lemma PrintedIf(b: Bytes, zeros: nat)
    requires IsDigits(b) && b == Zeros(zeros) + DecimalText(Decimal(b))
    ensures Printed(b, zeros)
  {
  }

  /** One more digit behind a printed number: the number's own text, unless that is a zero. */
  lemma PrintedEnd(z: nat, text: Bytes, m: nat, c: byte) returns (zeros: nat)
    requires m == 0 ==> text == ['0' as int]
    ensures Zeros(z) + text + [c] == Zeros(zeros) + ((if m == 0 then [] else text) + [c])
  {
    zeros := if m == 0 then z + 1 else z;
    OneMoreZero(z);
    hide Zeros;
    Grouped(Zeros(z), text, [c]);
    assert [] + [c] == [c];
  }

  lemma DigitCharOf(c: byte)
    requires IsDigit(c)
    ensures 0 <= c - '0' as int < 10 && DigitChar(c - '0' as int) == c
  {
  }

  lemma DecimalTextBehind(m: nat, d: nat)
    requires d < 10
    ensures DecimalText(10 * m + d) == (if m == 0 then [] else DecimalText(m)) + [DigitChar(d)]
  {
    assert (10 * m + d) / 10 == m && (10 * m + d) % 10 == d;
  }

  // ---- base 16

  lemma HexEnd(front: Bytes, c: byte)
    ensures HexDigits(front) && IsHexDigit(c) <==> IsHex(front + [c])
    ensures front != [] && HexDigits(front) ==> IsHex(front)
    ensures IsHex(front + [c]) ==> Hexadecimal(front + [c]) == 16 * Hexadecimal(front) + HexDigitValue(c)
  {
    var b := front + [c];
    assert b[..|b| - 1] == front && b[|b| - 1] == c;
    assert forall i :: 0 <= i < |front| ==> front[i] == b[i];
  }

  lemma HexTextEnd(n: nat, capital: nat -> bool, at: nat)
    ensures HexText(n, capital, at) == (if n < 16 then [] else HexText(n / 16, capital, at + 1)) + [HexChar(n % 16, capital(at))]
  {
  }

  lemma {:induction false} HexReadsBack(n: nat, capital: nat -> bool, at: nat, zeros: nat)
    ensures IsHex(Zeros(zeros) + HexText(n, capital, at)) && Hexadecimal(Zeros(zeros) + HexText(n, capital, at)) == n
    decreases n
  {
    var front, c := Zeros(zeros), HexChar(n % 16, capital(at));
    ZerosReadAsNothing(zeros);
    HexTextEnd(n, capital, at);
    assert [] + [c] == [c] && IsHexDigit(c) && HexDigitValue(c) == n % 16;
    hide Zeros, HexText, Hexadecimal, HexChar, HexDigitValue;
    if n >= 16 {
      HexReadsBack(n / 16, capital, at + 1, zeros);
      front := Zeros(zeros) + HexText(n / 16, capital, at + 1);
      Grouped(Zeros(zeros), HexText(n / 16, capital, at + 1), [c]);
    }
    hide IsHex;
    HexEnd(front, c);
  }

  /** Which digits of b are capital letters, counted from the last. */
  function CapitalsOf(b: Bytes): nat -> bool {
    (i: nat) => i < |b| && 'A' as int <= b[|b| - 1 - i] <= 'F' as int
  }

  lemma HexCharOf(c: byte)
    requires IsHexDigit(c)
    ensures HexDigitValue(c) < 16 && HexChar(HexDigitValue(c), 'A' as int <= c <= 'F' as int) == c
  {
  }

  predicate HexPrinted(b: Bytes, capital: nat -> bool, at: nat, zeros: nat) {
    IsHex(b) && b == Zeros(zeros) + HexText(Hexadecimal(b), capital, at)
  }

  /** Every string of hexadecimal digits is such a text. */
  lemma HexDigitsArePrinted(b: Bytes) returns (zeros: nat)
    requires IsHex(b)
    ensures HexPrinted(b, CapitalsOf(b), 0, zeros)
  {
    assert b[..|b|] == b;
    hide *;
    zeros := HexFrontPrinted(b, 0);
  }

  lemma {:induction false} HexFrontPrinted(b: Bytes, at: nat) returns (zeros: nat)
    requires IsHex(b) && at < |b|
    ensures HexPrinted(b[..|b| - at], CapitalsOf(b), at, zeros)
    decreases |b| - at
  {
    var front, c, capital := b[..|b| - (at + 1)], b[|b| - 1 - at], CapitalsOf(b);
    assert b[..|b| - at] == front + [c];
    assert IsHex(b[..|b| - at]) && capital(at) == ('A' as int <= c <= 'F' as int);
    hide *;
    var z := 0;
    if front != [] {
      z := HexFrontPrinted(b, at + 1);
    }
    zeros := HexDigitBehind(front, c, capital, at, z);
  }

  lemma HexDigitBehind(front: Bytes, c: byte, capital: nat -> bool, at: nat, z: nat) returns (zeros: nat)
    requires IsHex(front + [c]) && capital(at) == ('A' as int <= c <= 'F' as int)
    requires front != [] ==> HexPrinted(front, capital, at + 1, z)
    ensures HexPrinted(front + [c], capital, at, zeros)
  {
    hide *;
    HexEnd(front, c);
    HexCharOf(c);
    HexNothing(capital, at + 1);
    var m := Hexadecimal(front);
    HexTextBehind(m, HexDigitValue(c), capital, at);
    if front == [] {
      zeros := 0;
      assert front + [c] == Zeros(0) + ([] + [c]);
    } else {
      HexPrintedMeans(front, capital, at + 1, z);
      zeros := PrintedEnd(z, HexText(m, capital, at + 1), m, c);
    }
    HexPrintedIf(front + [c], capital, at, zeros);
  }

  lemma HexNothing(capital: nat -> bool, at: nat)
    ensures Hexadecimal([]) == 0 && HexText(0, capital, at) == ['0' as int]
  {
  }

  lemma HexPrintedMeans(b: Bytes, capital: nat -> bool, at: nat, zeros: nat)
    requires HexPrinted(b, capital, at, zeros)
    ensures IsHex(b) && b == Zeros(zeros) + HexText(Hexadecimal(b), capital, at)
  {
  }

  lemma HexPrintedIf(b: Bytes, capital: nat -> bool, at: nat, zeros: nat)
    requires IsHex(b) && b == Zeros(zeros) + HexText(Hexadecimal(b), capital, at)
    ensures HexPrinted(b, capital, at, zeros)
  {
  }

  lemma HexTextBehind(m: nat, d: nat, capital: nat -> bool, at: nat)
    requires d < 16
    ensures HexText(16 * m + d, capital, at) == (if m == 0 then [] else HexText(m, capital, at + 1)) + [HexChar(d, capital(at))]
  {
    assert (16 * m + d) / 16 == m && (16 * m + d) % 16 == d;
  }
}
