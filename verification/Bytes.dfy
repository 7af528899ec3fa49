/** Octets, big-endian integers and the bitwise XOR of unbounded integers. */
module Bytes {

  type byte = x: int | 0 <= x < 256

  type Bytes = seq<byte>

  function Pow256(n: nat): (r: nat)
    ensures r > 0
  {
    if n == 0 then 1 else 256 * Pow256(n - 1)
  }

  /** `int.from_bytes(s, "big")`. */
  function FromBig(s: Bytes): (n: nat)
    ensures n < Pow256(|s|)
  {
    if s == [] then 0 else FromBig(s[..|s| - 1]) * 256 + s[|s| - 1]
  }

  /** `n.to_bytes(len, "big")`; Python raises OverflowError when n does not fit. */
  function ToBig(n: nat, len: nat): (s: Bytes)
    requires n < Pow256(len)
    ensures |s| == len
    ensures FromBig(s) == n
  {
    if len == 0 then [] else
      var s := ToBig(n / 256, len - 1) + [n % 256];
      assert s[..|s| - 1] == ToBig(n / 256, len - 1);
      s
  }

  lemma {:induction false} ToBigFromBig(s: Bytes)
    ensures ToBig(FromBig(s), |s|) == s
  {
    if s != [] {
      var q, r := FromBig(s[..|s| - 1]), s[|s| - 1];
      ToBigFromBig(s[..|s| - 1]);
      assert (q * 256 + r) / 256 == q && (q * 256 + r) % 256 == r;
      assert s[..|s| - 1] + [r] == s;
    }
  }

  /** Bitwise XOR of non-negative integers, one binary digit at a time. */
  function Xor(a: nat, b: nat): nat
    decreases a + b
  {
    if a == 0 && b == 0 then 0
    else 2 * Xor(a / 2, b / 2) + (if a % 2 == b % 2 then 0 else 1)
  }

  function Pow2(k: nat): (r: nat)
    ensures r > 0
  {
    if k == 0 then 1 else 2 * Pow2(k - 1)
  }

  /** `a << k`. */
  function Shl(a: nat, k: nat): nat {
    if k == 0 then a else 2 * Shl(a, k - 1)
  }

  /** XOR acts on the high digits and on the k low digits separately. */
  lemma {:induction false} XorShift(a: nat, b: nat, x: nat, y: nat, k: nat)
    requires x < Pow2(k) && y < Pow2(k)
    ensures Xor(Shl(a, k) + x, Shl(b, k) + y) == Shl(Xor(a, b), k) + Xor(x, y)
    ensures Xor(x, y) < Pow2(k)
  {
    if k > 0 {
      HalfFits(x, k);
      HalfFits(y, k);
      assert Shl(a, k) == 2 * Shl(a, k - 1) && Shl(b, k) == 2 * Shl(b, k - 1);
      assert Shl(Xor(a, b), k) == 2 * Shl(Xor(a, b), k - 1) && Pow2(k) == 2 * Pow2(k - 1);
      XorShift(a, b, x / 2, y / 2, k - 1);
      hide Xor, Shl, Pow2;
      XorHalf(Shl(a, k - 1), Shl(b, k - 1), x, y);
    }
  }

  lemma HalfFits(x: nat, k: nat)
    requires k > 0
    ensures x < Pow2(k) <==> x / 2 < Pow2(k - 1)
  {
  }

  /** What stands above the last digit does not touch it. */
  lemma XorHalf(a: nat, b: nat, x: nat, y: nat)
    ensures Xor(2 * a + x, 2 * b + y) == 2 * Xor(a + x / 2, b + y / 2) + (Xor(x, y) - 2 * Xor(x / 2, y / 2))
    ensures Xor(x, y) - 2 * Xor(x / 2, y / 2) <= 1
  {
    XorUnfold(2 * a + x, 2 * b + y);
    XorUnfold(x, y);
    hide Xor;
    Halves(a, x);
    Halves(b, y);
  }

  lemma Halves(a: nat, x: nat)
    ensures (2 * a + x) / 2 == a + x / 2 && (2 * a + x) % 2 == x % 2
  {
  }

  lemma XorUnfold(a: nat, b: nat)
    ensures Xor(a, b) == 2 * Xor(a / 2, b / 2) + (if a % 2 == b % 2 then 0 else 1)
  {
  }

  function XorByte(x: byte, y: byte): (r: byte)
  {
    XorShift(0, 0, x, y, 8);
    assert Pow2(8) == 256;
    Xor(x, y)
  }

  lemma ShlByte(a: nat)
    ensures Shl(a, 8) == 256 * a
  {
    assert Shl(a, 1) == 2 * a && Shl(a, 2) == 4 * a;
    assert Shl(a, 3) == 8 * a && Shl(a, 4) == 16 * a;
    assert Shl(a, 5) == 32 * a && Shl(a, 6) == 64 * a;
    assert Shl(a, 7) == 128 * a;
  }

  lemma XorLowByte(a: nat, b: nat, x: byte, y: byte)
    ensures Xor(a * 256 + x, b * 256 + y) == Xor(a, b) * 256 + XorByte(x, y)
  {
    assert Pow2(8) == 256;
    ShlByte(a);
    ShlByte(b);
    ShlByte(Xor(a, b));
    XorShift(a, b, x, y, 8);
  }

  lemma {:induction false} XorCancel(a: nat, b: nat)
    ensures Xor(Xor(a, b), b) == a
    decreases a + b
  {
    if a != 0 || b != 0 {
      XorCancel(a / 2, b / 2);
    }
  }

  lemma Pow256Values()
    ensures Pow256(1) == 256 && Pow256(2) == 65536
    ensures Pow256(8) == 0x1_0000_0000_0000_0000
  {
    assert Pow256(1) == 256 && Pow256(2) == 65536;
    assert Pow256(3) == 0x100_0000 && Pow256(4) == 0x1_0000_0000;
    assert Pow256(5) == 0x100_0000_0000 && Pow256(6) == 0x1_0000_0000_0000;
    assert Pow256(7) == 0x100_0000_0000_0000;
  }

  /** `b"".join(parts)`. */
  function Join(parts: seq<Bytes>): Bytes {
    if parts == [] then [] else parts[0] + Join(parts[1..])
  }

  lemma {:induction false} JoinAppend(a: seq<Bytes>, b: seq<Bytes>)
    ensures Join(a + b) == Join(a) + Join(b)
  {
    if a == [] {
      assert a + b == b;
    } else {
      JoinAppend(a[1..], b);
      JoinFirst(a);
      JoinFirst(a + b);
      hide Join;
      assert (a + b)[1..] == a[1..] + b && (a + b)[0] == a[0];
      assert a[0] + (Join(a[1..]) + Join(b)) == a[0] + Join(a[1..]) + Join(b);
    }
  }

  lemma JoinLast(parts: seq<Bytes>, last: Bytes)
    ensures Join(parts + [last]) == Join(parts) + last
  {
    JoinAppend(parts, [last]);
    assert [last][1..] == [] && last + [] == last;
  }

  lemma JoinFirst(parts: seq<Bytes>)
    requires parts != []
    ensures Join(parts) == parts[0] + Join(parts[1..])
  {
  }

  lemma JoinPair(a: Bytes, b: Bytes)
    ensures Join([a, b]) == a + b
  {
    var tail: seq<Bytes> := [b];
    assert [a, b][1..] == tail && Join(tail) == b;
  }
}
