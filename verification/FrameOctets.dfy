/** The octets of an encoded frame, one by one (sections 5.2 and 5.3 of RFC 6455), and masking bit
    by bit. */
module FrameOctets {
  import opened Bytes
  import opened Masking
  import opened Wrappers
  import opened Frames

  // ---- bits

  predicate Bit(n: nat, k: nat) {
    n / Pow2(k) % 2 == 1
  }

  lemma LowBit(n: nat)
    ensures Bit(n, 0) <==> n % 2 == 1
  {
    assert Pow2(0) == 1;
  }

  lemma XorHalves(a: nat, b: nat)
    ensures Xor(a, b) / 2 == Xor(a / 2, b / 2)
    ensures Xor(a, b) % 2 == 1 <==> (a % 2 == 1) != (b % 2 == 1)
  {
    XorUnfold(a, b);
    hide Xor;
  }

  /** Exclusive-or, bit by bit. */
  lemma {:induction false} XorBits(a: nat, b: nat, k: nat)
    ensures Bit(Xor(a, b), k) <==> Bit(a, k) != Bit(b, k)
    decreases k
  {
    hide *;
    XorHalves(a, b);
    if k == 0 {
      LowBit(a);
      LowBit(b);
      LowBit(Xor(a, b));
    } else {
      XorBits(a / 2, b / 2, k - 1);
      BitBelow(a, k);
      BitBelow(b, k);
      BitBelow(Xor(a, b), k);
    }
  }

  lemma BitBelow(n: nat, k: nat)
    requires k > 0
    ensures Bit(n, k) == Bit(n / 2, k - 1)
  {
    assert Pow2(k) == 2 * Pow2(k - 1);
    hide Pow2;
    DivideTwice(n, Pow2(k - 1));
  }

  lemma DivideTwice(n: nat, m: nat)
    requires m > 0
    ensures n / (2 * m) == n / 2 / m
  {
    var q := n / 2 / m;
    var r := n / 2 - q * m;
    assert n == 2 * (q * m + r) + n % 2;
    assert 2 * (q * m) == q * (2 * m);
    assert 0 <= 2 * r + n % 2 < 2 * m;
    QuotientIs(n, 2 * m, q, 2 * r + n % 2);
  }

  lemma QuotientIs(n: nat, d: nat, q: nat, r: nat)
    requires d > 0 && n == q * d + r && r < d
    ensures n / d == q
  {
    var p := n / d;
    assert n == p * d + n % d;
    if p < q {
      TimesMore(p, q, d);
    } else if q < p {
      TimesMore(q, p, d);
    }
  }

  lemma {:induction false} TimesMore(a: nat, b: nat, d: nat)
    requires a < b
    ensures a * d + d <= b * d
    decreases b
  {
    assert b * d == (b - 1) * d + d;
    if a < b - 1 {
      TimesMore(a, b - 1, d);
    }
  }

  /** Each octet of a masked payload, bit by bit, against the key's octets in turn. */
  lemma MaskBits(payload: Bytes, mask: Bytes, i: nat, k: nat)
    requires |mask| == 4 && i < |payload|
    ensures |ApplyMask(payload, mask)| == |payload|
    ensures Bit(ApplyMask(payload, mask)[i], k) <==> Bit(payload[i], k) != Bit(mask[i % 4], k)
  {
    MaskIsBytewise(payload, mask);
    XorBits(payload[i], mask[i % 4], k);
    hide Bit, Xor, ApplyMask;
  }

  // ---- the header

  /** The four bits of an opcode. */
  function OpcodeBits(opcode: Opcode): nat {
    match opcode
    case Continuation => 0
    case Text => 1
    case Binary => 2
    case Close => 8
    case Ping => 9
    case Pong => 10
  }

  /** The number that octets spell, the highest first. */
  function Number(b: Bytes): nat {
    if b == [] then 0 else b[0] * Pow256(|b| - 1) + Number(b[1..])
  }

  /** The first octets of a frame: the FIN bit and the opcode, the MASK bit and the length in its
      shortest form, 7 bits, 16 or 64. */
  predicate HeaderIs(header: Bytes, opcode: Opcode, length: nat, fin: bool, masked: bool) {
    && |header| == (if length <= 125 then 2 else if length <= 65535 then 4 else 10)
    && header[0] == (if fin then 128 else 0) + OpcodeBits(opcode)
    && header[1] == (if masked then 128 else 0) + (if length <= 125 then length else if length <= 65535 then 126 else 127)
    && (length > 125 ==> Number(header[2..]) == length)
  }

  lemma {:induction false} NumberGrows(front: Bytes, last: byte)
    ensures Number(front + [last]) == Number(front) * 256 + last
    decreases |front|
  {
    var b := front + [last];
    if front == [] {
      assert b[1..] == [];
    } else {
      NumberGrows(front[1..], last);
      assert b[1..] == front[1..] + [last] && b[0] == front[0];
    }
  }

  lemma {:induction false} BigIsNumber(b: Bytes)
    ensures FromBig(b) == Number(b)
  {
    if b != [] {
      var front := b[..|b| - 1];
      BigIsNumber(front);
      NumberGrows(front, b[|b| - 1]);
      assert b == front + [b[|b| - 1]];
    }
  }

  lemma HeaderIsSpelled(opcode: Opcode, length: nat, fin: bool, masked: bool)
    requires length < TWO_64
    ensures HeaderIs([FirstByte(opcode, fin)] + LengthHeader(length, masked), opcode, length, fin, masked)
  {
    Pow256Values();
    var header := [FirstByte(opcode, fin)] + LengthHeader(length, masked);
    if length > 125 {
      var digits := ToBig(length, if length <= 65535 then 2 else 8);
      BigIsNumber(digits);
      assert header[2..] == digits;
    }
    hide Number, ToBig, FromBig;
  }

  /** A frame is refused exactly for a key that is not four octets, a control frame that is too long
      or not whole, or a length of more than 64 bits; else it is that header, the key if any, and
      the payload under the key. */
  lemma FrameIsSpelled(opcode: Opcode, payload: Bytes, fin: bool, mask: Option<Bytes>) returns (header: Bytes)
    ensures EncodeFrame(opcode, payload, fin, mask).Err? <==>
      || (mask.Some? && |mask.value| != 4)
      || (OpcodeBits(opcode) >= 8 && (|payload| > 125 || !fin))
      || |payload| >= TWO_64
    ensures EncodeFrame(opcode, payload, fin, mask).Ok? ==>
      && HeaderIs(header, opcode, |payload|, fin, mask.Some?)
      && EncodeFrame(opcode, payload, fin, mask).bytes ==
           if mask.None? then header + payload else header + mask.value + ApplyMask(payload, mask.value)
  {
    header := [];
    if EncodeFrame(opcode, payload, fin, mask).Ok? {
      header := [FirstByte(opcode, fin)] + LengthHeader(|payload|, mask.Some?);
      HeaderIsSpelled(opcode, |payload|, fin, mask.Some?);
    }
    hide HeaderIs, FirstByte, LengthHeader, ApplyMask;
  }

  /** The single-frame text message of section 5.7 of RFC 6455. */
  lemma HelloOctets()
    ensures EncodeFrame(Opcode.Text, [0x48, 0x65, 0x6C, 0x6C, 0x6F], true, None) ==
      Ok([0x81, 0x05, 0x48, 0x65, 0x6C, 0x6C, 0x6F])
  {
  }
}
