/** Payload masking (section 5.3 of RFC 6455): one big-integer XOR against the
    repeated key, and the byte-by-byte meaning it must have. */
module Masking {
  import opened Bytes

  function Repeat(mask: Bytes, n: nat): (r: Bytes)
    ensures |r| == n * |mask|
  {
    if n == 0 then [] else mask + Repeat(mask, n - 1)
  }

  /** The key as long as the payload: repetitions of the mask, cut to size. */
  function Key(mask: Bytes, len: nat): (k: Bytes)
    requires |mask| == 4
    ensures |k| == len
  {
    Repeat(mask, len / 4 + 1)[..len]
  }

  function ApplyMask(payload: Bytes, mask: Bytes): (r: Bytes)
    requires |mask| == 4
  {
    if payload == [] then [] else
      var key := Key(mask, |payload|);
      XorFits(payload, key);
      ToBig(Xor(FromBig(payload), FromBig(key)), |payload|)
  }

  /** The specification of section 5.3: octet i is XORed with key octet i mod 4. */
  function MaskBytewise(payload: Bytes, mask: Bytes): (r: Bytes)
    requires |mask| == 4
    ensures |r| == |payload|
  {
    seq(|payload|, i requires 0 <= i < |payload| => XorByte(payload[i], mask[i % 4]))
  }

  function ZipXor(a: Bytes, b: Bytes): (r: Bytes)
    requires |a| == |b|
    ensures |r| == |a|
  {
    seq(|a|, i requires 0 <= i < |a| => XorByte(a[i], b[i]))
  }

  lemma {:induction false} XorIsZip(a: Bytes, b: Bytes)
    requires |a| == |b|
    ensures Xor(FromBig(a), FromBig(b)) == FromBig(ZipXor(a, b))
  {
    if a != [] {
      var n := |a| - 1;
      XorIsZip(a[..n], b[..n]);
      XorLowByte(FromBig(a[..n]), FromBig(b[..n]), a[n], b[n]);
      assert ZipXor(a, b)[..n] == ZipXor(a[..n], b[..n]);
    }
  }

  lemma XorFits(a: Bytes, b: Bytes)
    requires |a| == |b|
    ensures Xor(FromBig(a), FromBig(b)) < Pow256(|a|)
  {
    XorIsZip(a, b);
  }

  lemma {:induction false} RepeatAt(mask: Bytes, n: nat, i: nat)
    requires |mask| == 4 && i < n * 4
    ensures Repeat(mask, n)[i] == mask[i % 4]
  {
    if i >= 4 {
      RepeatAt(mask, n - 1, i - 4);
    }
  }

  lemma MaskIsBytewise(payload: Bytes, mask: Bytes)
    requires |mask| == 4
    ensures ApplyMask(payload, mask) == MaskBytewise(payload, mask)
  {
    if payload != [] {
      var key := Key(mask, |payload|);
      XorIsZip(payload, key);
      ToBigFromBig(ZipXor(payload, key));
      forall i | 0 <= i < |payload| ensures key[i] == mask[i % 4] {
        RepeatAt(mask, |payload| / 4 + 1, i);
      }
      assert ZipXor(payload, key) == MaskBytewise(payload, mask);
    }
  }

  lemma MaskInvolution(payload: Bytes, mask: Bytes)
    requires |mask| == 4
    ensures |ApplyMask(payload, mask)| == |payload|
    ensures ApplyMask(ApplyMask(payload, mask), mask) == payload
  {
    MaskIsBytewise(payload, mask);
    var once := MaskBytewise(payload, mask);
    MaskIsBytewise(once, mask);
    forall i | 0 <= i < |payload|
      ensures MaskBytewise(once, mask)[i] == payload[i]
    {
      XorCancel(payload[i], mask[i % 4]);
    }
  }
}
