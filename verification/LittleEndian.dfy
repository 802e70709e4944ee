/** Little-endian integers over byte strings. */
module LittleEndian {
  import opened Types

  function Pow256(n: nat): (r: nat)
    ensures r >= 1
  {
    if n == 0 then 1 else 256 * Pow256(n - 1)
  }

  function Encode(n: nat, v: nat): (s: bytes)
    ensures |s| == n
  {
    if n == 0 then [] else [v % 256] + Encode(n - 1, v / 256)
  }

  function Decode(s: bytes): (v: nat)
    ensures v < Pow256(|s|)
  {
    if s == [] then 0 else s[0] + 256 * Decode(s[1..])
  }

  /** The byte at place k is the digit of 256^k: the lowest comes first. */
  lemma {:induction false} EncodeDigit(n: nat, v: nat, k: nat)
    requires k < n
    ensures Encode(n, v)[k] == v / Pow256(k) % 256
  {
    if k > 0 {
      EncodeDigit(n - 1, v / 256, k - 1);
      DivTwice(v, Pow256(k - 1));
    }
  }

  lemma DivTwice(v: nat, y: nat)
    requires y > 0
    ensures v / 256 / y == v / (256 * y)
  {
    var w := v / 256;
    var q := w / y;
    assert w == y * q + w % y;
    QuotientIs(v, 256 * y, q, 256 * (w % y) + v % 256);
  }

  lemma QuotientIs(v: nat, d: nat, q: nat, r: nat)
    requires d > 0 && v == d * q + r && r < d
    ensures v / d == q
  {
    var e := v / d - q;
    assert d * e == r - v % d;
    if e >= 1 {
      MulMonotone(d, 1, e);
    }
  }

  lemma {:induction false} DecodeEncode(n: nat, v: nat)
    requires v < Pow256(n)
    ensures Decode(Encode(n, v)) == v
  {
    if n > 0 {
      DecodeEncode(n - 1, v / 256);
      assert Encode(n, v)[1..] == Encode(n - 1, v / 256);
    }
  }

  lemma {:induction false} EncodeDecode(s: bytes)
    ensures Encode(|s|, Decode(s)) == s
  {
    if s != [] {
      EncodeDecode(s[1..]);
      assert Decode(s) % 256 == s[0] && Decode(s) / 256 == Decode(s[1..]);
    }
  }

  lemma {:induction false} PowMonotone(m: nat, n: nat)
    requires m <= n
    ensures Pow256(m) <= Pow256(n)
  {
    if m < n {
      PowMonotone(m, n - 1);
    }
  }

  lemma PowValues()
    ensures Pow256(1) == 0x100 && Pow256(2) == 0x1_0000 && Pow256(3) == 0x100_0000
    ensures Pow256(4) == 0x1_0000_0000
    ensures Pow256(5) == 0x100_0000_0000 && Pow256(6) == 0x1_0000_0000_0000
    ensures Pow256(7) == 0x100_0000_0000_0000 && Pow256(8) == 0x1_0000_0000_0000_0000
  {
    assert Pow256(1) == 0x100;
    assert Pow256(2) == 0x1_0000;
    assert Pow256(3) == 0x100_0000;
    assert Pow256(4) == 0x1_0000_0000;
    assert Pow256(5) == 0x100_0000_0000;
    assert Pow256(6) == 0x1_0000_0000_0000;
    assert Pow256(7) == 0x100_0000_0000_0000;
  }

  function ReadU16(s: bytes): (v: uint16)
    requires |s| >= 2
    ensures Encode(2, v) == s[..2]
  {
    PowValues();
    EncodeDecode(s[..2]);
    Decode(s[..2])
  }

  function ReadU32(s: bytes): (v: uint32)
    requires |s| >= 4
    ensures Encode(4, v) == s[..4]
  {
    PowValues();
    EncodeDecode(s[..4]);
    Decode(s[..4])
  }

  function ReadU64(s: bytes): (v: uint64)
    requires |s| >= 8
    ensures Encode(8, v) == s[..8]
  {
    PowValues();
    EncodeDecode(s[..8]);
    Decode(s[..8])
  }

  lemma ReadU16Write(v: uint16, rest: bytes)
    ensures ReadU16(Encode(2, v) + rest) == v
  {
    PowValues();
    DecodeEncode(2, v);
    assert (Encode(2, v) + rest)[..2] == Encode(2, v);
  }

  lemma ReadU32Write(v: uint32, rest: bytes)
    ensures ReadU32(Encode(4, v) + rest) == v
  {
    PowValues();
    DecodeEncode(4, v);
    assert (Encode(4, v) + rest)[..4] == Encode(4, v);
  }

  lemma ReadU64Write(v: uint64, rest: bytes)
    ensures ReadU64(Encode(8, v) + rest) == v
  {
    PowValues();
    DecodeEncode(8, v);
    assert (Encode(8, v) + rest)[..8] == Encode(8, v);
  }

  /** The number of bytes a sequence number needs on the wire: the least n in 1..8 with v < 256^n. */
  function SequenceBytes(v: uint64): (n: nat)
    ensures 1 <= n <= 8 && v < Pow256(n)
    ensures n > 1 ==> v >= Pow256(n - 1)
  {
    PowValues();
    if v < 0x100 then 1
    else if v < 0x1_0000 then 2
    else if v < 0x100_0000 then 3
    else if v < 0x1_0000_0000 then 4
    else if v < 0x100_0000_0000 then 5
    else if v < 0x1_0000_0000_0000 then 6
    else if v < 0x100_0000_0000_0000 then 7
    else 8
  }

  lemma SequenceBytesLeast(v: uint64, n: nat)
    requires n >= 1
    ensures v < Pow256(n) <==> SequenceBytes(v) <= n
  {
    var k := SequenceBytes(v);
    if k <= n {
      PowMonotone(k, n);
    } else {
      PowMonotone(n, k - 1);
    }
  }
}
