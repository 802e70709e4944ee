/** The cursor buffer of the Go implementation. */
module GoBuffer {
  import opened Types
  import opened LittleEndian
  import opened Wire

  class Buffer {
    const buf: array<byte>
    var pos: nat

    /** NewBufferFromRef: the caller's slice is shared. */
    constructor (buf: array<byte>)
      ensures this.buf == buf && pos == 0
    {
      this.buf := buf;
      pos := 0;
    }

    /** The next bytes, or an error that leaves the position alone. */
    method GetBytes(length: nat) returns (r: Option<bytes>)
      modifies this
      ensures r == if old(pos) + length > buf.Length then None else Some(buf[old(pos)..old(pos) + length])
      ensures pos == if r.None? then old(pos) else old(pos) + length
    {
      var bufferWindow := pos + length;
      if buf.Length < length {
        return None;
      }
      if bufferWindow > buf.Length {
        return None;
      }
      r := Some(buf[pos..bufferWindow]);
      pos := pos + length;
    }

    /** What every integer getter promises: a short buffer reads as zero, without an error. */
    ghost function Number(at: nat, n: nat): (v: nat)
      reads buf
      ensures v < Pow256(n)
    {
      if at + n > buf.Length then 0 else Decode(buf[at..at + n])
    }

    ghost function After(at: nat, n: nat): nat {
      if at + n > buf.Length then at else at + n
    }

    method GetUint8() returns (v: byte)
      modifies this
      ensures v == Number(old(pos), 1) && pos == After(old(pos), 1)
    {
      PowValues();
      var b := GetBytes(1);
      if b.None? {
        return 0;
      }
      DecodeNext([], b.value[0]);
      assert b.value == [] + [b.value[0]];
      return b.value[0];
    }

    method GetUint16() returns (v: uint16)
      modifies this
      ensures v == Number(old(pos), 2) && pos == After(old(pos), 2)
    {
      PowValues();
      var b := GetBytes(2);
      if b.None? {
        return 0;
      }
      DecodeFour(b.value);
      return b.value[0] as int + b.value[1] as int * 0x100;
    }

    method GetUint32() returns (v: uint32)
      modifies this
      ensures v == Number(old(pos), 4) && pos == After(old(pos), 4)
    {
      PowValues();
      var b := GetBytes(4);
      if b.None? {
        return 0;
      }
      DecodeFour(b.value);
      return b.value[0] as int + b.value[1] as int * 0x100 + b.value[2] as int * 0x1_0000 + b.value[3] as int * 0x100_0000;
    }

    method GetUint64() returns (v: uint64)
      modifies this
      ensures v == Number(old(pos), 8) && pos == After(old(pos), 8)
    {
      PowValues();
      var b := GetBytes(8);
      if b.None? {
        return 0;
      }
      DecodeEight(b.value);
      return b.value[0] as int + b.value[1] as int * 0x100 + b.value[2] as int * 0x1_0000 + b.value[3] as int * 0x100_0000
             + b.value[4] as int * 0x1_0000_0000 + b.value[5] as int * 0x100_0000_0000
             + b.value[6] as int * 0x1_0000_0000_0000 + b.value[7] as int * 0x100_0000_0000_0000;
    }

    method WriteUint8(n: byte)
      requires pos < buf.Length
      modifies this, buf
      ensures pos == old(pos) + 1 && buf[..] == Put(old(buf[..]), old(pos), [n])
    {
      buf[pos] := n;
      pos := pos + 1;
    }

    method WriteBytesN(src: bytes, length: nat)
      requires length <= |src| && pos + length <= buf.Length
      modifies this, buf
      ensures pos == old(pos) + length && buf[..] == Put(old(buf[..]), old(pos), src[..length])
    {
      ghost var start := pos;
      ghost var before := buf[..];
      var i := 0;
      while i < length
        invariant i <= length && pos == start + i
        invariant buf[..] == Put(before, start, src[..i])
      {
        PutTwice(before, start, src[..i], [src[i]]);
        assert src[..i + 1] == src[..i] + [src[i]];
        WriteUint8(src[i]);
        i := i + 1;
      }
    }

    method WriteUint32(n: uint32)
      requires pos + 4 <= buf.Length
      modifies this, buf
      ensures pos == old(pos) + 4 && buf[..] == Put(old(buf[..]), old(pos), Encode(4, n))
    {
      hide Put;
      ghost var start := pos;
      ghost var before := buf[..];
      EncodeFour(n);
      var b0: byte, b1: byte, b2: byte, b3: byte :=
        n % 0x100, n / 0x100 % 0x100, n / 0x1_0000 % 0x100, n / 0x100_0000 % 0x100;
      PutTwice(before, start, [b0], [b1]);
      PutTwice(before, start, [b0] + [b1], [b2]);
      PutTwice(before, start, [b0] + [b1] + [b2], [b3]);
      WriteUint8(b0);
      WriteUint8(b1);
      WriteUint8(b2);
      WriteUint8(b3);
    }

    method WriteUint64(n: uint64)
      requires pos + 8 <= buf.Length
      modifies this, buf
      ensures pos == old(pos) + 8 && buf[..] == Put(old(buf[..]), old(pos), Encode(8, n))
    {
      ghost var start := pos;
      ghost var before := buf[..];
      var i := 0;
      var unit: nat := 1;
      while i < 8
        invariant i <= 8 && pos == start + i && unit == Pow256(i)
        invariant buf[..] == Put(before, start, Encode(i, n))
      {
        EncodeNext(i, n);
        PutTwice(before, start, Encode(i, n), [n / unit % 256]);
        WriteUint8(n / unit % 256);
        unit := 256 * unit;
        i := i + 1;
      }
    }
  }

  lemma EncodeFour(n: nat)
    ensures var b0: byte, b1: byte, b2: byte, b3: byte :=
              n % 0x100, n / 0x100 % 0x100, n / 0x1_0000 % 0x100, n / 0x100_0000 % 0x100;
            Encode(4, n) == [b0] + [b1] + [b2] + [b3]
  {
    PowValues();
    EncodeNext(0, n);
    EncodeNext(1, n);
    EncodeNext(2, n);
    EncodeNext(3, n);
  }

  lemma DecodeFour(s: bytes)
    ensures |s| == 2 ==> Decode(s) == s[0] as int + s[1] as int * 0x100
    ensures |s| == 4 ==> Decode(s) == s[0] as int + s[1] as int * 0x100 + s[2] as int * 0x1_0000 + s[3] as int * 0x100_0000
  {
    PowValues();
    if |s| == 2 {
      DecodeNext([], s[0]);
      DecodeNext([s[0]], s[1]);
      assert s == [] + [s[0]] + [s[1]];
    } else if |s| == 4 {
      DecodeFour(s[..2]);
      DecodeNext(s[..2], s[2]);
      DecodeNext(s[..2] + [s[2]], s[3]);
      assert s == s[..2] + [s[2]] + [s[3]];
    }
  }

  lemma DecodeEight(s: bytes)
    requires |s| == 8
    ensures Decode(s) == s[0] as int + s[1] as int * 0x100 + s[2] as int * 0x1_0000 + s[3] as int * 0x100_0000
                         + s[4] as int * 0x1_0000_0000 + s[5] as int * 0x100_0000_0000
                         + s[6] as int * 0x1_0000_0000_0000 + s[7] as int * 0x100_0000_0000_0000
  {
    PowValues();
    DecodeFour(s[..4]);
    DecodeNext(s[..4], s[4]);
    DecodeNext(s[..4] + [s[4]], s[5]);
    DecodeNext(s[..4] + [s[4]] + [s[5]], s[6]);
    DecodeNext(s[..4] + [s[4]] + [s[5]] + [s[6]], s[7]);
    assert s == s[..4] + [s[4]] + [s[5]] + [s[6]] + [s[7]];
  }
}
