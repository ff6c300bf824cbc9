/** Fixed-width little-endian integers, as the standard library's binary encoding writes them. */
module LittleEndian {
  import opened Domain

  /** The number of values `width` bytes can tell apart. */
  function Values(width: nat): (v: nat)
    ensures v > 0
  {
    if width == 0 then 1 else 256 * Values(width - 1)
  }

  function Encode(n: nat, width: nat): (b: Bytes)
    ensures |b| == width
  {
    if width == 0 then [] else [n % 256] + Encode(n / 256, width - 1)
  }

  function Decode(b: Bytes): nat {
    if b == [] then 0 else b[0] + 256 * Decode(b[1..])
  }

  lemma {:induction false} DecodeEncode(n: nat, width: nat)
    requires n < Values(width)
    ensures Decode(Encode(n, width)) == n
  {
    if width > 0 {
      DecodeEncode(n / 256, width - 1);
      assert Encode(n, width)[1..] == Encode(n / 256, width - 1);
    }
  }

  /** Two's complement: a negative number is written as if the width were added to it. */
  function EncodeSigned(n: int, width: nat): (b: Bytes)
    requires 0 <= n + Values(width)
    ensures |b| == width
  {
    Encode(if n < 0 then n + Values(width) else n, width)
  }

  function DecodeSigned(b: Bytes): int {
    var v, all := Decode(b), Values(|b|);
    if 2 * v >= all then v - all else v
  }

  /** Every signed number of the width is read back, negative ones included. */
  lemma DecodeEncodeSigned(n: int, width: nat)
    requires 0 <= 2 * n + Values(width) && 2 * n < Values(width)
    ensures DecodeSigned(EncodeSigned(n, width)) == n
  {
    DecodeEncode(if n < 0 then n + Values(width) else n, width);
  }

  lemma FourAndEight()
    ensures Values(4) == 0x1_0000_0000
    ensures Values(8) == 0x1_0000_0000_0000_0000
  {
    assert Values(2) == 0x1_0000 && Values(4) == 0x1_0000_0000 && Values(6) == 0x1_0000_0000_0000;
  }

  function Uint32(n: uint32): Bytes { Encode(n, 4) }
  function Uint64(n: uint64): Bytes { Encode(n, 8) }
  function Int32(n: int32): Bytes { FourAndEight(); EncodeSigned(n, 4) }
  function Int64(n: int64): Bytes { FourAndEight(); EncodeSigned(n, 8) }
  function Bool(b: bool): Bytes { if b then [1] else [0] }

  /** Four bytes, the least significant one first; two's complement for a negative number. */
  lemma FourBytes(n: uint32, i: int32)
    ensures Uint32(n) == [n % 0x100, n / 0x100 % 0x100, n / 0x1_0000 % 0x100, n / 0x100_0000 % 0x100]
    ensures Int32(i) == Uint32(if i < 0 then i + 0x1_0000_0000 else i)
  {
    FourAndEight();
    ThreeMore(n);
    assert n / 0x100 / 0x100 == n / 0x1_0000;
    assert n / 0x1_0000 / 0x100 == n / 0x100_0000;
    hide Encode;
  }

  lemma ThreeMore(n: nat)
    ensures Encode(n, 4) == [n % 0x100, n / 0x100 % 0x100, n / 0x100 / 0x100 % 0x100, n / 0x100 / 0x100 / 0x100 % 0x100]
  {
    assert Encode(n / 0x100 / 0x100 / 0x100, 1) == [n / 0x100 / 0x100 / 0x100 % 0x100] + Encode(n / 0x100 / 0x100 / 0x100 / 0x100, 0);
    assert Encode(n / 0x100 / 0x100, 2) == [n / 0x100 / 0x100 % 0x100] + Encode(n / 0x100 / 0x100 / 0x100, 1);
    assert Encode(n / 0x100, 3) == [n / 0x100 % 0x100] + Encode(n / 0x100 / 0x100, 2);
  }

  /** The eight bytes of a small number are its four and four more zeros. */
  lemma EightBytes(n: uint32)
    ensures Uint64(n) == Uint32(n) + [0, 0, 0, 0]
  {
    EncodeSmall(n, 4);
    FourAndEight();
    assert Encode(0, 4) == [0, 0, 0, 0] by { ThreeMore(0); }
    hide Encode;
  }

  lemma {:induction false} EncodeSmall(n: nat, width: nat)
    requires n < Values(width)
    ensures Encode(n, width + 4) == Encode(n, width) + Encode(0, 4)
  {
    if width > 0 { EncodeSmall(n / 256, width - 1); }
  }

  /** Each adder's bytes determine the number that was added. */
  lemma AddersDecode(u4: uint32, i4: int32, u8: uint64, i8: int64)
    ensures |Uint32(u4)| == |Int32(i4)| == 4 && |Uint64(u8)| == |Int64(i8)| == 8
    ensures Decode(Uint32(u4)) == u4 && Decode(Uint64(u8)) == u8
    ensures DecodeSigned(Int32(i4)) == i4 && DecodeSigned(Int64(i8)) == i8
    ensures Bool(true) == [1] && Bool(false) == [0]
  {
    FourAndEight();
    DecodeEncode(u4, 4);
    DecodeEncode(u8, 8);
    DecodeEncodeSigned(i4, 4);
    DecodeEncodeSigned(i8, 8);
  }
}
