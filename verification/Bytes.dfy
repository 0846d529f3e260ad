/** Byte strings and fixed-width big-endian integers. */
module Bytes {
  type byte = b: int | 0 <= b < 256

  const U32_LIMIT: nat := 0x1_0000_0000
  const U64_LIMIT: nat := 0x1_0000_0000_0000_0000

  /** How many numbers fit in `width` bytes. */
  function Capacity(width: nat): (c: nat)
    ensures c > 0
  {
    if width == 0 then 1 else 256 * Capacity(width - 1)
  }

  function BigEndian(n: nat, width: nat): (b: seq<byte>)
    ensures |b| == width
  {
    if width == 0 then [] else BigEndian(n / 256, width - 1) + [n % 256]
  }

  function ReadBigEndian(b: seq<byte>): nat {
    if b == [] then 0 else 256 * ReadBigEndian(b[..|b| - 1]) + b[|b| - 1]
  }

  lemma {:induction false} ReadOfWrite(n: nat, width: nat)
    requires n < Capacity(width)
    ensures ReadBigEndian(BigEndian(n, width)) == n
  {
    if width > 0 {
      assert n / 256 < Capacity(width - 1);
      ReadOfWrite(n / 256, width - 1);
      assert BigEndian(n, width)[..width - 1] == BigEndian(n / 256, width - 1);
    }
  }

  lemma {:induction false} WriteOfRead(b: seq<byte>)
    ensures ReadBigEndian(b) < Capacity(|b|)
    ensures BigEndian(ReadBigEndian(b), |b|) == b
  {
    if b != [] {
      var front := b[..|b| - 1];
      WriteOfRead(front);
      assert ReadBigEndian(b) / 256 == ReadBigEndian(front);
      assert b == front + [b[|b| - 1]];
    }
  }

  lemma CapacityValues()
    ensures Capacity(4) == U32_LIMIT && Capacity(8) == U64_LIMIT
  {
    assert Capacity(2) == 0x1_0000;
    assert Capacity(4) == 0x1_0000_0000;
    assert Capacity(6) == 0x1_0000_0000_0000;
  }

  function U32(n: nat): (b: seq<byte>)
    ensures |b| == 4
  {
    BigEndian(n, 4)
  }

  function U64(n: nat): (b: seq<byte>)
    ensures |b| == 8
  {
    BigEndian(n, 8)
  }

  lemma U32RoundTrip(n: nat)
    requires n < U32_LIMIT
    ensures ReadBigEndian(U32(n)) == n
  {
    CapacityValues();
    ReadOfWrite(n, 4);
  }

  lemma U64RoundTrip(n: nat)
    requires n < U64_LIMIT
    ensures ReadBigEndian(U64(n)) == n
  {
    CapacityValues();
    ReadOfWrite(n, 8);
  }

  /** A length prefix: `u32::try_from(len).unwrap_or(u32::MAX)`. */
  function Len32(n: nat): (m: nat)
    ensures m < U32_LIMIT
    ensures n < U32_LIMIT ==> m == n
  {
    if n < U32_LIMIT then n else U32_LIMIT - 1
  }

  lemma Associative(a: seq<byte>, b: seq<byte>, c: seq<byte>)
    ensures a + b + c == a + (b + c)
  {
  }
}
