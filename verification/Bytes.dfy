/** Machine integers, fixed-width big-endian integers and UTF-8 text, as the wire formats use them. */
module Bytes {
  const TWO_63: int := 0x8000_0000_0000_0000
  const TWO_64: int := 0x1_0000_0000_0000_0000
  const U32_LIMIT: int := 0x1_0000_0000
  const I64_MAX: int := 0x7fff_ffff_ffff_ffff
  const U64_MAX: int := 0xffff_ffff_ffff_ffff

  type byte = b: int | 0 <= b < 256
  type u32 = n: int | 0 <= n < 0x1_0000_0000
  type u64 = n: int | 0 <= n < 0x1_0000_0000_0000_0000
  type i64 = n: int | -0x8000_0000_0000_0000 <= n < 0x8000_0000_0000_0000

  // ---------------------------------------------------------------- big-endian integers

  function Pow256(width: nat): (p: nat)
    ensures p >= 1
  {
    if width == 0 then 1 else 256 * Pow256(width - 1)
  }

  /** The `width` low-order bytes of `n`, most significant first. */
  function BigEndian(n: nat, width: nat): (s: seq<byte>)
    ensures |s| == width
  {
    if width == 0 then [] else BigEndian(n / 256, width - 1) + [n % 256]
  }

  function FromBigEndian(s: seq<byte>): (n: nat)
    ensures n < Pow256(|s|)
  {
    if s == [] then 0 else FromBigEndian(s[..|s| - 1]) * 256 + s[|s| - 1]
  }

  lemma {:induction false} BigEndianDecodes(n: nat, width: nat)
    requires n < Pow256(width)
    ensures FromBigEndian(BigEndian(n, width)) == n
  {
    if width > 0 {
      BigEndianDecodes(n / 256, width - 1);
      var s := BigEndian(n, width);
      assert s[..width - 1] == BigEndian(n / 256, width - 1);
    }
  }

  lemma {:induction false} BigEndianEncodes(s: seq<byte>)
    ensures BigEndian(FromBigEndian(s), |s|) == s
  {
    if s != [] {
      BigEndianEncodes(s[..|s| - 1]);
      assert FromBigEndian(s) / 256 == FromBigEndian(s[..|s| - 1]);
    }
  }

  lemma WordWidths()
    ensures Pow256(4) == U32_LIMIT && Pow256(8) == TWO_64
  {
    assert Pow256(3) == 256 * 256 * 256;
    assert Pow256(5) == 256 * 256 * 256 * 256 * 256;
  }

  function U32(n: u32): seq<byte> { BigEndian(n, 4) }
  function U64(n: u64): seq<byte> { BigEndian(n, 8) }

  /** Two's complement image of a signed word. */
  function Unsigned(n: i64): u64 { if n < 0 then n + TWO_64 else n }
  function Signed(n: u64): i64 { if n >= TWO_63 then n - TWO_64 else n }

  function ReadU32(s: seq<byte>): u32
    requires |s| == 4
  {
    WordWidths();
    FromBigEndian(s)
  }

  function ReadU64(s: seq<byte>): u64
    requires |s| == 8
  {
    WordWidths();
    FromBigEndian(s)
  }

  lemma WordsRoundTrip(n: u32, m: u64, i: i64)
    ensures ReadU32(U32(n)) == n && ReadU64(U64(m)) == m && Signed(ReadU64(U64(Unsigned(i)))) == i
  {
    WordWidths();
    BigEndianDecodes(n, 4);
    BigEndianDecodes(m, 8);
    BigEndianDecodes(Unsigned(i), 8);
  }

  lemma WordBytesRoundTrip(s: seq<byte>, t: seq<byte>)
    requires |s| == 4 && |t| == 8
    ensures U32(ReadU32(s)) == s && U64(ReadU64(t)) == t && U64(Unsigned(Signed(ReadU64(t)))) == t
  {
    BigEndianEncodes(s);
    BigEndianEncodes(t);
  }
}
