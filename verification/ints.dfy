/** Machine integers of the Rust code, as bounded subsets of `int`, and the two
    conversions the framing layer relies on: the truncating cast `as u32` and
    the big-endian reading of a 4-byte length prefix (`u32::from_be_bytes`). */
module Ints {

  const U32_LIMIT: int := 0x1_0000_0000
  const USIZE_LIMIT: int := 0x1_0000_0000_0000_0000

  type byte = x: int | 0 <= x < 0x100
  type u32 = x: int | 0 <= x < 0x1_0000_0000
  type usize = x: int | 0 <= x < 0x1_0000_0000_0000_0000
  type i32 = x: int | -0x8000_0000 <= x < 0x8000_0000
  type i64 = x: int | -0x8000_0000_0000_0000 <= x < 0x8000_0000_0000_0000

  /** Rust's `n as u32` on an unsigned length: keeps the low 32 bits. */
  function AsU32(n: nat): (r: u32)
    ensures n < U32_LIMIT ==> r == n
    ensures r == n - (n / U32_LIMIT) * U32_LIMIT
  {
    n % U32_LIMIT
  }

  /** `usize::saturating_add`: the sum, or `usize::MAX` when it would overflow. */
  function SaturatingAdd(a: usize, b: usize): usize {
    if a + b < USIZE_LIMIT then a + b else USIZE_LIMIT - 1
  }

  /** `u32::from_be_bytes([b0, b1, b2, b3])`. */
  function FromBeBytes(b0: byte, b1: byte, b2: byte, b3: byte): u32 {
    b0 * 0x100_0000 + b1 * 0x1_0000 + b2 * 0x100 + b3
  }

  /** `u32::to_be_bytes`: the most significant byte first. */
  function ToBeBytes(n: u32): (bs: seq<byte>)
    ensures |bs| == 4
  {
    [n / 0x100_0000, (n / 0x1_0000) % 0x100, (n / 0x100) % 0x100, n % 0x100]
  }

  /** Decoding the encoding of a length gives the length back. */
  lemma FromBeBytesOfToBeBytes(n: u32)
    ensures var bs := ToBeBytes(n); FromBeBytes(bs[0], bs[1], bs[2], bs[3]) == n
  {
    var bs := ToBeBytes(n);
    assert n / 0x100 == (n / 0x1_0000) * 0x100 + bs[2];
    assert n / 0x1_0000 == (n / 0x100_0000) * 0x100 + bs[1];
  }

  /** Every 4-byte prefix is the encoding of the length it decodes to, so the
      prefix and the length determine each other. */
  lemma ToBeBytesOfFromBeBytes(b0: byte, b1: byte, b2: byte, b3: byte)
    ensures ToBeBytes(FromBeBytes(b0, b1, b2, b3)) == [b0, b1, b2, b3]
  {
    var n := FromBeBytes(b0, b1, b2, b3);
    assert n / 0x100 == b0 * 0x1_0000 + b1 * 0x100 + b2;
    assert n / 0x1_0000 == b0 * 0x100 + b1;
    assert n / 0x100_0000 == b0;
  }
}
