/** Bytes, and the little-endian integers of the OPC UA binary encoding. */
module Bytes {

  type byte = x: int | 0 <= x < 256

  type u32 = x: int | 0 <= x < U32_LIMIT

  const U32_LIMIT := 0x1_0000_0000

  /** The successor of a 32-bit unsigned counter, with wrap-around. */
  function Inc32(n: u32): (r: u32)
  {
    (n + 1) % U32_LIMIT
  }

  /** The four bytes of `uint32(n)`, least significant first. */
  function PutU32(n: nat): (r: seq<byte>)
    ensures |r| == 4
  {
    [n % 0x100, n / 0x100 % 0x100, n / 0x1_0000 % 0x100, n / 0x100_0000 % 0x100]
  }

  function GetU32(s: seq<byte>): (r: u32)
    requires |s| >= 4
  {
    var b0: int, b1: int, b2: int, b3: int := s[0], s[1], s[2], s[3];
    b0 + 0x100 * b1 + 0x1_0000 * b2 + 0x100_0000 * b3
  }

  lemma GetPutU32(n: nat)
    ensures GetU32(PutU32(n)) == n % U32_LIMIT
  {
    var q0 := n / 0x100;
    var q1 := n / 0x1_0000;
    var q2 := n / 0x100_0000;
    assert q1 == q0 / 0x100;
    assert q2 == q1 / 0x100;
    assert n / U32_LIMIT == q2 / 0x100;
  }

  /** As much of `x` as a copy into `room` bytes takes. */
  function Fit(x: seq<byte>, room: nat): (r: seq<byte>)
    ensures |r| == if |x| <= room then |x| else room
  {
    if |x| <= room then x else x[..room]
  }

  /** `n` copies of the byte `b`. */
  function Repeat(b: byte, n: nat): (r: seq<byte>)
    ensures |r| == n && forall i :: 0 <= i < n ==> r[i] == b
  {
    seq(n, i => b)
  }
}
