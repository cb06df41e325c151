/**
 * The pseudo random function that turns a pair of nonces into keys: `calculatePSHA`,
 * which is in both secure channels (P_hash of RFC 5246, section 5; OPC UA Part 6, section 6.7.5).
 *
 * `mac` is the HMAC under the secret; only the fixed size of its result matters here.
 */
module Psha {
  import opened Arith
  import opened Bytes

  type Mac = seq<byte> -> seq<byte>

  ghost predicate FixedSize(mac: Mac, size: nat)
  {
    size > 0 && forall x :: |mac(x)| == size
  }

  /** A(0) = seed, A(i + 1) = HMAC(secret, A(i)). */
  function A(mac: Mac, seed: seq<byte>, i: nat): (r: seq<byte>)
  {
    if i == 0 then seed else mac(A(mac, seed, i - 1))
  }

  /** The i-th block of the P_hash stream. */
  function Block(mac: Mac, seed: seq<byte>, i: nat): (r: seq<byte>)
  {
    mac(A(mac, seed, i + 1) + seed)
  }

  /** Byte `j` of the stream is in block `j / size`. */
  ghost function StreamByte(mac: Mac, seed: seq<byte>, size: nat, j: nat): (r: byte)
    requires FixedSize(mac, size)
  {
    Block(mac, seed, j / size)[j % size]
  }

  lemma StreamByteIn(mac: Mac, seed: seq<byte>, size: nat, i: nat, j: nat)
    requires FixedSize(mac, size) && size * i <= j < size * i + size
    ensures StreamByte(mac, seed, size, j) == Block(mac, seed, i)[j - size * i]
  {
    DivModIs(j, size, i, j - size * i);
  }

  /** The first `n` bytes of the P_hash stream. */
  ghost function Stream(mac: Mac, seed: seq<byte>, size: nat, n: nat): (r: seq<byte>)
    requires FixedSize(mac, size)
    ensures |r| == n
    ensures forall j :: 0 <= j < n ==> r[j] == StreamByte(mac, seed, size, j)
  {
    seq(n, j requires 0 <= j < n => StreamByte(mac, seed, size, j))
  }

  /** `output[..end]` is filled with the stream. */
  ghost predicate Filled(mac: Mac, seed: seq<byte>, size: nat, output: array<byte>, end: nat)
    requires FixedSize(mac, size)
    reads output
  {
    forall j :: 0 <= j < end && j < output.Length ==> output[j] == StreamByte(mac, seed, size, j)
  }

  method CalculatePsha(mac: Mac, size: nat, seed: seq<byte>, sizeBytes: nat) returns (output: array<byte>)
    requires FixedSize(mac, size)
    ensures fresh(output) && output[..] == Stream(mac, seed, size, sizeBytes)
  {
    output := new byte[sizeBytes];
    var a := seed;
    var iterations := (sizeBytes + size - 1) / size;
    for i := 0 to iterations
      invariant a == A(mac, seed, i)
      invariant Filled(mac, seed, size, output, size * i)
    {
      CeilDiv(sizeBytes, size, i);
      a := mac(a);
      FillBlock(mac, size, seed, a, output, i);
      assert size * (i + 1) == size * i + size;
    }
    CeilDiv(sizeBytes, size, iterations);
  }

  /** The second half of one iteration: block `i` is written at `size * i`, cut at the end of the output. */
  method FillBlock(mac: Mac, size: nat, seed: seq<byte>, a: seq<byte>, output: array<byte>, i: nat)
    requires FixedSize(mac, size) && a == A(mac, seed, i + 1) && size * i < output.Length
    requires Filled(mac, seed, size, output, size * i)
    modifies output
    ensures Filled(mac, seed, size, output, size * i + size)
  {
    hide StreamByte;
    var buf2 := mac(a + seed);
    var m := size * i;
    var n := output.Length - m;
    if n > size {
      n := size;
    }
    Copy(output, m, buf2, n);
    forall j | m <= j < m + n
      ensures output[j] == StreamByte(mac, seed, size, j)
    {
      StreamByteIn(mac, seed, size, i, j);
      assert output[m + (j - m)] == buf2[j - m];
    }
  }

  /** `copy(output[m:m+n], src)`. */
  method Copy(output: array<byte>, m: nat, src: seq<byte>, n: nat)
    requires m + n <= output.Length && n <= |src|
    modifies output
    ensures forall j :: 0 <= j < n ==> output[m + j] == src[j]
    ensures forall j :: 0 <= j < output.Length && !(m <= j < m + n) ==> output[j] == old(output[j])
  {
    for k := 0 to n
      invariant forall j :: 0 <= j < k ==> output[m + j] == src[j]
      invariant forall j :: 0 <= j < output.Length && !(m <= j < m + k) ==> output[j] == old(output[j])
    {
      output[m + k] := src[k];
    }
  }

  /** A shorter output is a prefix of a longer one. */
  lemma StreamPrefix(mac: Mac, seed: seq<byte>, size: nat, m: nat, n: nat)
    requires FixedSize(mac, size) && m <= n
    ensures Stream(mac, seed, size, n)[..m] == Stream(mac, seed, size, m)
  {
  }

  /** The chain of RFC 5246, section 5: it starts with the seed, and each next one is the MAC of the one before. */
  ghost predicate IsChain(mac: Mac, seed: seq<byte>, chain: seq<seq<byte>>)
  {
    && chain != [] && chain[0] == seed
    && forall j :: 0 < j < |chain| ==> chain[j] == mac(chain[j - 1])
  }

  lemma {:induction false} ChainIs(mac: Mac, seed: seq<byte>, chain: seq<seq<byte>>, i: nat)
    requires IsChain(mac, seed, chain) && i < |chain|
    ensures A(mac, seed, i) == chain[i]
  {
    if i > 0 {
      ChainIs(mac, seed, chain, i - 1);
    }
  }

  /** The i-th block of the output is the MAC of the chain's element i + 1 (the first is not used) and the seed. */
  lemma StreamIs(mac: Mac, seed: seq<byte>, size: nat, chain: seq<seq<byte>>, n: nat, i: nat)
    requires FixedSize(mac, size) && IsChain(mac, seed, chain) && i + 1 < |chain| && size * i + size <= n
    ensures Stream(mac, seed, size, n)[size * i..size * i + size] == mac(chain[i + 1] + seed)
  {
    hide StreamByte;
    ChainIs(mac, seed, chain, i + 1);
    forall j | size * i <= j < size * i + size
      ensures StreamByte(mac, seed, size, j) == mac(chain[i + 1] + seed)[j - size * i]
    {
      StreamByteIn(mac, seed, size, i, j);
    }
  }

  /** The keys of one direction of a channel. */
  datatype Keys = Keys(signing: seq<byte>, encrypting: seq<byte>, iv: seq<byte>)

  datatype KeySizes = KeySizes(signing: nat, encrypting: nat, iv: nat)

  /** How both sides cut the output: three consecutive copies. */
  function Cut(output: seq<byte>, sizes: KeySizes): (k: Keys)
    requires |output| == sizes.signing + sizes.encrypting + sizes.iv
    ensures k.signing + k.encrypting + k.iv == output
    ensures |k.signing| == sizes.signing && |k.encrypting| == sizes.encrypting && |k.iv| == sizes.iv
  {
    var jj := sizes.signing;
    var kk := jj + sizes.encrypting;
    Keys(output[..jj], output[jj..kk], output[kk..])
  }

  /** Keys of different policies that share leading sizes share leading keys. */
  lemma CutStream(mac: Mac, seed: seq<byte>, size: nat, s: KeySizes, t: KeySizes)
    requires FixedSize(mac, size) && s.signing == t.signing && s.encrypting <= t.encrypting
    ensures var ks := Cut(Stream(mac, seed, size, s.signing + s.encrypting + s.iv), s);
            var kt := Cut(Stream(mac, seed, size, t.signing + t.encrypting + t.iv), t);
            ks.signing == kt.signing && ks.encrypting == kt.encrypting[..s.encrypting]
  {
    var n := s.signing + s.encrypting;
    StreamPrefix(mac, seed, size, n, n + s.iv);
    StreamPrefix(mac, seed, size, n, t.signing + t.encrypting + t.iv);
    var c := Stream(mac, seed, size, n);
    assert Stream(mac, seed, size, n + s.iv)[s.signing..n] == c[s.signing..];
    assert Stream(mac, seed, size, t.signing + t.encrypting + t.iv)[s.signing..n] == c[s.signing..];
  }
}
