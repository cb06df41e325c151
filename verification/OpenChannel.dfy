/**
 * The asymmetric OpenSecureChannel chunk (OPC UA Part 6, section 6.7.2): its plan, which rounds to RSA
 * blocks of two sizes, the writer of `sendOpenSecureChannelRequest` and `sendOpenSecureChannelResponse`,
 * and the reader in `readRequest` and `readResponse`, which computes every size from the opposite keys.
 *
 * RSA is a function parameter of which only its laws are used. Encryption takes the number of the block
 * as a stand-in for its randomness.
 */
module OpenChannel {
  import opened Arith
  import opened Bytes
  import opened ByteWriter
  import opened Options
  import C = Chunks

  /** The receiver's key pair of `keySize` bytes, and the sender's of `signatureSize` bytes. */
  datatype Rsa = Rsa(
    keySize: nat,
    padding: nat,
    signatureSize: nat,
    encrypt: (nat, seq<byte>) -> seq<byte>,
    decrypt: seq<byte> -> Option<seq<byte>>,
    sign: seq<byte> -> seq<byte>,
    verify: (seq<byte>, seq<byte>) -> bool)

  ghost predicate Sound(k: Rsa)
  {
    && k.padding < k.keySize <= 0x1_0000
    && (forall i, x :: |x| == k.keySize - k.padding ==>
          |k.encrypt(i, x)| == k.keySize && k.decrypt(k.encrypt(i, x)) == Some(x))
    && (forall x :: k.decrypt(x).Some? ==> |k.decrypt(x).value| <= k.keySize)
    && (forall x :: |k.sign(x)| == k.signatureSize && k.verify(x, k.sign(x)))
  }

  /** What the sender puts into the asymmetric security header. */
  datatype Channel = Channel(
    secure: bool,
    channelId: u32,
    policyUri: seq<byte>,
    certificate: seq<byte>,
    thumbprint: seq<byte>,
    bufferSize: u32,
    maxMessageSize: u32,
    rsa: Rsa)

  ghost predicate WellFormed(c: Channel)
  {
    && Sound(c.rsa)
    && 0 < |c.policyUri| < 0x8000_0000 && |c.certificate| < 0x8000_0000 && |c.thumbprint| == 20
  }

  // ------------------------------------------------------------------ plan

  datatype Plan = Plan(headerSize: nat, paddingHeaderSize: nat, maxBodySize: int,
                       bodySize: int, paddingSize: nat, chunkSize: int)

  function PlainBlock(k: Rsa): (r: int)
  {
    k.keySize - k.padding
  }

  function HeaderSize(c: Channel): (r: nat)
  {
    if c.secure then 16 + |c.policyUri| + 28 + |c.certificate| else 16 + |c.policyUri| + 8
  }

  function PaddingHeaderSize(c: Channel): (r: nat)
  {
    if !c.secure then 0 else if c.rsa.keySize > 256 then 2 else 1
  }

  function SignatureSize(c: Channel): (r: nat)
  {
    if c.secure then c.rsa.signatureSize else 0
  }

  /** Everything in the plaintext except body and padding. */
  function Overhead(c: Channel): (r: nat)
  {
    C.SEQUENCE_HEADER + PaddingHeaderSize(c) + SignatureSize(c)
  }

  function MaxBodySize(c: Channel): (r: int)
    requires c.rsa.keySize > 0
  {
    if c.secure
    then C.Quot(c.bufferSize - HeaderSize(c), c.rsa.keySize) * PlainBlock(c.rsa) - Overhead(c)
    else c.bufferSize - HeaderSize(c) - Overhead(c)
  }

  function PlanChunk(c: Channel, bodyCount: nat): (r: Plan)
    requires PlainBlock(c.rsa) > 0
  {
    var max := MaxBodySize(c);
    var bodySize := if bodyCount < max then bodyCount else max;
    var block := PlainBlock(c.rsa);
    var paddingSize :=
      if c.secure && bodyCount < max then (block - (Overhead(c) + bodySize) % block) % block else 0;
    var plain := Overhead(c) + bodySize + paddingSize;
    var chunkSize := HeaderSize(c) + if c.secure then C.Quot(plain, block) * c.rsa.keySize else plain;
    Plan(HeaderSize(c), PaddingHeaderSize(c), max, bodySize, paddingSize, chunkSize)
  }

  /** The plaintext of a chunk is this many bytes behind the plain header. */
  function PlainSize(c: Channel, plan: Plan): (r: int)
  {
    Overhead(c) + plan.bodySize + plan.paddingSize
  }

  /**
   * When the body fits one chunk, the plaintext is a whole number of RSA plaintext blocks, the chunk is
   * the same number of RSA ciphertext blocks, and both fit the send buffer.
   */
  lemma PlanFits(c: Channel, bodyCount: nat)
    requires WellFormed(c) && 0 < bodyCount <= MaxBodySize(c)
    ensures var plan := PlanChunk(c, bodyCount);
            && plan.bodySize == bodyCount
            && plan.headerSize == HeaderSize(c) && plan.paddingHeaderSize == PaddingHeaderSize(c)
            && plan.headerSize + C.SEQUENCE_HEADER <= plan.chunkSize
            && (plan.paddingHeaderSize == 0 ==> plan.paddingSize == 0)
            && (plan.paddingHeaderSize == 1 ==> plan.paddingSize < 0x100)
            && plan.paddingSize < 0x1_0000
            && plan.headerSize + PlainSize(c, plan) <= plan.chunkSize <= c.bufferSize
            && (c.secure ==> PlainSize(c, plan) % PlainBlock(c.rsa) == 0)
            && (c.secure ==> plan.chunkSize - plan.headerSize == PlainSize(c, plan) / PlainBlock(c.rsa) * c.rsa.keySize)
            && (!c.secure ==> plan.chunkSize == plan.headerSize + PlainSize(c, plan))
  {
    hide Sound;
    RsaSizes(c.rsa);
    if c.secure {
      var block, key := PlainBlock(c.rsa), c.rsa.keySize;
      var room := c.bufferSize - HeaderSize(c);
      var blocks := C.Quot(room, key);
      RoomForBlocks(room, key, block, blocks, Overhead(c) + bodyCount);
      PadsToBlock(Overhead(c) + bodyCount, block);
      DivModIs(blocks * block, block, blocks, 0);
      var plan := PlanChunk(c, bodyCount);
      var plain := PlainSize(c, plan);
      assert plain == Overhead(c) + bodyCount + plan.paddingSize;
      assert plain % block == 0;
      C.PadBelow(Overhead(c) + bodyCount, blocks * block, plan.paddingSize, block);
      BlocksFit(plain, block, key, blocks, room);
    }
  }

  lemma SignatureLaws(k: Rsa, x: seq<byte>)
    requires Sound(k)
    ensures |k.sign(x)| == k.signatureSize && k.verify(x, k.sign(x))
  {
  }

  lemma RsaSizes(k: Rsa)
    requires Sound(k)
    ensures k.padding < k.keySize <= 0x1_0000
  {
  }

  /** A positive number of plaintext blocks means that the ciphertext blocks fit the room. */
  lemma RoomForBlocks(room: int, key: nat, block: nat, blocks: int, need: nat)
    requires 0 < block <= key && blocks == C.Quot(room, key) && 0 < need <= blocks * block
    ensures room >= 0 && blocks > 0 && blocks * key <= room
  {
    if room < 0 {
      C.NonPositiveTimes(blocks, block);
    }
    DivMod(room, key);
  }

  /** `plain` bytes in whole blocks, at most `blocks` of them, encrypt to no more than `blocks` key sizes. */
  lemma BlocksFit(plain: nat, block: nat, key: nat, blocks: nat, room: nat)
    requires 0 < block <= key && plain % block == 0 && plain <= blocks * block && blocks * key <= room
    ensures plain <= plain / block * key <= room
  {
    var n := plain / block;
    DivMod(plain, block);
    assert plain == block * n;
    MulSign(block, n - blocks);
    assert block * (n - blocks) == block * n - block * blocks;
    MulMono(n, block, key);
    MulMono(key, n, blocks);
  }

  lemma MulMono(a: nat, x: nat, y: nat)
    requires x <= y
    ensures a * x <= a * y
  {
  }

  // ------------------------------------------------------------------ the chunk

  const TYPE_OPEN_FINAL := 0x464E_504F // "OPNF"

  const NIL: seq<byte> := [255, 255, 255, 255]

  /** A length-prefixed byte array. */
  function PutBytes(x: seq<byte>): (r: seq<byte>)
    ensures |r| == 4 + |x|
  {
    PutU32(|x|) + x
  }

  function Header(c: Channel, chunkSize: nat): (r: seq<byte>)
    requires |c.thumbprint| == 20
    ensures |r| == HeaderSize(c)
  {
    PutU32(TYPE_OPEN_FINAL) + PutU32(chunkSize) + PutU32(c.channelId) + PutBytes(c.policyUri) +
    if c.secure then PutBytes(c.certificate) + PutBytes(c.thumbprint) else NIL + NIL
  }

  function Plain(c: Channel, plan: Plan, sequenceNumber: u32, requestId: u32, body: seq<byte>): (r: seq<byte>)
    requires |c.thumbprint| == 20 && plan.chunkSize >= 0
  {
    Header(c, plan.chunkSize) + (PutU32(sequenceNumber) + PutU32(requestId)) + body
    + C.Padding(plan.paddingSize, plan.paddingHeaderSize)
  }

  function Signed(c: Channel, plain: seq<byte>): (r: seq<byte>)
  {
    if c.secure then plain + c.rsa.sign(plain) else plain
  }

  /** RSA encryption of whole plaintext blocks, the first of them being number `i`. */
  function EncryptBlocks(k: Rsa, x: seq<byte>, i: nat): (r: seq<byte>)
    requires PlainBlock(k) > 0
    decreases |x|
  {
    if |x| < PlainBlock(k) then []
    else k.encrypt(i, x[..PlainBlock(k)]) + EncryptBlocks(k, x[PlainBlock(k)..], i + 1)
  }

  /** The chunk that is handed to the transport for a body that fits. */
  function Wire(c: Channel, sequenceNumber: u32, requestId: u32, body: seq<byte>): (r: seq<byte>)
    requires |c.thumbprint| == 20 && PlainBlock(c.rsa) > 0 && PlanChunk(c, |body|).chunkSize >= 0
  {
    var plan := PlanChunk(c, |body|);
    var signed := Signed(c, Plain(c, plan, sequenceNumber, requestId, body));
    if c.secure && |signed| >= plan.headerSize
    then signed[..plan.headerSize] + EncryptBlocks(c.rsa, signed[plan.headerSize..], 0)
    else signed
  }

  // ------------------------------------------------------------------ the reader

  /** The end of the length-prefixed field at `i`; a negative length stands for no value. */
  function FieldEnd(buf: seq<byte>, i: nat, count: nat): (r: Option<nat>)
    requires count <= |buf|
    ensures r.Some? ==> i + 4 <= r.value <= count
  {
    if i + 4 > count then None
    else
      var n := GetU32(buf[i..]);
      if n >= 0x8000_0000 then Some(i + 4)
      else if i + 4 + n > count then None
      else Some(i + 4 + n)
  }

  /** The length-prefixed field at `i`, which ends at `end`, or no value. */
  function Field(buf: seq<byte>, i: nat, end: nat): (r: Option<seq<byte>>)
    requires i + 4 <= end <= |buf|
  {
    if GetU32(buf[i..]) >= 0x8000_0000 then None else Some(buf[i + 4..end])
  }

  /** What the reader finds in the asymmetric security header, and where that ends. */
  datatype Security = Security(
    policyUri: Option<seq<byte>>, certificate: Option<seq<byte>>, thumbprint: Option<seq<byte>>, end: nat)

  function ReadHeader(buf: seq<byte>, count: nat): (r: Option<Security>)
    requires count <= |buf|
    ensures r.Some? ==> 24 <= r.value.end <= count
  {
    match FieldEnd(buf, 12, count)
    case None => None
    case Some(i) =>
      match FieldEnd(buf, i, count)
      case None => None
      case Some(j) =>
        match FieldEnd(buf, j, count)
        case None => None
        case Some(end) => Some(Security(Field(buf, 12, i), Field(buf, i, j), Field(buf, j, end), end))
  }

  /** `copy(dst, src)`. */
  function Overlay(dst: seq<byte>, src: seq<byte>): (r: seq<byte>)
    ensures |r| == |dst|
    ensures |src| >= |dst| ==> r == src[..|dst|]
  {
    if |src| >= |dst| then src[..|dst|] else src + dst[|src|..]
  }

  /** The plaintext of the blocks from `ii` up to `count`; `block` holds the previous ciphertext. */
  function DecryptFrom(k: Rsa, buf: seq<byte>, ii: nat, count: nat, block: seq<byte>): (r: Option<seq<byte>>)
    requires |block| == k.keySize > 0 && count <= |buf|
    decreases count - ii
  {
    if ii >= count then Some([])
    else
      var cipherText := Overlay(block, buf[ii..]);
      match k.decrypt(cipherText)
      case None => None
      case Some(x) =>
        match DecryptFrom(k, buf, ii + k.keySize, count, cipherText)
        case None => None
        case Some(rest) => Some(x + rest)
  }

  /**
   * Verification, the request id, and cutting out the body; `sent` is the number of bytes that followed the header.
   */
  function ReadPlain(secure: bool, k: Rsa, buf: seq<byte>, h: nat, sent: nat): (r: C.Result<(u32, seq<byte>)>)
  {
    var signatureSize := if secure then k.signatureSize else 0;
    var ph := if !secure then 0 else if k.keySize > 256 then 2 else 1;
    var sigStart := |buf| - signatureSize;
    var start := sigStart - ph;
    if secure && sigStart < 0 then C.Err(C.SliceOutOfRange)
    else if secure && !k.verify(buf[..sigStart], buf[sigStart..]) then C.Err(C.BadDecodingError)
    else if sent < C.SEQUENCE_HEADER then C.Err(C.BadDecodingError)
    else if start < 0 then C.Err(C.SliceOutOfRange)
    else
      var paddingSize: int :=
        if ph == 0 then 0 else if ph == 1 then buf[start] else C.GetU16(buf[start], buf[start + 1]);
      var bodySize := |buf| - h - C.SEQUENCE_HEADER - paddingSize - ph - signatureSize;
      if bodySize < 0 then C.Err(C.SliceOutOfRange)
      else C.Ok((GetU32(buf[h + 4..]), buf[h + C.SEQUENCE_HEADER..h + C.SEQUENCE_HEADER + bodySize]))
  }

  /** What an OpenSecureChannel chunk gives the receiver. */
  datatype Opening = Opening(security: Security, requestId: u32, body: seq<byte>)

  function ToOpening(security: Security, r: C.Result<(u32, seq<byte>)>): (o: C.Result<Opening>)
  {
    match r
    case Err(e) => C.Err(e)
    case Ok((requestId, body)) => C.Ok(Opening(security, requestId, body))
  }

  /** What stands in an OpenSecureChannel chunk of `count` bytes at the front of the receive buffer. */
  function ReadOpen(secure: bool, k: Rsa, buf: seq<byte>, count: nat): (r: C.Result<Opening>)
    requires count <= |buf| && k.keySize > 0
  {
    if count < 12 || GetU32(buf[4..]) != count then C.Err(C.BadDecodingError)
    else
      match ReadHeader(buf, count)
      case None => C.Err(C.BadDecodingError)
      case Some(security) =>
        var h := security.end;
        if !secure then ToOpening(security, ReadPlain(secure, k, buf[..count], h, count - h))
        else
          match DecryptFrom(k, buf, h, count, Repeat(0, k.keySize))
          case None => C.Err(C.BadDecodingError)
          case Some(plain) =>
            ToOpening(security, ReadPlain(secure, k, buf[..h] + Fit(plain, |buf| - h), h, count - h))
  }

  // ------------------------------------------------------------------ round trip

  lemma {:induction false} EncryptedSize(k: Rsa, x: seq<byte>, i: nat, blocks: nat)
    requires Sound(k) && |x| == blocks * PlainBlock(k)
    ensures |EncryptBlocks(k, x, i)| == blocks * k.keySize
    decreases blocks
  {
    var n := PlainBlock(k);
    if blocks == 0 {
      assert |x| == 0;
    } else {
      OneBlock(blocks, n);
      OneBlock(blocks, k.keySize);
      EncryptedSize(k, x[n..], i + 1, blocks - 1);
      assert |k.encrypt(i, x[..n])| == k.keySize;
    }
  }

  lemma OneBlock(blocks: nat, n: nat)
    requires blocks > 0
    ensures blocks * n == n + (blocks - 1) * n && blocks * n >= n
  {
  }

  /** Decrypting the ciphertext blocks, at any place in the buffer, gives the plaintext back. */
  lemma {:induction false} DecryptEncrypted(k: Rsa, x: seq<byte>, i: nat, blocks: nat,
      buf: seq<byte>, ii: nat, count: nat, block: seq<byte>)
    requires Sound(k) && |x| == blocks * PlainBlock(k) && |block| == k.keySize
    requires ii <= count <= |buf| && buf[ii..count] == EncryptBlocks(k, x, i)
    ensures DecryptFrom(k, buf, ii, count, block) == Some(x)
    decreases blocks
  {
    hide Sound, EncryptBlocks;
    RsaSizes(k);
    EncryptedSize(k, x, i, blocks);
    var n := PlainBlock(k);
    if blocks == 0 {
      assert x == [];
    } else {
      OneBlock(blocks, n);
      EncryptStep(k, x, i);
      var first, rest := k.encrypt(i, x[..n]), EncryptBlocks(k, x[n..], i + 1);
      var e := buf[ii..count];
      assert e == first + rest;
      assert buf[ii..][..k.keySize] == e[..k.keySize] == first;
      assert buf[ii + k.keySize..count] == e[k.keySize..] == rest;
      DecryptEncrypted(k, x[n..], i + 1, blocks - 1, buf, ii + k.keySize, count, first);
      assert x[..n] + x[n..] == x;
    }
  }

  lemma EncryptStop(k: Rsa, n: nat)
    requires PlainBlock(k) > 0
    ensures EncryptBlocks(k, [], n) == []
  {
  }

  lemma EncryptStep(k: Rsa, x: seq<byte>, n: nat)
    requires Sound(k) && |x| >= PlainBlock(k)
    ensures EncryptBlocks(k, x, n) == k.encrypt(n, x[..PlainBlock(k)]) + EncryptBlocks(k, x[PlainBlock(k)..], n + 1)
    ensures |k.encrypt(n, x[..PlainBlock(k)])| == k.keySize
    ensures k.decrypt(k.encrypt(n, x[..PlainBlock(k)])) == Some(x[..PlainBlock(k)])
  {
  }

  lemma SignedParts(c: Channel, plan: Plan, sequenceNumber: u32, requestId: u32, body: seq<byte>, signed: seq<byte>)
    requires WellFormed(c) && 0 < |body| <= MaxBodySize(c) && plan == PlanChunk(c, |body|) && plan.chunkSize >= 0
    requires signed == Signed(c, Plain(c, plan, sequenceNumber, requestId, body))
    ensures |signed| == plan.headerSize + PlainSize(c, plan)
    ensures |signed| >= plan.headerSize && signed[..plan.headerSize] == Header(c, plan.chunkSize)
  {
    PlanFits(c, |body|);
    hide PlanChunk, MaxBodySize, Header, PutU32;
  }

  /** The signature verifies, the padding is found, and the body is cut out where it was put in. */
  lemma ReadPlainOf(k: Rsa, h: nat, head: seq<byte>, body: seq<byte>, plan: C.Plan, signature: seq<byte>, sent: nat)
    requires |head| == h + C.SEQUENCE_HEADER && sent >= C.SEQUENCE_HEADER && |signature| == k.signatureSize
    requires plan.paddingHeaderSize == (if k.keySize > 256 then 2 else 1) && plan.paddingSize < 0x1_0000
    requires plan.paddingHeaderSize == 1 ==> plan.paddingSize < 0x100
    requires k.verify(head + body + C.Padding(plan.paddingSize, plan.paddingHeaderSize), signature)
    ensures ReadPlain(true, k, head + body + C.Padding(plan.paddingSize, plan.paddingHeaderSize) + signature, h, sent)
            == C.Ok((GetU32(head[h + 4..]), body))
  {
    var pad := C.Padding(plan.paddingSize, plan.paddingHeaderSize);
    var plain := head + body + pad;
    var buf := plain + signature;
    C.PaddingRecovered(plan, head + body, signature);
    assert |pad| == plan.paddingSize + plan.paddingHeaderSize;
    hide C.Padding;
    assert buf[..|plain|] == plain && buf[|plain|..] == signature;
    assert buf[|head|..|head| + |body|] == body;
    assert buf[h + 4..h + 8] == head[h + 4..h + 8];
    SameU32(buf, h + 4);
    SameU32(head, h + 4);
  }

  lemma ReadPlainSigned(c: Channel, plan: Plan, sequenceNumber: u32, requestId: u32, body: seq<byte>, sent: nat)
    requires WellFormed(c) && 0 < |body| <= MaxBodySize(c) && plan == PlanChunk(c, |body|) && plan.chunkSize >= 0
    requires sent >= C.SEQUENCE_HEADER
    ensures ReadPlain(c.secure, c.rsa, Signed(c, Plain(c, plan, sequenceNumber, requestId, body)),
                      plan.headerSize, sent)
            == C.Ok((requestId, body))
  {
    hide Sound, PlanChunk, MaxBodySize, Header, PutU32, C.Padding;
    PlanFits(c, |body|);
    var head := Header(c, plan.chunkSize) + (PutU32(sequenceNumber) + PutU32(requestId));
    IdAt(Header(c, plan.chunkSize), sequenceNumber, requestId, body);
    if c.secure {
      var plain := Plain(c, plan, sequenceNumber, requestId, body);
      SignatureLaws(c.rsa, plain);
      hide ReadPlain;
      ReadPlainOf(c.rsa, plan.headerSize, head, body, C.Plan(0, plan.paddingHeaderSize, plan.paddingSize, 0),
                  c.rsa.sign(plain), sent);
    } else {
      PaddingLength(plan);
      assert head + body + [] == head + body;
      assert (head + body)[|head|..|head| + |body|] == body;
    }
  }

  /** The sequence header behind `h`. */
  lemma IdAt(h: seq<byte>, sequenceNumber: u32, requestId: u32, behind: seq<byte>)
    ensures var head := h + (PutU32(sequenceNumber) + PutU32(requestId));
            && GetU32(head[|h|..]) == sequenceNumber && GetU32(head[|h| + 4..]) == requestId
            && GetU32((head + behind)[|h|..]) == sequenceNumber && GetU32((head + behind)[|h| + 4..]) == requestId
  {
    hide GetU32, PutU32;
    var head := h + (PutU32(sequenceNumber) + PutU32(requestId));
    var all := head + behind;
    assert head[|h|..|h| + 4] == PutU32(sequenceNumber) && head[|h| + 4..|h| + 8] == PutU32(requestId);
    assert all[|h|..|h| + 4] == PutU32(sequenceNumber) && all[|h| + 4..|h| + 8] == PutU32(requestId);
    C.U32At(head, |h|, sequenceNumber);
    C.U32At(head, |h| + 4, requestId);
    C.U32At(all, |h|, sequenceNumber);
    C.U32At(all, |h| + 4, requestId);
  }

  lemma PaddingLength(plan: Plan)
    ensures C.Padding(0, 0) == []
    ensures 1 <= plan.paddingHeaderSize <= 2 ==>
              |C.Padding(plan.paddingSize, plan.paddingHeaderSize)| == plan.paddingSize + plan.paddingHeaderSize
  {
  }

  lemma FieldAt(buf: seq<byte>, i: nat, count: nat, x: seq<byte>)
    requires i + 4 + |x| <= count <= |buf| && |x| < 0x8000_0000 && buf[i..i + 4 + |x|] == PutBytes(x)
    ensures FieldEnd(buf, i, count) == Some(i + 4 + |x|) && Field(buf, i, i + 4 + |x|) == Some(x)
  {
    assert buf[i..i + 4] == buf[i..i + 4 + |x|][..4] == PutU32(|x|);
    assert buf[i + 4..i + 4 + |x|] == buf[i..i + 4 + |x|][4..] == x;
    C.U32At(buf, i, |x|);
  }

  lemma NilAt(buf: seq<byte>, i: nat, count: nat)
    requires i + 4 <= count <= |buf| && buf[i..i + 4] == NIL
    ensures FieldEnd(buf, i, count) == Some(i + 4) && Field(buf, i, i + 4) == None
  {
    assert forall k :: 0 <= k < 4 ==> buf[i..][k] == buf[i..i + 4][k];
  }

  /** What the reader is to find in the header. */
  function SecurityOf(c: Channel): (s: Security)
  {
    Security(Some(c.policyUri), if c.secure then Some(c.certificate) else None,
             if c.secure then Some(c.thumbprint) else None, HeaderSize(c))
  }

  /**
   * The reader finds the policy, the certificate and the thumbprint, each in its place, and the end of the plain
   * header where the writer planned it.
   */
  lemma HeaderFound(c: Channel, chunkSize: nat, buf: seq<byte>, count: nat)
    requires WellFormed(c) && chunkSize < U32_LIMIT
    requires HeaderSize(c) <= count <= |buf| && buf[..HeaderSize(c)] == Header(c, chunkSize)
    ensures buf[..4] == [0x4F, 0x50, 0x4E, 0x46] // "OPNF"
    ensures GetU32(buf[4..]) == chunkSize && GetU32(buf[8..]) == c.channelId
    ensures ReadHeader(buf, count) == Some(SecurityOf(c))
  {
    hide Sound, PutU32, GetU32, FieldEnd, PutBytes, Field, Header, ReadHeader;
    var h := HeaderSize(c);
    var rest := SecurityHeader(c);
    var front := MessageHeader(c, chunkSize);
    HeaderParts(c, chunkSize);
    var head := buf[..h];
    assert buf[..12] == head[..12] == front && buf[12..h] == head[12..] == rest;
    MessageHeaderFound(c, chunkSize, buf);
    SecurityFound(c, buf, count);
  }

  function MessageHeader(c: Channel, chunkSize: nat): (r: seq<byte>)
    ensures |r| == 12
  {
    PutU32(TYPE_OPEN_FINAL) + PutU32(chunkSize) + PutU32(c.channelId)
  }

  function SecurityHeader(c: Channel): (r: seq<byte>)
  {
    PutBytes(c.policyUri)
    + if c.secure then PutBytes(c.certificate) + PutBytes(c.thumbprint) else NIL + NIL
  }

  lemma HeaderParts(c: Channel, chunkSize: nat)
    requires |c.thumbprint| == 20
    ensures Header(c, chunkSize) == MessageHeader(c, chunkSize) + SecurityHeader(c)
  {
    hide PutU32, PutBytes;
  }

  lemma MessageHeaderFound(c: Channel, chunkSize: nat, buf: seq<byte>)
    requires chunkSize < U32_LIMIT && |buf| >= 12 && buf[..12] == MessageHeader(c, chunkSize)
    ensures buf[..4] == [0x4F, 0x50, 0x4E, 0x46]
    ensures GetU32(buf[4..]) == chunkSize && GetU32(buf[8..]) == c.channelId
  {
    assert PutU32(TYPE_OPEN_FINAL) == [0x4F, 0x50, 0x4E, 0x46];
    hide PutU32, GetU32;
    var head := buf[..12];
    assert buf[..4] == head[..4] && buf[4..8] == head[4..8] && buf[8..12] == head[8..12];
    C.U32At(buf, 4, chunkSize);
    C.U32At(buf, 8, c.channelId);
  }

  lemma SecurityFound(c: Channel, buf: seq<byte>, count: nat)
    requires WellFormed(c) && HeaderSize(c) <= count <= |buf| && buf[12..HeaderSize(c)] == SecurityHeader(c)
    ensures ReadHeader(buf, count) == Some(SecurityOf(c))
  {
    hide Sound, PutU32, GetU32, FieldEnd, PutBytes, Field;
    var h := HeaderSize(c);
    var i := 16 + |c.policyUri|;
    if c.secure {
      var j := i + 4 + |c.certificate|;
      ThreeParts(buf, 12, i, j, h, PutBytes(c.policyUri), PutBytes(c.certificate), PutBytes(c.thumbprint));
      FieldAt(buf, 12, count, c.policyUri);
      FieldAt(buf, i, count, c.certificate);
      FieldAt(buf, j, count, c.thumbprint);
    } else {
      ThreeParts(buf, 12, i, i + 4, h, PutBytes(c.policyUri), NIL, NIL);
      FieldAt(buf, 12, count, c.policyUri);
      NilAt(buf, i, count);
      NilAt(buf, i + 4, count);
    }
  }

  lemma ThreeParts(buf: seq<byte>, g: nat, i: nat, j: nat, h: nat, x: seq<byte>, y: seq<byte>, z: seq<byte>)
    requires g + |x| == i && i + |y| == j && j + |z| == h <= |buf| && buf[g..h] == x + (y + z)
    ensures buf[g..i] == x && buf[i..j] == y && buf[j..h] == z
  {
    TwoParts(buf, g, i, h, x, y + z);
    TwoParts(buf, i, j, h, y, z);
  }

  lemma TwoParts(buf: seq<byte>, g: nat, i: nat, h: nat, x: seq<byte>, y: seq<byte>)
    requires g + |x| == i && i + |y| == h <= |buf| && buf[g..h] == x + y
    ensures buf[g..i] == x && buf[i..h] == y
  {
    assert buf[g..i] == buf[g..h][..|x|];
    assert buf[i..h] == buf[g..h][|x|..];
  }

  lemma WireParts(c: Channel, sequenceNumber: u32, requestId: u32, body: seq<byte>, plan: Plan, signed: seq<byte>)
    requires WellFormed(c) && 0 < |body| <= MaxBodySize(c) && plan == PlanChunk(c, |body|) && plan.chunkSize >= 0
    requires signed == Signed(c, Plain(c, plan, sequenceNumber, requestId, body))
    ensures var wire := Wire(c, sequenceNumber, requestId, body);
            && |signed| >= plan.headerSize && |wire| == plan.chunkSize <= c.bufferSize
            && plan.chunkSize >= plan.headerSize + C.SEQUENCE_HEADER
            && wire[..plan.headerSize] == signed[..plan.headerSize] == Header(c, plan.chunkSize)
            && (c.secure ==> wire[plan.headerSize..] == EncryptBlocks(c.rsa, signed[plan.headerSize..], 0))
            && (!c.secure ==> wire == signed)
  {
    hide Sound, PlanChunk, MaxBodySize, Header, Plain, Signed, PlainSize;
    RsaSizes(c.rsa);
    PlanFits(c, |body|);
    SignedParts(c, plan, sequenceNumber, requestId, body, signed);
    if c.secure {
      var blocks := PlainSize(c, plan) / PlainBlock(c.rsa);
      DivMod(PlainSize(c, plan), PlainBlock(c.rsa));
      EncryptedSize(c.rsa, signed[plan.headerSize..], 0, blocks);
    }
  }

  /**
   * For all key sizes, certificates and policies: a body that fits one chunk is recovered by the peer, with the
   * request id and the fields of the security header, whatever else is in its receive buffer, and the chunk fits the
   * negotiated buffer.
   */
  lemma OpenRoundTrip(c: Channel, sequenceNumber: u32, requestId: u32, body: seq<byte>, behind: seq<byte>)
    requires WellFormed(c) && 0 < |body| <= MaxBodySize(c)
    ensures PlanChunk(c, |body|).chunkSize >= 0
    ensures var wire := Wire(c, sequenceNumber, requestId, body);
            && |wire| <= c.bufferSize
            && ReadOpen(c.secure, c.rsa, wire + behind, |wire|) == C.Ok(Opening(SecurityOf(c), requestId, body))
  {
    hide Sound, PlanChunk, MaxBodySize, Header, ReadHeader, PlainSize, Plain, Signed, Wire, ReadPlain, DecryptFrom,
      EncryptBlocks, GetU32;
    RsaSizes(c.rsa);
    PlanFits(c, |body|);
    var plan := PlanChunk(c, |body|);
    var h := plan.headerSize;
    var signed := Signed(c, Plain(c, plan, sequenceNumber, requestId, body));
    WireParts(c, sequenceNumber, requestId, body, plan, signed);
    SignedParts(c, plan, sequenceNumber, requestId, body, signed);
    ReadPlainSigned(c, plan, sequenceNumber, requestId, body, plan.chunkSize - h);
    var wire := Wire(c, sequenceNumber, requestId, body);
    var buf := wire + behind;
    assert buf[..h] == wire[..h] && buf[..|wire|] == wire;
    HeaderFound(c, plan.chunkSize, buf, |wire|);
    if c.secure {
      var blocks := PlainSize(c, plan) / PlainBlock(c.rsa);
      DivMod(PlainSize(c, plan), PlainBlock(c.rsa));
      assert buf[h..|wire|] == wire[h..];
      DecryptEncrypted(c.rsa, signed[h..], 0, blocks, buf, h, |wire|, Repeat(0, c.rsa.keySize));
      assert signed[..h] + signed[h..] == signed;
    }
  }

  // ------------------------------------------------------------------ the program

  /** How `sendOpenSecureChannelRequest` ends: only a body that fits one chunk is sent. */
  function SendStatus(c: Channel, size: nat): (r: C.Status)
    requires c.rsa.keySize > 0
  {
    if c.maxMessageSize > 0 && size > c.maxMessageSize then C.BadTooLarge
    else if size <= MaxBodySize(c) then C.Good
    else C.BadEncodingError
  }

  method SendOpenChunk(c: Channel, sequenceNumber: u32, requestId: u32, body: seq<byte>,
      sendBuffer: array<byte>, encryptionBuffer: array<byte>) returns (status: C.Status, wire: seq<byte>)
    requires WellFormed(c) && body != []
    requires sendBuffer != encryptionBuffer
    requires c.bufferSize <= sendBuffer.Length && c.bufferSize <= encryptionBuffer.Length
    modifies sendBuffer, encryptionBuffer
    ensures status == SendStatus(c, |body|)
    ensures status == C.Good ==> PlanChunk(c, |body|).chunkSize >= 0 && wire == Wire(c, sequenceNumber, requestId, body)
  {
    hide Sound, PlanChunk, MaxBodySize, Wire, Plain, Signed, Header, HeaderSize, PlainSize;
    RsaSizes(c.rsa);
    wire := [];
    if c.maxMessageSize > 0 && |body| > c.maxMessageSize {
      return C.BadTooLarge, wire;
    }
    var plan := PlanChunk(c, |body|);
    PlanSizes(c, |body|);
    var stream := new Writer(sendBuffer);
    // a header that does not fit is cut short, and found out by its length
    WriteHeader(c, plan.chunkSize % U32_LIMIT, stream);
    if plan.headerSize != stream.i {
      NoRoom(c);
      return C.BadEncodingError, wire;
    }
    // nothing is sent when more than one chunk would be needed
    var bodyCount := |body| - plan.bodySize;
    if bodyCount > 0 {
      return C.BadEncodingError, wire;
    }
    PlanFits(c, |body|);
    WriteRest(c, plan, sequenceNumber, requestId, body, stream);
    status, wire := Transmit(c, plan, sequenceNumber, requestId, body, stream, encryptionBuffer);
  }

  /** The end of the send loop: encryption, the check of the chunk size, and the write to the transport. */
  method Transmit(c: Channel, plan: Plan, sequenceNumber: u32, requestId: u32, body: seq<byte>,
      stream: Writer, encryptionBuffer: array<byte>) returns (status: C.Status, wire: seq<byte>)
    requires WellFormed(c) && 0 < |body| <= MaxBodySize(c) && plan == PlanChunk(c, |body|) && plan.chunkSize >= 0
    requires stream.Valid() && c.bufferSize <= encryptionBuffer.Length
    requires stream.Written() == Signed(c, Plain(c, plan, sequenceNumber, requestId, body))
    modifies encryptionBuffer
    ensures status == C.Good && wire == Wire(c, sequenceNumber, requestId, body)
  {
    hide Sound, PlanChunk, MaxBodySize, Header, Plain, Signed, PlainSize, Wire;
    RsaSizes(c.rsa);
    var signed := stream.s[..stream.i];
    PlanFits(c, |body|);
    SignedParts(c, plan, sequenceNumber, requestId, body, signed);
    WireParts(c, sequenceNumber, requestId, body, plan, signed);
    if !c.secure {
      if stream.i != plan.chunkSize {
        return C.BadEncodingError, [];
      }
      return C.Good, signed;
    }
    ghost var blocks := PlainSize(c, plan) / PlainBlock(c.rsa);
    DivMod(PlainSize(c, plan), PlainBlock(c.rsa));
    var jj := EncryptInto(c.rsa, signed, plan.headerSize, encryptionBuffer, blocks);
    if jj != plan.chunkSize {
      return C.BadEncodingError, [];
    }
    ghost var w := Wire(c, sequenceNumber, requestId, body);
    assert w == w[..plan.headerSize] + w[plan.headerSize..];
    return C.Good, encryptionBuffer[..plan.chunkSize];
  }

  lemma PlanSizes(c: Channel, bodyCount: nat)
    requires WellFormed(c)
    ensures var plan := PlanChunk(c, bodyCount);
            && plan.headerSize == HeaderSize(c)
            && plan.bodySize == if bodyCount < MaxBodySize(c) then bodyCount else MaxBodySize(c)
  {
  }

  /** A buffer that is too small for the header is too small for any body. */
  lemma NoRoom(c: Channel)
    requires WellFormed(c)
    ensures HeaderSize(c) > c.bufferSize ==> MaxBodySize(c) <= 0
  {
    hide Sound;
    RsaSizes(c.rsa);
    if c.secure && HeaderSize(c) > c.bufferSize {
      NoBlocks(c.bufferSize - HeaderSize(c), c.rsa.keySize, PlainBlock(c.rsa));
    }
  }

  /** A buffer that has held an OpenSecureChannel chunk has room for its header, and so for longer chunks than that. */
  lemma OpenedHasRoom(c: Channel, size: nat, p: C.Policy)
    requires WellFormed(c) && size > 0 && p.block > 0
    ensures SendStatus(c, size) == C.Good && C.LeastBuffer(p) <= HeaderSize(c) ==> C.MaxBodySize(p, c.bufferSize) > 0
  {
    hide Sound, MaxBodySize, HeaderSize, C.MaxBodySize, C.LeastBuffer;
    RsaSizes(c.rsa);
    NoRoom(c);
    C.RoomIff(p, c.bufferSize);
  }

  /** What the six policies have in common: their URIs are long, and their blocks and signatures short. */
  predicate OfProgram(p: C.Policy, policyUri: seq<byte>)
  {
    1 <= p.block <= 16 && p.signatureSize <= 32 && |policyUri| >= 47
  }

  lemma LeastBelowHeader(c: Channel, p: C.Policy)
    requires OfProgram(p, c.policyUri)
    ensures C.LeastBuffer(p) <= HeaderSize(c)
  {
    if p.mode == C.SignAndEncrypt {
      WholeBlocks(C.EmptySize(p) - C.HEADER, p.block);
    }
  }

  lemma WholeBlocks(n: nat, block: nat)
    requires block > 0
    ensures block * (n / block + 1) <= n + block
  {
    DivMod(n, block);
  }

  /** Once the channel has been opened with a buffer, the send loops on that buffer end, for every body. */
  lemma OpenedSendsEnd(c: Channel, size: nat, p: C.Policy, s: C.Sender, n: nat)
    requires WellFormed(c) && size > 0 && C.Sound(p)
    requires OfProgram(p, c.policyUri) && s.bufferSize == c.bufferSize && n > 0
    ensures C.MaxBodySize(p, s.bufferSize) > 0 || SendStatus(c, size) != C.Good
    ensures SendStatus(c, size) == C.Good ==> exists t: nat :: C.Turns(p, s, C.Going(n, 0), t).Ended?
  {
    hide Sound, MaxBodySize, HeaderSize, C.MaxBodySize, C.LeastBuffer, C.Turns, C.Sound, C.EmptyStatus, SendStatus;
    OpenedHasRoom(c, size, p);
    LeastBelowHeader(c, p);
    C.SendEndsIff(p, s, n);
  }

  lemma NoBlocks(room: int, key: nat, block: nat)
    requires room < 0 < key
    ensures C.Quot(room, key) * block <= 0
  {
    DivMod(-room, key);
    C.NonPositiveTimes(C.Quot(room, key), block);
  }

  /** An encoder call, whose short write goes unnoticed. */
  method PutField(w: Writer, p: seq<byte>)
    requires w.Valid()
    modifies w, w.s
    ensures w.Valid() && w.i == if old(w.i) + |p| <= w.s.Length then old(w.i) + |p| else w.s.Length
    ensures old(w.i) + |p| <= w.s.Length ==> w.Written() == old(w.Written()) + p
  {
    var n, short := w.Write(p);
    assert p[..|p|] == p;
  }

  method WriteMessageHeader(c: Channel, chunkSize: nat, w: Writer)
    requires w.Valid() && w.i == 0
    modifies w, w.s
    ensures w.Valid() && w.i == if 12 <= w.s.Length then 12 else w.s.Length
    ensures 12 <= w.s.Length ==> w.Written() == PutU32(TYPE_OPEN_FINAL) + PutU32(chunkSize) + PutU32(c.channelId)
  {
    hide PutU32;
    PutField(w, PutU32(TYPE_OPEN_FINAL));
    PutField(w, PutU32(chunkSize));
    PutField(w, PutU32(c.channelId));
  }

  method WriteHeader(c: Channel, chunkSize: nat, w: Writer)
    requires |c.thumbprint| == 20 && w.Valid() && w.i == 0
    modifies w, w.s
    ensures w.Valid() && w.i == if HeaderSize(c) <= w.s.Length then HeaderSize(c) else w.s.Length
    ensures HeaderSize(c) <= w.s.Length ==> w.Written() == Header(c, chunkSize)
  {
    hide PutU32, PutBytes;
    ghost var fits := HeaderSize(c) <= w.s.Length;
    ghost var head := PutU32(TYPE_OPEN_FINAL) + PutU32(chunkSize) + PutU32(c.channelId) + PutBytes(c.policyUri);
    WriteMessageHeader(c, chunkSize, w);
    PutField(w, PutBytes(c.policyUri));
    assert fits ==> w.Written() == head;
    if c.secure {
      PutField(w, PutBytes(c.certificate));
      PutField(w, PutBytes(c.thumbprint));
      assert fits ==> w.Written() == head + (PutBytes(c.certificate) + PutBytes(c.thumbprint));
    } else {
      PutField(w, NIL);
      PutField(w, NIL);
      assert fits ==> w.Written() == head + (NIL + NIL);
    }
  }

  /** Sequence header, body, padding and signature behind a complete header. */
  method WriteRest(c: Channel, plan: Plan, sequenceNumber: u32, requestId: u32, body: seq<byte>, w: Writer)
    requires WellFormed(c) && 0 < |body| <= MaxBodySize(c) && plan == PlanChunk(c, |body|) && plan.chunkSize >= 0
    requires w.Valid() && c.bufferSize <= w.s.Length && w.i == HeaderSize(c) && w.Written() == Header(c, plan.chunkSize)
    modifies w, w.s
    ensures w.Valid() && w.Written() == Signed(c, Plain(c, plan, sequenceNumber, requestId, body))
  {
    hide Sound, PlanChunk, MaxBodySize, Header, Plain, PlainSize;
    PlanFits(c, |body|);
    SignedParts(c, plan, sequenceNumber, requestId, body, Signed(c, Plain(c, plan, sequenceNumber, requestId, body)));
    PlainFits(c, plan);
    WritePlain(c, plan, sequenceNumber, requestId, body, w);
    if c.secure {
      SignatureLaws(c.rsa, w.s[..w.i]);
      var signature := c.rsa.sign(w.s[..w.i]);
      w.Put(signature);
    }
  }

  lemma PlainFits(c: Channel, plan: Plan)
    ensures PlainSize(c, plan)
            == C.SEQUENCE_HEADER + plan.bodySize + plan.paddingSize + PaddingHeaderSize(c) + SignatureSize(c)
  {
  }

  method WritePlain(c: Channel, plan: Plan, sequenceNumber: u32, requestId: u32, body: seq<byte>, w: Writer)
    requires |c.thumbprint| == 20 && plan.chunkSize >= 0 && plan.paddingHeaderSize == PaddingHeaderSize(c)
    requires plan.paddingHeaderSize == 0 ==> plan.paddingSize == 0
    requires w.Valid() && w.Written() == Header(c, plan.chunkSize)
    requires w.i + C.SEQUENCE_HEADER + |body| + plan.paddingSize + plan.paddingHeaderSize <= w.s.Length
    modifies w, w.s
    ensures w.Valid() && w.Written() == Plain(c, plan, sequenceNumber, requestId, body)
    ensures w.i == old(w.i) + C.SEQUENCE_HEADER + |body| + plan.paddingSize + plan.paddingHeaderSize
  {
    hide Header, PutU32, C.Padding;
    w.Put(PutU32(sequenceNumber));
    w.Put(PutU32(requestId));
    ghost var head := Header(c, plan.chunkSize) + (PutU32(sequenceNumber) + PutU32(requestId));
    assert w.Written() == head;
    w.Put(body);
    PaddingLength(plan);
    if c.secure {
      C.WritePadding(C.Plan(plan.bodySize, plan.paddingHeaderSize, plan.paddingSize, 0), w);
    } else {
      assert head + body + [] == head + body;
    }
  }

  /** The size of `n` blocks. */
  function Total(n: nat, block: nat): (r: nat)
  {
    n * block
  }

  lemma TotalIs(n: nat, block: nat)
    ensures Total(n, block) == n * block
    ensures n > 0 ==> Total(n, block) == block + Total(n - 1, block)
    ensures n == 0 ==> Total(n, block) == 0
  {
  }

  /** The encryption loop: plaintext blocks at `ii` become ciphertext blocks at `jj`. */
  method EncryptInto(k: Rsa, signed: seq<byte>, h: nat, encryptionBuffer: array<byte>, ghost blocks: nat)
    returns (jj: nat)
    requires Sound(k) && h <= |signed| && |signed| - h == blocks * PlainBlock(k)
    requires h + blocks * k.keySize <= encryptionBuffer.Length
    modifies encryptionBuffer
    ensures jj == h + blocks * k.keySize
    ensures encryptionBuffer[..jj] == signed[..h] + EncryptBlocks(k, signed[h..], 0)
  {
    hide Sound, EncryptBlocks, Total;
    RsaSizes(k);
    var plainBlock := PlainBlock(k);
    TotalIs(blocks, plainBlock);
    TotalIs(blocks, k.keySize);
    Fill(encryptionBuffer, 0, signed[..h]);
    jj := h;
    var ii, n := h, 0;
    ghost var done: seq<byte> := [];
    EncryptStop(k, n);
    assert done + EncryptBlocks(k, signed[h..], 0) == EncryptBlocks(k, signed[h..], 0);
    while ii < |signed|
      invariant h <= ii <= |signed| && n <= blocks
      invariant |signed| - ii == Total(blocks - n, plainBlock)
      invariant jj == h + |done| && h + Total(blocks, k.keySize) - jj == Total(blocks - n, k.keySize)
      invariant encryptionBuffer[..jj] == signed[..h] + done
      invariant done + EncryptBlocks(k, signed[ii..], n) == EncryptBlocks(k, signed[h..], 0)
    {
      TotalIs(blocks - n, plainBlock);
      TotalIs(blocks - n, k.keySize);
      EncryptStep(k, signed[ii..], n);
      var plainText := signed[ii..ii + plainBlock];
      var cipherText := k.encrypt(n, plainText);
      assert signed[ii..][..plainBlock] == plainText && signed[ii..][plainBlock..] == signed[ii + plainBlock..];
      Fill(encryptionBuffer, jj, cipherText);
      done := done + cipherText;
      ii, jj, n := ii + plainBlock, jj + k.keySize, n + 1;
    }
    EncryptStop(k, n);
    assert signed[|signed|..] == [] && done + [] == done;
    TotalIs(blocks - n, plainBlock);
    TotalIs(blocks - n, k.keySize);
  }

  /** `copy(buffer[at:], p)` with room for all of `p`. */
  method Fill(buffer: array<byte>, at: nat, p: seq<byte>)
    requires at + |p| <= buffer.Length
    modifies buffer
    ensures buffer[..at + |p|] == old(buffer[..at]) + p
    ensures buffer[at + |p|..] == old(buffer[at + |p|..])
  {
    for k := 0 to |p|
      invariant forall j :: 0 <= j < buffer.Length && !(at <= j < at + k) ==> buffer[j] == old(buffer[j])
      invariant forall j :: 0 <= j < k ==> buffer[at + j] == p[j]
    {
      buffer[at + k] := p[k];
    }
  }

  /** `ReadString` and `ReadByteArray`: where the field ends, and its value. */
  method ReadField(buf: array<byte>, i: nat, count: nat) returns (end: Option<nat>, value: Option<seq<byte>>)
    requires count <= buf.Length
    ensures end == FieldEnd(buf[..], i, count)
    ensures end.Some? ==> value == Field(buf[..], i, end.value)
  {
    if i + 4 > count {
      return None, None;
    }
    assert forall k :: 0 <= k < 4 ==> buf[i..i + 4][k] == buf[..][i..][k];
    var n := GetU32(buf[i..i + 4]);
    if n >= 0x8000_0000 {
      return Some(i + 4), None;
    }
    if i + 4 + n > count {
      return None, None;
    }
    assert buf[..][i + 4..i + 4 + n] == buf[i + 4..i + 4 + n];
    return Some(i + 4 + n), Some(buf[i + 4..i + 4 + n]);
  }

  /** The OpenSecureChannel branch of the receive loops: the chunk is decrypted in the receive buffer itself. */
  method ReadOpenChunk(secure: bool, k: Rsa, receiveBuffer: array<byte>, count: nat) returns (r: C.Result<Opening>)
    requires Sound(k) && count <= receiveBuffer.Length
    modifies receiveBuffer
    ensures r == ReadOpen(secure, k, old(receiveBuffer[..]), count)
  {
    hide Sound, ReadPlain, DecryptFrom, FieldEnd, GetU32;
    RsaSizes(k);
    ghost var buf := receiveBuffer[..];
    if count < 12 {
      return C.Err(C.BadDecodingError);
    }
    SameU32(buf, 4);
    assert receiveBuffer[4..8] == buf[4..8];
    if GetU32(receiveBuffer[4..8]) != count {
      return C.Err(C.BadDecodingError);
    }
    var uri, policyUri := ReadField(receiveBuffer, 12, count);
    if uri.None? {
      return C.Err(C.BadDecodingError);
    }
    var cert, certificate := ReadField(receiveBuffer, uri.value, count);
    if cert.None? {
      return C.Err(C.BadDecodingError);
    }
    var last, thumbprint := ReadField(receiveBuffer, cert.value, count);
    if last.None? {
      return C.Err(C.BadDecodingError);
    }
    var h := last.value;
    var security := Security(policyUri, certificate, thumbprint, h);
    assert ReadHeader(buf, count) == Some(security);
    var messageLength := count;
    if secure {
      var ok, jj := DecryptInPlace(k, receiveBuffer, h, count);
      if !ok {
        return C.Err(C.BadDecodingError);
      }
      messageLength := jj;
    }
    var plain := ReadPlain(secure, k, receiveBuffer[..messageLength], h, count - h);
    r := ToOpening(security, plain);
  }

  lemma SameU32(buf: seq<byte>, i: nat)
    requires i + 4 <= |buf|
    ensures GetU32(buf[i..]) == GetU32(buf[i..i + 4])
  {
    assert forall k :: 0 <= k < 4 ==> buf[i..][k] == buf[i..i + 4][k];
  }

  /** The plaintext overtakes no ciphertext: block `ii` is read before anything at or behind it is written. */
  method DecryptInPlace(k: Rsa, receiveBuffer: array<byte>, h: nat, count: nat) returns (ok: bool, jj: nat)
    requires Sound(k) && h <= count <= receiveBuffer.Length
    modifies receiveBuffer
    ensures var plain := DecryptFrom(k, old(receiveBuffer[..]), h, count, Repeat(0, k.keySize));
            if plain.None? then !ok
            else
              && ok && jj <= receiveBuffer.Length
              && receiveBuffer[..jj] == old(receiveBuffer[..h]) + Fit(plain.value, receiveBuffer.Length - h)
  {
    hide Sound, DecryptFrom, Prepend, Fit, Overlay;
    RsaSizes(k);
    ghost var buf := receiveBuffer[..];
    ghost var all := DecryptFrom(k, buf, h, count, Repeat(0, k.keySize));
    var cipherText := Repeat(0, k.keySize);
    jj := h;
    var ii := h;
    ghost var done: seq<byte> := [];
    PrependNothing(all);
    FitNothing(receiveBuffer.Length - h);
    assert buf[..h] + [] == buf[..h];
    while ii < count
      invariant h <= jj <= ii && jj <= receiveBuffer.Length && |cipherText| == k.keySize
      invariant receiveBuffer[..jj] == buf[..h] + Fit(done, receiveBuffer.Length - h)
      invariant ii <= receiveBuffer.Length ==> receiveBuffer[ii..] == buf[ii..]
      invariant all == Prepend(done, DecryptFrom(k, buf, ii, count, cipherText))
    {
      DecryptStep(k, buf, ii, count, cipherText);
      PrependNone(done);
      cipherText := Overlay(cipherText, receiveBuffer[ii..]);
      var plainText := k.decrypt(cipherText);
      if plainText.None? {
        return false, jj;
      }
      var n := if jj + |plainText.value| <= receiveBuffer.Length then |plainText.value| else receiveBuffer.Length - jj;
      Fill(receiveBuffer, jj, plainText.value[..n]);
      jj := jj + n;
      PrependTwice(done, plainText.value, DecryptFrom(k, buf, ii + k.keySize, count, cipherText));
      FitMore(done, plainText.value, n, receiveBuffer.Length - h);
      done := done + plainText.value;
      ii := ii + k.keySize;
    }
    DecryptStop(k, buf, ii, count, cipherText);
    PrependLast(done);
    ok := true;
  }

  lemma DecryptStop(k: Rsa, buf: seq<byte>, ii: nat, count: nat, block: seq<byte>)
    requires Sound(k) && |block| == k.keySize && count <= ii && count <= |buf|
    ensures DecryptFrom(k, buf, ii, count, block) == Some([])
  {
  }

  lemma FitMore(done: seq<byte>, x: seq<byte>, n: nat, room: nat)
    requires |Fit(done, room)| + |x| <= room ==> n == |x|
    requires |Fit(done, room)| + |x| > room ==> n == room - |Fit(done, room)|
    ensures n <= |x| && Fit(done + x, room) == Fit(done, room) + x[..n]
  {
  }

  lemma PrependNothing(r: Option<seq<byte>>)
    ensures Prepend([], r) == r
  {
    assert r.Some? ==> [] + r.value == r.value;
  }

  lemma PrependNone(done: seq<byte>)
    ensures Prepend(done, None) == None
  {
  }

  lemma PrependLast(done: seq<byte>)
    ensures Prepend(done, Some([])) == Some(done)
  {
    assert done + [] == done;
  }

  lemma FitNothing(room: nat)
    ensures Fit([], room) == []
  {
  }

  lemma PrependTwice(a: seq<byte>, b: seq<byte>, r: Option<seq<byte>>)
    ensures Prepend(a, Prepend(b, r)) == Prepend(a + b, r)
  {
    assert r.Some? ==> a + (b + r.value) == (a + b) + r.value;
  }

  ghost function Prepend(done: seq<byte>, rest: Option<seq<byte>>): (r: Option<seq<byte>>)
  {
    if rest.None? then None else Some(done + rest.value)
  }

  lemma DecryptStep(k: Rsa, buf: seq<byte>, ii: nat, count: nat, block: seq<byte>)
    requires Sound(k) && |block| == k.keySize && ii < count <= |buf|
    ensures var cipherText := Overlay(block, buf[ii..]);
            match k.decrypt(cipherText)
            case None => DecryptFrom(k, buf, ii, count, block) == None
            case Some(x) =>
              && |x| <= k.keySize
              && DecryptFrom(k, buf, ii, count, block)
                 == Prepend(x, DecryptFrom(k, buf, ii + k.keySize, count, cipherText))
  {
  }
}
