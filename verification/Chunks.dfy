/**
 * Symmetric message chunks (OPC UA Part 6, section 6.7.2): how `sendServiceRequest` and
 * `sendServiceResponse` cut a message body into padded, signed and encrypted chunks, and how
 * `readRequest` and `readResponse` put it together again.
 *
 * The block cipher and the MAC are function parameters of which only their laws are used.
 */
module Chunks {
  import opened Arith
  import opened Bytes
  import opened ByteWriter
  import opened Psha

  datatype Mode = None | Sign | SignAndEncrypt

  /** The symmetric part of a security policy, with its primitives keyed by the channel keys. */
  datatype Policy = Policy(
    mode: Mode,
    block: nat,
    signatureSize: nat,
    encrypt: (Keys, seq<byte>) -> seq<byte>,
    decrypt: (Keys, seq<byte>) -> seq<byte>,
    mac: (Keys, seq<byte>) -> seq<byte>)

  ghost predicate Sound(p: Policy)
  {
    && 1 <= p.block <= 0x1_0000
    && (p.mode == None ==> p.signatureSize == 0)
    && (p.mode != None ==> p.signatureSize > 0)
    && (forall k, x :: |p.mac(k, x)| == p.signatureSize)
    && (forall k, x :: |x| % p.block == 0 ==> |p.encrypt(k, x)| == |x| && p.decrypt(k, p.encrypt(k, x)) == x)
    && (forall k, x :: |x| % p.block == 0 ==> |p.decrypt(k, x)| == |x|)
  }

  lemma HasBlocks(p: Policy)
    requires Sound(p)
    ensures p.block > 0
  {
  }

  const HEADER := 16
  const SEQUENCE_HEADER := 8

  const TYPE_FINAL := 0x4647_534D       // "MSGF"
  const TYPE_CHUNK := 0x4347_534D       // "MSGC"
  const TYPE_CLOSE_FINAL := 0x464F_4C43 // "CLOF"

  /** A security token and the client-to-server keys that belong to it. */
  datatype Token = Token(id: u32, keys: Keys)

  /** The end that sends or receives. */
  datatype Side = ClientSide | ServerSide

  datatype Status =
    | Good
    | BadEncodingError
    | BadDecodingError
    | BadTooLarge
    | BadSecureChannelClosed
    | BadSecureChannelUnknown
    | BadTokenUnknown
    | BadSecurityChecksFailed
    | BadUnknownType
    | ShortWrite
    | SliceOutOfRange   // the run-time panic of a slice with bounds out of range
    | PartialBlocks     // the run-time panic of a block cipher on a partial block

  datatype Result<+T> = Ok(value: T) | Err(error: Status)

  // ------------------------------------------------------------------ plan

  datatype Plan = Plan(bodySize: int, paddingHeaderSize: nat, paddingSize: nat, chunkSize: int)

  /** Division that truncates toward zero. */
  function Quot(a: int, b: int): (r: int)
    requires b > 0
  {
    if a >= 0 then a / b else -(-a / b)
  }

  function PaddingHeaderSize(p: Policy): (r: nat)
  {
    if p.mode != SignAndEncrypt then 0 else if p.block > 256 then 2 else 1
  }

  function MaxBodySize(p: Policy, bufferSize: nat): (r: int)
    requires p.block > 0
  {
    if p.mode == SignAndEncrypt
    then Quot(bufferSize - HEADER, p.block) * p.block - SEQUENCE_HEADER - PaddingHeaderSize(p) - p.signatureSize
    else bufferSize - HEADER - SEQUENCE_HEADER - p.signatureSize
  }

  function PlanChunk(p: Policy, bufferSize: nat, bodyCount: nat): (r: Plan)
    requires p.block > 0
  {
    var max := MaxBodySize(p, bufferSize);
    var ph := PaddingHeaderSize(p);
    var bodySize := if bodyCount < max then bodyCount else max;
    var paddingSize :=
      if p.mode == SignAndEncrypt && bodyCount < max
      then (p.block - (SEQUENCE_HEADER + bodySize + ph + p.signatureSize) % p.block) % p.block
      else 0;
    Plan(bodySize, ph, paddingSize, HEADER + SEQUENCE_HEADER + bodySize + paddingSize + ph + p.signatureSize)
  }

  /**
   * Every planned chunk carries something, fits the buffer, has a padding size that its header
   * can hold, and is a whole number of cipher blocks behind the plain header.
   */
  lemma PlanFits(p: Policy, bufferSize: nat, bodyCount: nat)
    requires Sound(p) && MaxBodySize(p, bufferSize) > 0 && bodyCount > 0
    ensures var r := PlanChunk(p, bufferSize, bodyCount);
            && 0 < r.bodySize <= bodyCount
            && HEADER + SEQUENCE_HEADER < r.chunkSize <= bufferSize
            && (r.paddingHeaderSize == 1 ==> r.paddingSize < 0x100)
            && r.paddingSize < 0x1_0000
            && (p.mode == SignAndEncrypt ==> (r.chunkSize - HEADER) % p.block == 0)
  {
    if p.mode == SignAndEncrypt {
      var whole := Quot(bufferSize - HEADER, p.block) * p.block;
      WholeBlocks(bufferSize, p.block, whole);
      hide Quot;
      var overhead := SEQUENCE_HEADER + PaddingHeaderSize(p) + p.signatureSize;
      var max := MaxBodySize(p, bufferSize);
      assert max == whole - overhead;
      if bodyCount < max {
        PadsToBlock(overhead + bodyCount, p.block);
        PadBelow(overhead + bodyCount, whole, (p.block - (overhead + bodyCount) % p.block) % p.block, p.block);
      }
    }
  }

  /** The whole blocks that fit behind the plain header. */
  lemma WholeBlocks(bufferSize: nat, block: nat, whole: int)
    requires block > 0 && whole == Quot(bufferSize - HEADER, block) * block
    ensures whole % block == 0
    ensures whole > 0 ==> whole <= bufferSize - HEADER
  {
    var q := Quot(bufferSize - HEADER, block);
    DivModIs(whole, block, q, 0);
    if bufferSize >= HEADER {
      DivMod(bufferSize - HEADER, block);
    } else {
      DivMod(HEADER - bufferSize, block);
      NonPositiveTimes(q, block);
    }
  }

  lemma NonPositiveTimes(a: int, b: nat)
    requires a <= 0
    ensures a * b <= 0
  {
  }

  /** Padding a size up to a block boundary does not pass a boundary above it. */
  lemma PadBelow(n: int, whole: int, pad: int, block: int)
    requires block > 0 && whole % block == 0 && n <= whole
    requires 0 <= pad < block && (n + pad) % block == 0
    ensures n + pad <= whole
  {
    DivMod(n + pad, block);
    DivMod(whole, block);
    var d := (n + pad) / block - whole / block;
    MulSign(block, d);
    assert block * d == n + pad - whole;
  }

  // ------------------------------------------------------------------ one chunk

  /** The header fields of a chunk that do not depend on its plan. */
  datatype Envelope = Envelope(isFinal: bool, channelId: u32, tokenId: u32, sequenceNumber: u32, requestId: u32)

  function Header(e: Envelope, chunkSize: nat): (r: seq<byte>)
    ensures |r| == HEADER
  {
    PutU32(if e.isFinal then TYPE_FINAL else TYPE_CHUNK) + PutU32(chunkSize) + PutU32(e.channelId) + PutU32(e.tokenId)
  }

  function SequenceHeader(e: Envelope): (r: seq<byte>)
    ensures |r| == SEQUENCE_HEADER
  {
    PutU32(e.sequenceNumber) + PutU32(e.requestId)
  }

  /** The size byte, as many copies of it again, and the high byte of a two-byte size. */
  function Padding(paddingSize: nat, paddingHeaderSize: nat): (r: seq<byte>)
  {
    if paddingHeaderSize == 0 then []
    else if paddingHeaderSize == 1 then Repeat(paddingSize % 256, paddingSize + 1)
    else Repeat(paddingSize % 256, paddingSize + 1) + [paddingSize / 256 % 256]
  }

  function PlainChunk(plan: Plan, e: Envelope, piece: seq<byte>): (r: seq<byte>)
    requires plan.chunkSize >= 0
  {
    Header(e, plan.chunkSize) + SequenceHeader(e) + piece + Padding(plan.paddingSize, plan.paddingHeaderSize)
  }

  function Signed(p: Policy, keys: Keys, plain: seq<byte>): (r: seq<byte>)
  {
    if p.mode == None then plain else plain + p.mac(keys, plain)
  }

  function Encrypted(p: Policy, keys: Keys, signed: seq<byte>): (r: seq<byte>)
    requires p.mode == SignAndEncrypt ==> |signed| >= HEADER
  {
    if p.mode == SignAndEncrypt then signed[..HEADER] + p.encrypt(keys, signed[HEADER..]) else signed
  }

  /** The bytes that are handed to the transport for one chunk. */
  function WireChunk(p: Policy, keys: Keys, plan: Plan, e: Envelope, piece: seq<byte>): (r: seq<byte>)
    requires plan.chunkSize >= 0
  {
    Encrypted(p, keys, Signed(p, keys, PlainChunk(plan, e, piece)))
  }

  /** What a chunk gives the receiver. The server answers under the request id; the client does not look at it. */
  datatype Piece = Piece(isFinal: bool, requestId: u32, body: seq<byte>)

  /**
   * What the receiver does with one chunk once it is decrypted: check the signature, read the request id, cut out
   * the body.
   */
  function ReadPlain(p: Policy, keys: Keys, buf: seq<byte>): (r: Result<(u32, seq<byte>)>)
  {
    var sigStart := |buf| - p.signatureSize;
    var ph := PaddingHeaderSize(p);
    var start := sigStart - ph;
    if p.mode != None && sigStart < 0 then Err(SliceOutOfRange)
    else if p.mode != None && p.mac(keys, buf[..sigStart]) != buf[sigStart..] then Err(BadSecurityChecksFailed)
    else if |buf| < HEADER + SEQUENCE_HEADER then Err(BadDecodingError)
    else if ph > 0 && start < 0 then Err(SliceOutOfRange)
    else
      var paddingSize: int := if ph == 0 then 0 else if ph == 1 then buf[start] else GetU16(buf[start], buf[start + 1]);
      var bodySize := |buf| - HEADER - SEQUENCE_HEADER - paddingSize - ph - p.signatureSize;
      if bodySize < 0 then Err(SliceOutOfRange)
      else Ok((GetU32(buf[HEADER + 4..]), buf[HEADER + SEQUENCE_HEADER..HEADER + SEQUENCE_HEADER + bodySize]))
  }

  function GetU16(lo: byte, hi: byte): (r: nat)
    ensures r < 0x1_0000
  {
    var l: int, h: int := lo, hi;
    l + 256 * h
  }

  /** Only the server expects the message that closes the channel. */
  predicate KnownType(side: Side, messageType: u32)
  {
    messageType == TYPE_CHUNK || messageType == TYPE_FINAL || (side == ServerSide && messageType == TYPE_CLOSE_FINAL)
  }

  /** A chunk with everything behind its header decrypted. */
  function Decrypted(p: Policy, keys: Keys, chunk: seq<byte>): (r: seq<byte>)
    requires |chunk| >= HEADER
  {
    if p.mode == SignAndEncrypt then chunk[..HEADER] + p.decrypt(keys, chunk[HEADER..]) else chunk
  }

  /** One iteration of the receive loop on a symmetric chunk, under the token that it names. */
  function ReadChunk(p: Policy, side: Side, channelId: u32, token: Token, chunk: seq<byte>): (r: Result<Piece>)
    requires p.block > 0
  {
    if |chunk| < 8 || GetU32(chunk[4..]) != |chunk| then Err(BadDecodingError)
    else
      var messageType := GetU32(chunk);
      if !KnownType(side, messageType) then Err(BadUnknownType)
      else if |chunk| < 12 then Err(BadDecodingError)
      else if GetU32(chunk[8..]) != channelId then Err(BadSecureChannelUnknown)
      else if |chunk| < HEADER then Err(BadDecodingError)
      else if GetU32(chunk[12..]) != token.id then Err(BadTokenUnknown)
      else if p.mode == SignAndEncrypt && |chunk[HEADER..]| % p.block != 0 then Err(BadDecodingError)
      else
        match ReadPlain(p, token.keys, Decrypted(p, token.keys, chunk))
        case Err(e) => Err(e)
        case Ok((requestId, body)) => Ok(Piece(messageType != TYPE_CHUNK, requestId, body))
  }

  // ------------------------------------------------------------------ one chunk survives

  ghost predicate PlanFor(p: Policy, plan: Plan, pieceSize: nat)
  {
    && p.block > 0
    && plan.bodySize == pieceSize
    && plan.paddingHeaderSize == PaddingHeaderSize(p)
    && (plan.paddingHeaderSize == 0 ==> plan.paddingSize == 0)
    && (plan.paddingHeaderSize == 1 ==> plan.paddingSize < 0x100)
    && plan.paddingSize < 0x1_0000
    && plan.chunkSize
       == HEADER + SEQUENCE_HEADER + pieceSize + plan.paddingSize + plan.paddingHeaderSize + p.signatureSize
    && plan.chunkSize < U32_LIMIT
    && (p.mode == SignAndEncrypt ==> (plan.chunkSize - HEADER) % p.block == 0)
  }

  lemma SignedSize(p: Policy, keys: Keys, plan: Plan, e: Envelope, piece: seq<byte>)
    requires Sound(p) && PlanFor(p, plan, |piece|)
    ensures |PlainChunk(plan, e, piece)| == plan.chunkSize - p.signatureSize
    ensures |Signed(p, keys, PlainChunk(plan, e, piece))| == plan.chunkSize
  {
  }

  /** The padding size is read back from the last padding bytes, in both of its widths. */
  lemma PaddingRecovered(plan: Plan, before: seq<byte>, after: seq<byte>)
    requires 1 <= plan.paddingHeaderSize <= 2 && plan.paddingSize < 0x1_0000
    requires plan.paddingHeaderSize == 1 ==> plan.paddingSize < 0x100
    ensures var buf := before + Padding(plan.paddingSize, plan.paddingHeaderSize) + after;
            var start := |buf| - |after| - plan.paddingHeaderSize;
            && start >= |before|
            && plan.paddingSize ==
               if plan.paddingHeaderSize == 1 then buf[start] else GetU16(buf[start], buf[start + 1])
  {
    var pad := Padding(plan.paddingSize, plan.paddingHeaderSize);
    var buf := before + pad + after;
    var start := |buf| - |after| - plan.paddingHeaderSize;
    assert buf[start] == pad[start - |before|];
  }

  lemma ReadPlainSigned(p: Policy, keys: Keys, plan: Plan, e: Envelope, piece: seq<byte>)
    requires Sound(p) && PlanFor(p, plan, |piece|)
    ensures ReadPlain(p, keys, Signed(p, keys, PlainChunk(plan, e, piece))) == Ok((e.requestId, piece))
  {
    var plain := PlainChunk(plan, e, piece);
    var buf := Signed(p, keys, plain);
    SignedSize(p, keys, plan, e, piece);
    var sigStart := |buf| - p.signatureSize;
    if p.mode != None {
      assert buf[..sigStart] == plain;
      assert buf[sigStart..] == p.mac(keys, plain);
    }
    var head := Header(e, plan.chunkSize) + SequenceHeader(e);
    if plan.paddingHeaderSize > 0 {
      PaddingRecovered(plan, head + piece, p.mac(keys, plain));
    }
    var m := HEADER + SEQUENCE_HEADER;
    assert buf[m..m + |piece|] == piece;
    SequenceFields(e, plan.chunkSize, buf);
  }

  lemma SequenceFields(e: Envelope, chunkSize: nat, buf: seq<byte>)
    requires |buf| >= HEADER + SEQUENCE_HEADER
    requires buf[..HEADER + SEQUENCE_HEADER] == Header(e, chunkSize) + SequenceHeader(e)
    ensures GetU32(buf[HEADER..]) == e.sequenceNumber && GetU32(buf[HEADER + 4..]) == e.requestId
  {
    hide GetU32, PutU32, Header;
    var m := HEADER + SEQUENCE_HEADER;
    assert forall i, j :: 0 <= i <= j <= m ==> buf[..m][i..j] == buf[i..j];
    U32At(buf, HEADER, e.sequenceNumber);
    U32At(buf, HEADER + 4, e.requestId);
  }

  lemma HeaderFields(e: Envelope, chunkSize: nat, chunk: seq<byte>)
    requires chunkSize < U32_LIMIT && |chunk| >= HEADER && chunk[..HEADER] == Header(e, chunkSize)
    ensures GetU32(chunk) == if e.isFinal then TYPE_FINAL else TYPE_CHUNK
    ensures GetU32(chunk[4..]) == chunkSize
    ensures GetU32(chunk[8..]) == e.channelId
    ensures GetU32(chunk[12..]) == e.tokenId
  {
    var t := if e.isFinal then TYPE_FINAL else TYPE_CHUNK;
    hide GetU32, PutU32;
    assert forall i, j :: 0 <= i <= j <= HEADER ==> chunk[..HEADER][i..j] == chunk[i..j];
    assert chunk[0..] == chunk;
    U32At(chunk, 0, t);
    U32At(chunk, 4, chunkSize);
    U32At(chunk, 8, e.channelId);
    U32At(chunk, 12, e.tokenId);
  }

  lemma U32At(chunk: seq<byte>, i: nat, n: u32)
    requires i + 4 <= |chunk| && chunk[i..i + 4] == PutU32(n)
    ensures GetU32(chunk[i..]) == n
  {
    GetPutU32(n);
    assert forall k :: 0 <= k < 4 ==> chunk[i..][k] == chunk[i..i + 4][k];
  }

  /** The plain header of a chunk on the wire, and what follows it. */
  lemma WireParts(p: Policy, keys: Keys, plan: Plan, e: Envelope, piece: seq<byte>, signed: seq<byte>)
    requires Sound(p) && PlanFor(p, plan, |piece|) && signed == Signed(p, keys, PlainChunk(plan, e, piece))
    ensures var wire := WireChunk(p, keys, plan, e, piece);
            && |wire| == |signed| == plan.chunkSize >= HEADER
            && wire[..HEADER] == signed[..HEADER] == Header(e, plan.chunkSize)
            && wire[HEADER..]
               == if p.mode == SignAndEncrypt then p.encrypt(keys, signed[HEADER..]) else signed[HEADER..]
  {
    SignedSize(p, keys, plan, e, piece);
    hide Header, SequenceHeader, Padding;
    assert signed[..HEADER] == Header(e, plan.chunkSize);
  }

  lemma WireHeader(p: Policy, keys: Keys, plan: Plan, e: Envelope, piece: seq<byte>)
    requires Sound(p) && PlanFor(p, plan, |piece|)
    ensures var wire := WireChunk(p, keys, plan, e, piece);
            && |wire| == plan.chunkSize >= HEADER
            && GetU32(wire) == (if e.isFinal then TYPE_FINAL else TYPE_CHUNK)
            && GetU32(wire[4..]) == plan.chunkSize
            && GetU32(wire[8..]) == e.channelId
            && GetU32(wire[12..]) == e.tokenId
            && wire[..4] == [0x4D, 0x53, 0x47, if e.isFinal then 0x46 else 0x43] // "MSGF" or "MSGC"
  {
    assert PutU32(TYPE_FINAL) == [0x4D, 0x53, 0x47, 0x46] && PutU32(TYPE_CHUNK) == [0x4D, 0x53, 0x47, 0x43];
    assert Header(e, plan.chunkSize)[..4] == PutU32(if e.isFinal then TYPE_FINAL else TYPE_CHUNK);
    WireParts(p, keys, plan, e, piece, Signed(p, keys, PlainChunk(plan, e, piece)));
    hide Header, GetU32, WireChunk, PutU32;
    assert WireChunk(p, keys, plan, e, piece)[..HEADER][..4] == WireChunk(p, keys, plan, e, piece)[..4];
    HeaderFields(e, plan.chunkSize, WireChunk(p, keys, plan, e, piece));
  }

  /**
   * A chunk that is read under the token and keys it was written with yields its piece, its final mark and the
   * request id.
   */
  lemma ChunkRoundTrip(p: Policy, side: Side, token: Token, plan: Plan, e: Envelope, piece: seq<byte>)
    requires Sound(p) && PlanFor(p, plan, |piece|) && e.tokenId == token.id
    ensures var wire := WireChunk(p, token.keys, plan, e, piece);
            && |wire| == plan.chunkSize
            && ReadChunk(p, side, e.channelId, token, wire) == Ok(Piece(e.isFinal, e.requestId, piece))
  {
    hide GetU32, WireChunk, Header, ReadPlain, Signed, PlainChunk, ReadChunk;
    var signed := Signed(p, token.keys, PlainChunk(plan, e, piece));
    var wire := WireChunk(p, token.keys, plan, e, piece);
    WireParts(p, token.keys, plan, e, piece, signed);
    WireHeader(p, token.keys, plan, e, piece);
    ReadPlainSigned(p, token.keys, plan, e, piece);
    assert signed[..HEADER] + signed[HEADER..] == signed;
    assert wire[..HEADER] + wire[HEADER..] == wire;
    ReadChunkOf(p, side, e.channelId, token, wire, signed);
  }

  /** A chunk with the expected header is read as its plain text says. */
  lemma ReadChunkOf(p: Policy, side: Side, channelId: u32, token: Token, wire: seq<byte>, buf: seq<byte>)
    requires p.block > 0 && |wire| >= HEADER && GetU32(wire[4..]) == |wire|
    requires KnownType(side, GetU32(wire)) && GetU32(wire[8..]) == channelId && GetU32(wire[12..]) == token.id
    requires p.mode == SignAndEncrypt ==> |wire[HEADER..]| % p.block == 0
    requires buf == Decrypted(p, token.keys, wire)
    ensures ReadPlain(p, token.keys, buf).Ok? ==>
              var (requestId, body) := ReadPlain(p, token.keys, buf).value;
              ReadChunk(p, side, channelId, token, wire) == Ok(Piece(GetU32(wire) != TYPE_CHUNK, requestId, body))
  {
    hide GetU32, ReadPlain;
  }

  // ------------------------------------------------------------------ whole messages

  /**
   * The sender's view of a channel after the Hello/Acknowledge exchange. `bufferSize` is the negotiated size and
   * `room` the length of the buffer in which chunks are built.
   */
  datatype Sender = Sender(side: Side, channelId: u32, bufferSize: u32, maxMessageSize: u32, maxChunkCount: u32,
                           room: u32)

  /** `room` is the length of the receive buffer. */
  datatype Receiver = Receiver(side: Side, channelId: u32, maxMessageSize: u32, maxChunkCount: u32, room: u32)

  /** The token that is in force when the k-th chunk of a message is handled. */
  type Tokens = nat -> Token

  /** `getNextSequenceNumber`: skips zero on wrap-around. */
  function NextSequenceNumber(n: u32): (r: u32)
    ensures r != 0
  {
    if n == U32_LIMIT - 1 then 1 else n + 1
  }

  /** The size of a chunk without a body. */
  function EmptySize(p: Policy): (n: nat)
  {
    HEADER + SEQUENCE_HEADER + PaddingHeaderSize(p) + p.signatureSize
  }

  /** What is signed when the plan leaves nothing for the body: whatever the buffer does not hold is cut off. */
  function EmptySigned(p: Policy, room: nat, keys: Keys, plan: Plan, e: Envelope): (r: seq<byte>)
    requires plan.chunkSize >= 0
  {
    var plain := Fit(PlainChunk(plan, e, []), room);
    Fit(Signed(p, keys, plain), room)
  }

  /**
   * How building such a chunk ends. The server notices that the header or the signature was cut off; the client
   * notices only that there is no header or no whole number of blocks to encrypt.
   */
  function EmptyStatus(side: Side, p: Policy, room: nat): (r: Status)
    requires p.block > 0
  {
    var n := if EmptySize(p) <= room then EmptySize(p) else room;
    match side
    case ServerSide =>
      if room < HEADER then BadEncodingError
      else if p.mode != None && room < EmptySize(p) then ShortWrite
      else if p.mode == SignAndEncrypt && (n - HEADER) % p.block != 0 then PartialBlocks
      else Good
    case ClientSide =>
      if p.mode != SignAndEncrypt then Good
      else if n < HEADER then SliceOutOfRange
      else if (n - HEADER) % p.block != 0 then BadEncodingError
      else Good
  }

  function EmptyChunk(p: Policy, room: nat, keys: Keys, plan: Plan, e: Envelope): (r: seq<byte>)
    requires plan.chunkSize >= 0
    requires p.mode == SignAndEncrypt ==> |EmptySigned(p, room, keys, plan, e)| >= HEADER
  {
    Encrypted(p, keys, EmptySigned(p, room, keys, plan, e))
  }

  lemma EmptySignedSize(p: Policy, room: nat, keys: Keys, plan: Plan, e: Envelope)
    requires Sound(p) && plan.chunkSize >= 0 && plan.paddingSize == 0 && plan.paddingHeaderSize == PaddingHeaderSize(p)
    ensures |EmptySigned(p, room, keys, plan, e)| == if EmptySize(p) <= room then EmptySize(p) else room
  {
    hide Header, SequenceHeader;
  }

  /** The plan when no body fits: no padding, and a size that is never negative. */
  lemma EmptyPlan(p: Policy, bufferSize: nat, bodyCount: nat)
    requires p.block > 0 && MaxBodySize(p, bufferSize) <= 0 && bodyCount > 0
    ensures var plan := PlanChunk(p, bufferSize, bodyCount);
            && plan
               == Plan(MaxBodySize(p, bufferSize), PaddingHeaderSize(p), 0, EmptySize(p) + MaxBodySize(p, bufferSize))
            && plan.chunkSize >= 0
  {
    if p.mode == SignAndEncrypt {
      QuotAtLeast(bufferSize - HEADER, p.block, HEADER, Quot(bufferSize - HEADER, p.block));
    }
  }

  lemma QuotAtLeast(a: int, b: int, h: int, q: int)
    requires b > 0 && h >= 0 && a >= -h && q == Quot(a, b)
    ensures q * b >= -h
  {
    if a >= 0 {
      QuotNonNegative(a, b, q);
    } else {
      QuotOfNegative(-a, b, -q);
      TimesSign(-q, b);
    }
  }

  lemma QuotNonNegative(a: int, b: int, q: int)
    requires a >= 0 && b > 0 && q == a / b
    ensures q * b >= 0
  {
    TimesSign(q, b);
  }

  lemma QuotOfNegative(n: int, b: int, q: int)
    requires n >= 0 && b > 0 && q == n / b
    ensures b * q <= n
  {
    DivMod(n, b);
  }

  lemma TimesSign(q: int, b: int)
    requires b > 0
    ensures q >= 0 ==> q * b >= 0
    ensures (-q) * b == -(b * q)
  {
  }

  /** The send loop ends for every body: it makes progress, or a limit or a failure stops it. */
  predicate Ends(p: Policy, s: Sender)
    requires p.block > 0
  {
    MaxBodySize(p, s.bufferSize) > 0 || s.maxChunkCount > 0 || EmptyStatus(s.side, p, s.room) != Good
  }

  /** The chunks of the part of a body that is left after `k` chunks, and how sending ends. */
  ghost function SendFrom(p: Policy, s: Sender, tokens: Tokens, requestId: u32, body: seq<byte>, k: nat, last: u32)
      : (r: (Status, seq<seq<byte>>))
    requires Sound(p) && p.block > 0 && Ends(p, s)
    decreases |body|, if k < s.maxChunkCount then s.maxChunkCount - k else 0
  {
    if body == [] then (Good, [])
    else if s.maxChunkCount > 0 && k + 1 > s.maxChunkCount then (BadTooLarge, [])
    else if MaxBodySize(p, s.bufferSize) <= 0 then
      if EmptyStatus(s.side, p, s.room) != Good then (EmptyStatus(s.side, p, s.room), [])
      else
        EmptyPlan(p, s.bufferSize, |body|);
        var plan := PlanChunk(p, s.bufferSize, |body|);
        var sequenceNumber := NextSequenceNumber(last);
        var e := Envelope(false, s.channelId, tokens(k).id, sequenceNumber, requestId);
        EmptySignedSize(p, s.room, tokens(k).keys, plan, e);
        var chunk := EmptyChunk(p, s.room, tokens(k).keys, plan, e);
        var (status, chunks) := SendFrom(p, s, tokens, requestId, body, k + 1, sequenceNumber);
        (status, [chunk] + chunks)
    else
      PlanFits(p, s.bufferSize, |body|);
      var plan := PlanChunk(p, s.bufferSize, |body|);
      var sequenceNumber := NextSequenceNumber(last);
      var e := Envelope(|body| <= plan.bodySize, s.channelId, tokens(k).id, sequenceNumber, requestId);
      var chunk := WireChunk(p, tokens(k).keys, plan, e, body[..plan.bodySize]);
      var (status, chunks) := SendFrom(p, s, tokens, requestId, body[plan.bodySize..], k + 1, sequenceNumber);
      (status, [chunk] + chunks)
  }

  ghost function Send(p: Policy, s: Sender, tokens: Tokens, requestId: u32, body: seq<byte>, last: u32)
      : (r: (Status, seq<seq<byte>>))
    requires Sound(p) && p.block > 0 && Ends(p, s)
  {
    if s.maxMessageSize > 0 && |body| > s.maxMessageSize then (BadTooLarge, [])
    else SendFrom(p, s, tokens, requestId, body, 0, last)
  }

  /** Conversion to a signed 32-bit integer. */
  function Int32(n: int): (r: int)
    ensures -0x8000_0000 <= r < 0x8000_0000
  {
    var m := n % U32_LIMIT;
    if m < 0x8000_0000 then m else m - U32_LIMIT
  }

  /** The server counts chunks in a signed 32-bit integer and converts its limit; the client does not. */
  predicate TooManyChunks(side: Side, limit: u32, count: nat)
  {
    if side == ServerSide then Int32(limit) > 0 && Int32(count) > Int32(limit)
    else limit > 0 && count > limit
  }

  /** A message with the id of the request, and the chunks of later messages. */
  datatype Message = Message(requestId: u32, body: seq<byte>, later: seq<seq<byte>>)

  /** The message that `chunks` complete after `k` chunks gave `acc`; the request id is that of the final chunk. */
  function ReceiveFrom(p: Policy, r: Receiver, tokens: Tokens, chunks: seq<seq<byte>>, k: nat, acc: seq<byte>)
      : (res: Result<Message>)
    requires p.block > 0
    decreases |chunks|
  {
    if TooManyChunks(r.side, r.maxChunkCount, k + 1) then Err(BadTooLarge)
    else if chunks == [] || |chunks[0]| > r.room then Err(BadSecureChannelClosed)
    else
      match ReadChunk(p, r.side, r.channelId, tokens(k), chunks[0])
      case Err(e) => Err(e)
      case Ok(Piece(isFinal, requestId, piece)) =>
        if r.maxMessageSize > 0 && |acc + piece| > r.maxMessageSize then Err(BadTooLarge)
        else if isFinal then Ok(Message(requestId, acc + piece, chunks[1..]))
        else ReceiveFrom(p, r, tokens, chunks[1..], k + 1, acc + piece)
  }

  lemma NotTooMany(side: Side, limit: u32, count: nat)
    requires limit == 0 || count <= limit
    ensures !TooManyChunks(side, limit, count)
  {
  }

  /** The plan of the next chunk of a body satisfies what the receiver relies on. */
  lemma NextPlan(p: Policy, s: Sender, body: seq<byte>)
    requires Sound(p) && MaxBodySize(p, s.bufferSize) > 0 && body != []
    ensures var plan := PlanChunk(p, s.bufferSize, |body|);
            0 < plan.bodySize <= |body| && plan.chunkSize <= s.bufferSize && PlanFor(p, plan, plan.bodySize)
  {
    PlanFits(p, s.bufferSize, |body|);
  }

  /** One unfolding of `SendFrom`. */
  lemma SendStep(p: Policy, s: Sender, tokens: Tokens, requestId: u32, body: seq<byte>, k: nat, last: u32)
      returns (plan: Plan, e: Envelope, rest: (Status, seq<seq<byte>>))
    requires Sound(p) && MaxBodySize(p, s.bufferSize) > 0 && body != []
    requires s.maxChunkCount == 0 || k + 1 <= s.maxChunkCount
    ensures plan == PlanChunk(p, s.bufferSize, |body|)
    ensures 0 < plan.bodySize <= |body| && PlanFor(p, plan, plan.bodySize) && plan.chunkSize <= s.bufferSize
    ensures e == Envelope(plan.bodySize == |body|, s.channelId, tokens(k).id, NextSequenceNumber(last), requestId)
    ensures rest == SendFrom(p, s, tokens, requestId, body[plan.bodySize..], k + 1, e.sequenceNumber)
    ensures SendFrom(p, s, tokens, requestId, body, k, last) ==
            (rest.0, [WireChunk(p, tokens(k).keys, plan, e, body[..plan.bodySize])] + rest.1)
    ensures e.isFinal ==> rest == (Good, [])
  {
    NextPlan(p, s, body);
    plan := PlanChunk(p, s.bufferSize, |body|);
    e := Envelope(|body| <= plan.bodySize, s.channelId, tokens(k).id, NextSequenceNumber(last), requestId);
    rest := SendFrom(p, s, tokens, requestId, body[plan.bodySize..], k + 1, e.sequenceNumber);
  }

  /** Where `SendFrom` stops. */
  lemma SendStop(p: Policy, s: Sender, tokens: Tokens, requestId: u32, body: seq<byte>, k: nat, last: u32)
    requires Sound(p)
    ensures Ends(p, s) && body == [] ==> SendFrom(p, s, tokens, requestId, body, k, last) == (Good, [])
    ensures Ends(p, s) && body != [] && s.maxChunkCount > 0 && k + 1 > s.maxChunkCount ==>
              SendFrom(p, s, tokens, requestId, body, k, last) == (BadTooLarge, [])
  {
  }

  /** How sending ends when the buffer leaves nothing for the body. */
  function StuckStatus(p: Policy, s: Sender): (r: Status)
    requires p.block > 0
  {
    if EmptyStatus(s.side, p, s.room) != Good then EmptyStatus(s.side, p, s.room) else BadTooLarge
  }

  lemma {:induction false} StuckSends(p: Policy, s: Sender, tokens: Tokens, requestId: u32, body: seq<byte>, k: nat,
                                      last: u32)
    requires Sound(p) && Ends(p, s) && body != [] && MaxBodySize(p, s.bufferSize) <= 0
    requires s.maxChunkCount > 0 ==> k < s.maxChunkCount
    ensures SendFrom(p, s, tokens, requestId, body, k, last).0 == StuckStatus(p, s)
    decreases s.maxChunkCount - k
  {
    hide MaxBodySize, EmptyStatus, EmptyChunk, Sound;
    HasBlocks(p);
    if EmptyStatus(s.side, p, s.room) == Good && k + 1 < s.maxChunkCount {
      StuckSends(p, s, tokens, requestId, body, k + 1, NextSequenceNumber(last));
    }
  }

  /** A body is sent only when the buffer leaves room for it. */
  lemma OnlyWithRoom(p: Policy, s: Sender, tokens: Tokens, requestId: u32, body: seq<byte>, k: nat, last: u32)
    requires Sound(p) && Ends(p, s) && body != [] && SendFrom(p, s, tokens, requestId, body, k, last).0 == Good
    ensures MaxBodySize(p, s.bufferSize) > 0
  {
    hide MaxBodySize, EmptyStatus, SendFrom, Sound;
    HasBlocks(p);
    SendStop(p, s, tokens, requestId, body, k, last);
    if MaxBodySize(p, s.bufferSize) <= 0 {
      StuckSends(p, s, tokens, requestId, body, k, last);
    }
  }

  lemma SendGood(p: Policy, s: Sender, tokens: Tokens, requestId: u32, body: seq<byte>, k: nat, last: u32)
    requires Sound(p) && MaxBodySize(p, s.bufferSize) > 0 && body != []
    requires SendFrom(p, s, tokens, requestId, body, k, last).0 == Good
    ensures s.maxChunkCount == 0 || k + 1 <= s.maxChunkCount
  {
  }

  /** Both ends refuse by the same limits, and the receiver can hold what the sender may send. */
  predicate SameLimits(s: Sender, r: Receiver)
  {
    && r.channelId == s.channelId && r.maxMessageSize == s.maxMessageSize && r.maxChunkCount == s.maxChunkCount
    && s.bufferSize <= r.room
  }

  lemma {:induction false} ReceiveSent(p: Policy, s: Sender, r: Receiver, tokens: Tokens, requestId: u32,
      body: seq<byte>, k: nat, last: u32, acc: seq<byte>, later: seq<seq<byte>>)
    requires Sound(p) && MaxBodySize(p, s.bufferSize) > 0 && body != [] && SameLimits(s, r)
    requires s.maxMessageSize == 0 || |acc| + |body| <= s.maxMessageSize
    ensures var (status, wire) := SendFrom(p, s, tokens, requestId, body, k, last);
            status == Good ==>
              ReceiveFrom(p, r, tokens, wire + later, k, acc) == Ok(Message(requestId, acc + body, later))
    decreases |body|
  {
    hide ReadChunk, WireChunk, Sound, PlanFor, TooManyChunks, MaxBodySize, SendFrom, ReceiveFrom;
    HasBlocks(p);
    if SendFrom(p, s, tokens, requestId, body, k, last).0 == Good {
      SendGood(p, s, tokens, requestId, body, k, last);
      var plan, e, rest := SendStep(p, s, tokens, requestId, body, k, last);
      var piece := body[..plan.bodySize];
      var chunk := WireChunk(p, tokens(k).keys, plan, e, piece);
      ChunkRoundTrip(p, r.side, tokens(k), plan, e, piece);
      NotTooMany(r.side, r.maxChunkCount, k + 1);
      var wire := [chunk] + rest.1;
      assert wire + later == [chunk] + (rest.1 + later);
      ReceiveStep(p, r, tokens, chunk, rest.1 + later, k, acc, Piece(e.isFinal, requestId, piece));
      if plan.bodySize == |body| {
        assert piece == body && rest.1 + later == later;
      } else {
        ReceiveSent(p, s, r, tokens, requestId, body[plan.bodySize..], k + 1, e.sequenceNumber, acc + piece, later);
        assert acc + piece + body[plan.bodySize..] == acc + body;
      }
    }
  }

  lemma ReceiveStep(p: Policy, r: Receiver, tokens: Tokens, chunk: seq<byte>, others: seq<seq<byte>>, k: nat,
      acc: seq<byte>, piece: Piece)
    requires Sound(p) && ReadChunk(p, r.side, r.channelId, tokens(k), chunk) == Ok(piece)
    requires !TooManyChunks(r.side, r.maxChunkCount, k + 1) && |chunk| <= r.room
    requires r.maxMessageSize == 0 || |acc| + |piece.body| <= r.maxMessageSize
    ensures ReceiveFrom(p, r, tokens, [chunk] + others, k, acc) ==
            if piece.isFinal then Ok(Message(piece.requestId, acc + piece.body, others))
            else ReceiveFrom(p, r, tokens, others, k + 1, acc + piece.body)
  {
    hide ReadChunk;
    assert ([chunk] + others)[1..] == others;
  }

  /**
   * A message whose sending succeeds is read back exactly, with its request id, without eating into the chunks
   * behind it and without being refused for its size or its number of chunks.
   */
  lemma MessageRoundTrip(p: Policy, s: Sender, r: Receiver, tokens: Tokens, requestId: u32,
      body: seq<byte>, last: u32, later: seq<seq<byte>>)
    requires Sound(p) && body != [] && SameLimits(s, r)
    ensures Ends(p, s) ==>
              var (status, wire) := Send(p, s, tokens, requestId, body, last);
              status == Good ==>
                ReceiveFrom(p, r, tokens, wire + later, 0, []) == Ok(Message(requestId, body, later))
  {
    hide SendFrom, ReceiveFrom, MaxBodySize;
    if Ends(p, s) && Send(p, s, tokens, requestId, body, last).0 == Good {
      OnlyWithRoom(p, s, tokens, requestId, body, 0, last);
      ReceiveSent(p, s, r, tokens, requestId, body, 0, last, [], later);
      assert [] + body == body;
    }
  }

  /** Every chunk fits the negotiated buffer, and exactly the last one is marked final. */
  lemma {:induction false} SentShape(p: Policy, s: Sender, tokens: Tokens, requestId: u32, body: seq<byte>, k: nat,
                                     last: u32)
    requires Sound(p)
    ensures Ends(p, s) ==>
              var (status, wire) := SendFrom(p, s, tokens, requestId, body, k, last);
              status == Good ==>
                && (wire == [] <==> body == [])
                && forall j :: 0 <= j < |wire| ==>
                     && HEADER <= |wire[j]| <= s.bufferSize
                     && GetU32(wire[j]) == if j == |wire| - 1 then TYPE_FINAL else TYPE_CHUNK
    decreases |body|
  {
    hide WireChunk, Sound, PlanFor, PlanChunk, MaxBodySize, GetU32, SendFrom;
    HasBlocks(p);
    if Ends(p, s) && SendFrom(p, s, tokens, requestId, body, k, last).0 == Good {
      SendStop(p, s, tokens, requestId, body, k, last);
      if body != [] {
        OnlyWithRoom(p, s, tokens, requestId, body, k, last);
        SendGood(p, s, tokens, requestId, body, k, last);
        var plan, e, rest := SendStep(p, s, tokens, requestId, body, k, last);
        var piece := body[..plan.bodySize];
        var chunk := WireChunk(p, tokens(k).keys, plan, e, piece);
        WireHeader(p, tokens(k).keys, plan, e, piece);
        SentShape(p, s, tokens, requestId, body[plan.bodySize..], k + 1, e.sequenceNumber);
        var wire := [chunk] + rest.1;
        assert forall j :: 1 <= j < |wire| ==> wire[j] == rest.1[j - 1];
      }
    }
  }

  // ------------------------------------------------------------------ the program

  /** The part of the send loop that builds one chunk in the send buffer and hands it to the transport. */
  method BuildChunk(side: Side, p: Policy, keys: Keys, plan: Plan, e: Envelope, piece: seq<byte>, w: Writer)
      returns (status: Status, wire: seq<byte>)
    requires Sound(p) && PlanFor(p, plan, |piece|)
    requires w.Valid() && w.i == 0 && plan.chunkSize <= w.s.Length
    modifies w, w.s
    ensures status == Good && wire == WireChunk(p, keys, plan, e, piece)
  {
    SignedSize(p, keys, plan, e, piece);
    WritePlain(p, plan, e, piece, w);
    ghost var plain := PlainChunk(plan, e, piece);
    hide PlainChunk;
    // sign
    if p.mode != None {
      var signature := p.mac(keys, w.s[..w.i]);
      var n, short := w.Write(signature);
      assert signature[..n] == signature;
      if side == ServerSide && short {
        return ShortWrite, [];
      }
    }
    assert w.Written() == Signed(p, keys, plain);
    // encrypt
    if p.mode == SignAndEncrypt {
      var span := w.s[HEADER..w.i];
      if |span| % p.block != 0 {
        return if side == ServerSide then PartialBlocks else BadEncodingError, [];
      }
      assert span == Signed(p, keys, plain)[HEADER..];
      w.Overwrite(HEADER, p.encrypt(keys, span));
    }
    return Good, w.s[..w.i];
  }

  /** Header, sequence header, body and padding. */
  method WritePlain(p: Policy, plan: Plan, e: Envelope, piece: seq<byte>, w: Writer)
    requires Sound(p) && PlanFor(p, plan, |piece|)
    requires w.Valid() && w.i == 0 && plan.chunkSize <= w.s.Length
    modifies w, w.s
    ensures w.Valid() && w.Written() == PlainChunk(plan, e, piece)
  {
    WriteHeaders(e, plan.chunkSize, w);
    w.Put(piece);
    if p.mode == SignAndEncrypt {
      WritePadding(plan, w);
    } else {
      assert Padding(plan.paddingSize, plan.paddingHeaderSize) == [];
    }
  }

  method WriteHeaders(e: Envelope, chunkSize: nat, w: Writer)
    requires w.Valid() && w.i == 0 && HEADER + SEQUENCE_HEADER <= w.s.Length
    modifies w, w.s
    ensures w.Valid() && w.i == HEADER + SEQUENCE_HEADER
    ensures w.Written() == Header(e, chunkSize) + SequenceHeader(e)
  {
    hide PutU32;
    w.Put(PutU32(if e.isFinal then TYPE_FINAL else TYPE_CHUNK));
    w.Put(PutU32(chunkSize));
    w.Put(PutU32(e.channelId));
    w.Put(PutU32(e.tokenId));
    assert w.Written() == Header(e, chunkSize);
    w.Put(PutU32(e.sequenceNumber));
    w.Put(PutU32(e.requestId));
  }

  method WritePadding(plan: Plan, w: Writer)
    requires 1 <= plan.paddingHeaderSize <= 2
    requires w.Valid() && w.i + plan.paddingSize + plan.paddingHeaderSize <= w.s.Length
    modifies w, w.s
    ensures w.Valid() && w.Written() == old(w.Written()) + Padding(plan.paddingSize, plan.paddingHeaderSize)
  {
    var paddingByte := plan.paddingSize % 256;
    w.Put([paddingByte]);
    for i := 0 to plan.paddingSize
      invariant w.Valid() && w.i == old(w.i) + 1 + i
      invariant w.Written() == old(w.Written()) + Repeat(paddingByte, 1 + i)
    {
      w.Put([paddingByte]);
    }
    if plan.paddingHeaderSize == 2 {
      w.Put([plan.paddingSize / 256 % 256]);
    }
  }

  /** The same statements when the plan leaves nothing for the body: writes may be cut off at the end of the buffer. */
  method BuildEmptyChunk(side: Side, p: Policy, keys: Keys, plan: Plan, e: Envelope, w: Writer)
      returns (status: Status, wire: seq<byte>)
    requires Sound(p) && plan.chunkSize >= 0 && plan.paddingSize == 0
    requires plan.paddingHeaderSize == PaddingHeaderSize(p) && w.Valid() && w.i == 0
    modifies w, w.s
    ensures status == EmptyStatus(side, p, w.s.Length)
    ensures status == Good ==>
              && (p.mode == SignAndEncrypt ==> |EmptySigned(p, w.s.Length, keys, plan, e)| >= HEADER)
              && wire == EmptyChunk(p, w.s.Length, keys, plan, e)
  {
    hide PutU32;
    EmptySignedSize(p, w.s.Length, keys, plan, e);
    WriteEmptyHeader(plan.chunkSize, e, w);
    if side == ServerSide && w.i != HEADER {
      return BadEncodingError, [];
    }
    WriteEmptyRest(p, plan, e, w);
    EmptyPlainSize(p, plan, e);
    hide PlainChunk;
    if p.mode != None {
      var signature := p.mac(keys, w.s[..w.i]);
      var _, short := w.Write(signature);
      if side == ServerSide && short {
        return ShortWrite, [];
      }
    }
    assert w.Written() == EmptySigned(p, w.s.Length, keys, plan, e);
    hide EmptySigned;
    if p.mode == SignAndEncrypt {
      if w.i < HEADER {
        return SliceOutOfRange, [];
      }
      var span := w.s[HEADER..w.i];
      if |span| % p.block != 0 {
        return if side == ServerSide then PartialBlocks else BadEncodingError, [];
      }
      assert span == EmptySigned(p, w.s.Length, keys, plan, e)[HEADER..];
      w.Overwrite(HEADER, p.encrypt(keys, span));
    }
    return Good, w.s[..w.i];
  }

  lemma EmptyPlainSize(p: Policy, plan: Plan, e: Envelope)
    requires plan.chunkSize >= 0 && plan.paddingSize == 0 && plan.paddingHeaderSize == PaddingHeaderSize(p)
    ensures |PlainChunk(plan, e, [])| == EmptySize(p) - p.signatureSize
  {
    hide Header, SequenceHeader;
  }

  /** Sequence header and padding behind the header. */
  method WriteEmptyRest(p: Policy, plan: Plan, e: Envelope, w: Writer)
    requires plan.chunkSize >= 0 && plan.paddingSize == 0 && plan.paddingHeaderSize == PaddingHeaderSize(p)
    requires w.Valid() && w.Written() == Fit(Header(e, plan.chunkSize), w.s.Length)
    modifies w, w.s
    ensures w.Valid() && w.Written() == Fit(PlainChunk(plan, e, []), w.s.Length)
  {
    hide PutU32, Fit, Header;
    ghost var h, q := Header(e, plan.chunkSize), PutU32(e.sequenceNumber);
    w.WriteBehind(h, PutU32(e.sequenceNumber));
    w.WriteBehind(h + q, PutU32(e.requestId));
    ghost var head := h + SequenceHeader(e);
    assert h + q + PutU32(e.requestId) == head && head + [] == head;
    hide SequenceHeader;
    if p.mode == SignAndEncrypt {
      w.WriteBehind(head, [0]);
      if plan.paddingHeaderSize == 2 {
        w.WriteBehind(head + [0], [0]);
        assert head + [0] + [0] == head + [] + Padding(0, 2);
      } else {
        assert head + [0] == head + [] + Padding(0, 1);
      }
    } else {
      assert head == head + [] + Padding(0, 0);
    }
  }

  method WriteEmptyHeader(chunkSize: nat, e: Envelope, w: Writer)
    requires w.Valid() && w.i == 0
    modifies w, w.s
    ensures w.Valid() && w.Written() == Fit(Header(e, chunkSize), w.s.Length)
  {
    hide PutU32, Fit;
    ghost var t := PutU32(if e.isFinal then TYPE_FINAL else TYPE_CHUNK);
    ghost var n, c := PutU32(chunkSize), PutU32(e.channelId);
    NothingFits(w);
    w.WriteBehind([], PutU32(if e.isFinal then TYPE_FINAL else TYPE_CHUNK));
    assert [] + t == t;
    w.WriteBehind(t, PutU32(chunkSize));
    w.WriteBehind(t + n, PutU32(e.channelId));
    w.WriteBehind(t + n + c, PutU32(e.tokenId));
  }

  lemma NothingFits(w: Writer)
    requires w.Valid() && w.i == 0
    ensures w.Written() == Fit([], w.s.Length)
  {
  }

  /** The next chunk of `left`, which takes `piece` bytes of it; `rest` is what remains to be sent. */
  method BuildNext(p: Policy, s: Sender, tokens: Tokens, k: nat, e: Envelope, left: seq<byte>, bodyCount: nat,
                   stream: Writer, ghost last: u32)
    returns (built: Status, chunk: seq<byte>, piece: nat, ghost rest: (Status, seq<seq<byte>>))
    requires Sound(p) && Ends(p, s) && left != [] && bodyCount > 0 && (s.maxChunkCount > 0 ==> k + 1 <= s.maxChunkCount)
    requires MaxBodySize(p, s.bufferSize) > 0 ==> bodyCount == |left|
    requires e == Envelope(bodyCount <= PlanChunk(p, s.bufferSize, bodyCount).bodySize, s.channelId, tokens(k).id,
                           NextSequenceNumber(last), e.requestId)
    requires stream.Valid() && stream.i == 0 && s.bufferSize <= s.room == stream.s.Length
    modifies stream, stream.s
    ensures piece <= |left|
    ensures var plan := PlanChunk(p, s.bufferSize, bodyCount);
            if MaxBodySize(p, s.bufferSize) > 0 then 0 < piece == plan.bodySize
            else piece == 0 && plan.bodySize <= 0 && (built == Good ==> s.maxChunkCount > 0)
    ensures rest == SendFrom(p, s, tokens, e.requestId, left[piece..], k + 1, e.sequenceNumber)
    ensures SendFrom(p, s, tokens, e.requestId, left, k, last)
            == if built == Good then (rest.0, [chunk] + rest.1) else (built, [])
  {
    hide WireChunk, EmptyChunk, EmptySigned, PlanFor, PlanChunk, SendFrom, Sound, MaxBodySize, EmptyStatus, EmptySize;
    HasBlocks(p);
    var plan := PlanChunk(p, s.bufferSize, bodyCount);
    if MaxBodySize(p, s.bufferSize) > 0 {
      ghost var _, _, after := SendStep(p, s, tokens, e.requestId, left, k, last);
      piece := plan.bodySize;
      built, chunk := BuildChunk(s.side, p, tokens(k).keys, plan, e, left[..piece], stream);
    } else {
      EmptyPlan(p, s.bufferSize, bodyCount);
      EmptyPlan(p, s.bufferSize, |left|);
      EmptyStep(p, s, tokens, e.requestId, left, k, last);
      piece := 0;
      assert left[0..] == left;
      built, chunk := BuildEmptyChunk(s.side, p, tokens(k).keys, plan, e, stream);
    }
    rest := SendFrom(p, s, tokens, e.requestId, left[piece..], k + 1, e.sequenceNumber);
  }

  /** `sendServiceRequest` and `sendServiceResponse` behind the encoding of the body, whenever their loop ends. */
  method SendMessage(p: Policy, s: Sender, tokens: Tokens, requestId: u32, body: seq<byte>, last: u32,
      sendBuffer: array<byte>) returns (status: Status, wire: seq<seq<byte>>)
    requires Sound(p) && Ends(p, s) && s.bufferSize <= s.room == sendBuffer.Length
    modifies sendBuffer
    ensures (status, wire) == Send(p, s, tokens, requestId, body, last)
  {
    hide WireChunk, EmptyChunk, EmptySigned, PlanFor, PlanChunk, SendFrom, Sound, MaxBodySize, EmptyStatus, EmptySize;
    HasBlocks(p);
    wire := [];
    if s.maxMessageSize > 0 && |body| > s.maxMessageSize {
      return BadTooLarge, wire;
    }
    var chunkCount := 0;
    var bodyCount: int := |body|;
    var at := 0; // the read position of the body stream
    var sequenceNumber := last;
    ghost var all := SendFrom(p, s, tokens, requestId, body, 0, last);
    assert body[0..] == body && wire + all.1 == all.1;
    while bodyCount > 0
      invariant 0 <= at <= |body|
      invariant if MaxBodySize(p, s.bufferSize) > 0 then bodyCount == |body| - at
                else at == 0 && (bodyCount > 0 <==> body != [])
      invariant var left := SendFrom(p, s, tokens, requestId, body[at..], chunkCount, sequenceNumber);
                all == (left.0, wire + left.1)
      decreases |body| - at, s.maxChunkCount - chunkCount
    {
      SendStop(p, s, tokens, requestId, body[at..], chunkCount, sequenceNumber);
      chunkCount := chunkCount + 1;
      if s.maxChunkCount > 0 && chunkCount > s.maxChunkCount {
        assert wire + [] == wire;
        return BadTooLarge, wire;
      }
      var plan := PlanChunk(p, s.bufferSize, bodyCount);
      var stream := new Writer(sendBuffer);
      ghost var previous := sequenceNumber;
      sequenceNumber := NextSequenceNumber(sequenceNumber);
      var e := Envelope(!(bodyCount > plan.bodySize), s.channelId, tokens(chunkCount - 1).id,
                        sequenceNumber, requestId);
      ghost var rest;
      var built, chunk, piece;
      built, chunk, piece, rest := BuildNext(p, s, tokens, chunkCount - 1, e, body[at..], bodyCount, stream, previous);
      if built != Good {
        assert wire + [] == wire;
        return built, wire;
      }
      assert body[at + piece..] == body[at..][piece..];
      assert wire + ([chunk] + rest.1) == (wire + [chunk]) + rest.1;
      at := at + piece;
      bodyCount := bodyCount - plan.bodySize;
      wire := wire + [chunk];
    }
    SendStop(p, s, tokens, requestId, [], chunkCount, sequenceNumber);
    assert body[|body|..] == [] && wire + [] == wire;
    status := Good;
  }

  /** One unfolding of `SendFrom` when nothing of the body fits. */
  lemma EmptyStep(p: Policy, s: Sender, tokens: Tokens, requestId: u32, body: seq<byte>, k: nat, last: u32)
    requires Sound(p) && Ends(p, s) && MaxBodySize(p, s.bufferSize) <= 0 && body != []
    requires s.maxChunkCount == 0 || k + 1 <= s.maxChunkCount
    ensures EmptyStatus(s.side, p, s.room) != Good ==>
              SendFrom(p, s, tokens, requestId, body, k, last) == (EmptyStatus(s.side, p, s.room), [])
    ensures EmptyStatus(s.side, p, s.room) == Good ==>
              var plan := PlanChunk(p, s.bufferSize, |body|);
              var e := Envelope(false, s.channelId, tokens(k).id, NextSequenceNumber(last), requestId);
              var rest := SendFrom(p, s, tokens, requestId, body, k + 1, NextSequenceNumber(last));
              && s.maxChunkCount > 0 && plan.chunkSize >= 0
              && (p.mode == SignAndEncrypt ==> |EmptySigned(p, s.room, tokens(k).keys, plan, e)| >= HEADER)
              && SendFrom(p, s, tokens, requestId, body, k, last)
                 == (rest.0, [EmptyChunk(p, s.room, tokens(k).keys, plan, e)] + rest.1)
  {
    EmptyPlan(p, s.bufferSize, |body|);
    hide MaxBodySize, PlanChunk, EmptySigned;
    if EmptyStatus(s.side, p, s.room) == Good {
      EmptySignedSize(p, s.room, tokens(k).keys, PlanChunk(p, s.bufferSize, |body|),
                      Envelope(false, s.channelId, tokens(k).id, NextSequenceNumber(last), requestId));
    }
  }

  // ------------------------------------------------------------------ when the send loop ends

  /** The two counters of the send loop, or how it ended. */
  datatype Progress = Going(bodyCount: int, chunkCount: nat) | Ended(status: Status)

  function Turn(p: Policy, s: Sender, x: Progress): (r: Progress)
    requires p.block > 0
  {
    if x.Ended? then x
    else if x.bodyCount <= 0 then Ended(Good)
    else if s.maxChunkCount > 0 && x.chunkCount + 1 > s.maxChunkCount then Ended(BadTooLarge)
    else
      var plan := PlanChunk(p, s.bufferSize, x.bodyCount);
      if plan.bodySize <= 0 && EmptyStatus(s.side, p, s.room) != Good then Ended(EmptyStatus(s.side, p, s.room))
      else Going(x.bodyCount - plan.bodySize, x.chunkCount + 1)
  }

  function Turns(p: Policy, s: Sender, x: Progress, t: nat): (r: Progress)
    requires p.block > 0
    decreases t
  {
    if t == 0 then x else Turns(p, s, Turn(p, s, x), t - 1)
  }

  /** Where it ends, the loop ends as `SendFrom` says; `n` is the body counter, which grows while nothing is sent. */
  lemma {:induction false} EndsAsSent(p: Policy, s: Sender, tokens: Tokens, requestId: u32, body: seq<byte>, k: nat,
                                      last: u32, n: nat)
      returns (t: nat)
    requires Sound(p) && Ends(p, s)
    requires MaxBodySize(p, s.bufferSize) > 0 ==> n == |body|
    requires n > 0 <==> body != []
    ensures Turns(p, s, Going(n, k), t) == Ended(SendFrom(p, s, tokens, requestId, body, k, last).0)
    decreases |body|, if k < s.maxChunkCount then s.maxChunkCount - k else 0
  {
    hide MaxBodySize, PlanChunk, EmptyStatus, EmptySigned, EmptyChunk, WireChunk, Sound, SendFrom, PlanFor;
    HasBlocks(p);
    SendStop(p, s, tokens, requestId, body, k, last);
    var x := Going(n, k);
    if n == 0 || (s.maxChunkCount > 0 && k + 1 > s.maxChunkCount) {
      t := 1;
      assert Turns(p, s, Turn(p, s, x), 0) == Turn(p, s, x);
    } else if MaxBodySize(p, s.bufferSize) > 0 {
      var plan, e, rest := SendStep(p, s, tokens, requestId, body, k, last);
      var u := EndsAsSent(p, s, tokens, requestId, body[plan.bodySize..], k + 1, e.sequenceNumber, n - plan.bodySize);
      t := u + 1;
    } else {
      EmptyPlan(p, s.bufferSize, n);
      EmptyStep(p, s, tokens, requestId, body, k, last);
      if EmptyStatus(s.side, p, s.room) != Good {
        t := 1;
        assert Turns(p, s, Turn(p, s, x), 0) == Turn(p, s, x);
      } else {
        var u := EndsAsSent(p, s, tokens, requestId, body, k + 1, NextSequenceNumber(last),
                            n - MaxBodySize(p, s.bufferSize));
        t := u + 1;
      }
    }
  }

  lemma {:induction false} NeverEnds(p: Policy, s: Sender, n: int, k: nat, t: nat)
    requires p.block > 0 && !Ends(p, s) && n > 0
    ensures Turns(p, s, Going(n, k), t).Going?
    decreases t
  {
    hide MaxBodySize, PlanChunk, EmptyStatus;
    if t > 0 {
      EmptyPlan(p, s.bufferSize, n);
      NeverEnds(p, s, n - MaxBodySize(p, s.bufferSize), k + 1, t - 1);
    }
  }

  /**
   * The send loop ends, for a body of any length, exactly when the buffer leaves room for a body, the number of
   * chunks is limited, or the first chunk cannot be built.
   */
  lemma SendEndsIff(p: Policy, s: Sender, n: nat)
    requires Sound(p) && n > 0
    ensures (exists t: nat :: Turns(p, s, Going(n, 0), t).Ended?) <==> Ends(p, s)
  {
    hide MaxBodySize, EmptyStatus, Turns;
    HasBlocks(p);
    if Ends(p, s) {
      var t := EndsAsSent(p, s, _ => Token(0, Keys([], [], [])), 0, Repeat(0, n), 0, 0, n);
    } else {
      forall t: nat
        ensures !Turns(p, s, Going(n, 0), t).Ended?
      {
        NeverEnds(p, s, n, 0, t);
      }
    }
  }

  /** The smallest buffer that leaves room for a body. */
  function LeastBuffer(p: Policy): (n: nat)
    requires p.block > 0
  {
    if p.mode == SignAndEncrypt then HEADER + p.block * ((EmptySize(p) - HEADER) / p.block + 1)
    else EmptySize(p) + 1
  }

  lemma RoomIff(p: Policy, bufferSize: nat)
    requires p.block > 0
    ensures MaxBodySize(p, bufferSize) > 0 <==> bufferSize >= LeastBuffer(p)
  {
    if p.mode == SignAndEncrypt {
      BlocksBeyond(bufferSize - HEADER, EmptySize(p) - HEADER, p.block);
    }
  }

  lemma BlocksBeyond(a: int, n: int, b: int)
    requires b > 0 && n >= 0
    ensures Quot(a, b) * b > n <==> a >= b * (n / b + 1)
  {
    if a >= 0 {
      BeyondOf(a, n, b, a / b, n / b, a % b, n % b);
    } else {
      BelowZero(a, n, b, -a / b, n / b);
    }
  }

  lemma BelowZero(a: int, n: int, b: int, x: int, m: int)
    requires a < 0 <= n && b > 0 && x == -a / b && m == n / b
    ensures !(-x * b > n) && !(a >= b * (m + 1))
  {
    assert x >= 0 && m >= 0;
    TimesSign(x, b);
    MulSign(b, m + 1);
  }

  lemma BeyondOf(a: int, n: int, b: int, q: int, m: int, r: int, s: int)
    requires b > 0 && q == a / b && m == n / b && r == a % b && s == n % b
    ensures q * b > n <==> a >= b * (m + 1)
  {
    DivMod(a, b);
    DivMod(n, b);
    hide *;
    Beyond(q, m, r, s, b);
  }

  lemma Beyond(q: int, m: int, r: int, s: int, b: int)
    requires 0 <= r < b && 0 <= s < b
    ensures q * b > b * m + s <==> b * q + r >= b * (m + 1)
  {
    MulSign(b, q - m);
    MulSign(b, m + 1 - q);
    assert b * (q - m) == b * q - b * m;
    assert b * (m + 1 - q) == b * m + b - b * q;
    assert b * (m + 1) == b * m + b;
  }

  /**
   * `readRequest`: chunks are read from the transport into the receive buffer, and worked on there, until one is
   * marked final.
   */
  method ReadRequest(p: Policy, r: Receiver, tokens: Tokens, chunks: seq<seq<byte>>, receiveBuffer: array<byte>)
      returns (res: Result<Message>)
    requires Sound(p) && receiveBuffer.Length == r.room
    modifies receiveBuffer
    ensures res == ReceiveFrom(p, r, tokens, chunks, 0, [])
  {
    hide ReadChunk, TooManyChunks, Sound;
    HasBlocks(p);
    var bodyStream: seq<byte> := [];
    var id: u32 := 0;
    var chunkCount := 0;
    var input := chunks;
    var isFinal := false;
    while !isFinal
      invariant isFinal ==> ReceiveFrom(p, r, tokens, chunks, 0, []) == Ok(Message(id, bodyStream, input))
      invariant !isFinal ==>
        ReceiveFrom(p, r, tokens, chunks, 0, []) == ReceiveFrom(p, r, tokens, input, chunkCount, bodyStream)
      decreases |input|, !isFinal
    {
      chunkCount := chunkCount + 1;
      if TooManyChunks(r.side, r.maxChunkCount, chunkCount) {
        return Err(BadTooLarge);
      }
      if input == [] || |input[0]| > receiveBuffer.Length {
        return Err(BadSecureChannelClosed);
      }
      var count := |input[0]|;
      Receive(input[0], receiveBuffer);
      var one := ReadRequestChunk(p, r.side, r.channelId, tokens(chunkCount - 1), receiveBuffer, count);
      if one.Err? {
        return Err(one.error);
      }
      input := input[1..];
      id := one.value.requestId;
      bodyStream := bodyStream + one.value.body;
      isFinal := one.value.isFinal;
      if r.maxMessageSize > 0 && |bodyStream| > r.maxMessageSize {
        return Err(BadTooLarge);
      }
    }
    return Ok(Message(id, bodyStream, input));
  }

  /** A chunk arrives at the start of the receive buffer. */
  method Receive(chunk: seq<byte>, receiveBuffer: array<byte>)
    requires |chunk| <= receiveBuffer.Length
    modifies receiveBuffer
    ensures receiveBuffer[..|chunk|] == chunk
  {
    for i := 0 to |chunk|
      invariant forall j :: 0 <= j < i ==> receiveBuffer[j] == chunk[j]
    {
      receiveBuffer[i] := chunk[i];
    }
  }

  /** The body of the receive loop for the symmetric chunk in the first `count` bytes, which are decrypted in place. */
  method ReadRequestChunk(p: Policy, side: Side, channelId: u32, token: Token, receiveBuffer: array<byte>, count: nat)
      returns (r: Result<Piece>)
    requires Sound(p) && count <= receiveBuffer.Length
    modifies receiveBuffer
    ensures r == ReadChunk(p, side, channelId, token, old(receiveBuffer[..count]))
  {
    hide GetU32, ReadPlain;
    ghost var received := receiveBuffer[..count];
    if count < 8 {
      return Err(BadDecodingError);
    }
    var messageType, messageLength := GetU32(receiveBuffer[..count]), GetU32(receiveBuffer[..count][4..]);
    if count != messageLength {
      return Err(BadDecodingError);
    }
    if !KnownType(side, messageType) {
      return Err(BadUnknownType);
    }
    if count < 12 {
      return Err(BadDecodingError);
    }
    if GetU32(receiveBuffer[..count][8..]) != channelId {
      return Err(BadSecureChannelUnknown);
    }
    if count < HEADER {
      return Err(BadDecodingError);
    }
    if GetU32(receiveBuffer[..count][12..]) != token.id {
      return Err(BadTokenUnknown);
    }
    if p.mode == SignAndEncrypt {
      var span := receiveBuffer[HEADER..count];
      assert span == received[HEADER..];
      if |span| % p.block != 0 {
        return Err(BadDecodingError);
      }
      Overwrite(receiveBuffer, HEADER, p.decrypt(token.keys, span));
      assert receiveBuffer[..count] == Decrypted(p, token.keys, received);
    }
    var piece := ReadPlain(p, token.keys, receiveBuffer[..count]);
    if piece.Err? {
      return Err(piece.error);
    }
    return Ok(Piece(messageType != TYPE_CHUNK, piece.value.0, piece.value.1));
  }

  method Overwrite(buffer: array<byte>, at: nat, x: seq<byte>)
    requires at + |x| <= buffer.Length
    modifies buffer
    ensures buffer[..] == old(buffer[..at]) + x + old(buffer[at + |x|..])
  {
    for i := 0 to |x|
      invariant forall j :: 0 <= j < buffer.Length ==>
                  buffer[j] == if at <= j < at + i then x[j - at] else old(buffer[j])
    {
      buffer[at + i] := x[i];
    }
  }
}
