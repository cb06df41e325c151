/** Which OpenSecureChannel chunks the receiver accepts, whoever sent them, and what it takes from them. */
module OpenReception {
  import opened Arith
  import opened Bytes
  import opened Options
  import C = Chunks
  import opened OpenChannel

  /**
   * A length-prefixed field is absent when the highest bit of its length is set, and then nothing follows the length;
   * otherwise it is the bytes that the length counts, which have to be there.
   */
  lemma FieldIff(buf: seq<byte>, i: nat, count: nat, end: nat)
    requires count <= |buf|
    ensures FieldEnd(buf, i, count) == Some(end) <==>
              && i + 4 <= count
              && if buf[i + 3] >= 0x80 then end == i + 4 else end == i + 4 + GetU32(buf[i..]) && end <= count
    ensures i + 4 <= end <= |buf| ==>
              Field(buf, i, end) == if buf[i + 3] >= 0x80 then None else Some(buf[i + 4..end])
  {
    if i + 4 <= |buf| {
      assert GetU32(buf[i..]) >= 0x8000_0000 <==> buf[i..][3] >= 0x80;
    }
  }

  /** A body is sent exactly if it is within the limit and one chunk carries all of it. */
  lemma SendStatusIff(c: Channel, size: nat)
    requires c.rsa.keySize > 0 && PlainBlock(c.rsa) > 0
    ensures var fits := c.maxMessageSize == 0 || size <= c.maxMessageSize;
            && (SendStatus(c, size) == C.BadTooLarge <==> !fits)
            && (SendStatus(c, size) == C.Good <==> fits && PlanChunk(c, size).bodySize == size)
            && SendStatus(c, size) in {C.Good, C.BadTooLarge, C.BadEncodingError}
  {
    hide MaxBodySize;
  }

  /** The chunk with everything behind its header decrypted, cut off at the end of the receive buffer. */
  function Decrypted(secure: bool, k: Rsa, buf: seq<byte>, count: nat, h: nat): (r: Option<seq<byte>>)
    requires k.keySize > 0 && h <= count <= |buf|
  {
    if !secure then Some(buf[..count])
    else
      match DecryptFrom(k, buf, h, count, Repeat(0, k.keySize))
      case None => None
      case Some(plain) => Some(buf[..h] + Fit(plain, |buf| - h))
  }

  /** The last bytes are the signature of all bytes before them. */
  predicate Verified(secure: bool, k: Rsa, plain: seq<byte>)
  {
    secure ==>
      var n := |plain| - k.signatureSize;
      n >= 0 && k.verify(plain[..n], plain[n..])
  }

  /** The size of what stands behind the body, as far as it is fixed: the padding size and the signature. */
  function Fixed(secure: bool, k: Rsa): (n: nat)
  {
    if !secure then 0 else k.signatureSize + if k.keySize > 256 then 2 else 1
  }

  /** Padding, its size, and the signature. */
  function Trailer(secure: bool, k: Rsa, plain: seq<byte>): (n: nat)
    requires |plain| >= Fixed(secure, k)
  {
    var at := |plain| - Fixed(secure, k);
    if !secure then 0
    else if k.keySize > 256 then plain[at] + 0x100 * plain[at + 1] + Fixed(secure, k)
    else plain[at] + Fixed(secure, k)
  }

  lemma PlainAccepted(secure: bool, k: Rsa, plain: seq<byte>, h: nat, sent: nat)
    ensures var r := ReadPlain(secure, k, plain, h, sent);
            var m := h + C.SEQUENCE_HEADER;
            && (r.Ok? <==>
                && Verified(secure, k, plain) && sent >= C.SEQUENCE_HEADER && |plain| >= Fixed(secure, k)
                && m + Trailer(secure, k, plain) <= |plain|)
            && (r.Ok? ==> r.value == (GetU32(plain[h + 4..]), plain[m..|plain| - Trailer(secure, k, plain)]))
            && (|plain| >= k.signatureSize && !Verified(secure, k, plain) ==> r == C.Err(C.BadDecodingError))
  {
    hide GetU32;
  }

  /**
   * A chunk is accepted exactly when its length and header can be read, its blocks can be decrypted, its signature
   * verifies, and a body is left; request id and body are then what stands in the decrypted chunk.
   */
  lemma OpenAcceptedIff(secure: bool, k: Rsa, buf: seq<byte>, count: nat)
    requires k.keySize > 0 && count <= |buf|
    ensures var r := ReadOpen(secure, k, buf, count);
            var header := ReadHeader(buf, count);
            if !(count >= 12 && GetU32(buf[4..]) == count && header.Some?) then r == C.Err(C.BadDecodingError)
            else
              var h := header.value.end;
              var m := h + C.SEQUENCE_HEADER;
              var text := Decrypted(secure, k, buf, count, h);
              if text.None? then r == C.Err(C.BadDecodingError)
              else
                var plain := text.value;
                && (r.Ok? <==>
                    && Verified(secure, k, plain) && count >= m && |plain| >= Fixed(secure, k)
                    && m + Trailer(secure, k, plain) <= |plain|)
                && (r.Ok? ==>
                    r.value == Opening(header.value, GetU32(plain[h + 4..]),
                                       plain[m..|plain| - Trailer(secure, k, plain)]))
                && (|plain| >= k.signatureSize && !Verified(secure, k, plain) ==> r == C.Err(C.BadDecodingError))
  {
    hide ReadHeader, DecryptFrom, GetU32, ReadPlain, Trailer, Verified, Fixed, Fit, Repeat;
    if count >= 12 && ReadHeader(buf, count).Some? {
      var h := ReadHeader(buf, count).value.end;
      var text := Decrypted(secure, k, buf, count, h);
      if text.Some? {
        PlainAccepted(secure, k, text.value, h, count - h);
      }
    }
  }

  /** What the sender puts first behind the header is its sequence number. */
  lemma OpenCarries(c: Channel, sequenceNumber: u32, requestId: u32, body: seq<byte>, behind: seq<byte>)
    requires WellFormed(c) && 0 < |body| <= MaxBodySize(c)
    ensures PlanChunk(c, |body|).chunkSize >= 0 && c.rsa.keySize > 0
    ensures var wire := Wire(c, sequenceNumber, requestId, body);
            var h := HeaderSize(c);
            && h <= |wire|
            && var text := Decrypted(c.secure, c.rsa, wire + behind, |wire|, h);
               && text.Some? && |text.value| >= h + 8
               && GetU32(text.value[h..]) == sequenceNumber && GetU32(text.value[h + 4..]) == requestId
  {
    hide Sound, PlanChunk, MaxBodySize, Header, PlainSize, Signed, Wire, DecryptFrom, EncryptBlocks, GetU32, PutU32;
    RsaSizes(c.rsa);
    PlanFits(c, |body|);
    var plan := PlanChunk(c, |body|);
    var h := plan.headerSize;
    var plain := Plain(c, plan, sequenceNumber, requestId, body);
    var signed := Signed(c, plain);
    WireParts(c, sequenceNumber, requestId, body, plan, signed);
    SignedParts(c, plan, sequenceNumber, requestId, body, signed);
    var wire := Wire(c, sequenceNumber, requestId, body);
    var buf := wire + behind;
    assert buf[..h] == wire[..h] && buf[..|wire|] == wire;
    if c.secure {
      var blocks := PlainSize(c, plan) / PlainBlock(c.rsa);
      DivMod(PlainSize(c, plan), PlainBlock(c.rsa));
      assert buf[h..|wire|] == wire[h..];
      DecryptEncrypted(c.rsa, signed[h..], 0, blocks, buf, h, |wire|, Repeat(0, c.rsa.keySize));
      assert signed[..h] + signed[h..] == signed;
    }
    StartsWithNumbers(c, plan, sequenceNumber, requestId, body);
  }

  lemma StartsWithNumbers(c: Channel, plan: Plan, sequenceNumber: u32, requestId: u32, body: seq<byte>)
    requires |c.thumbprint| == 20 && plan.chunkSize >= 0
    ensures var signed := Signed(c, Plain(c, plan, sequenceNumber, requestId, body));
            var h := HeaderSize(c);
            && |signed| >= h + 8
            && GetU32(signed[h..]) == sequenceNumber && GetU32(signed[h + 4..]) == requestId
  {
    hide Header, GetU32, PutU32, C.Padding;
    var plain := Plain(c, plan, sequenceNumber, requestId, body);
    var signature := if c.secure then c.rsa.sign(plain) else [];
    var rest := body + C.Padding(plan.paddingSize, plan.paddingHeaderSize) + signature;
    IdAt(Header(c, plan.chunkSize), sequenceNumber, requestId, rest);
    assert Signed(c, plain) == Header(c, plan.chunkSize) + (PutU32(sequenceNumber) + PutU32(requestId)) + rest;
  }
}
