/**
 * Exactly when a message is sent, in how many chunks, and what becomes of a chunk for which the buffer is too small.
 */
module Sending {
  import opened Arith
  import opened Bytes
  import opened Chunks
  import opened Psha

  /** The number of chunks for a body, `max` bytes in each. */
  function Needed(size: nat, max: int): (n: nat)
    requires max > 0
  {
    (size + max - 1) / max
  }

  /** It is the least that holds the body. */
  lemma NeededLeast(size: nat, max: int)
    requires max > 0
    ensures var n := Needed(size, max); n * max >= size && (n > 0 ==> (n - 1) * max < size)
  {
    var n := Needed(size, max);
    CeilDiv(size, max, n);
    if n > 0 {
      CeilDiv(size, max, n - 1);
    }
  }

  /** And no other number is. */
  lemma NeededIs(size: nat, max: int, n: nat)
    requires max > 0 && n * max >= size && (n > 0 ==> (n - 1) * max < size)
    ensures n == Needed(size, max)
  {
    var r := size + max - 1 - n * max;
    if n > 0 {
      assert (n - 1) * max == n * max - max;
    }
    DivModIs(size + max - 1, max, n, r);
  }

  lemma NeededNext(size: nat, max: int)
    requires max > 0 && size > 0
    ensures Needed(size, max) == 1 + Needed(if size < max then 0 else size - max, max)
  {
    hide Needed;
    NeededIs(0, max, 0);
    if size < max {
      NeededIs(size, max, 1);
    } else {
      var n := Needed(size - max, max);
      NeededLeast(size - max, max);
      assert (n + 1) * max == n * max + max;
      if n > 0 {
        assert (n + 1 - 1) * max == (n - 1) * max + max;
      }
      NeededIs(size, max, n + 1);
    }
  }

  lemma PieceSize(p: Policy, bufferSize: nat, n: nat)
    requires p.block > 0
    ensures var max := MaxBodySize(p, bufferSize);
            PlanChunk(p, bufferSize, n).bodySize == if n < max then n else max
  {
  }

  /** What is left of a message after `k` chunks is sent exactly if the chunks it needs are within the limit. */
  lemma {:induction false} SendFromIff(p: Policy, s: Sender, tokens: Tokens, requestId: u32, body: seq<byte>, k: nat,
                                       last: u32)
    requires Sound(p) && MaxBodySize(p, s.bufferSize) > 0
    ensures var (status, wire) := SendFrom(p, s, tokens, requestId, body, k, last);
            var n := Needed(|body|, MaxBodySize(p, s.bufferSize));
            && (status == Good <==> body == [] || s.maxChunkCount == 0 || k + n <= s.maxChunkCount)
            && (status == Good ==> |wire| == n)
            && (status != Good ==>
                status == BadTooLarge && k + |wire| == if k < s.maxChunkCount then s.maxChunkCount else k)
    decreases |body|
  {
    hide WireChunk, Sound, PlanFor, PlanChunk, MaxBodySize, SendFrom, NextSequenceNumber, Needed;
    HasBlocks(p);
    var max := MaxBodySize(p, s.bufferSize);
    SendStop(p, s, tokens, requestId, body, k, last);
    if body == [] {
      NeededIs(0, max, 0);
    } else {
      NeededNext(|body|, max);
      if s.maxChunkCount == 0 || k + 1 <= s.maxChunkCount {
        var plan, e, rest := SendStep(p, s, tokens, requestId, body, k, last);
        PieceSize(p, s.bufferSize, |body|);
        SendFromIff(p, s, tokens, requestId, body[plan.bodySize..], k + 1, e.sequenceNumber);
      }
    }
  }

  /**
   * A message is sent exactly if its size and the number of chunks it needs are within the limits, zero standing for
   * no limit. One that is too long is refused before anything is sent, one that needs too many chunks after them.
   */
  lemma SendIff(p: Policy, s: Sender, tokens: Tokens, requestId: u32, body: seq<byte>, last: u32)
    requires Sound(p) && MaxBodySize(p, s.bufferSize) > 0
    ensures var (status, wire) := Send(p, s, tokens, requestId, body, last);
            var n := Needed(|body|, MaxBodySize(p, s.bufferSize));
            var fits := s.maxMessageSize == 0 || |body| <= s.maxMessageSize;
            && (status == Good <==> fits && (s.maxChunkCount == 0 || n <= s.maxChunkCount))
            && (status == Good || status == BadTooLarge)
            && |wire| == if !fits then 0 else if status == Good then n else s.maxChunkCount
  {
    hide Sound, MaxBodySize, SendFrom, Needed;
    HasBlocks(p);
    SendFromIff(p, s, tokens, requestId, body, 0, last);
    if body == [] {
      NeededIs(0, MaxBodySize(p, s.bufferSize), 0);
    }
  }

  /** If the buffer leaves no room for a body, a message within the limit for its size fails with the chunk's status. */
  lemma StuckSendIs(p: Policy, s: Sender, tokens: Tokens, requestId: u32, body: seq<byte>, last: u32)
    requires Sound(p) && p.block > 0 && Ends(p, s) && body != [] && MaxBodySize(p, s.bufferSize) <= 0
    ensures Send(p, s, tokens, requestId, body, last).0
            == if s.maxMessageSize == 0 || |body| <= s.maxMessageSize then StuckStatus(p, s) else BadTooLarge
  {
    hide Sound, MaxBodySize, SendFrom, Ends, StuckStatus;
    StuckSends(p, s, tokens, requestId, body, 0, last);
  }

  // ------------------------------------------------------------------ chunks without room for a body

  /**
   * How building a chunk without a body ends, in terms of the signed bytes that the buffer took. The server fails if
   * the header or, in a secured mode, the signature was cut off; the client only if it cannot encrypt what is there.
   */
  lemma EmptyStatusIs(side: Side, p: Policy, room: nat, keys: Keys, plan: Plan, e: Envelope)
    requires Sound(p) && p.block > 0 && plan.chunkSize >= 0
    requires plan.paddingSize == 0 && plan.paddingHeaderSize == PaddingHeaderSize(p)
    ensures var taken := |EmptySigned(p, room, keys, plan, e)|;
            var cut := taken < |Signed(p, keys, PlainChunk(plan, e, []))|;
            var encrypts, whole := p.mode == SignAndEncrypt, (taken - HEADER) % p.block == 0;
            EmptyStatus(side, p, room)
            == match side
               case ServerSide =>
                 if taken < HEADER then BadEncodingError
                 else if cut && p.mode != None then ShortWrite
                 else if encrypts && !whole then PartialBlocks
                 else Good
               case ClientSide =>
                 if encrypts && taken < HEADER then SliceOutOfRange
                 else if encrypts && !whole then BadEncodingError
                 else Good
  {
    EmptySignedSize(p, room, keys, plan, e);
    WholeSize(p, keys, plan, e);
    hide EmptySigned, Signed, PlainChunk, Sound;
  }

  lemma WholeSize(p: Policy, keys: Keys, plan: Plan, e: Envelope)
    requires Sound(p) && plan.chunkSize >= 0 && plan.paddingSize == 0 && plan.paddingHeaderSize == PaddingHeaderSize(p)
    ensures |Signed(p, keys, PlainChunk(plan, e, []))| == EmptySize(p)
  {
    hide Header, SequenceHeader;
  }

  /** The size of the padding takes one byte, or two when the largest padding of a block does not fit one. */
  lemma PaddingWidth(p: Policy)
    requires p.block > 0
    ensures PaddingHeaderSize(p)
            == if p.mode != SignAndEncrypt then 0 else if forall n :: 0 <= n < p.block ==> InByte(n) then 1 else 2
  {
    assert InByte(p.block - 1) <==> p.block <= 256;
  }

  predicate InByte(n: nat)
  {
    n <= 0xFF
  }
}
