/**
 * What a receiver of symmetric chunks accepts, for every chunk that may arrive and not only for those of an honest
 * sender; which request ids and sequence numbers a sender puts on them.
 */
module Reception {
  import opened Arith
  import opened Bytes
  import opened Chunks
  import opened Psha

  // ------------------------------------------------------------------ one chunk

  /** The chunk starts with "MSGC" or "MSGF", or with "CLOF", by which a client closes the channel. */
  predicate Expected(side: Side, chunk: seq<byte>)
    requires |chunk| >= 4
  {
    || chunk[..4] == [0x4D, 0x53, 0x47, 0x43] || chunk[..4] == [0x4D, 0x53, 0x47, 0x46]
    || (side == ServerSide && chunk[..4] == [0x43, 0x4C, 0x4F, 0x46])
  }

  lemma ExpectedIff(side: Side, chunk: seq<byte>)
    requires |chunk| >= 4
    ensures KnownType(side, GetU32(chunk)) <==> Expected(side, chunk)
    ensures GetU32(chunk) == TYPE_CHUNK <==> chunk[..4] == [0x4D, 0x53, 0x47, 0x43]
  {
    StartsWith(chunk, TYPE_CHUNK, [0x4D, 0x53, 0x47, 0x43]);
    StartsWith(chunk, TYPE_FINAL, [0x4D, 0x53, 0x47, 0x46]);
    StartsWith(chunk, TYPE_CLOSE_FINAL, [0x43, 0x4C, 0x4F, 0x46]);
  }

  lemma StartsWith(chunk: seq<byte>, n: u32, four: seq<byte>)
    requires |chunk| >= 4 && |four| == 4 && GetU32(four) == n
    ensures GetU32(chunk) == n <==> chunk[..4] == four
  {
    var a0: int, a1: int, a2: int, a3: int := chunk[0], chunk[1], chunk[2], chunk[3];
    var b0: int, b1: int, b2: int, b3: int := four[0], four[1], four[2], four[3];
    if GetU32(chunk) == n {
      assert (a0 - b0) + 0x100 * (a1 - b1) + 0x1_0000 * (a2 - b2) + 0x100_0000 * (a3 - b3) == 0;
      assert a3 == b3 && a2 == b2 && a1 == b1 && a0 == b0;
    }
  }

  /** The chunk says its own length and is meant for this channel and token. */
  predicate Addressed(side: Side, channelId: u32, token: Token, chunk: seq<byte>)
  {
    && |chunk| >= HEADER
    && GetU32(chunk[4..]) == |chunk|
    && Expected(side, chunk)
    && GetU32(chunk[8..]) == channelId
    && GetU32(chunk[12..]) == token.id
  }

  predicate HasWholeBlocks(p: Policy, chunk: seq<byte>)
    requires p.block > 0
  {
    p.mode == SignAndEncrypt ==> (|chunk| - HEADER) % p.block == 0
  }

  /** The last bytes of the decrypted chunk are the signature of all bytes before them. */
  predicate Authentic(p: Policy, keys: Keys, chunk: seq<byte>)
    requires |chunk| >= HEADER
  {
    p.mode != None ==>
      var plain := Decrypted(p, keys, chunk);
      var n := |plain| - p.signatureSize;
      n >= 0 && plain[n..] == p.mac(keys, plain[..n])
  }

  /** What lies between the body and the end of a decrypted chunk: padding, its size, and the signature. */
  function Trailer(p: Policy, plain: seq<byte>): (n: nat)
    requires |plain| >= p.signatureSize + PaddingHeaderSize(p)
  {
    var end := |plain| - p.signatureSize;
    match PaddingHeaderSize(p)
    case 0 => p.signatureSize
    case 1 => plain[end - 1] + 1 + p.signatureSize
    case _ => plain[end - 2] + 0x100 * plain[end - 1] + 2 + p.signatureSize
  }

  lemma DecryptedSize(p: Policy, keys: Keys, chunk: seq<byte>)
    requires Sound(p) && |chunk| >= HEADER && HasWholeBlocks(p, chunk)
    ensures |Decrypted(p, keys, chunk)| == |chunk|
  {
    assert |chunk[HEADER..]| == |chunk| - HEADER;
  }

  lemma PlainAccepted(p: Policy, keys: Keys, plain: seq<byte>)
    requires |plain| >= HEADER
    ensures var r := ReadPlain(p, keys, plain);
            var m := HEADER + SEQUENCE_HEADER;
            var n := |plain| - p.signatureSize;
            && (r.Ok? <==>
                && (p.mode != None ==> n >= 0 && plain[n..] == p.mac(keys, plain[..n]))
                && |plain| >= m && |plain| >= p.signatureSize + PaddingHeaderSize(p)
                && m + Trailer(p, plain) <= |plain|)
            && (r.Ok? ==> r.value == (GetU32(plain[20..]), plain[m..|plain| - Trailer(p, plain)]))
            && (r == Err(BadSecurityChecksFailed) <==>
                p.mode != None && n >= 0 && plain[n..] != p.mac(keys, plain[..n]))
            && (r.Err? ==> r.error in {BadSecurityChecksFailed, BadDecodingError, SliceOutOfRange})
            && (r == Err(SliceOutOfRange) <==>
                || (p.mode != None && n < 0)
                || (&& (p.mode != None ==> plain[n..] == p.mac(keys, plain[..n])) && |plain| >= m
                    && (|plain| < p.signatureSize + PaddingHeaderSize(p) || m + Trailer(p, plain) > |plain|)))
  {
    hide GetU32;
  }

  /**
   * A chunk is accepted exactly when it is addressed to this end, can be decrypted, carries the signature of its
   * own bytes, and has a body left behind its headers; and then the body, the final mark and the request id are
   * what stands in the decrypted chunk.
   */
  lemma AcceptedIff(p: Policy, side: Side, channelId: u32, token: Token, chunk: seq<byte>)
    requires Sound(p) && p.block > 0
    ensures var r := ReadChunk(p, side, channelId, token, chunk);
            var m := HEADER + SEQUENCE_HEADER;
            && (r.Ok? <==>
                && Addressed(side, channelId, token, chunk) && HasWholeBlocks(p, chunk)
                && Authentic(p, token.keys, chunk)
                && |chunk| >= m && |chunk| >= p.signatureSize + PaddingHeaderSize(p)
                && m + Trailer(p, Decrypted(p, token.keys, chunk)) <= |chunk|)
            && (r.Ok? ==>
                var plain := Decrypted(p, token.keys, chunk);
                && r.value.body == plain[m..|chunk| - Trailer(p, plain)]
                && r.value.requestId == GetU32(plain[20..])
                && (r.value.isFinal <==> chunk[..4] != [0x4D, 0x53, 0x47, 0x43]))
  {
    hide GetU32, Sound, ReadPlain, KnownType, Expected;
    if |chunk| >= 4 {
      ExpectedIff(side, chunk);
    }
    if |chunk| >= HEADER && HasWholeBlocks(p, chunk) {
      DecryptedSize(p, token.keys, chunk);
      PlainAccepted(p, token.keys, Decrypted(p, token.keys, chunk));
      assert |chunk[HEADER..]| == |chunk| - HEADER;
    }
  }

  /** An altered chunk: its signature is refused as such, and for no other reason is a chunk refused that way. */
  lemma ForgedIff(p: Policy, side: Side, channelId: u32, token: Token, chunk: seq<byte>)
    requires Sound(p) && p.block > 0
    ensures ReadChunk(p, side, channelId, token, chunk) == Err(BadSecurityChecksFailed) <==>
              && Addressed(side, channelId, token, chunk) && HasWholeBlocks(p, chunk)
              && |chunk| >= p.signatureSize && !Authentic(p, token.keys, chunk)
  {
    hide GetU32, Sound, ReadPlain, KnownType, Expected;
    if |chunk| >= 4 {
      ExpectedIff(side, chunk);
    }
    if |chunk| >= HEADER && HasWholeBlocks(p, chunk) {
      DecryptedSize(p, token.keys, chunk);
      PlainAccepted(p, token.keys, Decrypted(p, token.keys, chunk));
      assert |chunk[HEADER..]| == |chunk| - HEADER;
    }
  }

  /** Which check a chunk fails on; a chunk that is refused for nothing else is one that cannot be decoded. */
  lemma RefusedFor(p: Policy, side: Side, channelId: u32, token: Token, chunk: seq<byte>)
    requires Sound(p) && p.block > 0
    ensures var r := ReadChunk(p, side, channelId, token, chunk);
            var sized := |chunk| >= 8 && GetU32(chunk[4..]) == |chunk|;
            && (r == Err(BadUnknownType) <==> sized && !Expected(side, chunk))
            && (r == Err(BadSecureChannelUnknown) <==>
                sized && Expected(side, chunk) && |chunk| >= 12 && GetU32(chunk[8..]) != channelId)
            && (r == Err(BadTokenUnknown) <==>
                && sized && Expected(side, chunk) && |chunk| >= HEADER && GetU32(chunk[8..]) == channelId
                && GetU32(chunk[12..]) != token.id)
            && (r.Err? ==> r.error in {BadUnknownType, BadSecureChannelUnknown, BadTokenUnknown,
                                       BadSecurityChecksFailed, BadDecodingError, SliceOutOfRange})
            && (r == Err(SliceOutOfRange) <==>
                && Addressed(side, channelId, token, chunk) && HasWholeBlocks(p, chunk)
                && ((p.mode != None && |chunk| < p.signatureSize)
                    || (&& Authentic(p, token.keys, chunk) && |chunk| >= HEADER + SEQUENCE_HEADER
                        && (|| |chunk| < p.signatureSize + PaddingHeaderSize(p)
                            || HEADER + SEQUENCE_HEADER + Trailer(p, Decrypted(p, token.keys, chunk)) > |chunk|))))
  {
    hide GetU32, Sound, ReadPlain, KnownType, Expected;
    if |chunk| >= 4 {
      ExpectedIff(side, chunk);
    }
    if |chunk| >= HEADER && HasWholeBlocks(p, chunk) {
      DecryptedSize(p, token.keys, chunk);
      PlainAccepted(p, token.keys, Decrypted(p, token.keys, chunk));
      assert |chunk[HEADER..]| == |chunk| - HEADER;
    }
  }

  // ------------------------------------------------------------------ a whole message

  /** The chunk is accepted as the `count`-th of its message and gives this piece. */
  predicate AcceptsAt(p: Policy, r: Receiver, token: Token, chunk: seq<byte>, count: nat, piece: Piece)
    requires p.block > 0
  {
    && !TooManyChunks(r.side, r.maxChunkCount, count) && |chunk| <= r.room
    && ReadChunk(p, r.side, r.channelId, token, chunk) == Ok(piece)
  }

  /** The first chunks are accepted and give these pieces, of which exactly the last is final. */
  predicate Accepts(p: Policy, r: Receiver, tokens: Tokens, chunks: seq<seq<byte>>, k: nat, pieces: seq<Piece>)
    requires p.block > 0
  {
    && 1 <= |pieces| <= |chunks|
    && (forall j :: 0 <= j < |pieces| ==> AcceptsAt(p, r, tokens(k + j), chunks[j], k + j + 1, pieces[j]))
    && (forall j :: 0 <= j < |pieces| ==> (pieces[j].isFinal <==> j == |pieces| - 1))
  }

  function Bodies(pieces: seq<Piece>): (body: seq<byte>)
  {
    if pieces == [] then [] else pieces[0].body + Bodies(pieces[1..])
  }

  /** These pieces make up the message, within the limit for its size. */
  predicate Completes(p: Policy, r: Receiver, tokens: Tokens, chunks: seq<seq<byte>>, k: nat, acc: seq<byte>,
                      pieces: seq<Piece>, m: Message)
    requires p.block > 0
  {
    && Accepts(p, r, tokens, chunks, k, pieces)
    && m == Message(pieces[|pieces| - 1].requestId, acc + Bodies(pieces), chunks[|pieces|..])
    && (r.maxMessageSize == 0 || |m.body| <= r.maxMessageSize)
  }

  lemma LaterAccepts(p: Policy, r: Receiver, tokens: Tokens, chunks: seq<seq<byte>>, k: nat, pieces: seq<Piece>)
    requires p.block > 0 && |pieces| > 1 && chunks != []
    ensures Accepts(p, r, tokens, chunks, k, pieces) <==>
              && AcceptsAt(p, r, tokens(k), chunks[0], k + 1, pieces[0]) && !pieces[0].isFinal
              && Accepts(p, r, tokens, chunks[1..], k + 1, pieces[1..])
  {
    hide AcceptsAt;
    if Accepts(p, r, tokens, chunks, k, pieces) {
      assert AcceptsAt(p, r, tokens(k + 0), chunks[0], k + 0 + 1, pieces[0]);
      forall j | 0 <= j < |pieces[1..]|
        ensures AcceptsAt(p, r, tokens(k + 1 + j), chunks[1..][j], k + 1 + j + 1, pieces[1..][j])
      {
        assert AcceptsAt(p, r, tokens(k + (j + 1)), chunks[j + 1], k + (j + 1) + 1, pieces[j + 1]);
      }
    }
    if Accepts(p, r, tokens, chunks[1..], k + 1, pieces[1..]) {
      forall j | 1 <= j < |pieces|
        ensures AcceptsAt(p, r, tokens(k + j), chunks[j], k + j + 1, pieces[j])
        ensures pieces[j].isFinal <==> j == |pieces| - 1
      {
        assert AcceptsAt(p, r, tokens(k + 1 + (j - 1)), chunks[1..][j - 1], k + 1 + (j - 1) + 1, pieces[1..][j - 1]);
      }
    }
  }

  lemma {:induction false} ReceivedCompletes(p: Policy, r: Receiver, tokens: Tokens, chunks: seq<seq<byte>>, k: nat,
                                             acc: seq<byte>, m: Message)
      returns (pieces: seq<Piece>)
    requires p.block > 0 && ReceiveFrom(p, r, tokens, chunks, k, acc) == Ok(m)
    ensures Completes(p, r, tokens, chunks, k, acc, pieces, m)
    decreases |chunks|
  {
    hide ReadChunk, TooManyChunks, Accepts;
    var one := ReadChunk(p, r.side, r.channelId, tokens(k), chunks[0]).value;
    if one.isFinal {
      pieces := [one];
      OneAccepts(p, r, tokens, chunks, k, one);
      assert Bodies(pieces) == one.body;
    } else {
      var rest := ReceivedCompletes(p, r, tokens, chunks[1..], k + 1, acc + one.body, m);
      pieces := [one] + rest;
      AcceptsSome(p, r, tokens, chunks[1..], k + 1, rest);
      assert pieces[1..] == rest;
      LaterAccepts(p, r, tokens, chunks, k, pieces);
      assert chunks[1..][|rest|..] == chunks[|pieces|..];
      assert acc + one.body + Bodies(rest) == acc + Bodies(pieces);
    }
  }

  lemma OneAccepts(p: Policy, r: Receiver, tokens: Tokens, chunks: seq<seq<byte>>, k: nat, one: Piece)
    requires p.block > 0 && chunks != []
    ensures Accepts(p, r, tokens, chunks, k, [one]) <==>
              AcceptsAt(p, r, tokens(k), chunks[0], k + 1, one) && one.isFinal
  {
    hide AcceptsAt;
    if Accepts(p, r, tokens, chunks, k, [one]) {
      assert AcceptsAt(p, r, tokens(k + 0), chunks[0], k + 0 + 1, [one][0]);
      assert [one][0].isFinal;
    }
  }

  lemma AcceptsSome(p: Policy, r: Receiver, tokens: Tokens, chunks: seq<seq<byte>>, k: nat, pieces: seq<Piece>)
    requires p.block > 0 && Accepts(p, r, tokens, chunks, k, pieces)
    ensures 1 <= |pieces| <= |chunks|
  {
  }

  lemma {:induction false} CompletesReceived(p: Policy, r: Receiver, tokens: Tokens, chunks: seq<seq<byte>>, k: nat,
                                             acc: seq<byte>, pieces: seq<Piece>, m: Message)
    requires p.block > 0 && Completes(p, r, tokens, chunks, k, acc, pieces, m)
    ensures ReceiveFrom(p, r, tokens, chunks, k, acc) == Ok(m)
    decreases |pieces|
  {
    hide ReadChunk, TooManyChunks, Accepts;
    AcceptsSome(p, r, tokens, chunks, k, pieces);
    var one, rest := pieces[0], pieces[1..];
    assert pieces == [one] + rest;
    if rest == [] {
      assert pieces == [one];
      OneAccepts(p, r, tokens, chunks, k, one);
      assert Bodies(pieces) == one.body;
    } else {
      LaterAccepts(p, r, tokens, chunks, k, pieces);
      assert chunks[1..][|rest|..] == chunks[|pieces|..];
      assert acc + one.body + Bodies(rest) == acc + Bodies(pieces);
      CompletesReceived(p, r, tokens, chunks[1..], k + 1, acc + one.body, rest, m);
    }
  }

  /**
   * A message is received exactly when its chunks are accepted one by one, up to the first final one, and together
   * stay within the limits; it is then the bodies of these chunks, under the request id of the last.
   */
  lemma ReceivedIff(p: Policy, r: Receiver, tokens: Tokens, chunks: seq<seq<byte>>, m: Message)
    requires p.block > 0
    ensures ReceiveFrom(p, r, tokens, chunks, 0, []) == Ok(m) <==>
              exists pieces :: Completes(p, r, tokens, chunks, 0, [], pieces, m)
  {
    hide ReceiveFrom, Completes;
    if ReceiveFrom(p, r, tokens, chunks, 0, []) == Ok(m) {
      var pieces := ReceivedCompletes(p, r, tokens, chunks, 0, [], m);
    }
    if pieces :| Completes(p, r, tokens, chunks, 0, [], pieces, m) {
      CompletesReceived(p, r, tokens, chunks, 0, [], pieces, m);
    }
  }

  /** The server keeps its limit in a signed integer: there is a number of chunks that it refuses exactly for these. */
  lemma LimitedIff(side: Side, limit: u32)
    ensures (exists count: nat :: TooManyChunks(side, limit, count)) <==>
              limit > 0 && (side == ServerSide ==> limit < 0x7FFF_FFFF)
  {
    if limit > 0 && (side == ServerSide ==> limit < 0x7FFF_FFFF) {
      assert TooManyChunks(side, limit, limit + 1);
    }
  }

  /** What a receiver accepts is within its limits, whoever sent it. */
  lemma ReceivedWithinLimits(p: Policy, r: Receiver, tokens: Tokens, chunks: seq<seq<byte>>, m: Message)
    requires p.block > 0 && ReceiveFrom(p, r, tokens, chunks, 0, []) == Ok(m)
    ensures r.maxMessageSize > 0 ==> |m.body| <= r.maxMessageSize
    ensures |m.later| < |chunks| && m.later == chunks[|chunks| - |m.later|..]
    ensures r.maxChunkCount > 0 && (r.side == ServerSide ==> r.maxChunkCount < 0x7FFF_FFFF) ==>
              |chunks| - |m.later| <= r.maxChunkCount
    ensures forall j :: 0 <= j < |chunks| - |m.later| ==> |chunks[j]| <= r.room
  {
    hide ReceiveFrom, AcceptsAt, Bodies;
    var pieces := ReceivedCompletes(p, r, tokens, chunks, 0, [], m);
    hide Accepts;
    AcceptsSome(p, r, tokens, chunks, 0, pieces);
    AcceptedWithinLimits(p, r, tokens, chunks, pieces);
  }

  lemma AcceptedWithinLimits(p: Policy, r: Receiver, tokens: Tokens, chunks: seq<seq<byte>>, pieces: seq<Piece>)
    requires p.block > 0 && Accepts(p, r, tokens, chunks, 0, pieces)
    ensures r.maxChunkCount > 0 && (r.side == ServerSide ==> r.maxChunkCount < 0x7FFF_FFFF) ==>
              |pieces| <= r.maxChunkCount
    ensures forall j :: 0 <= j < |pieces| ==> |chunks[j]| <= r.room
  {
    hide ReadChunk;
    forall j | 0 <= j < |pieces|
      ensures |chunks[j]| <= r.room
    {
      assert AcceptsAt(p, r, tokens(0 + j), chunks[j], 0 + j + 1, pieces[j]);
    }
    var limit: int := r.maxChunkCount;
    if |pieces| > limit {
      assert AcceptsAt(p, r, tokens(0 + limit), chunks[limit], 0 + limit + 1, pieces[limit]);
    }
  }

  /** No chunk of a received message was altered: each carries the signature of its own bytes under its token. */
  lemma ReceivedIsAuthentic(p: Policy, r: Receiver, tokens: Tokens, chunks: seq<seq<byte>>, m: Message)
    requires Sound(p) && p.block > 0 && ReceiveFrom(p, r, tokens, chunks, 0, []) == Ok(m)
    ensures |m.later| < |chunks|
    ensures forall j :: 0 <= j < |chunks| - |m.later| ==>
              Addressed(r.side, r.channelId, tokens(j), chunks[j]) && Authentic(p, tokens(j).keys, chunks[j])
  {
    hide ReceiveFrom, ReadChunk, Authentic, Sound, TooManyChunks, GetU32;
    var pieces := ReceivedCompletes(p, r, tokens, chunks, 0, [], m);
    forall j | 0 <= j < |pieces|
      ensures Addressed(r.side, r.channelId, tokens(j), chunks[j]) && Authentic(p, tokens(j).keys, chunks[j])
    {
      assert AcceptsAt(p, r, tokens(0 + j), chunks[j], 0 + j + 1, pieces[j]);
      AcceptedIff(p, r.side, r.channelId, tokens(j), chunks[j]);
    }
  }

  // ------------------------------------------------------------------ numbers and ids

  /** The `n`-th sequence number after `last`: counting goes from 1 to 2^32 - 1 and starts again. */
  function NumberAfter(last: u32, n: nat): (r: u32)
    requires n > 0
  {
    (last + n - 1) % (U32_LIMIT - 1) + 1
  }

  lemma NumberAfterNext(last: u32, n: nat)
    ensures NumberAfter(last, 1) == NextSequenceNumber(last)
    ensures n > 0 ==> NumberAfter(NextSequenceNumber(last), n) == NumberAfter(last, n + 1)
  {
  }

  /** Within 2^32 - 1 chunks no sequence number occurs twice, and none is zero. */
  lemma NumbersDiffer(last: u32, i: nat, j: nat)
    requires 0 < i < j < i + U32_LIMIT - 1
    ensures NumberAfter(last, i) != NumberAfter(last, j) && NumberAfter(last, i) != 0
  {
    var m := U32_LIMIT - 1;
    DivMod(last + i - 1, m);
    DivMod(last + j - 1, m);
  }

  /** The decrypted chunk carries this number, and behind it this request id. */
  predicate Carries(p: Policy, keys: Keys, chunk: seq<byte>, number: u32, requestId: u32)
  {
    && |chunk| >= HEADER + SEQUENCE_HEADER
    && |Decrypted(p, keys, chunk)| == |chunk|
    && GetU32(Decrypted(p, keys, chunk)[16..]) == number
    && GetU32(Decrypted(p, keys, chunk)[20..]) == requestId
  }

  lemma WireCarries(p: Policy, keys: Keys, plan: Plan, e: Envelope, piece: seq<byte>)
    requires Sound(p) && PlanFor(p, plan, |piece|)
    ensures Carries(p, keys, WireChunk(p, keys, plan, e, piece), e.sequenceNumber, e.requestId)
  {
    hide Header, GetU32, SequenceHeader, Padding;
    var signed := Signed(p, keys, PlainChunk(plan, e, piece));
    var wire := WireChunk(p, keys, plan, e, piece);
    WireParts(p, keys, plan, e, piece, signed);
    assert Decrypted(p, keys, wire) == signed;
    assert signed[..HEADER + SEQUENCE_HEADER] == Header(e, plan.chunkSize) + SequenceHeader(e);
    SequenceFields(e, plan.chunkSize, signed);
  }

  /** The k-th chunk of a message carries the k-th sequence number after the last one used, and the request id. */
  lemma {:induction false} SentNumbers(p: Policy, s: Sender, tokens: Tokens, requestId: u32, body: seq<byte>, k: nat,
                                       last: u32)
    requires Sound(p) && MaxBodySize(p, s.bufferSize) > 0
    ensures var (_, wire) := SendFrom(p, s, tokens, requestId, body, k, last);
            forall j :: 0 <= j < |wire| ==>
              Carries(p, tokens(k + j).keys, wire[j], NumberAfter(last, j + 1), requestId)
    decreases |body|
  {
    hide WireChunk, Sound, PlanFor, PlanChunk, MaxBodySize, SendFrom, NextSequenceNumber, NumberAfter, Carries;
    HasBlocks(p);
    SendStop(p, s, tokens, requestId, body, k, last);
    if body != [] && (s.maxChunkCount == 0 || k + 1 <= s.maxChunkCount) {
      var plan, e, rest := SendStep(p, s, tokens, requestId, body, k, last);
      var wire := SendFrom(p, s, tokens, requestId, body, k, last).1;
      WireCarries(p, tokens(k).keys, plan, e, body[..plan.bodySize]);
      SentNumbers(p, s, tokens, requestId, body[plan.bodySize..], k + 1, e.sequenceNumber);
      forall j | 0 <= j < |wire|
        ensures Carries(p, tokens(k + j).keys, wire[j], NumberAfter(last, j + 1), requestId)
      {
        NumberAfterNext(last, j);
        if j > 0 {
          assert wire[j] == rest.1[j - 1];
          assert Carries(p, tokens(k + 1 + (j - 1)).keys, rest.1[j - 1],
                         NumberAfter(e.sequenceNumber, j - 1 + 1), requestId);
        }
      }
    }
  }

  /**
   * A chunk without a body, sent because none fits, is an empty piece to the receiver if the room is exactly used up;
   * if the plan is short of room, its header gives a size that is not that of the chunk, and it is refused.
   */
  lemma EmptyChunkRead(p: Policy, side: Side, bufferSize: nat, room: nat, bodyCount: nat, token: Token, e: Envelope)
    requires Sound(p) && p.block > 0 && MaxBodySize(p, bufferSize) <= 0 && bodyCount > 0 && EmptySize(p) <= room
    requires p.mode == SignAndEncrypt ==> (EmptySize(p) - HEADER) % p.block == 0
    requires !e.isFinal && e.tokenId == token.id && EmptySize(p) < U32_LIMIT
    ensures var plan := PlanChunk(p, bufferSize, bodyCount);
            && plan.chunkSize >= 0 && |EmptySigned(p, room, token.keys, plan, e)| == EmptySize(p)
            && var chunk := EmptyChunk(p, room, token.keys, plan, e);
               && Carries(p, token.keys, chunk, e.sequenceNumber, e.requestId)
               && ReadChunk(p, side, e.channelId, token, chunk)
                  == if MaxBodySize(p, bufferSize) == 0
                     then Ok(Piece(false, e.requestId, []))
                     else Err(BadDecodingError)
  {
    hide MaxBodySize, PlanChunk, EmptySigned, EmptyChunk, Sound, ReadChunk, Carries;
    EmptyPlan(p, bufferSize, bodyCount);
    EmptyPlanRead(p, side, room, token, PlanChunk(p, bufferSize, bodyCount), e);
  }

  lemma EmptyPlanRead(p: Policy, side: Side, room: nat, token: Token, plan: Plan, e: Envelope)
    requires Sound(p) && p.block > 0 && EmptySize(p) <= room && EmptySize(p) < U32_LIMIT
    requires p.mode == SignAndEncrypt ==> (EmptySize(p) - HEADER) % p.block == 0
    requires plan == Plan(plan.bodySize, PaddingHeaderSize(p), 0, EmptySize(p) + plan.bodySize)
    requires plan.bodySize <= 0 <= plan.chunkSize && !e.isFinal && e.tokenId == token.id
    ensures |EmptySigned(p, room, token.keys, plan, e)| == EmptySize(p)
    ensures var chunk := EmptyChunk(p, room, token.keys, plan, e);
            && Carries(p, token.keys, chunk, e.sequenceNumber, e.requestId)
            && ReadChunk(p, side, e.channelId, token, chunk)
               == if plan.bodySize == 0 then Ok(Piece(false, e.requestId, [])) else Err(BadDecodingError)
  {
    EmptyCarries(p, room, token.keys, plan, e);
    hide EmptyChunk, EmptySigned, WireChunk, Carries, GetU32, Sound;
    if plan.bodySize == 0 {
      hide ReadChunk;
      ChunkRoundTrip(p, side, token, plan, e, []);
    }
  }

  lemma EmptyCarries(p: Policy, room: nat, keys: Keys, plan: Plan, e: Envelope)
    requires Sound(p) && plan.chunkSize >= 0 && plan.paddingSize == 0 && plan.paddingHeaderSize == PaddingHeaderSize(p)
    requires EmptySize(p) <= room && plan.chunkSize < U32_LIMIT
    requires p.mode == SignAndEncrypt ==> (EmptySize(p) - HEADER) % p.block == 0
    ensures |EmptySigned(p, room, keys, plan, e)| == EmptySize(p)
    ensures var chunk := EmptyChunk(p, room, keys, plan, e);
            && |chunk| == EmptySize(p) && GetU32(chunk[4..]) == plan.chunkSize
            && Carries(p, keys, chunk, e.sequenceNumber, e.requestId)
            && chunk == WireChunk(p, keys, plan, e, [])
  {
    EmptySignedSize(p, room, keys, plan, e);
    EmptyPlainSize(p, plan, e);
    hide Header, GetU32, SequenceHeader, Padding;
    var signed := EmptySigned(p, room, keys, plan, e);
    var chunk := EmptyChunk(p, room, keys, plan, e);
    assert signed == Signed(p, keys, PlainChunk(plan, e, []));
    assert |signed[HEADER..]| == EmptySize(p) - HEADER;
    assert Decrypted(p, keys, chunk) == signed;
    assert signed[..HEADER + SEQUENCE_HEADER] == Header(e, plan.chunkSize) + SequenceHeader(e);
    SequenceFields(e, plan.chunkSize, signed);
    assert chunk[..HEADER] == Header(e, plan.chunkSize);
    HeaderFields(e, plan.chunkSize, chunk);
  }

  /** Also the chunks that are sent without a body until the limit is reached are numbered one by one. */
  lemma {:induction false} StuckNumbers(p: Policy, s: Sender, tokens: Tokens, requestId: u32, body: seq<byte>, k: nat,
                                        last: u32)
    requires Sound(p) && p.block > 0 && MaxBodySize(p, s.bufferSize) <= 0 && Ends(p, s) && body != []
    requires EmptyStatus(s.side, p, s.room) == Good && EmptySize(p) <= s.room && k <= s.maxChunkCount
    ensures var (status, wire) := SendFrom(p, s, tokens, requestId, body, k, last);
            && status == BadTooLarge && |wire| == s.maxChunkCount - k
            && forall j :: 0 <= j < |wire| ==>
                 Carries(p, tokens(k + j).keys, wire[j], NumberAfter(last, j + 1), requestId)
    decreases s.maxChunkCount - k
  {
    hide MaxBodySize, PlanChunk, Sound, SendFrom, NextSequenceNumber, NumberAfter, Carries, EmptyStatus, EmptySize;
    SendStop(p, s, tokens, requestId, body, k, last);
    if k < s.maxChunkCount {
      var next := NextSequenceNumber(last);
      var chunk, rest := StuckStep(p, s, tokens, requestId, body, k, last);
      var wire := SendFrom(p, s, tokens, requestId, body, k, last).1;
      StuckNumbers(p, s, tokens, requestId, body, k + 1, next);
      forall j | 0 <= j < |wire|
        ensures Carries(p, tokens(k + j).keys, wire[j], NumberAfter(last, j + 1), requestId)
      {
        NumberAfterNext(last, j);
        if j > 0 {
          assert wire[j] == rest.1[j - 1];
          assert Carries(p, tokens(k + 1 + (j - 1)).keys, rest.1[j - 1], NumberAfter(next, j - 1 + 1), requestId);
        }
      }
    }
  }

  /** One chunk without a body. */
  lemma StuckStep(p: Policy, s: Sender, tokens: Tokens, requestId: u32, body: seq<byte>, k: nat, last: u32)
      returns (chunk: seq<byte>, rest: (Status, seq<seq<byte>>))
    requires Sound(p) && p.block > 0 && MaxBodySize(p, s.bufferSize) <= 0 && Ends(p, s) && body != []
    requires EmptyStatus(s.side, p, s.room) == Good && EmptySize(p) <= s.room && k < s.maxChunkCount
    ensures rest == SendFrom(p, s, tokens, requestId, body, k + 1, NextSequenceNumber(last))
    ensures SendFrom(p, s, tokens, requestId, body, k, last) == (rest.0, [chunk] + rest.1)
    ensures Carries(p, tokens(k).keys, chunk, NextSequenceNumber(last), requestId)
  {
    hide MaxBodySize, PlanChunk, Sound, SendFrom, NextSequenceNumber, Carries, EmptySigned, EmptyChunk;
    EmptyPlan(p, s.bufferSize, |body|);
    EmptyStep(p, s, tokens, requestId, body, k, last);
    var plan := PlanChunk(p, s.bufferSize, |body|);
    var e := Envelope(false, s.channelId, tokens(k).id, NextSequenceNumber(last), requestId);
    chunk := EmptyChunk(p, s.room, tokens(k).keys, plan, e);
    rest := SendFrom(p, s, tokens, requestId, body, k + 1, NextSequenceNumber(last));
    EmptyCarries(p, s.room, tokens(k).keys, plan, e);
  }
}
