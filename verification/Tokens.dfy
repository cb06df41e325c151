/**
 * Security tokens (OPC UA Part 6, section 6.7.4): issue, renewal and installation as the two secure
 * channels do them, as a protocol between a client, a server and the connection between them.
 *
 * Nonces are chosen by the environment; `derive` is the key derivation of module `Psha` with its sizes and
 * policy fixed, taking the secret and the seed.
 */
module Tokens {
  import opened Bytes
  import opened Chunks
  import opened Psha
  import O = Options

  type Nonce = seq<byte>
  type Derive = (Nonce, Nonce) -> Keys

  /** The fields of `clientSecureChannel` that renewal and sending touch. */
  datatype Client = Client(tokenId: u32, localNonce: Nonce, remoteNonce: Nonce, sendingTokenId: u32, keys: Keys)

  /** The fields of `serverSecureChannel` that renewal and receiving touch; `keys` are the remote keys. */
  datatype Server = Server(tokenId: u32, pendingTokenId: u32, lastTokenId: u32,
                           localNonce: Nonce, remoteNonce: Nonce, keys: Keys)

  /** An OpenSecureChannelResponse, matched with the nonce of the request that it answers. */
  datatype Response = Response(tokenId: u32, clientNonce: Nonce, serverNonce: Nonce)

  // ------------------------------------------------------------------ steps of the two ends

  /** The end of `renewToken` and of `Open`. */
  function Renewed(c: Client, r: Response): (c': Client)
  {
    c.(tokenId := r.tokenId, localNonce := r.clientNonce, remoteNonce := r.serverNonce)
  }

  /** `sendServiceRequest` detects a new token and re-creates the keys. */
  function ReadyToSend(derive: Derive, c: Client): (c': Client)
  {
    if c.tokenId != c.sendingTokenId
    then c.(sendingTokenId := c.tokenId, keys := derive(c.remoteNonce, c.localNonce)) else c
  }

  /** `getNextTokenID`: skips zero on wrap-around. */
  function NextTokenId(last: u32): (r: u32)
  {
    if last == U32_LIMIT - 1 then 1 else last + 1
  }

  /** `handleOpenSecureChannel`, and the same part of the server's `Open`. */
  function Opened(s: Server, clientNonce: Nonce, serverNonce: Nonce): (s': Server)
  {
    var id := NextTokenId(s.lastTokenId);
    s.(localNonce := serverNonce, remoteNonce := clientNonce, lastTokenId := id, pendingTokenId := id)
  }

  /** `readRequest` on a chunk under token `t`: installed, installed now because pending, or refused. */
  function Accept(derive: Derive, s: Server, t: u32): (r: O.Option<Server>)
  {
    if s.tokenId == t then O.Some(s)
    else if t != s.pendingTokenId then O.None
    else O.Some(s.(tokenId := s.pendingTokenId, keys := derive(s.localNonce, s.remoteNonce)))
  }

  /** The client and the server nonce that were exchanged for each token. */
  type Nonces = map<u32, (Nonce, Nonce)>

  function KeysFor(derive: Derive, pair: (Nonce, Nonce)): (k: Keys)
  {
    derive(pair.1, pair.0)
  }

  /** The fields of `clientSecureChannel` again, with the nonces of the tokens it was given as history. */
  class ClientTokens {
    const derive: Derive
    var tokenId: u32
    var localNonce: Nonce
    var remoteNonce: Nonce
    var sendingTokenId: u32
    var keys: Keys
    ghost var nonces: Nonces

    /** The current nonces are those of the current token, and the keys those of the token last sent under. */
    ghost predicate Valid()
      reads this
    {
      && (tokenId != 0 ==> tokenId in nonces && nonces[tokenId] == (localNonce, remoteNonce))
      && (sendingTokenId != 0 ==> sendingTokenId in nonces && keys == KeysFor(derive, nonces[sendingTokenId]))
    }

    ghost function Contents(): (c: Client)
      reads this
    {
      Client(tokenId, localNonce, remoteNonce, sendingTokenId, keys)
    }

    constructor (derive: Derive)
      ensures Valid() && this.derive == derive && nonces == map[] && Contents() == Start().client
    {
      this.derive, tokenId, localNonce, remoteNonce, sendingTokenId := derive, 0, [], [], 0;
      keys, nonces := NO_KEYS, map[];
    }

    /** The end of `renewToken` and of `Open`; the keys in use stay those of the token last sent under. */
    method InstallToken(r: Response)
      requires Valid() && r.tokenId != 0
      requires r.tokenId in nonces ==> nonces[r.tokenId] == (r.clientNonce, r.serverNonce)
      modifies this
      ensures Valid() && tokenId == r.tokenId && nonces == old(nonces)[r.tokenId := (r.clientNonce, r.serverNonce)]
      ensures Contents() == Renewed(old(Contents()), r)
    {
      tokenId, localNonce, remoteNonce := r.tokenId, r.clientNonce, r.serverNonce;
      nonces := nonces[r.tokenId := (r.clientNonce, r.serverNonce)];
    }

    /** The token id for the chunk header, and the keys that sign and encrypt the chunk: they belong together. */
    method TokenForChunk() returns (token: Token)
      requires Valid() && tokenId != 0
      modifies this`sendingTokenId, this`keys
      ensures Valid() && token.id == tokenId && token.keys == KeysFor(derive, nonces[token.id])
      ensures Contents() == ReadyToSend(derive, old(Contents()))
    {
      if tokenId != sendingTokenId {
        sendingTokenId := tokenId;
        keys := derive(remoteNonce, localNonce);
      }
      token := Token(tokenId, keys);
    }
  }

  /** The fields of `serverSecureChannel` again, with the nonces of the tokens it issued as history. */
  class ServerTokens {
    const derive: Derive
    var tokenId: u32
    var pendingTokenId: u32
    var lastTokenId: u32
    var localNonce: Nonce
    var remoteNonce: Nonce
    var keys: Keys
    ghost var nonces: Nonces

    /** The current nonces are those of the pending token, and the keys those of the installed one. */
    ghost predicate Valid()
      reads this
    {
      && lastTokenId == pendingTokenId && (forall t :: t in nonces ==> 0 < t <= lastTokenId)
      && (pendingTokenId != 0 ==> pendingTokenId in nonces && nonces[pendingTokenId] == (remoteNonce, localNonce))
      && (tokenId != 0 ==> tokenId in nonces && keys == KeysFor(derive, nonces[tokenId]))
    }

    ghost function Contents(): (s: Server)
      reads this
    {
      Server(tokenId, pendingTokenId, lastTokenId, localNonce, remoteNonce, keys)
    }

    constructor (derive: Derive)
      ensures Valid() && this.derive == derive && nonces == map[] && Contents() == Start().server
    {
      this.derive, tokenId, pendingTokenId, lastTokenId := derive, 0, 0, 0;
      localNonce, remoteNonce, keys, nonces := [], [], NO_KEYS, map[];
    }

    /**
     * `handleOpenSecureChannel`: a token for this nonce pair, a new one until the counter wraps around; the
     * installed one and its keys stay in force.
     */
    method HandleOpen(clientNonce: Nonce, serverNonce: Nonce) returns (r: Response)
      requires Valid()
      modifies this
      ensures old(lastTokenId) < U32_LIMIT - 1 ==> Valid() && r.tokenId !in old(nonces)
      ensures r.tokenId != 0 && (r.clientNonce, r.serverNonce) == (clientNonce, serverNonce)
      ensures nonces == old(nonces)[r.tokenId := (clientNonce, serverNonce)] && pendingTokenId == r.tokenId
      ensures tokenId == old(tokenId) && keys == old(keys)
      ensures Contents() == Opened(old(Contents()), clientNonce, serverNonce)
    {
      localNonce, remoteNonce := serverNonce, clientNonce;
      lastTokenId := NextTokenId(lastTokenId);
      pendingTokenId := lastTokenId;
      nonces := nonces[pendingTokenId := (clientNonce, serverNonce)];
      r := Response(pendingTokenId, remoteNonce, localNonce);
    }

    /** A chunk under token `t` is accepted only with the keys of the nonce pair for which `t` was issued. */
    method AcceptChunk(t: u32) returns (accepted: bool)
      requires Valid()
      modifies this`tokenId, this`keys
      ensures Valid() && (accepted <==> t == old(tokenId) || t == pendingTokenId)
      ensures accepted && t != 0 ==> tokenId == t && t in nonces && keys == KeysFor(derive, nonces[t])
      ensures !accepted ==> tokenId == old(tokenId) && keys == old(keys)
      ensures accepted <==> Accept(derive, old(Contents()), t).Some?
      ensures accepted ==> Contents() == Accept(derive, old(Contents()), t).value
    {
      if tokenId != t {
        if t != pendingTokenId {
          return false;
        }
        tokenId := pendingTokenId;
        keys := derive(localNonce, remoteNonce);
      }
      accepted := true;
    }
  }

  /** Both ends derive alike, and the client's tokens were issued by the server for the same nonces. */
  ghost predicate Partners(c: ClientTokens, s: ServerTokens)
    reads c, s
  {
    && c.Valid() && s.Valid() && c.derive == s.derive
    && forall t :: t in c.nonces ==> t in s.nonces && c.nonces[t] == s.nonces[t]
  }

  /** A chunk of the client reaches the server: if its token is accepted, both ends hold the same keys for it. */
  method UseToken(c: ClientTokens, s: ServerTokens) returns (accepted: bool, token: Token)
    requires Partners(c, s) && c.tokenId != 0
    modifies c, s
    ensures Partners(c, s) && token.id == c.tokenId == old(c.tokenId)
    ensures accepted <==> token.id == old(s.tokenId) || token.id == s.pendingTokenId
    ensures accepted ==> s.tokenId == token.id && s.keys == token.keys
    ensures token.id in c.nonces && token.keys == KeysFor(c.derive, c.nonces[token.id])
    ensures c.nonces == old(c.nonces) && s.nonces == old(s.nonces) && s.pendingTokenId == old(s.pendingTokenId)
  {
    token := c.TokenForChunk();
    accepted := s.AcceptChunk(token.id);
  }

  /** A whole renewal: the next chunk is accepted, under keys that both ends derived from the new nonces. */
  method RenewAndUse(c: ClientTokens, s: ServerTokens, clientNonce: Nonce, serverNonce: Nonce)
    returns (accepted: bool, token: Token)
    requires Partners(c, s) && s.lastTokenId < U32_LIMIT - 1
    modifies c, s
    ensures Partners(c, s) && accepted && s.tokenId == token.id == c.tokenId
    ensures s.keys == token.keys == KeysFor(c.derive, (clientNonce, serverNonce))
  {
    var r := s.HandleOpen(clientNonce, serverNonce);
    c.InstallToken(r);
    accepted, token := UseToken(c, s);
  }

  // ------------------------------------------------------------------ the protocol

  /** What a client put into a chunk. */
  datatype Sent = Sent(token: Token, plan: Plan, envelope: Envelope, piece: seq<byte>)

  /** Messages on their way to the server. Of a chunk, the server sees only `bytes`. */
  datatype ToServer = OpenRequest(clientNonce: Nonce) | Chunk(bytes: seq<byte>, sent: Sent)

  /** A chunk that the server read, with what it made of it. */
  datatype Received = Received(result: Chunks.Result<Piece>, sent: Sent)

  /** `issued` and `nonces` are the history of the tokens; `refused` says that the server gave up. */
  datatype State = State(
    client: Client,
    server: Server,
    requests: seq<ToServer>,
    responses: seq<Response>,
    received: seq<Received>,
    refused: bool,
    issued: nat,
    nonces: map<u32, (Nonce, Nonce)>)

  datatype Action =
    | Renew(clientNonce: Nonce)
    | Send(plan: Plan, isFinal: bool, sequenceNumber: u32, requestId: u32, piece: seq<byte>)
    | Serve(serverNonce: Nonce)
    | Install(i: nat)

  /** The policy and channel that both ends have agreed on. */
  datatype Agreed = Agreed(policy: Policy, channelId: u32, derive: Derive)

  const NO_KEYS := Keys([], [], [])

  function Start(): (s: State)
  {
    State(Client(0, [], [], 0, NO_KEYS), Server(0, 0, 0, [], [], NO_KEYS), [], [], [], false, 0, map[])
  }

  /** A renewal may be started and a chunk may be sent at any time; a chunk only once `Open` has returned. */
  ghost predicate Enabled(g: Agreed, s: State, a: Action)
  {
    match a
    case Renew(_) => true
    case Send(plan, _, _, _, piece) => s.client.tokenId != 0 && PlanFor(g.policy, plan, |piece|)
    case Serve(_) => s.requests != [] && !s.refused
    case Install(i) => i < |s.responses|
  }

  ghost function Step(g: Agreed, s: State, a: Action): (s': State)
    requires Sound(g.policy) && Enabled(g, s, a)
  {
    match a
    case Renew(clientNonce) => s.(requests := s.requests + [OpenRequest(clientNonce)])
    case Send(plan, isFinal, sequenceNumber, requestId, piece) =>
      var c := ReadyToSend(g.derive, s.client);
      var e := Envelope(isFinal, g.channelId, c.tokenId, sequenceNumber, requestId);
      var bytes := WireChunk(g.policy, c.keys, plan, e, piece);
      s.(client := c, requests := s.requests + [Chunk(bytes, Sent(Token(c.tokenId, c.keys), plan, e, piece))])
    case Serve(serverNonce) =>
      var rest := s.(requests := s.requests[1..]);
      (match s.requests[0]
       case OpenRequest(clientNonce) =>
         var server := Opened(s.server, clientNonce, serverNonce);
         rest.(server := server,
               responses := s.responses + [Response(server.pendingTokenId, clientNonce, serverNonce)],
               issued := s.issued + 1,
               nonces := s.nonces[server.pendingTokenId := (clientNonce, serverNonce)])
       case Chunk(bytes, sent) =>
         if |bytes| < HEADER then rest.(refused := true)
         else
           var t := GetU32(bytes[12..]);
           match Accept(g.derive, s.server, t)
           case None => rest.(refused := true)
           case Some(server) =>
             var result := ReadChunk(g.policy, ServerSide, g.channelId, Token(t, server.keys), bytes);
             rest.(server := server, received := s.received + [Received(result, sent)]))
    case Install(i) =>
      s.(client := Renewed(s.client, s.responses[i]), responses := s.responses[..i] + s.responses[i + 1..])
  }

  ghost predicate IsRun(g: Agreed, run: seq<State>)
    requires Sound(g.policy)
  {
    && |run| > 0 && run[0] == Start()
    && forall i :: 0 < i < |run| ==> Follows(g, run[i - 1], run[i])
  }

  ghost predicate Follows(g: Agreed, s: State, s': State)
    requires Sound(g.policy)
  {
    exists a :: Enabled(g, s, a) && s' == Step(g, s, a)
  }

  // ------------------------------------------------------------------ what every step keeps

  /** The token is one that was issued for this nonce pair. */
  ghost predicate IssuedFor(s: State, t: u32, clientNonce: Nonce, serverNonce: Nonce)
  {
    t != 0 && t in s.nonces && s.nonces[t] == (clientNonce, serverNonce)
  }

  ghost predicate KeysOf(g: Agreed, s: State, t: u32, keys: Keys)
  {
    t != 0 && t in s.nonces && keys == g.derive(s.nonces[t].1, s.nonces[t].0)
  }

  ghost predicate GoodSent(g: Agreed, s: State, m: ToServer)
  {
    m.Chunk? ==>
      var sent := m.sent;
      && PlanFor(g.policy, sent.plan, |sent.piece|)
      && KeysOf(g, s, sent.token.id, sent.token.keys)
      && sent.envelope.channelId == g.channelId && sent.envelope.tokenId == sent.token.id
      && m.bytes == WireChunk(g.policy, sent.token.keys, sent.plan, sent.envelope, sent.piece)
  }

  predicate ReadBack(r: Received)
  {
    r.result == Chunks.Ok(Piece(r.sent.envelope.isFinal, r.sent.envelope.requestId, r.sent.piece))
  }

  ghost predicate ClientInv(g: Agreed, s: State)
  {
    && (s.client.tokenId != 0 ==> IssuedFor(s, s.client.tokenId, s.client.localNonce, s.client.remoteNonce))
    && (s.client.sendingTokenId != 0 ==> KeysOf(g, s, s.client.sendingTokenId, s.client.keys))
    && forall r :: r in s.responses ==> IssuedFor(s, r.tokenId, r.clientNonce, r.serverNonce)
  }

  ghost predicate ServerInv(g: Agreed, s: State)
  {
    && s.server.lastTokenId == s.server.pendingTokenId == s.issued
    && (forall t :: t in s.nonces ==> 0 < t <= s.issued)
    && (s.issued > 0 ==> IssuedFor(s, s.server.pendingTokenId, s.server.remoteNonce, s.server.localNonce))
    && (s.server.tokenId != 0 ==> KeysOf(g, s, s.server.tokenId, s.server.keys))
  }

  ghost predicate Inv(g: Agreed, s: State)
  {
    && ClientInv(g, s)
    && ServerInv(g, s)
    && (forall m :: m in s.requests ==> GoodSent(g, s, m))
    && (forall r :: r in s.received ==> ReadBack(r))
  }

  lemma SendKeeps(g: Agreed, s: State, a: Action)
    requires Sound(g.policy) && Inv(g, s) && a.Send? && Enabled(g, s, a)
    ensures Inv(g, Step(g, s, a))
  {
    hide WireChunk, PlanFor, Sound;
    var s' := Step(g, s, a);
    assert forall m :: m in s.requests ==> GoodSent(g, s', m) by {
      assert forall m :: m in s.requests ==> GoodSent(g, s, m);
    }
  }

  lemma OpenKeeps(g: Agreed, s: State, a: Action)
    requires Sound(g.policy) && Inv(g, s) && a.Serve? && Enabled(g, s, a) && s.requests[0].OpenRequest?
    requires s.issued + 1 < U32_LIMIT
    ensures Inv(g, Step(g, s, a))
  {
    hide WireChunk, PlanFor, Sound;
    var s' := Step(g, s, a);
    var id := NextTokenId(s.server.lastTokenId);
    assert id == s.issued + 1 && id !in s.nonces;
    assert forall t :: t in s.nonces ==> s'.nonces[t] == s.nonces[t];
    assert forall m :: m in s'.requests ==> m in s.requests;
  }

  lemma ReceiveKeeps(g: Agreed, s: State, a: Action)
    requires Sound(g.policy) && Inv(g, s) && a.Serve? && Enabled(g, s, a) && s.requests[0].Chunk?
    ensures Inv(g, Step(g, s, a))
  {
    hide WireChunk, PlanFor, Sound, GetU32, ReadChunk;
    var s' := Step(g, s, a);
    var sent := s.requests[0].sent;
    assert GoodSent(g, s, s.requests[0]);
    WireHeader(g.policy, sent.token.keys, sent.plan, sent.envelope, sent.piece);
    ChunkRoundTrip(g.policy, ServerSide, sent.token, sent.plan, sent.envelope, sent.piece);
    assert forall m :: m in s'.requests ==> m in s.requests;
  }

  lemma OtherKeeps(g: Agreed, s: State, a: Action)
    requires Sound(g.policy) && Inv(g, s) && (a.Renew? || a.Install?) && Enabled(g, s, a)
    ensures Inv(g, Step(g, s, a))
  {
    hide WireChunk, PlanFor, Sound;
    var s' := Step(g, s, a);
    if a.Install? {
      assert s.responses[a.i] in s.responses;
      assert forall r :: r in s'.responses ==> r in s.responses;
    }
    assert forall m :: m in s'.requests ==> m in s.requests || m.OpenRequest?;
  }

  lemma StepKeeps(g: Agreed, s: State, a: Action)
    requires Sound(g.policy) && Inv(g, s) && Enabled(g, s, a) && Step(g, s, a).issued < U32_LIMIT
    ensures Inv(g, Step(g, s, a))
  {
    hide Inv, WireChunk, Sound;
    match a
    case Send(_, _, _, _, _) => SendKeeps(g, s, a);
    case Serve(_) =>
      if s.requests[0].OpenRequest? {
        OpenKeeps(g, s, a);
      } else {
        ReceiveKeeps(g, s, a);
      }
    case _ => OtherKeeps(g, s, a);
  }

  lemma IssuedGrows(g: Agreed, s: State, a: Action)
    requires Sound(g.policy) && Enabled(g, s, a)
    ensures s.issued <= Step(g, s, a).issued
  {
    hide WireChunk, Sound, ReadChunk, GetU32;
  }

  lemma {:induction false} RunKeeps(g: Agreed, run: seq<State>)
    requires Sound(g.policy) && IsRun(g, run) && run[|run| - 1].issued < U32_LIMIT
    ensures Inv(g, run[|run| - 1])
  {
    hide Inv, Step, Sound, Enabled;
    if |run| == 1 {
      StartInv(g);
    } else {
      var before := run[..|run| - 1];
      var s, s' := run[|run| - 2], run[|run| - 1];
      assert Follows(g, run[|run| - 1 - 1], run[|run| - 1]);
      var a :| Enabled(g, s, a) && s' == Step(g, s, a);
      IssuedGrows(g, s, a);
      assert forall i :: 0 <= i < |before| ==> before[i] == run[i];
      RunKeeps(g, before);
      StepKeeps(g, s, a);
    }
  }

  lemma StartInv(g: Agreed)
    ensures Inv(g, Start())
  {
  }

  /**
   * In every run with fewer than 2^32 tokens, however renewals, installations and chunks interleave:
   * each chunk that the server reads under a token that it accepts gives exactly what the client put in,
   * because the server's keys for that token are the ones that the client used.
   */
  lemma AcceptedChunksAreReadBack(g: Agreed, run: seq<State>)
    requires Sound(g.policy) && IsRun(g, run) && run[|run| - 1].issued < U32_LIMIT
    ensures forall r :: r in run[|run| - 1].received ==> ReadBack(r)
  {
    RunKeeps(g, run);
  }

  /** What a client sends goes behind all that is on its way, and says under its token what it was given to send. */
  lemma SendCarries(g: Agreed, s: State, a: Action)
    requires Sound(g.policy) && Enabled(g, s, a) && a.Send?
    ensures var s' := Step(g, s, a);
            && |s'.requests| == |s.requests| + 1 && s'.requests[..|s.requests|] == s.requests
            && var m := s'.requests[|s.requests|];
            && m.Chunk? && m.sent.token == Token(s.client.tokenId, s'.client.keys) && m.sent.piece == a.piece
            && ReadChunk(g.policy, ServerSide, g.channelId, m.sent.token, m.bytes)
               == Ok(Piece(a.isFinal, a.requestId, a.piece))
  {
    hide WireChunk, PlanFor, Sound, ReadChunk;
    var c := ReadyToSend(g.derive, s.client);
    var e := Envelope(a.isFinal, g.channelId, c.tokenId, a.sequenceNumber, a.requestId);
    ChunkRoundTrip(g.policy, ServerSide, Token(c.tokenId, c.keys), a.plan, e, a.piece);
  }

  /** The token of the last chunk that the server took, or zero. */
  function LastToken(received: seq<Received>): (t: u32)
  {
    if received == [] then 0 else received[|received| - 1].sent.token.id
  }

  /** The installed token is the one of the last chunk: renewals alone do not change it. */
  lemma InstalledStep(g: Agreed, s: State, a: Action)
    requires Sound(g.policy) && Inv(g, s) && Enabled(g, s, a) && s.server.tokenId == LastToken(s.received)
    ensures var s' := Step(g, s, a); s'.server.tokenId == LastToken(s'.received)
  {
    hide WireChunk, PlanFor, Sound, GetU32, ReadChunk, Inv;
    if a.Serve? && s.requests[0].Chunk? {
      TokenOnTheWire(g, s);
    }
  }

  lemma {:induction false} InstalledIsLast(g: Agreed, run: seq<State>)
    requires Sound(g.policy) && IsRun(g, run) && run[|run| - 1].issued < U32_LIMIT
    ensures run[|run| - 1].server.tokenId == LastToken(run[|run| - 1].received)
  {
    hide Inv, Step, Sound, Enabled;
    if |run| > 1 {
      var before := run[..|run| - 1];
      var s, s' := run[|run| - 2], run[|run| - 1];
      assert Follows(g, run[|run| - 1 - 1], run[|run| - 1]);
      var a :| Enabled(g, s, a) && s' == Step(g, s, a);
      IssuedGrows(g, s, a);
      assert forall i :: 0 <= i < |before| ==> before[i] == run[i];
      RunKeeps(g, before);
      InstalledIsLast(g, before);
      InstalledStep(g, s, a);
    }
  }

  /** The key agreement itself: the keys that the server is about to use are the client's. */
  lemma AcceptedKeysAgree(g: Agreed, run: seq<State>, sent: Sent, bytes: seq<byte>)
    requires Sound(g.policy) && IsRun(g, run) && run[|run| - 1].issued < U32_LIMIT
    requires Chunk(bytes, sent) in run[|run| - 1].requests
    ensures var s := run[|run| - 1];
            var accepted := Accept(g.derive, s.server, sent.token.id);
            && (accepted.Some? <==> sent.token.id == s.issued || sent.token.id == LastToken(s.received))
            && (accepted.Some? ==> accepted.value.tokenId == sent.token.id && accepted.value.keys == sent.token.keys)
  {
    RunKeeps(g, run);
    InstalledIsLast(g, run);
    hide WireChunk, PlanFor, Sound;
    assert GoodSent(g, run[|run| - 1], Chunk(bytes, sent));
  }

  /** The key derivation of the program: the nonce of one end is the secret, that of the other the seed. */
  ghost function Derivation(hmac: Nonce -> Mac, size: nat, sizes: KeySizes): (derive: Derive)
    requires forall secret :: FixedSize(hmac(secret), size)
  {
    (secret, seed) => Cut(Stream(hmac(secret), seed, size, sizes.signing + sizes.encrypting + sizes.iv), sizes)
  }

  /** Keys `k` are the stream of `sizes` under secret and seed, cut in three. */
  ghost predicate CutFrom(hmac: Nonce -> Mac, size: nat, sizes: KeySizes, secret: Nonce, seed: Nonce, k: Keys)
    requires FixedSize(hmac(secret), size)
  {
    && |k.signing| == sizes.signing && |k.encrypting| == sizes.encrypting && |k.iv| == sizes.iv
    && k.signing + k.encrypting + k.iv == Stream(hmac(secret), seed, size, sizes.signing + sizes.encrypting + sizes.iv)
  }

  lemma DerivedCut(hmac: Nonce -> Mac, size: nat, sizes: KeySizes, secret: Nonce, seed: Nonce)
    requires forall secret :: FixedSize(hmac(secret), size)
    ensures CutFrom(hmac, size, sizes, secret, seed, Derivation(hmac, size, sizes)(secret, seed))
  {
    hide FixedSize, Stream;
  }

  lemma SentKeys(g: Agreed, run: seq<State>, sent: Sent, bytes: seq<byte>)
    requires Sound(g.policy) && IsRun(g, run) && run[|run| - 1].issued < U32_LIMIT
    requires Chunk(bytes, sent) in run[|run| - 1].requests
    ensures KeysOf(g, run[|run| - 1], sent.token.id, sent.token.keys)
  {
    RunKeeps(g, run);
    hide WireChunk, PlanFor, Sound;
    assert GoodSent(g, run[|run| - 1], Chunk(bytes, sent));
  }

  /** With that derivation, the keys of an accepted chunk are the stream of its nonces, the server's as the secret. */
  lemma AcceptedKeysAreStream(g: Agreed, hmac: Nonce -> Mac, size: nat, sizes: KeySizes, run: seq<State>, sent: Sent,
                              bytes: seq<byte>)
    requires Sound(g.policy) && IsRun(g, run) && run[|run| - 1].issued < U32_LIMIT
    requires Chunk(bytes, sent) in run[|run| - 1].requests
    requires (forall secret :: FixedSize(hmac(secret), size)) && g.derive == Derivation(hmac, size, sizes)
    ensures var s, t := run[|run| - 1], sent.token.id;
            var accepted := Accept(g.derive, s.server, t);
            accepted.Some? ==>
              && accepted.value.keys == sent.token.keys && t in s.nonces
              && CutFrom(hmac, size, sizes, s.nonces[t].1, s.nonces[t].0, accepted.value.keys)
  {
    hide Sound, Follows, FixedSize, CutFrom, Derivation, Accept;
    AcceptedKeysAgree(g, run, sent, bytes);
    SentKeys(g, run, sent, bytes);
    var pair := run[|run| - 1].nonces[sent.token.id];
    DerivedCut(hmac, size, sizes, pair.1, pair.0);
  }

  /**
   * In every run a chunk is refused if and only if its token is neither the last one issued nor the one of the
   * chunk before it.
   */
  lemma RefusedIff(g: Agreed, run: seq<State>, serverNonce: Nonce)
    requires Sound(g.policy) && IsRun(g, run) && run[|run| - 1].issued < U32_LIMIT
    requires var s := run[|run| - 1]; !s.refused && s.requests != [] && s.requests[0].Chunk?
    ensures var s := run[|run| - 1];
            var t := s.requests[0].sent.token.id;
            Step(g, s, Serve(serverNonce)).refused <==> t != s.issued && t != LastToken(s.received)
  {
    hide WireChunk, PlanFor, Sound, GetU32, ReadChunk;
    RunKeeps(g, run);
    InstalledIsLast(g, run);
    TokenOnTheWire(g, run[|run| - 1]);
  }

  // ------------------------------------------------------------------ when nothing is refused

  /**
   * The discipline under which no chunk is refused: a renewal is started only when none is under way
   * and the current token has already been used for a chunk.
   */
  predicate Disciplined(s: State, a: Action)
  {
    a.Renew? ==>
      && s.client.sendingTokenId == s.client.tokenId
      && s.responses == []
      && forall m :: m in s.requests ==> m.Chunk?
  }

  ghost predicate IsOrderlyRun(g: Agreed, run: seq<State>)
    requires Sound(g.policy)
  {
    && |run| > 0 && run[0] == Start()
    && forall i :: 0 < i < |run| ==> FollowsOrderly(g, run[i - 1], run[i])
  }

  ghost predicate FollowsOrderly(g: Agreed, s: State, s': State)
    requires Sound(g.policy)
  {
    exists a :: Enabled(g, s, a) && Disciplined(s, a) && s' == Step(g, s, a)
  }

  /** Message `i` is a chunk under token `t`. */
  predicate ChunkUnder(q: seq<ToServer>, i: nat, t: u32)
  {
    i < |q| && q[i].Chunk? && q[i].sent.token.id == t
  }

  /** The server's installed token, or a chunk that will install it, is the client's current one. */
  ghost predicate UsedBefore(s: State, j: nat)
  {
    s.server.tokenId == s.client.tokenId || exists i :: 0 <= i < j && ChunkUnder(s.requests, i, s.client.tokenId)
  }

  /** The order of tokens in the queue of an orderly run. */
  ghost predicate Ordered(s: State)
  {
    var q, installed, current := s.requests, s.server.tokenId, s.client.tokenId;
    && (forall i, j :: 0 <= i < j < |q| ==> q[i].Chunk? || q[j].Chunk?)
    && (forall i :: 0 <= i < |q| && q[i].Chunk? ==> ChunkUnder(q, i, installed) || ChunkUnder(q, i, current))
    && (forall i, j :: 0 <= i < j < |q| && q[j].Chunk? && (q[i].OpenRequest? || ChunkUnder(q, i, current)) ==>
          ChunkUnder(q, j, current))
    && (forall j :: 0 <= j < |q| && q[j].OpenRequest? ==> UsedBefore(s, j))
  }

  ghost predicate Orderly(s: State)
  {
    && !s.refused
    && Ordered(s)
    && s.client.sendingTokenId <= s.client.tokenId
    && (s.client.sendingTokenId == s.client.tokenId ==> UsedBefore(s, |s.requests|))
    && (s.responses == [] ==> s.client.tokenId == s.issued)
    && (s.responses != [] ==>
          && |s.responses| == 1 && s.responses[0].tokenId == s.issued
          && s.client.tokenId == s.server.tokenId == s.issued - 1
          && forall m :: m in s.requests ==> m.Chunk?)
  }

  /** The token that the server reads out of a chunk is the one that the client wrote into it. */
  lemma TokenOnTheWire(g: Agreed, s: State)
    requires Sound(g.policy) && Inv(g, s) && s.requests != [] && s.requests[0].Chunk?
    ensures var m := s.requests[0];
            |m.bytes| >= HEADER && GetU32(m.bytes[12..]) == m.sent.token.id
  {
    var sent := s.requests[0].sent;
    hide WireChunk, PlanFor, Sound, GetU32;
    assert GoodSent(g, s, s.requests[0]);
    WireHeader(g.policy, sent.token.keys, sent.plan, sent.envelope, sent.piece);
  }

  lemma ChunkServedOrderly(g: Agreed, s: State, a: Action)
    requires Sound(g.policy) && Inv(g, s) && Orderly(s)
    requires a.Serve? && Enabled(g, s, a) && s.requests[0].Chunk?
    ensures Orderly(Step(g, s, a))
  {
    TokenOnTheWire(g, s);
    hide WireChunk, PlanFor, Sound, GetU32, ReadChunk;
    var s' := Step(g, s, a);
    var q, q' := s.requests, s'.requests;
    assert ChunkUnder(q, 0, s.server.tokenId) || ChunkUnder(q, 0, s.client.tokenId);
    assert forall i :: 0 <= i < |q'| ==> q'[i] == q[i + 1];
    assert forall i, t :: 0 <= i < |q'| ==> ChunkUnder(q', i, t) == ChunkUnder(q, i + 1, t);
    assert s.server.pendingTokenId == s.issued;
    UsedShifts(s, s');
  }

  /** Taking the head of the queue keeps its token in use: as the installed one, or further back. */
  lemma UsedShifts(s: State, s': State)
    requires s.requests != [] && s'.requests == s.requests[1..] && s'.client == s.client
    requires s.requests[0].Chunk?
    requires s'.server.tokenId == s.server.tokenId || s'.server.tokenId == s.client.tokenId
    requires s.requests[0].sent.token.id == s.client.tokenId ==> s'.server.tokenId == s.client.tokenId
    ensures forall j :: 0 <= j < |s.requests| && UsedBefore(s, j + 1) ==> UsedBefore(s', j)
  {
    forall j | 0 <= j < |s.requests| && UsedBefore(s, j + 1)
      ensures UsedBefore(s', j)
    {
      if s.server.tokenId != s.client.tokenId {
        var i :| 0 <= i < j + 1 && ChunkUnder(s.requests, i, s.client.tokenId);
        if i > 0 {
          assert s'.requests[i - 1] == s.requests[i];
          assert ChunkUnder(s'.requests, i - 1, s.client.tokenId);
        }
      }
    }
  }

  lemma OpenServedOrderly(g: Agreed, s: State, a: Action)
    requires Sound(g.policy) && Inv(g, s) && Orderly(s) && s.issued + 1 < U32_LIMIT
    requires a.Serve? && Enabled(g, s, a) && s.requests[0].OpenRequest?
    ensures Orderly(Step(g, s, a))
  {
    hide WireChunk, PlanFor, Sound;
    var s' := Step(g, s, a);
    var q, q' := s.requests, s'.requests;
    assert UsedBefore(s, 0);
    assert forall i :: 0 <= i < |q'| ==> q'[i] == q[i + 1];
    assert forall i :: 0 <= i < |q'| ==> ChunkUnder(q', i, s.client.tokenId);
    assert s.responses == [];
  }

  lemma SentOrderly(g: Agreed, s: State, a: Action)
    requires Sound(g.policy) && Inv(g, s) && Orderly(s) && a.Send? && Enabled(g, s, a)
    ensures Orderly(Step(g, s, a))
  {
    hide WireChunk, PlanFor, Sound;
    var s' := Step(g, s, a);
    var q, q' := s.requests, s'.requests;
    assert forall i :: 0 <= i < |q| ==> q'[i] == q[i];
    assert forall i, t :: 0 <= i < |q| ==> ChunkUnder(q', i, t) == ChunkUnder(q, i, t);
    assert ChunkUnder(q', |q|, s.client.tokenId);
    UsedStays(s, s');
  }

  lemma UsedStays(s: State, s': State)
    requires s.requests <= s'.requests && s'.server == s.server && s'.client.tokenId == s.client.tokenId
    ensures forall j :: 0 <= j <= |s.requests| && UsedBefore(s, j) ==> UsedBefore(s', j)
  {
    forall j | 0 <= j <= |s.requests| && UsedBefore(s, j)
      ensures UsedBefore(s', j)
    {
      if s.server.tokenId != s.client.tokenId {
        var i :| 0 <= i < j && ChunkUnder(s.requests, i, s.client.tokenId);
        assert ChunkUnder(s'.requests, i, s.client.tokenId);
      }
    }
  }

  lemma RenewalOrderly(g: Agreed, s: State, a: Action)
    requires Sound(g.policy) && Inv(g, s) && Orderly(s) && a.Renew? && Disciplined(s, a)
    ensures Orderly(Step(g, s, a))
  {
    hide WireChunk, PlanFor, Sound, Inv, UsedBefore;
    var s' := Step(g, s, a);
    var q, q' := s.requests, s'.requests;
    assert forall i :: 0 <= i < |q| ==> q'[i] == q[i] && q[i] in q;
    assert forall i, t :: 0 <= i < |q| ==> ChunkUnder(q', i, t) == ChunkUnder(q, i, t);
    UsedStays(s, s');
    UsedLater(s', |q|);
  }

  lemma UsedLater(s: State, j: nat)
    requires UsedBefore(s, j)
    ensures UsedBefore(s, j + 1)
  {
  }

  lemma InstallOrderly(g: Agreed, s: State, a: Action)
    requires Sound(g.policy) && Inv(g, s) && Orderly(s) && a.Install? && Enabled(g, s, a)
    ensures Orderly(Step(g, s, a))
  {
    hide WireChunk, PlanFor, Sound;
    var s' := Step(g, s, a);
    var q := s.requests;
    assert s'.responses == [];
    assert forall i :: 0 <= i < |q| ==> q[i] in q;
  }

  lemma {:induction false} OrderlyRunKeeps(g: Agreed, run: seq<State>)
    requires Sound(g.policy) && IsOrderlyRun(g, run) && run[|run| - 1].issued < U32_LIMIT
    ensures Inv(g, run[|run| - 1]) && Orderly(run[|run| - 1])
  {
    hide Inv, Step, Sound, Orderly;
    if |run| == 1 {
      StartInv(g);
      StartOrderly();
    } else {
      var before := run[..|run| - 1];
      var s, s' := run[|run| - 2], run[|run| - 1];
      assert FollowsOrderly(g, run[|run| - 1 - 1], run[|run| - 1]);
      var a :| Enabled(g, s, a) && Disciplined(s, a) && s' == Step(g, s, a);
      IssuedGrows(g, s, a);
      assert forall i :: 0 <= i < |before| ==> before[i] == run[i];
      OrderlyRunKeeps(g, before);
      StepKeeps(g, s, a);
      OrderlyStep(g, s, a);
    }
  }

  lemma OrderlyStep(g: Agreed, s: State, a: Action)
    requires Sound(g.policy) && Inv(g, s) && Orderly(s) && Enabled(g, s, a) && Disciplined(s, a)
    requires Step(g, s, a).issued < U32_LIMIT
    ensures Orderly(Step(g, s, a))
  {
    hide Inv, Sound, Orderly, WireChunk, Disciplined;
    match a
    case Renew(_) => RenewalOrderly(g, s, a);
    case Send(_, _, _, _, _) => SentOrderly(g, s, a);
    case Serve(_) =>
      if s.requests[0].OpenRequest? {
        OpenServedOrderly(g, s, a);
      } else {
        ChunkServedOrderly(g, s, a);
      }
    case Install(_) => InstallOrderly(g, s, a);
  }

  lemma StartOrderly()
    ensures Orderly(Start())
  {
  }

  /** In a disciplined run every chunk is accepted, whatever the network and the server delay. */
  lemma OrderlyRunsAreNeverRefused(g: Agreed, run: seq<State>)
    requires Sound(g.policy) && IsOrderlyRun(g, run) && run[|run| - 1].issued < U32_LIMIT
    ensures !run[|run| - 1].refused
    ensures forall r :: r in run[|run| - 1].received ==> ReadBack(r)
  {
    OrderlyRunKeeps(g, run);
  }

  // ------------------------------------------------------------------ the discipline is exact

  /** A run from `s` on in which no further renewal is started. */
  ghost predicate Continues(g: Agreed, s: State, more: seq<State>)
    requires Sound(g.policy)
  {
    && |more| > 0 && more[0] == s
    && forall i :: 0 < i < |more| ==> FollowsQuietly(g, more[i - 1], more[i])
  }

  ghost predicate FollowsQuietly(g: Agreed, s: State, s': State)
    requires Sound(g.policy)
  {
    exists a: Action :: !a.Renew? && Enabled(g, s, a) && s' == Step(g, s, a)
  }

  /** Sending, serving and installing can lead to a refusal. */
  ghost predicate CanBeRefused(g: Agreed, s: State)
    requires Sound(g.policy)
  {
    exists more: seq<State> :: Continues(g, s, more) && more[|more| - 1].refused && more[|more| - 1].issued < U32_LIMIT
  }

  lemma RefusedLater(g: Agreed, s: State, a: Action)
    requires Sound(g.policy) && Enabled(g, s, a) && !a.Renew? && CanBeRefused(g, Step(g, s, a))
    ensures CanBeRefused(g, s)
  {
    hide Step, Enabled, Sound;
    var s1 := Step(g, s, a);
    var more: seq<State> :| Continues(g, s1, more) && more[|more| - 1].refused && more[|more| - 1].issued < U32_LIMIT;
    var longer := [s] + more;
    assert FollowsQuietly(g, s, s1);
    forall i | 0 < i < |longer|
      ensures FollowsQuietly(g, longer[i - 1], longer[i])
    {
      assert longer[i] == more[i - 1];
      assert i > 1 ==> longer[i - 1] == more[i - 1 - 1];
    }
    assert Continues(g, s, longer);
  }

  lemma RefusedNow(g: Agreed, s: State)
    requires Sound(g.policy) && s.refused && s.issued < U32_LIMIT
    ensures CanBeRefused(g, s)
  {
    assert Continues(g, s, [s]);
  }

  function Opens(q: seq<ToServer>): (n: nat)
  {
    if q == [] then 0 else (if q[0].OpenRequest? then 1 else 0) + Opens(q[1..])
  }

  lemma {:induction false} OpensMore(q: seq<ToServer>, m: ToServer)
    ensures Opens(q + [m]) == Opens(q) + if m.OpenRequest? then 1 else 0
  {
    if q != [] {
      assert (q + [m])[1..] == q[1..] + [m];
      OpensMore(q[1..], m);
    } else {
      assert (q + [m])[1..] == [];
    }
  }

  lemma {:induction false} OpensNone(q: seq<ToServer>)
    ensures Opens(q) == 0 <==> forall m :: m in q ==> m.Chunk?
  {
    if q != [] {
      OpensNone(q[1..]);
      assert q[0] in q;
      assert forall m :: m in q[1..] ==> m in q;
      assert forall m :: m in q ==> m == q[0] || m in q[1..];
    }
  }

  lemma {:induction false} OpensOne(q: seq<ToServer>)
    requires forall i, j :: 0 <= i < j < |q| ==> q[i].Chunk? || q[j].Chunk?
    ensures Opens(q) <= 1
  {
    if q != [] {
      if q[0].OpenRequest? {
        forall m | m in q[1..]
          ensures m.Chunk?
        {
          var i :| 0 <= i < |q[1..]| && q[1..][i] == m;
          assert q[i + 1] == m;
        }
        OpensNone(q[1..]);
      } else {
        forall i, j | 0 <= i < j < |q[1..]|
          ensures q[1..][i].Chunk? || q[1..][j].Chunk?
        {
          assert q[i + 1] == q[1..][i] && q[j + 1] == q[1..][j];
        }
        OpensOne(q[1..]);
      }
    }
  }

  /** `t` is installed, or a chunk on its way will install it. */
  ghost predicate Seen(s: State, t: u32)
  {
    t == s.server.tokenId || exists m :: m in s.requests && m.Chunk? && m.sent.token.id == t
  }

  /** What is known of a state that a drain of the queue leads to. */
  ghost predicate Drained(s: State, s': State)
  {
    && s'.requests == [] && !s'.refused && s'.client == s.client && s'.issued == s.issued + Opens(s.requests)
    && s.responses <= s'.responses && Seen(s, s'.server.tokenId)
    && (Opens(s.requests) > 0 ==>
          |s'.responses| > |s.responses| && s'.responses[|s.responses|].tokenId == s.issued + 1)
  }

  lemma ServeOne(g: Agreed, s: State, nonce: Nonce)
    requires Sound(g.policy) && Inv(g, s) && s.requests != [] && !s.refused && s.issued + Opens(s.requests) < U32_LIMIT
    ensures var s1 := Step(g, s, Serve(nonce));
            && s1.requests == s.requests[1..] && s1.client == s.client
            && s1.issued + Opens(s1.requests) == s.issued + Opens(s.requests)
            && (s.requests[0].Chunk? ==> s1.responses == s.responses)
            && (s.requests[0].OpenRequest? ==>
                  !s1.refused && |s1.responses| == |s.responses| + 1 && s.responses <= s1.responses
                  && s1.responses[|s.responses|].tokenId == s.issued + 1 && s1.server.tokenId == s.server.tokenId)
            && (!s1.refused ==> Seen(s, s1.server.tokenId) && Inv(g, s1))
  {
    hide WireChunk, PlanFor, Sound, GetU32, ReadChunk;
    var s1 := Step(g, s, Serve(nonce));
    if s.requests[0].Chunk? {
      TokenOnTheWire(g, s);
      assert s.requests[0] in s.requests;
    }
    hide Inv, Step;
    StepKeeps(g, s, Serve(nonce));
  }

  /** Serving the whole queue meets a refusal on the way, or ends with the queue empty. */
  lemma {:induction false} Drain(g: Agreed, s: State, nonce: Nonce)
    requires Sound(g.policy) && Inv(g, s) && !s.refused && s.issued + Opens(s.requests) < U32_LIMIT
    requires forall s' :: Drained(s, s') && Inv(g, s') ==> CanBeRefused(g, s')
    ensures CanBeRefused(g, s)
    decreases |s.requests|
  {
    hide Step, Inv, CanBeRefused, Sound;
    if s.requests == [] {
      assert Drained(s, s);
    } else {
      var s1 := Step(g, s, Serve(nonce));
      ServeOne(g, s, nonce);
      if s1.refused {
        RefusedNow(g, s1);
      } else {
        forall s' | Drained(s1, s') && Inv(g, s')
          ensures CanBeRefused(g, s')
        {
          DrainedOnce(s, s1, s');
        }
        Drain(g, s1, nonce);
      }
      RefusedLater(g, s, Serve(nonce));
    }
  }

  lemma DrainedOnce(s: State, s1: State, s': State)
    requires s.requests != [] && s1.requests == s.requests[1..] && s1.client == s.client && Drained(s1, s')
    requires s1.issued + Opens(s1.requests) == s.issued + Opens(s.requests) && Seen(s, s1.server.tokenId)
    requires s.requests[0].Chunk? ==> s1.responses == s.responses
    requires s.requests[0].OpenRequest? ==>
               |s1.responses| == |s.responses| + 1 && s.responses <= s1.responses
               && s1.responses[|s.responses|].tokenId == s.issued + 1 && s1.server.tokenId == s.server.tokenId
    ensures Drained(s, s')
  {
    assert Seen(s, s'.server.tokenId) by {
      if s'.server.tokenId != s1.server.tokenId {
        var m :| m in s1.requests && m.Chunk? && m.sent.token.id == s'.server.tokenId;
        assert m in s.requests;
      }
    }
    if s.requests[0].OpenRequest? {
      assert s'.responses[|s.responses|] == s1.responses[|s.responses|];
    }
  }

  /** The tokens that the server has seen are not beyond the one that the client last sent under. */
  ghost predicate Behind(s: State)
  {
    && s.server.tokenId <= s.client.sendingTokenId
    && forall m :: m in s.requests && m.Chunk? ==> m.sent.token.id <= s.client.sendingTokenId
  }

  lemma BehindStep(g: Agreed, s: State, a: Action)
    requires Sound(g.policy) && Inv(g, s) && Orderly(s) && Behind(s) && Enabled(g, s, a)
    ensures Behind(Step(g, s, a))
  {
    hide WireChunk, PlanFor, Sound, GetU32, ReadChunk, Inv, Ordered, UsedBefore;
    var s' := Step(g, s, a);
    if a.Serve? {
      assert s.requests[0] in s.requests;
      assert forall m :: m in s'.requests ==> m in s.requests;
      if s.requests[0].Chunk? {
        TokenOnTheWire(g, s);
      }
    } else if a.Send? {
      assert s'.client.sendingTokenId == s.client.tokenId;
      assert forall m :: m in s'.requests ==> m in s.requests || m.sent.token.id == s.client.tokenId;
    }
  }

  lemma {:induction false} OrderlyBehind(g: Agreed, run: seq<State>)
    requires Sound(g.policy) && IsOrderlyRun(g, run) && run[|run| - 1].issued < U32_LIMIT
    ensures Behind(run[|run| - 1])
  {
    hide Inv, Step, Sound, Orderly, Behind, Enabled;
    if |run| == 1 {
      StartBehind();
    } else {
      var before := run[..|run| - 1];
      var s, s' := run[|run| - 2], run[|run| - 1];
      assert FollowsOrderly(g, run[|run| - 1 - 1], run[|run| - 1]);
      var a :| Enabled(g, s, a) && Disciplined(s, a) && s' == Step(g, s, a);
      IssuedGrows(g, s, a);
      assert forall i :: 0 <= i < |before| ==> before[i] == run[i];
      OrderlyRunKeeps(g, before);
      OrderlyBehind(g, before);
      BehindStep(g, s, a);
    }
  }

  lemma StartBehind()
    ensures Behind(Start())
  {
  }

  /** A chunk under a token that is neither the last one issued nor installed is refused when it is served. */
  lemma StaleIsRefused(g: Agreed, s: State, nonce: Nonce, plan: Plan, piece: seq<byte>)
    requires Sound(g.policy) && Inv(g, s) && PlanFor(g.policy, plan, |piece|) && s.requests == [] && !s.refused
    requires s.client.tokenId != 0 && s.client.tokenId != s.server.tokenId && s.client.tokenId != s.issued < U32_LIMIT
    ensures CanBeRefused(g, s)
  {
    hide WireChunk, PlanFor, Sound, GetU32, ReadChunk, CanBeRefused;
    var send := Send(plan, true, 1, 1, piece);
    var s1 := Step(g, s, send);
    SendKeeps(g, s, send);
    TokenOnTheWire(g, s1);
    var s2 := Step(g, s1, Serve(nonce));
    RefusedNow(g, s2);
    RefusedLater(g, s1, Serve(nonce));
    RefusedLater(g, s, send);
  }

  /** After an undisciplined renewal and a drain, a chunk can be sent under a token that was passed over. */
  lemma PassedOver(g: Agreed, s: State, nonce: Nonce, plan: Plan, piece: seq<byte>, s': State)
    requires Sound(g.policy) && PlanFor(g.policy, plan, |piece|) && s.issued + 2 < U32_LIMIT
    requires Inv(g, s) && Orderly(s) && Behind(s) && !Disciplined(s, Renew(nonce))
    requires Drained(s.(requests := s.requests + [OpenRequest(nonce)]), s') && Inv(g, s')
    ensures CanBeRefused(g, s')
  {
    hide WireChunk, PlanFor, Sound, GetU32, ReadChunk, CanBeRefused, UsedBefore, Inv, IsOrderlyRun;
    var s1 := s.(requests := s.requests + [OpenRequest(nonce)]);
    OpensMore(s.requests, OpenRequest(nonce));
    OpensNone(s.requests);
    OpensOne(s.requests);
    SeenBefore(s, s1, s'.server.tokenId);
    if s.responses == [] && Opens(s.requests) == 0 {
      StaleIsRefused(g, s', nonce, plan, piece);
    } else {
      var s2 := Step(g, s', Install(0));
      assert s'.responses[0].tokenId == s.issued + Opens(s.requests);
      InstallKeeps(g, s');
      StaleIsRefused(g, s2, nonce, plan, piece);
      RefusedLater(g, s', Install(0));
    }
  }

  lemma SeenBefore(s: State, s1: State, t: u32)
    requires Orderly(s) && Behind(s) && Seen(s1, t)
    requires s1.server == s.server && exists n :: s1.requests == s.requests + [OpenRequest(n)]
    ensures t <= s.client.sendingTokenId
    ensures s.responses != [] ==> t == s.client.tokenId
  {
    hide UsedBefore;
    if t != s.server.tokenId {
      var m :| m in s1.requests && m.Chunk? && m.sent.token.id == t;
      assert m in s.requests;
      var i :| 0 <= i < |s.requests| && s.requests[i] == m;
      assert ChunkUnder(s.requests, i, s.server.tokenId) || ChunkUnder(s.requests, i, s.client.tokenId);
    }
  }

  lemma InstallKeeps(g: Agreed, s: State)
    requires Sound(g.policy) && Inv(g, s) && s.responses != [] && s.issued < U32_LIMIT
    ensures Inv(g, Step(g, s, Install(0))) && s.responses[0].tokenId != 0
  {
    hide WireChunk, PlanFor, Sound;
    assert s.responses[0] in s.responses;
    OtherKeeps(g, s, Install(0));
  }

  /** A quiet continuation of an orderly run is orderly. */
  lemma OrderlyContinues(g: Agreed, run: seq<State>, nonce: Nonce, more: seq<State>)
    requires Sound(g.policy) && IsOrderlyRun(g, run) && Disciplined(run[|run| - 1], Renew(nonce))
    requires Continues(g, Step(g, run[|run| - 1], Renew(nonce)), more)
    ensures IsOrderlyRun(g, run + more)
  {
    hide Step, Sound;
    var s, all := run[|run| - 1], run + more;
    assert Enabled(g, s, Renew(nonce));
    assert FollowsOrderly(g, s, more[0]);
    forall i | 0 < i < |all|
      ensures FollowsOrderly(g, all[i - 1], all[i])
    {
      if i < |run| {
        assert all[i - 1] == run[i - 1] && all[i] == run[i];
      } else if i > |run| {
        var j := i - |run|;
        assert all[i - 1] == more[j - 1] && all[i] == more[j];
        assert FollowsQuietly(g, more[j - 1], more[j]);
      }
    }
  }

  /**
   * In every state that an orderly run leads to, the discipline says exactly when a renewal is safe: it holds if
   * and only if no way of sending, serving and installing after the renewal leads to a refusal. Whichever part of
   * it is violated (an unused token, an outstanding response, a renewal under way), a chunk can be refused.
   */
  lemma DisciplineIsExact(g: Agreed, run: seq<State>, nonce: Nonce, plan: Plan, piece: seq<byte>)
    requires Sound(g.policy) && PlanFor(g.policy, plan, |piece|)
    requires IsOrderlyRun(g, run) && run[|run| - 1].issued + 2 < U32_LIMIT
    ensures Disciplined(run[|run| - 1], Renew(nonce)) <==> !CanBeRefused(g, Step(g, run[|run| - 1], Renew(nonce)))
  {
    hide Inv, Orderly, Behind, Sound, PlanFor, Disciplined, FollowsOrderly, FollowsQuietly;
    var s := run[|run| - 1];
    var s1 := Step(g, s, Renew(nonce));
    if Disciplined(s, Renew(nonce)) {
      forall more: seq<State> | Continues(g, s1, more) && more[|more| - 1].issued < U32_LIMIT
        ensures !more[|more| - 1].refused
      {
        OrderlyContinues(g, run, nonce, more);
        assert (run + more)[|run + more| - 1] == more[|more| - 1];
        OrderlyRunsAreNeverRefused(g, run + more);
      }
    } else {
      OrderlyRunKeeps(g, run);
      OrderlyBehind(g, run);
      RenewKeeps(g, s, nonce);
      forall s' | Drained(s1, s') && Inv(g, s')
        ensures CanBeRefused(g, s')
      {
        PassedOver(g, s, nonce, plan, piece, s');
      }
      Drain(g, s1, nonce);
    }
  }

  lemma RenewKeeps(g: Agreed, s: State, nonce: Nonce)
    requires Sound(g.policy) && Inv(g, s) && Orderly(s)
    ensures var s1 := Step(g, s, Renew(nonce));
            && s1 == s.(requests := s.requests + [OpenRequest(nonce)]) && Inv(g, s1) && !s1.refused
            && Opens(s1.requests) <= 2
  {
    hide UsedBefore, Sound;
    OtherKeeps(g, s, Renew(nonce));
    OpensMore(s.requests, OpenRequest(nonce));
    OpensOne(s.requests);
  }

  lemma ExtendRun(g: Agreed, run: seq<State>, a: Action) returns (longer: seq<State>)
    requires Sound(g.policy) && IsRun(g, run) && Enabled(g, run[|run| - 1], a)
    ensures IsRun(g, longer) && |longer| > 0 && longer[|longer| - 1] == Step(g, run[|run| - 1], a)
  {
    hide Step, Enabled, Sound;
    longer := run + [Step(g, run[|run| - 1], a)];
    assert Follows(g, run[|run| - 1], longer[|longer| - 1]);
    forall i | 0 < i < |longer|
      ensures Follows(g, longer[i - 1], longer[i])
    {
      assert i < |run| ==> longer[i] == run[i];
      assert longer[i - 1] == run[i - 1];
    }
  }

  /** A token has been issued and installed, and is about to be renewed before it was used. */
  lemma RenewsTooSoon(g: Agreed, nonce: Nonce) returns (run: seq<State>)
    requires Sound(g.policy)
    ensures IsRun(g, run) && |run| > 0
    ensures var s := run[|run| - 1];
            && s.client == Client(1, nonce, nonce, 0, NO_KEYS) && s.server == Server(0, 1, 1, nonce, nonce, NO_KEYS)
            && s.requests == [OpenRequest(nonce)] && !s.refused
  {
    hide WireChunk, PlanFor, Sound, GetU32, ReadChunk;
    run := [Start()];
    run := ExtendRun(g, run, Renew(nonce));
    run := ExtendRun(g, run, Serve(nonce));
    run := ExtendRun(g, run, Install(0));
    run := ExtendRun(g, run, Renew(nonce));
  }

  /**
   * The discipline is needed: when a token is renewed before it was used, a chunk that is still sent under it
   * is refused, although the client knows no other token yet.
   */
  lemma UnusedTokenIsRefused(g: Agreed, nonce: Nonce, plan: Plan, piece: seq<byte>) returns (run: seq<State>)
    requires Sound(g.policy) && PlanFor(g.policy, plan, |piece|)
    ensures IsRun(g, run) && run[|run| - 1].refused
    ensures run[|run| - 1].client.tokenId == 1 && run[|run| - 1].server.pendingTokenId == 2
  {
    hide WireChunk, PlanFor, Sound, GetU32, ReadChunk, IsRun, HEADER;
    run := RenewsTooSoon(g, nonce);
    run := ExtendRun(g, run, Send(plan, true, 1, 1, piece));
    var chunk := run[|run| - 1].requests[1];
    assert chunk.Chunk? && chunk.sent.envelope.tokenId == 1;
    run := ExtendRun(g, run, Serve(nonce));
    assert run[|run| - 1].requests == [chunk];
    var sent := chunk.sent;
    WireHeader(g.policy, sent.token.keys, plan, sent.envelope, piece);
    run := ExtendRun(g, run, Serve(nonce));
  }
}
