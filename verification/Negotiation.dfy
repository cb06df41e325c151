/**
 * The Hello/Acknowledge exchange (OPC UA Part 6, section 7.1.2) in the `Open` methods of the two
 * secure channels, and what it guarantees for every message that is sent afterwards.
 */
module Negotiation {
  import opened Bytes
  import opened Chunks

  datatype Hello = Hello(receiveBufferSize: u32, sendBufferSize: u32, maxMessageSize: u32, maxChunkCount: u32)

  datatype Ack = Ack(receiveBufferSize: u32, sendBufferSize: u32, maxMessageSize: u32, maxChunkCount: u32)

  /** The limits of one end of a channel. `pool` is the length of the pooled byte buffers. */
  datatype Limits = Limits(
    pool: u32,
    receiveBufferSize: u32,
    sendBufferSize: u32,
    maxRequestMessageSize: u32,
    maxRequestChunkCount: u32,
    maxResponseMessageSize: u32,
    maxResponseChunkCount: u32)

  /** The limits that one end is configured with. */
  datatype Config = Config(maxBufferSize: u32, maxMessageSize: u32, maxChunkCount: u32)

  function AfterHello(server: Limits, hello: Hello): (r: Limits)
  {
    server.(
      receiveBufferSize := Min(server.receiveBufferSize, hello.sendBufferSize),
      sendBufferSize := Min(server.sendBufferSize, hello.receiveBufferSize),
      maxResponseMessageSize := hello.maxMessageSize,
      maxResponseChunkCount := hello.maxChunkCount)
  }

  function AfterAck(client: Limits, ack: Ack): (r: Limits)
  {
    client.(
      sendBufferSize := ack.receiveBufferSize,
      receiveBufferSize := ack.sendBufferSize,
      maxRequestMessageSize := ack.maxMessageSize,
      maxRequestChunkCount := ack.maxChunkCount)
  }

  function Min(a: u32, b: u32): (r: u32)
  {
    if a > b then b else a
  }

  function HelloOf(c: Limits): (r: Hello)
  {
    Hello(c.receiveBufferSize, c.sendBufferSize, c.maxResponseMessageSize, c.maxResponseChunkCount)
  }

  function AckOf(s: Limits): (r: Ack)
  {
    Ack(s.receiveBufferSize, s.sendBufferSize, s.maxRequestMessageSize, s.maxRequestChunkCount)
  }

  function NewClient(c: Config): (r: Limits)
  {
    Limits(c.maxBufferSize, c.maxBufferSize, c.maxBufferSize, 0, 0, c.maxMessageSize, c.maxChunkCount)
  }

  function NewServer(c: Config): (r: Limits)
  {
    Limits(c.maxBufferSize, c.maxBufferSize, c.maxBufferSize, c.maxMessageSize, c.maxChunkCount, 0, 0)
  }

  /** The client end: `newClientSecureChannel` and the handshake part of its `Open`. */
  class ClientChannel {
    var limits: Limits

    constructor (c: Config)
      ensures limits == NewClient(c)
    {
      limits := Limits(c.maxBufferSize, c.maxBufferSize, c.maxBufferSize, 0, 0, c.maxMessageSize, c.maxChunkCount);
    }

    method WriteHello() returns (hello: Hello)
      ensures hello == HelloOf(limits)
    {
      hello := Hello(limits.receiveBufferSize, limits.sendBufferSize,
                     limits.maxResponseMessageSize, limits.maxResponseChunkCount);
    }

    /** Reads the remote receive size into the local send size, and the other way round. */
    method ReadAck(ack: Ack)
      modifies this
      ensures limits == AfterAck(old(limits), ack)
    {
      limits := limits.(sendBufferSize := ack.receiveBufferSize);
      limits := limits.(receiveBufferSize := ack.sendBufferSize);
      limits := limits.(maxRequestMessageSize := ack.maxMessageSize);
      limits := limits.(maxRequestChunkCount := ack.maxChunkCount);
    }
  }

  /** The server end: `newServerSecureChannel` and the handshake part of its `Open`. */
  class ServerChannel {
    var limits: Limits
    var sendBuffer: array<byte>
    var receiveBuffer: array<byte>

    constructor (c: Config)
      ensures limits == NewServer(c)
    {
      limits := Limits(c.maxBufferSize, c.maxBufferSize, c.maxBufferSize, c.maxMessageSize, c.maxChunkCount, 0, 0);
      sendBuffer, receiveBuffer := new byte[0], new byte[0];
    }

    method Open(hello: Hello) returns (ack: Ack)
      modifies this
      ensures limits == AfterHello(old(limits), hello) && ack == AckOf(limits)
      ensures sendBuffer.Length == limits.sendBufferSize && receiveBuffer.Length == limits.receiveBufferSize
    {
      if limits.receiveBufferSize > hello.sendBufferSize {
        limits := limits.(receiveBufferSize := hello.sendBufferSize);
      }
      if limits.sendBufferSize > hello.receiveBufferSize {
        limits := limits.(sendBufferSize := hello.receiveBufferSize);
      }
      limits := limits.(maxResponseMessageSize := hello.maxMessageSize);
      limits := limits.(maxResponseChunkCount := hello.maxChunkCount);
      ack := Ack(limits.receiveBufferSize, limits.sendBufferSize,
                 limits.maxRequestMessageSize, limits.maxRequestChunkCount);
      sendBuffer := new byte[limits.sendBufferSize];
      receiveBuffer := new byte[limits.receiveBufferSize];
    }
  }

  /** The two ends after the exchange. */
  function Connect(client: Config, server: Config): (r: (Limits, Limits))
  {
    var s := AfterHello(NewServer(server), HelloOf(NewClient(client)));
    (AfterAck(NewClient(client), AckOf(s)), s)
  }

  /**
   * The sizes agree crosswise, no end may send more than the buffer that the chunk is built in and
   * the buffer that it is received in, and both ends know the same message limits.
   */
  lemma ConnectAgrees(client: Config, server: Config)
    ensures var (c, s) := Connect(client, server);
            && c.sendBufferSize == s.receiveBufferSize == Min(client.maxBufferSize, server.maxBufferSize)
            && c.receiveBufferSize == s.sendBufferSize == Min(client.maxBufferSize, server.maxBufferSize)
            && c.sendBufferSize <= c.pool && s.sendBufferSize <= c.pool
            && c.maxRequestMessageSize == s.maxRequestMessageSize == server.maxMessageSize
            && c.maxRequestChunkCount == s.maxRequestChunkCount == server.maxChunkCount
            && s.maxResponseMessageSize == c.maxResponseMessageSize == client.maxMessageSize
            && s.maxResponseChunkCount == c.maxResponseChunkCount == client.maxChunkCount
  {
  }

  /**
   * The same for any limits, also where the two directions differ: each direction gets the smaller of what one end
   * can send and the other can receive, and the limits on a message are those of the end that receives it.
   */
  lemma ExchangeAgrees(client: Limits, server: Limits)
    ensures var s := AfterHello(server, HelloOf(client));
            var c := AfterAck(client, AckOf(s));
            && c.sendBufferSize == s.receiveBufferSize && c.receiveBufferSize == s.sendBufferSize
            && s.receiveBufferSize <= server.receiveBufferSize && s.receiveBufferSize <= client.sendBufferSize
            && s.receiveBufferSize in {server.receiveBufferSize, client.sendBufferSize}
            && s.sendBufferSize <= server.sendBufferSize && s.sendBufferSize <= client.receiveBufferSize
            && s.sendBufferSize in {server.sendBufferSize, client.receiveBufferSize}
            && c.maxRequestMessageSize == s.maxRequestMessageSize == server.maxRequestMessageSize
            && c.maxRequestChunkCount == s.maxRequestChunkCount == server.maxRequestChunkCount
            && s.maxResponseMessageSize == c.maxResponseMessageSize == client.maxResponseMessageSize
            && s.maxResponseChunkCount == c.maxResponseChunkCount == client.maxResponseChunkCount
            && c.pool == client.pool && s.pool == server.pool
  {
  }

  /** The whole exchange, for any two configurations: what either end may send, the other can hold and accepts. */
  method Handshake(client: Config, server: Config) returns (c: ClientChannel, s: ServerChannel)
    ensures fresh(c) && fresh(s)
    ensures c.limits.sendBufferSize == s.limits.receiveBufferSize == s.receiveBuffer.Length <= c.limits.pool
    ensures s.limits.sendBufferSize == c.limits.receiveBufferSize == s.sendBuffer.Length <= c.limits.pool
    ensures c.limits.maxRequestMessageSize == s.limits.maxRequestMessageSize == server.maxMessageSize
    ensures c.limits.maxRequestChunkCount == s.limits.maxRequestChunkCount == server.maxChunkCount
    ensures s.limits.maxResponseMessageSize == c.limits.maxResponseMessageSize == client.maxMessageSize
    ensures s.limits.maxResponseChunkCount == c.limits.maxResponseChunkCount == client.maxChunkCount
    ensures (c.limits, s.limits) == Connect(client, server)
  {
    c := new ClientChannel(client);
    s := new ServerChannel(server);
    var hello := c.WriteHello();
    var ack := s.Open(hello);
    c.ReadAck(ack);
    ConnectAgrees(client, server);
  }

  function RequestSender(c: Limits, channelId: u32): (r: Sender)
  {
    Sender(ClientSide, channelId, c.sendBufferSize, c.maxRequestMessageSize, c.maxRequestChunkCount, c.pool)
  }

  function RequestReceiver(s: Limits, channelId: u32): (r: Receiver)
  {
    Receiver(ServerSide, channelId, s.maxRequestMessageSize, s.maxRequestChunkCount, s.receiveBufferSize)
  }

  function ResponseSender(s: Limits, channelId: u32): (r: Sender)
  {
    Sender(ServerSide, channelId, s.sendBufferSize, s.maxResponseMessageSize, s.maxResponseChunkCount, s.sendBufferSize)
  }

  function ResponseReceiver(c: Limits, channelId: u32): (r: Receiver)
  {
    Receiver(ClientSide, channelId, c.maxResponseMessageSize, c.maxResponseChunkCount, c.pool)
  }

  /**
   * After any Hello/Acknowledge, a request whose sending succeeds arrives exactly, each of its chunks
   * fits the client's send buffer and the server's receive buffer, and the server refuses none of them.
   */
  lemma RequestsArrive(client: Config, server: Config, p: Policy, channelId: u32, tokens: Tokens, requestId: u32,
      body: seq<byte>, last: u32, later: seq<seq<byte>>)
    requires Sound(p) && body != []
    ensures var (c, s) := Connect(client, server);
            Ends(p, RequestSender(c, channelId)) ==>
            var (status, wire) := Send(p, RequestSender(c, channelId), tokens, requestId, body, last);
            status == Good ==>
              && ReceiveFrom(p, RequestReceiver(s, channelId), tokens, wire + later, 0, [])
                 == Ok(Message(requestId, body, later))
              && forall j :: 0 <= j < |wire| ==> |wire[j]| <= c.pool && |wire[j]| <= s.receiveBufferSize
  {
    hide SendFrom, ReceiveFrom, MaxBodySize, Sound, EmptyStatus;
    HasBlocks(p);
    var (c, s) := Connect(client, server);
    var sender := RequestSender(c, channelId);
    MessageRoundTrip(p, sender, RequestReceiver(s, channelId), tokens, requestId, body, last, later);
    if Ends(p, sender) && Send(p, sender, tokens, requestId, body, last).0 == Good {
      SentShape(p, sender, tokens, requestId, body, 0, last);
    }
  }

  /** The same for responses, which the server cuts by the limits of the client. */
  lemma ResponsesArrive(client: Config, server: Config, p: Policy, channelId: u32, tokens: Tokens, requestId: u32,
      body: seq<byte>, last: u32, later: seq<seq<byte>>)
    requires Sound(p) && body != []
    ensures var (c, s) := Connect(client, server);
            Ends(p, ResponseSender(s, channelId)) ==>
            var (status, wire) := Send(p, ResponseSender(s, channelId), tokens, requestId, body, last);
            status == Good ==>
              && ReceiveFrom(p, ResponseReceiver(c, channelId), tokens, wire + later, 0, [])
                 == Ok(Message(requestId, body, later))
              && forall j :: 0 <= j < |wire| ==> |wire[j]| <= s.sendBufferSize && |wire[j]| <= c.pool
  {
    hide SendFrom, ReceiveFrom, MaxBodySize, Sound, EmptyStatus;
    HasBlocks(p);
    var (c, s) := Connect(client, server);
    var sender := ResponseSender(s, channelId);
    MessageRoundTrip(p, sender, ResponseReceiver(c, channelId), tokens, requestId, body, last, later);
    if Ends(p, sender) && Send(p, sender, tokens, requestId, body, last).0 == Good {
      SentShape(p, sender, tokens, requestId, body, 0, last);
    }
  }

  /**
   * What the two configurations decide: neither end can send a body when the smaller buffer is below the least
   * one, and then an end sends empty chunks up to the chunk limit of the other end, or for ever if that end gave
   * none, unless the first one cannot be built: the server notices a header or signature that was cut off, the
   * client only bytes that it cannot encrypt.
   */
  lemma TooSmallToSend(client: Config, server: Config, p: Policy, channelId: u32, n: nat)
    requires Sound(p) && n > 0
    ensures var (c, s) := Connect(client, server);
            var small := Min(client.maxBufferSize, server.maxBufferSize) < LeastBuffer(p);
            && (MaxBodySize(p, c.sendBufferSize) <= 0 <==> small) && (MaxBodySize(p, s.sendBufferSize) <= 0 <==> small)
            && ((exists t: nat :: Turns(p, ResponseSender(s, channelId), Going(n, 0), t).Ended?)
                <==> !small || client.maxChunkCount > 0 || EmptyStatus(ServerSide, p, s.sendBufferSize) != Good)
            && ((exists t: nat :: Turns(p, RequestSender(c, channelId), Going(n, 0), t).Ended?)
                <==> !small || server.maxChunkCount > 0 || EmptyStatus(ClientSide, p, c.pool) != Good)
  {
    hide Turns, MaxBodySize, LeastBuffer;
    HasBlocks(p);
    var (c, s) := Connect(client, server);
    RoomIff(p, c.sendBufferSize);
    RoomIff(p, s.sendBufferSize);
    SendEndsIff(p, ResponseSender(s, channelId), n);
    SendEndsIff(p, RequestSender(c, channelId), n);
  }
}
