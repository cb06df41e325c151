# OPC UA stack and BER transcoder: a Dafny model

The project models the parts of the dashboard's vendored OPC UA stack, and of its PKCS#7 reader, where two
pieces of code have to agree with each other or where state has to stay consistent over long histories, and
proves what they promise. `dafny verify dfyconfig.toml` checks all of it.

| file | what it models |
|---|---|
| `Ber.dfy` | the BER reader and DER writer (ITU-T X.690, sections 8.1 and 10.1) |
| `BerForms.dfy` | every way of writing a tree that the reader accepts: definite lengths in all their octets, indefinite lengths |
| `Psha.dfy` | P_hash key derivation (RFC 5246, section 5; OPC UA Part 6, section 6.7.5) |
| `ByteWriter.dfy`, `Chunks.dfy` | splitting a message body into padded, signed and encrypted chunks, and reading it back |
| `Sending.dfy` | exactly when a message is sent, and in how many chunks |
| `Reception.dfy` | which chunks and messages a receiver accepts, whoever sent them, and which numbers and ids a sender gives them |
| `Negotiation.dfy` | Hello and Acknowledge (OPC UA Part 6, section 7.1) |
| `OpenChannel.dfy`, `OpenReception.dfy` | the OpenSecureChannel chunk with its RSA blocks, and which of them a receiver accepts |
| `Tokens.dfy` | issue, renewal and installation of security tokens as a two-party protocol |
| `Revision.dfy` | the revision of requested subscription parameters |
| `MonitoredItems.dfy` | sampling, change test and queue of a monitored item |
| `ChangeTest.dfy` | when a value counts as changed, in terms of the numbers, states and times compared |
| `SampledRuns.dfy` | whole histories of polls, publishing cycles and deliveries of one item |
| `Notifications.dfy` | one publishing cycle over all items of a subscription, with a ledger of every accepted value |
| `Publishing.dfy` | the publishing state machine: keep-alive, lifetime, late publishing, retransmission queue |
| `Lateness.dfy` | when a subscription is late, and that it then answers the next publish request |
| `Services.dfy` | what the client's service calls leave behind: lifetime, settings, keep-alives, events |
| `Triggering.dfy` | when an item that only samples reports because of another |
| `Sessions.dfy` | the bounded queue of publish requests of a session |
| `Delivery.dfy` | sampling and publishing together: from the values polled to the values accepted |
| `Subscriptions.dfy` | `Subscription` and the publish handler as a program over the two state machines |
| `PollGroups.dfy` | membership of data-change items in the scheduler's poll groups |
| `AddressSpace.dfy` | inverse references under adding and deleting nodes |
| `BrowsePaging.dfy` | continuation points and the pages of a browse result |
| `Bytes.dfy`, `Arith.dfy`, `Options.dfy` | bytes, little-endian integers, division with remainder, optional values |

Each operation has a function that says what it computes. Loops and objects of the program are methods and
classes proved equal to that function, and the results are proved about the function, for all inputs and all
runs. Cryptography is a parameter: a cipher that is undone by its inverse and keeps the length, a MAC of fixed
size. Time is an integer. A step is what the program does under one lock, for one chunk or for one request.
Where Go ranges over a map, the model allows every order. Counters wrap where the code lets them wrap; a result
that needs them not to says so.

Some expectations hold only under a condition. For each of them the exact condition is proved, and an input on the
other side of it is given.

* `ber2der` is idempotent exactly on results whose contents are shorter than 2^31 bytes: the writer writes longer
  lengths, the reader refuses them (`Ber.Ber2DerIdempotent`). Two octet strings of 2^30 bytes in an object of
  indefinite length are accepted and give such a result (`Ber.TwiceIsNotIdempotent`).
* The reader accepts exactly the forms of the standard in which no child reaches beyond its parent
  (`BerForms.ReadIff`), and one thing more: a child that does is accepted all the same, and the result is longer than
  the parent was (`BerForms.OverrunIsAccepted`). An object of indefinite length needs a child, since the end-of-contents
  octets are looked for only behind one.
* An absolute deadband on unsigned numbers measures the distance of two values exactly unless the value falls: a fall
  is compared with what it lacks to 2^64 (`ChangeTest.UnsignedAgreesIff`), so that a fall by one is reported whatever
  deadband was meant (`ChangeTest.SmallFall`).
* The server keeps its limit for the number of chunks in a signed integer, and so refuses no number of chunks for limits
  of 2^31 - 1 and above (`Reception.LimitedIff`).
* Sampling is independent of how often publishing happens exactly when the change test is steady: a value that counts
  as changed from itself makes every value count as changed from it (`MonitoredItems.IndependentIffSteady`). The
  program's test is steady, also for NaN and for the percent deadband, for every filter but an absolute deadband of
  +Inf (`MonitoredItems.SteadyIff`); with that one, +Inf counts as changed from itself while every finite value counts
  as unchanged from it (`MonitoredItems.UnboundedDepends`).
* A history of polls and publishing cycles samples an item as one advance over all polled values would, at every moment
  and for every steady filter, exactly when no value is polled too late (`SampledRuns.UndelayedIff`). A value is in time
  if it is stamped after the last instant sampled, waits behind a value that is, or repeats the value before it; the last
  is what polling a stored variable does until it is written again. A variable that is written before an instant and
  polled after that instant was sampled comes too late, and then one cycle more or less decides which values are accepted
  (`SampledRuns.LateHistory`, with the default filter). An item without a sampling interval needs no condition
  (`SampledRuns.DrainsAsOne`).
* `addNodes` keeps references in inverse pairs exactly when every old reference to a new node finds its inverse among
  the references that the new node brings along (`AddressSpace.AddedPairedIff`).
* The send loop of either end ends exactly when the negotiated buffer leaves room for a body, the number of chunks is
  limited, or the first chunk cannot be built (`Chunks.SendEndsIff`); the two ends differ in what they notice of a chunk
  that was cut off (`Chunks.BuildEmptyChunk`). The two configurations decide this, since the smaller buffer is the one
  negotiated (`Negotiation.TooSmallToSend`). With the program's own policies the loops end for every body once the
  channel has been opened with the same buffer (`OpenChannel.OpenedSendsEnd`).
* A chunk is refused for its token exactly when that is neither the last token issued nor the token of the chunk before
  (`Tokens.RefusedIff`). For a client: a renewal is safe exactly when its current token has been used, and no renewal is
  under way (`Tokens.DisciplineIsExact`); otherwise a chunk can be refused although the client knows no newer token
  (`Tokens.UnusedTokenIsRefused`).

## Model

| member | source | states |
|---|---|---|
| Ber.Read | certutil/pkcs7/ber.go:135-240 | a successful read ends at least two bytes past its start and inside the input, also for indefinite lengths and for children that overrun their parent, so that the recursion terminates on every input; what it returns is fixed by `BerForms.ReadIff` |
| Ber.ReadObject | certutil/pkcs7/ber.go:135-240 | the recursive reader, with its loops, computes `Read` on every input, error cases included |
| Ber.ReadIdentifier | certutil/pkcs7/ber.go:137-150 | the loop over a long tag stops exactly where `ReadTag` does, or fails at the end of the input |
| Ber.ReadLengthOctets | certutil/pkcs7/ber.go:160-187 | short, long, indefinite, negative, zero-led and too long lengths are told apart as `ReadLength` says |
| Ber.ReadChildren | certutil/pkcs7/ber.go:207-240 | the child loop collects the same children as reading up to the content end, or up to the end-of-contents octets |
| Ber.ReadEncodedLength | certutil/pkcs7/ber.go:115-133 | a written length is read back exactly when it is below 2^31; which error a longer one gives |
| Ber.ReadEncoded | certutil/pkcs7/ber.go:19-34 | the DER encoding of a well-formed tree, anywhere in a larger buffer, is read back as that tree, and reading stops at its end |
| Ber.ReadAllEncoded | certutil/pkcs7/ber.go:207-232 | the same for a sequence of siblings inside a parent |
| Ber.ReadWellFormed | certutil/pkcs7/ber.go:135-240 | everything the reader accepts is a well-formed tree |
| Ber.Ber2DerIdempotent | certutil/pkcs7/ber.go:57-75 | transcoding a result again changes nothing if and only if its contents are shorter than 2^31 |
| Ber.TwiceIsNotIdempotent | certutil/pkcs7/ber.go:57-75 | an accepted input of indefinite length whose result is refused when it is transcoded again |
| Ber.LengthLengthOf | certutil/pkcs7/ber.go:92-99 | the loop counts the base-256 digits of a length |
| Ber.MarshalLongLength | certutil/pkcs7/ber.go:78-90 | the shifting loop appends exactly the base-256 digits, most significant first |
| Ber.WriteLength | certutil/pkcs7/ber.go:115-133 | the short form below 128, the minimal long form from there on |
| Ber.EncodeTo | certutil/pkcs7/ber.go:19-55 | both encoders append the encoding of the tree to the buffer and leave what was there |
| Ber.Transcode | certutil/pkcs7/ber.go:57-75 | `ber2der`, with the empty input as an error, computes `Ber2Der`, which `BerForms.TranscodesForms` and `Ber.Ber2DerIdempotent` are about |
| Ber.BigEndianLowBytes | certutil/pkcs7/ber.go:78-90 | reading the written digits gives the number back |
| BerForms.ReadWritten | certutil/pkcs7/ber.go:135-240 | any tree written in any form, with any tags, any depth, any accepted length octets and indefinite lengths anywhere, is read at any offset of any larger buffer as that tree, and reading stops at its end |
| BerForms.ReadIff | certutil/pkcs7/ber.go:135-240 | and nothing else is: what the reader accepts without a child that overruns its parent is exactly what is written in one of these forms, with the tree behind it |
| BerForms.TranscodesForms | certutil/pkcs7/ber.go:57-75 | hence `ber2der` of any such writing, whatever follows it, is the DER encoding of the tree |
| BerForms.OverrunIsAccepted | certutil/pkcs7/ber.go:207-232 | an input whose child overruns its parent: it is accepted and transcoded to something longer |
| BerForms.LengthReadIff | certutil/pkcs7/ber.go:160-187 | exactly the short form, and one to four digits without a leading zero and below 2^31, are read as a definite length |
| BerForms.TagReadIff | certutil/pkcs7/ber.go:138-150 | exactly where a tag ends: behind one byte, or behind the first byte below 0x80 that follows a byte whose five low bits are set |
| BerForms.ConstructedIff | certutil/pkcs7/ber.go:152 | for which tag bytes an object has children |
| BerForms.EmptyIsRefused | certutil/pkcs7/ber.go:58-60 | empty input is refused as such |
| BerForms.LengthRefused | certutil/pkcs7/ber.go:164-177 | which of the three errors any other long form gives |
| Psha.CalculatePsha | opcua/client/client_secure_channel.go:1790-1819 | the loop fills exactly the requested length with the P_hash stream, whatever the MAC size |
| Psha.FillBlock | opcua/server/server_secure_channel.go:1568-1583 | one turn extends the filled prefix by one MAC, cut off at the end |
| Psha.StreamIs | opcua/client/client_secure_channel.go:1800-1818 | the blocks of the output are those of section 5 of RFC 5246: with a chain that starts with the seed and in which each element is the MAC of the one before, block i is the MAC of element i + 1 and the seed |
| Psha.StreamPrefix | opcua/client/client_secure_channel.go:1790-1819 | shorter outputs are prefixes of longer ones |
| Psha.Cut | opcua/client/client_secure_channel.go:1280-1283 | signing key, encrypting key and IV partition the output without gap or overlap |
| Psha.CutStream | opcua/client/client_secure_channel.go:1280-1283 | longer keys extend shorter ones when the signing size agrees |
| ByteWriter.Writer.Write | opcua/ua/bytes_writer.go:29-43 | copies what fits, reports a short write exactly when something did not fit or nothing can, and leaves the rest of the buffer alone |
| Chunks.PlanFits | opcua/client/client_secure_channel.go:1208-1255 | every planned chunk holds part of the body, fits the buffer, is a whole number of cipher blocks, and its padding size fits its padding header |
| Chunks.BuildChunk | opcua/client/client_secure_channel.go:1257-1345 | writing header, sequence header, body, padding and signature and encrypting in the buffer gives exactly the wire form, without a failed write; what is in it is the subject of `Chunks.WireHeader` and `Reception.WireCarries` |
| Chunks.WritePadding | opcua/client/client_secure_channel.go:1305-1317 | the padding loop and the one-byte or two-byte size |
| Chunks.PaddingRecovered | opcua/server/server_secure_channel.go:1186-1199 | the padding size is found again behind the padding, in one byte or two |
| Chunks.WireHeader | opcua/client/client_secure_channel.go:1260-1270 | the header on the wire starts with MSGF or MSGC and carries the size, channel and token that were put in |
| Chunks.ChunkRoundTrip | opcua/server/server_secure_channel.go:1151-1210 | every planned chunk is read back as its piece of the body with its final flag and its request id, in all security modes and by either side |
| Chunks.SendMessage | opcua/client/client_secure_channel.go:1204-1345 | whenever the send loop of either end ends, it computes `Send`: the chunks written, and the message-size, chunk-count, encoding, short-write and run-time errors, also with a buffer that leaves no room for a body |
| Chunks.BuildEmptyChunk | opcua/server/server_secure_channel.go:953-1024 | what the same statements do when the plan leaves nothing for the body: writes are cut off at the end of the buffer; the server fails on a cut-off header or signature and panics on partial blocks, the client fails or panics only when there are no whole blocks to encrypt |
| Chunks.EndsAsSent | opcua/client/client_secure_channel.go:1208-1217 | the counters of the loop end after finitely many turns with the status of `SendFrom` |
| Chunks.SendEndsIff | opcua/client/client_secure_channel.go:1212-1255 | on either end, for a body of any length, the loop ends if and only if the buffer leaves room for a body, or the chunks are limited, or the first chunk cannot be built |
| Chunks.StuckSends | opcua/client/client_secure_channel.go:1212-1217 | without room for a body sending ends with that failure, or at the chunk limit with the message too large |
| Chunks.RoomIff | opcua/client/client_secure_channel.go:1227-1255 | the buffer sizes that leave room for a body: from the least number of whole blocks behind the header on |
| Chunks.ReadRequestChunk | opcua/server/server_secure_channel.go:1062-1210 | decryption in the receive buffer, signature check, request id and removal of the padding compute `ReadChunk`, with the errors in the order of the source; `Reception.AcceptedIff` and `Reception.ForgedIff` say what that is |
| Chunks.ReadRequest | opcua/server/server_secure_channel.go:1048-1210 | the receive loop, which reads every chunk into the same buffer, computes `ReceiveFrom`, with its limits and error cases and the request id of the last chunk; `Reception.ReceivedIff` says what that is |
| Chunks.ReceiveSent | opcua/server/server_secure_channel.go:1048-1210 | reassembly undoes the rest of a message from any chunk on, whatever was received before and follows behind |
| Chunks.MessageRoundTrip | opcua/client/client_secure_channel.go:1204-1345 | every non-empty body whose send succeeds, with any buffer, is reassembled exactly and under the request id it was sent with, and what follows it is left for the next message |
| Chunks.SentShape | opcua/client/client_secure_channel.go:1208-1345 | exactly the last chunk is marked final, and every chunk fits the buffer |
| Sending.SendIff | opcua/client/client_secure_channel.go:1204-1217 | a message is sent if and only if its size and the least number of chunks that hold it are within the limits; one that is too long is refused before anything is sent, one of too many chunks after the limit of them |
| Sending.NeededLeast | opcua/client/client_secure_channel.go:1212-1260 | that number is the least whose chunks hold the body |
| Sending.StuckSendIs | opcua/client/client_secure_channel.go:1204-1217 | without room for a body every message within its limit fails as its first chunk does, or at the chunk limit |
| Sending.EmptyStatusIs | opcua/server/server_secure_channel.go:953-1024 | how such a chunk fails, in terms of what the buffer took: the server finds out that header or signature were cut off, the client only that there is nothing to encrypt or no whole number of blocks |
| Sending.PaddingWidth | opcua/client/client_secure_channel.go:1218-1256 | the size of the padding takes two bytes if and only if the largest padding of a block does not fit one |
| Reception.AcceptedIff | opcua/server/server_secure_channel.go:1062-1206 | for every chunk that may arrive: it is accepted if and only if it is meant for this channel and token, has whole blocks, ends with the signature of all bytes before it, and leaves a body; body, final mark and request id are then what stands in the decrypted chunk |
| Reception.ForgedIff | opcua/server/server_secure_channel.go:1160-1174 | a chunk is refused for its security if and only if it is otherwise in order and its last bytes are not the signature of the bytes before |
| Reception.ExpectedIff | opcua/server/server_secure_channel.go:1068-1095 | the four bytes a chunk may start with, and that only the server takes those that close the channel |
| Reception.RefusedFor | opcua/server/server_secure_channel.go:1062-1206 | which chunks are refused for their type, their channel and their token, and which leave no room for signature, padding or body |
| Reception.ReceivedIff | opcua/server/server_secure_channel.go:1048-1210 | a message is received if and only if its chunks are accepted one by one up to the first final one, within the limits; it is then their bodies, under the request id of the last |
| Reception.ReceivedWithinLimits | opcua/server/server_secure_channel.go:1049-1052 | whatever is received, from whomever, is within the message size, the chunk count and the receive buffer |
| Reception.ReceivedIsAuthentic | opcua/server/server_secure_channel.go:1160-1174 | every chunk of a received message carries the signature of its own bytes under the keys of its token |
| Reception.LimitedIff | opcua/server/server_secure_channel.go:1050-1052 | for which limits there is a number of chunks that is refused at all |
| Reception.SentNumbers | opcua/client/client_secure_channel.go:1294-1296 | the k-th chunk of a message carries the k-th sequence number after the last one used, zero skipped, and behind it the request id |
| Reception.NumbersDiffer | opcua/client/client_secure_channel.go:1836-1849 | 2^32 - 1 consecutive sequence numbers are different and not zero |
| Reception.WireCarries | opcua/client/client_secure_channel.go:1294-1296 | sequence number first, request id second, in the decrypted chunk |
| Reception.StuckNumbers | opcua/server/server_secure_channel.go:974-976 | also the chunks that are sent without a body are numbered one by one, up to the limit |
| Reception.EmptyChunkRead | opcua/server/server_secure_channel.go:953-1024 | what the receiver makes of a chunk without a body: an empty piece, or a size that does not fit |
| Negotiation.ServerChannel.Open | opcua/server/server_secure_channel.go:242-269 | the server lowers its sizes to the client's, answers with them and allocates its buffers accordingly |
| Negotiation.Handshake | opcua/client/client_secure_channel.go:312-370 | the whole exchange as a program: for any two configurations the sizes agree crosswise with the buffers allocated, and the limits for sending with those for receiving |
| Negotiation.TooSmallToSend | opcua/server/server_secure_channel.go:242-269 | for any two configurations, whether either end can send a body at all, and whether its send loop ends, with the failures that each end notices |
| Negotiation.ConnectAgrees | opcua/client/client_secure_channel.go:312-370 | each side's send size is the other's receive size, and each side's limits for sending are the other's for receiving |
| Negotiation.ExchangeAgrees | opcua/client/client_secure_channel.go:312-370 | the same for any limits of the two ends, also where the two directions differ: each direction gets the smaller of what one end sends and the other receives |
| Negotiation.RequestsArrive | opcua/server/server_secure_channel.go:1048-1073 | after Hello and Acknowledge, a request whose send succeeds fits all buffers and is never refused for its size, its chunk count or the receive buffer: it is received as sent |
| Negotiation.ResponsesArrive | opcua/server/server_secure_channel.go:903-953 | the same for responses |
| OpenChannel.PlanFits | opcua/client/client_secure_channel.go:580-625 | for all key sizes, certificates and policies, a body that fits one chunk gives a plaintext of whole RSA blocks whose encryption fills the chunk exactly |
| OpenChannel.SendOpenChunk | opcua/client/client_secure_channel.go:580-738 | the header-size, signature-offset and chunk-size guards do not fire: the only error is a body that is too long, and otherwise the wire form is written |
| OpenChannel.OpenedHasRoom | opcua/client/client_secure_channel.go:580-625 | a buffer with which an OpenSecureChannel chunk was sent leaves room for a body in every chunk whose least buffer is not above the header of that chunk |
| OpenChannel.OpenedSendsEnd | opcua/ua/security_policy.go:15-24 | with the URIs, blocks and signatures of the program's policies, the send loops on that buffer end for every body |
| OpenChannel.EncryptInto | opcua/client/client_secure_channel.go:696-721 | block-wise encryption into the second buffer |
| OpenChannel.ReadOpenChunk | opcua/server/server_secure_channel.go:1212-1338 | reading the security header, decrypting in the receive buffer, verifying, and taking out the request id and the body compute `ReadOpen`; `OpenReception.OpenAcceptedIff` says what that is |
| OpenChannel.DecryptInPlace | opcua/server/server_secure_channel.go:1276-1290 | decrypting block by block over the ciphertext in the same array never overwrites a block that is still to be read |
| OpenChannel.HeaderFound | opcua/server/server_secure_channel.go:1213-1227 | the reader finds the message type, size and channel, and the policy, certificate and thumbprint each in its place; the variable-length header ends for it where it ended for the writer |
| OpenChannel.DecryptEncrypted | opcua/server/server_secure_channel.go:1276-1290 | decryption undoes block-wise encryption for every number of blocks |
| OpenChannel.OpenRoundTrip | opcua/server/server_secure_channel.go:1276-1336 | the peer, which computes all sizes from the opposite keys, recovers the same body, request id and security header |
| OpenReception.OpenAcceptedIff | opcua/server/server_secure_channel.go:1212-1336 | for every chunk that may arrive: it is accepted if and only if length and header can be read, the blocks decrypted, the signature verified and a body is left; request id and body are what stands in the decrypted chunk, and a signature that does not verify is refused |
| OpenReception.FieldIff | opcua/server/server_secure_channel.go:1212-1240 | a field of the security header is absent if and only if the highest bit of its length is set, and otherwise it is the bytes that the length counts |
| OpenReception.SendStatusIff | opcua/client/client_secure_channel.go:580-738 | a body is sent if and only if it is within the limit and one chunk carries all of it |
| OpenReception.OpenCarries | opcua/client/client_secure_channel.go:650-652 | behind the header stand the sequence number and then the request id |
| Tokens.ClientTokens.TokenForChunk | opcua/client/client_secure_channel.go:1269-1292 | the keys returned derive from the nonce pair for which the returned token was given |
| Tokens.ServerTokens.HandleOpen | opcua/server/server_secure_channel.go:1469-1511 | a token that was not issued before is recorded for the nonce pair, and the installed token and its keys stay in force |
| Tokens.ServerTokens.AcceptChunk | opcua/server/server_secure_channel.go:1087-1149 | exactly the installed and the pending token are accepted, and then the keys derive from the nonce pair for which that token was issued |
| Tokens.UseToken | opcua/client/client_secure_channel.go:1269-1292 | a chunk of the client program at the server program: if its token is accepted, both hold the same keys |
| Tokens.RenewAndUse | opcua/client/client_secure_channel.go:1762-1787 | a whole renewal of the two programs: the next chunk is accepted under keys that both derived from the new nonces |
| Tokens.RunKeeps | opcua/server/server_secure_channel.go:1087-1149 | however renewals, chunks and responses interleave, keys of client, server and chunks on their way derive from the nonce pair exchanged when their token was issued |
| Tokens.AcceptedKeysAgree | opcua/server/server_secure_channel.go:1087-1149 | a chunk on its way would be accepted if and only if its token is the last one issued or that of the last chunk received, and then the server's keys are the ones that the client used |
| Tokens.AcceptedKeysAreStream | opcua/client/client_secure_channel.go:1280-1283 | with the key derivation of the program, these keys are the P_hash stream of the nonces exchanged for the token, the server's as the secret, cut into keys of the policy's sizes |
| Tokens.InstalledIsLast | opcua/server/server_secure_channel.go:1087-1149 | in every run the installed token is the one of the last chunk received |
| Tokens.RefusedIff | opcua/server/server_secure_channel.go:1087-1149 | in every run a chunk is refused if and only if its token is neither the last one issued nor that of the last chunk received |
| Tokens.AcceptedChunksAreReadBack | opcua/client/client_secure_channel.go:1269-1345 | hence every chunk that the server accepted in any run was decrypted and verified to what the client put in |
| Tokens.SendCarries | opcua/client/client_secure_channel.go:1269-1345 | what a client sends is read under its token as the request id, the final flag and the bytes it was given |
| Tokens.OrderlyRunsAreNeverRefused | opcua/client/client_secure_channel.go:1762-1787 | when each token is used before it is renewed, no chunk is ever refused |
| Tokens.DisciplineIsExact | opcua/client/client_secure_channel.go:1762-1787 | in every state that such a run leads to, a renewal keeps to the discipline if and only if no way of sending, serving and installing after it leads to a refusal |
| Tokens.UnusedTokenIsRefused | opcua/server/server_secure_channel.go:1087-1149 | a run in which a token is renewed before its use and a chunk under it is refused |
| Revision.Revise | opcua/server/subscription.go:186-258 | for all requests, NaN included: interval in [125, 60000], keep-alive count in [1, 480] and below 60 s plus one interval, lifetime count at least three keep-alives, lifetime in [10 s, 1 h plus one interval) |
| Revision.CountForLeast | opcua/server/subscription.go:206-211 | the division with its correction gives the least count that covers a duration |
| Revision.LifetimeBounds | opcua/server/subscription.go:226-258 | the lifetime bounds, and that the branch for a saturated count is never reached |
| Revision.ReviseIdempotent | opcua/server/subscription.go:172-184 | revising revised values changes nothing |
| Revision.IntervalIsNearest | opcua/server/subscription.go:186-197 | a client gets the permitted interval nearest to the one it asked for, and the shortest for NaN |
| Revision.KeepAliveIsLeast | opcua/server/subscription.go:199-224 | a client gets the least keep-alive count that reaches what it asked for (three for zero) or a minute |
| Revision.LifetimeIsLeast | opcua/server/subscription.go:226-258 | a client gets the least lifetime count that reaches three keep-alives, ten seconds, and what it asked for or an hour |
| MonitoredItems.EnqueueOne | opcua/server/datachange_monitored_item.go:300-327 | the loops of both discard policies, in both kinds of item |
| MonitoredItems.EnqueueAllSurvivors | opcua/server/event_monitored_item.go:184-211 | however many values are enqueued, the queue holds the last q, or the first q-1 and the newest |
| MonitoredItems.TakeSome | opcua/server/datachange_monitored_item.go:336-353 | notifications are taken from the front, at most as many as asked for, and `more` says whether any are left |
| MonitoredItems.SetQueueSize | opcua/server/datachange_monitored_item.go:173-205 | the revised size of every request, and which values a smaller queue keeps |
| MonitoredItems.SteadyIff | opcua/server/datachange_monitored_item.go:413-495 | over finite numbers, infinities, NaN, wrapping integers and slices: the program's change test is steady if and only if the filter has no absolute deadband of +Inf |
| ChangeTest.SignedChange | opcua/server/datachange_monitored_item.go:486-487 | with an absolute deadband d a signed number counts as changed if and only if it moved by more than d; where the difference leaves 64 bits, the complement counts |
| ChangeTest.UnsignedChange | opcua/server/datachange_monitored_item.go:488-489 | an unsigned number counts as changed if and only if it rose by more than d, or fell and what the fall lacks to 2^64 is more than d |
| ChangeTest.UnsignedAgreesIff | opcua/server/datachange_monitored_item.go:488-489 | when this is the distance that a deadband is meant for, as an if and only if |
| ChangeTest.SmallFall | opcua/server/datachange_monitored_item.go:488-489 | a fall by one within a deadband of five is reported, a rise by one is not |
| ChangeTest.FloatChange | opcua/server/datachange_monitored_item.go:490-491 | finite floating-point numbers count as changed if and only if they differ by more than d; NaN and infinities always |
| ChangeTest.UnboundedChange | opcua/server/datachange_monitored_item.go:490-491 | what a deadband of NaN, -Inf or +Inf lets through |
| ChangeTest.SliceChange | opcua/server/datachange_monitored_item.go:449-485 | byte strings are compared by their bytes; other slices count as changed unless shared or empty |
| ChangeTest.TypeChange | opcua/server/datachange_monitored_item.go:449-495 | a change of type counts, and whatever cannot be subtracted |
| ChangeTest.PlainChange | opcua/server/datachange_monitored_item.go:422-424 | without a deadband a value counts as changed if and only if it differs, slices element by element; a NaN always does |
| ChangeTest.StatusChange | opcua/server/datachange_monitored_item.go:413-432 | a difference in the upper 20 bits of the status counts for every trigger, one in the lower 12 bits for none; the first trigger looks at nothing else |
| ChangeTest.TimeChange | opcua/server/datachange_monitored_item.go:430-436 | the source timestamp counts for the third trigger only |
| ChangeTest.AlwaysChange | opcua/server/datachange_monitored_item.go:426-446 | unknown triggers, and percent and unknown deadbands, let everything pass |
| MonitoredItems.IndependentIffBounded | opcua/server/datachange_monitored_item.go:364-495 | hence for which filters of the program sampling is independent of the publishing rate, as an if and only if |
| MonitoredItems.UnboundedDepends | opcua/server/datachange_monitored_item.go:364-495 | the item and filter of the program for which it is not |
| MonitoredItems.DataChangeItem.SampleUpTo | opcua/server/datachange_monitored_item.go:364-392 | the nested sampling loops compute `AdvanceTo`, and enqueue exactly the kept samples |
| MonitoredItems.AdvanceIsSpecified | opcua/server/datachange_monitored_item.go:364-392 | the loops equal the simple specification: the latest value at each instant, kept if changed from the one kept before |
| MonitoredItems.IndependentIffSteady | opcua/server/datachange_monitored_item.go:364-392 | advancing to t1 and then to t2 equals advancing to t2, for all items and times, if and only if the change test is steady |
| MonitoredItems.UnsteadyDepends | opcua/server/datachange_monitored_item.go:364-392 | for every unsteady test, an item for which it makes a difference |
| SampledRuns.RunIsOneAdvance | opcua/server/datachange_monitored_item.go:266-411 | any history of polls, cycles and deliveries in which no value comes too late leaves the item sampled, and has made it accept the same values, as if all values had been there and only the latest cycle had happened |
| SampledRuns.UndelayedIff | opcua/server/datachange_monitored_item.go:266-411 | this holds at every moment of a history, for every filter of the program with a steady test, if and only if no value is polled too late |
| SampledRuns.LateHistory | opcua/server/server_service_set.go:6095-6095 | two histories of a stored variable under the default filter that differ by one cycle and accept different values, since a poll comes too late |
| SampledRuns.DrainsAsOne | opcua/server/datachange_monitored_item.go:393-402 | without a sampling interval an item has accepted, in any history and for any change test, the changes among all values polled before the latest cycle |
| Delivery.CycleLogs | opcua/server/subscription.go:305-412 | a cycle of the subscription adds exactly what the item's sampling keeps to what the item has accepted |
| Delivery.AcceptedAreKeptSamples | opcua/server/subscription.go:305-649 | whatever the subscription does and whenever it publishes, if no value came too late, the values an item has accepted are the latest value at each sampling instant, if it changed, over all values polled |
| Delivery.AcceptedAreChanges | opcua/server/datachange_monitored_item.go:393-402 | for an item without a sampling interval they are the changes among the values polled, with no condition on times |
| Delivery.ResendFollows | opcua/server/datachange_monitored_item.go:403-409 | an item that is asked to send its value again queues exactly what the subscription counts as accepted |
| Delivery.ResentIsRemembered | opcua/server/datachange_monitored_item.go:404-408 | a value sent again is not reported once more while it does not change |
| Delivery.Feed.Publish | opcua/server/subscription.go:305-412 | item object and subscription together: the subscription gets what the item's sampling enqueues, both queues hold the same values afterwards, and the common history stays one that the results above are about |
| Delivery.Feed.HandleLatePublishRequest | opcua/server/subscription.go:502-649 | the same for a late publish request, which asks the item only if the subscription is late |
| Delivery.Feed.BooksHoldSamples | opcua/server/subscription.go:305-649 | hence after any sequence of these operations the books of the subscription hold the kept samples of the values polled |
| MonitoredItems.DrainedInTwo | opcua/server/datachange_monitored_item.go:393-402 | an item without sampling interval does not depend on the publishing rate either |
| MonitoredItems.DataChangeItem.NotificationsAvailable | opcua/server/datachange_monitored_item.go:355-411 | the whole operation, with disabled items and resending |
| MonitoredItems.DataChangeItem.Notifications | opcua/server/datachange_monitored_item.go:336-353 | takes from the front; the trigger is spent when nothing is left |
| Notifications.AcceptKeeps | opcua/server/datachange_monitored_item.go:300-334 | enqueueing keeps the books: every accepted value is delivered, queued, discarded or cleared, once, in order |
| Notifications.AcceptAllSurvivors | opcua/server/event_monitored_item.go:184-211 | the policies in closed form, together with the log of accepted values |
| Notifications.AcceptAllValues | opcua/server/datachange_monitored_item.go:300-334 | the history in the entries has no influence on the values in the queue |
| Notifications.SetModeKeeps | opcua/server/datachange_monitored_item.go:155-171 | switching modes keeps the books; disabling moves the queue to the cleared values |
| Notifications.ModifyItemKeeps | opcua/server/datachange_monitored_item.go:128-139 | modifying an item keeps the books; trimming discards |
| Notifications.RefreshAll | opcua/server/subscription.go:309-315 | in every order of the items the first loop samples each item once and triggers exactly the linked items; what the order can change is bounded from both sides |
| Notifications.Gather | opcua/server/subscription.go:328-363 | in every order the second loop takes from the front of each visited item and of no other, at most the maximum, `more` is set exactly when a visited item still has values, and then the message is full |
| Notifications.NeverEmpty | opcua/server/subscription.go:316-370 | a message that is sent holds at least one notification |
| Publishing.StepKeeps | opcua/server/subscription.go:305-500 | every step keeps the invariant of lifetime, numbering, retransmission queue, books and messages |
| Publishing.RunKeeps | opcua/server/subscription.go:66-500 | hence every run does |
| Publishing.ExpiryTestsAgree | opcua/server/subscription.go:415-496 | in every run a live subscription is below its maximum lifetime count, so that the `==` test, the `>=` test and the periodic sweep agree |
| Publishing.ExpiryWindow | opcua/server/subscription.go:305-500 | with no request and no reset it is alive before the remaining lifetime count of ticks and dead after at most maxKeepAliveCount - 1 ticks more |
| Publishing.IdleStep | opcua/server/subscription.go:415-499 | each tick without a request counts against the lifetime or uses up slack, exactly one of the two, and expiry leaves exactly one status change with the next number |
| Publishing.HeardWithinKeepAlive | opcua/server/subscription.go:432-481 | while every tick finds a publish request, and whatever acknowledgements, events, late requests and item services come between, a response is sent before maxKeepAliveCount ticks have passed, and at the first tick of a new subscription |
| Lateness.TickIs | opcua/server/subscription.go:305-500 | a tick answers if and only if it has something to say and a request waits, with notifications if and only if there are some and publishing is enabled; afterwards the subscription is late if and only if it had something to say and no request waited, or had nothing to say and was late before |
| Lateness.LateRequestIs | opcua/server/subscription.go:502-649 | a late subscription answers a request if and only if it has notifications or a keep-alive is due, and stays late if and only if it could not, or announced more; one that is not late leaves the request alone |
| Lateness.LateIff | opcua/server/subscription.go:305-649 | in every run a live subscription is late if and only if a tick that had something to say found no request and since then no request was answered, late ones apart whose answer announced more |
| Lateness.WaitingAnswers | opcua/server/subscription.go:502-649 | a late subscription with an item ready to report, or a keep-alive due, answers the next request whatever sampling brings |
| Lateness.AnsweredAtOnce | opcua/server/subscription.go:414-416 | a tick that wanted to publish and found no request, and a request right behind it: the request is answered at once, with the notifications if there were any |
| Services.LifetimeStep | opcua/server/subscription.go:165-184 | the lifetime counts the ticks that had something to say and found no request; a response, and every service but acknowledging, resending data and publishing, sets it to 0 |
| Services.LivesIff | opcua/server/subscription.go:405-500 | in every run the lifetime is the client's silence, and the subscription lives if and only if it was not deleted and the silence never reached the lifetime count then in force |
| Services.FromCreation | opcua/server/subscription.go:66-85 | this holds of every subscription from its creation on, and so does what makes it late |
| Services.EndStep | opcua/server/subscription.go:414-430 | it ends if and only if it is deleted or its lifetime runs out; then its items and messages are gone, and only expiry sends a status change, which uses up a number |
| Services.SettingsAre | opcua/server/subscription.go:66-85 | in every run the subscription goes by what the client asked for last when it created it, modified it or switched publishing, no limit standing for 2^31 - 1; values are resent if and only if that was asked for since the last tick |
| Services.FirstTickAnswers | opcua/server/subscription.go:432-434 | a new subscription answers at the first tick that finds a request, whatever happened before |
| Services.Cadence | opcua/server/subscription.go:432-481 | while requests wait and nothing happens, exactly every maxKeepAliveCount-th tick sends a keep-alive, and no number is used up |
| Services.NumbersUsed | opcua/server/subscription.go:371-430 | in every run each message and the status change at the end take the next number, and there is at most one status change |
| Services.DeadRun | opcua/server/subscription.go:93-115 | after its end a subscription answers nothing and changes nothing in any run |
| Services.ItemStep | opcua/server/datachange_monitored_item.go:128-171 | an item stays until it is deleted, and its mode, handle, queue size, policy and links change only by the service that sets them, to what was asked for |
| Services.QueueStep | opcua/server/event_monitored_item.go:140-211 | between ticks a queue changes only by an event, by cutting it down to a new size from the end the policy says, and by disabling the item |
| Services.EventsAreAccepted | opcua/server/event_monitored_item.go:213-219 | in every run an event item has accepted exactly the events that reached it while it was not disabled, in order |
| Services.EventElsewhere | opcua/server/event_monitored_item.go:205-210 | to other items an accepted event does nothing but trigger those it links to |
| Triggering.TriggeredStep | opcua/server/event_monitored_item.go:297-314 | an item is triggered by a linked item that accepts something, and until a message leaves its queue empty |
| Triggering.TriggeredIff | opcua/server/datachange_monitored_item.go:300-357 | in every run an item is triggered if and only if a linked item accepted something and no message since has left its queue empty |
| Triggering.FiresIff | opcua/server/datachange_monitored_item.go:300-334 | sampling an item triggers others if and only if a value is kept or sent again |
| Triggering.AvailableWhen | opcua/server/subscription.go:309-315 | a cycle has something to publish if an item that reports, or was triggered before, has values, and only if one that reports or is triggered now has |
| Publishing.EachValueOnce | opcua/server/subscription.go:328-375 | in every run each value that an item accepted is in exactly one of the messages sent, the queue, the discarded and the cleared values, and messages and queue together are in the order of acceptance |
| Publishing.CycleConserves | opcua/server/subscription.go:305-412 | in one cycle, what the policy lets survive of old and new values is what the message took, in order, followed by what is queued |
| Publishing.ResponseStep | opcua/server/subscription.go:371-412 | every response lists exactly the retransmission queue, carries the next number, is non-empty and at most maxNotificationsPerPublish unless a keep-alive, lists data changes and events apart and under their handles, and its more flag is exact; only a late answer that announces more leaves the subscription late |
| Publishing.DroppedIff | opcua/server/subscription.go:376-388 | a message leaves the retransmission queue if and only if it is acknowledged, republished, or the oldest of 128 when another is sent |
| Publishing.StillAvailable | opcua/server/server_service_set.go:5526-5549 | in every run with fewer than 2^32 - 1 messages the last 128 messages can be had again unless acknowledged or republished |
| Publishing.EvictedIsOld | opcua/server/subscription.go:376-381 | a message that gives way is at least 128 messages old |
| Sessions.QueuedOrAnsweredOnce | opcua/server/session.go:292-346 | in every run each publish request received is either still queued or answered, once, and the queue never exceeds 64 |
| Sessions.ReceivedCounts | opcua/server/server_service_set.go:5420-5424 | the requests accounted for are all that arrived |
| Sessions.AddOnce | opcua/server/session.go:292-314 | at the limit exactly the oldest request is answered with too many requests |
| Sessions.RemoveKeeps | opcua/server/session.go:316-346 | expired requests are answered with a timeout, and the one taken is the only one not accounted for |
| Sessions.RemoveIs | opcua/server/session.go:316-346 | in closed form: exactly the expired requests in front of the one taken are answered, in order, with a timeout |
| Sessions.DrainIs | opcua/server/server_service_set.go:5229-5257 | in closed form: every request that waited is answered, in order, with a timeout if it had expired and with no subscription otherwise |
| Sessions.DrainKeeps | opcua/server/server_service_set.go:5229-5257 | after the drain the queue is empty and every request that waited has its answer |
| Sessions.AnswersJustified | opcua/server/session.go:316-346 | which answer goes to whom: a timeout only to a waiting request whose hint has passed since its timestamp, a publication or the lack of a subscription only to one whose hint has not, too many requests only to the oldest of 64 |
| Sessions.Session.AddPublishRequest | opcua/server/session.go:292-314 | the loop computes `Add` |
| Sessions.Session.RemovePublishRequest | opcua/server/session.go:316-346 | the loop takes the oldest request that has not expired |
| Sessions.Session.DrainPublishRequests | opcua/server/server_service_set.go:5229-5257 | the loop computes `Drain` |
| Subscriptions.TrimQueue | opcua/server/subscription.go:376-381 | the trimming loop removes at most one element, because a removed element has no successor |
| Subscriptions.Subscription.Publish | opcua/server/subscription.go:305-500 | one tick is a step of the state machine; it takes a request from the session and answers it exactly when it has something to say, and leaves the subscription late exactly when it then found no usable request, or had nothing to say and was late before |
| Subscriptions.Subscription.HandleLatePublishRequest | opcua/server/subscription.go:502-649 | a late request is a step of the state machine, is answered exactly when it is reported as handled, and is handled exactly when the subscription is late and has notifications or a keep-alive due |
| Subscriptions.Subscription.Acknowledge | opcua/server/subscription.go:268-280 | removes the message with that number, and says whether there was one |
| Subscriptions.Subscription.Republish | opcua/server/server_service_set.go:5520-5549 | returns and removes the message with that number, and resets the lifetime either way |
| Subscriptions.Subscription.Modify | opcua/server/subscription.go:172-184 | revised parameters and a lifetime reset keep the invariant |
| Subscriptions.HandlePublish | opcua/server/server_service_set.go:5349-5424 | one step of the session: answered by a status change, by the lack of subscriptions, by at most one late subscription, or queued; no subscription that waits for a request is passed over |
| Subscriptions.TickThenRequest | opcua/server/server_service_set.go:5349-5424 | tick and handler together: after a tick that wanted to publish and found no request, the next request is answered at once |
| PollGroups.InItsGroupOnly | opcua/server/datachange_monitored_item.go:247-263 | through any creates, modifies, mode changes and deletes, an item that is not disabled is in exactly one group, the one for its interval clamped to the minimum, and all others are in none |
| PollGroups.ServedIs | opcua/server/datachange_monitored_item.go:128-171 | a service changes what it was asked to change of the item it names and of no other, and the item is then polled in the group for that, or in none if it is disabled |
| PollGroups.RestartedMembers | opcua/server/datachange_monitored_item.go:128-139 | leaving the old group before joining the new one |
| PollGroups.Revised | opcua/server/datachange_monitored_item.go:207-237 | the revised sampling interval, for which a negative request stands for the current publishing interval, is within its limits and at least the minimum of the node |
| PollGroups.RevisedIs | opcua/server/datachange_monitored_item.go:207-237 | a client gets the sampling interval it asked for, or the nearest end of the range, and the minimum of the node first |
| PollGroups.GroupIs | opcua/server/scheduler.go:24-36 | the group of an interval is that of its whole milliseconds, or the minimum |
| PollGroups.TruncateIs | opcua/server/scheduler.go:24-36 | the whole milliseconds of an interval are the nearest integer on the side of zero |
| PollGroups.Scheduler.GetPollGroup | opcua/server/scheduler.go:24-36 | finds or opens the group for an interval |
| PollGroups.MonitoredItem.ModifyItem | opcua/server/datachange_monitored_item.go:128-139 | is the step `Modify` of the run |
| PollGroups.MonitoredItem.SetMonitoringMode | opcua/server/datachange_monitored_item.go:155-171 | is the step `SetMode` of the run |
| PollGroups.MonitoredItem.DeleteItem | opcua/server/datachange_monitored_item.go:142-152 | is the step `Delete` of the run |
| AddressSpace.AddedPairedIff | opcua/server/namespace_manager.go:348-382 | given pairs before and fresh ids, pairs after `addNodes` if and only if no old reference to a new node lacks its inverse |
| AddressSpace.DanglingExample | opcua/server/namespace_manager.go:348-382 | a space in which the pairing is lost |
| AddressSpace.AnswerAllGrows | opcua/server/namespace_manager.go:353-379 | nodes keep their references and gain, at the end, only inverses of the new node's references |
| AddressSpace.DeletedPaired | opcua/server/namespace_manager.go:418-443 | after a deletion no reference to the node remains, type definitions and modelling rules aside, and pairs stay pairs |
| AddressSpace.DeletedReference | opcua/server/namespace_manager.go:418-443 | for any space, paired or not, which references the other nodes keep |
| AddressSpace.AddedReference | opcua/server/namespace_manager.go:348-381 | for any space, which references the other nodes hold after a node was added: their own and the inverses of the new ones, type definitions and modelling rules apart |
| AddressSpace.AddThenDelete | opcua/server/namespace_manager.go:348-443 | adding a node and deleting it restores the space, to the order of the references |
| AddressSpace.NamespaceManager.AddNodes | opcua/server/namespace_manager.go:348-382 | the loops compute `Added` |
| AddressSpace.NamespaceManager.DeleteNode | opcua/server/namespace_manager.go:418-443 | the loops compute `Deleted` |
| BrowsePaging.ChainReturnsPages | opcua/server/server_service_set.go:1474-1518 | Browse and then BrowseNext return the pages one by one, with a point exactly while there is more, never run out of slots, and leave the points as they were; ids may wrap |
| BrowsePaging.PagesSplit | opcua/server/server_service_set.go:1312-1332 | the pages hold the list once and in order, none is longer than the maximum, all but the last are full |
| BrowsePaging.UsableOnce | opcua/server/session.go:348-373 | under any interleaving the limit is kept, and a point is accepted exactly when it was created and not yet used, and gives back what was stored |
| BrowsePaging.WholeList | opcua/server/server_service_set.go:1312-1332 | a maximum of zero returns the whole list at once and uses no point |
| BrowsePaging.BrowseRefusedIff | opcua/server/server_service_set.go:1312-1332 | a list is refused if and only if it is longer than a page and no point is free, and then nothing changes |
| BrowsePaging.ReleaseFrees | opcua/server/server_service_set.go:1474-1518 | releasing a point frees its slot, returns nothing and leaves the other points alone; the point cannot be used again |
| BrowsePaging.PointRefusedIff | opcua/server/session.go:361-373 | which points are refused, and how |
| BrowsePaging.BrowseSession.AddBrowseContinuationPoint | opcua/server/session.go:348-359 | stores a point unless the limit is reached |
| BrowsePaging.BrowseSession.RemoveBrowseContinuationPoint | opcua/server/session.go:361-373 | takes a point out, at most once; unknown points are refused and points of one to three bytes fail at run time |
| BrowsePaging.BrowseSession.HandleBrowse | opcua/server/server_service_set.go:1312-1332 | computes `Browse` |
| BrowsePaging.BrowseSession.HandleBrowseNext | opcua/server/server_service_set.go:1474-1518 | computes `BrowseNext`, with released, unknown and too short points |

## Left out

- Real cryptography, certificates, PKCS#7 signatures and the policy tables: abstract functions and sizes.
- Sockets, tickers, worker pools and lock order: one atomic step per lock, chunk or request.
- Failing writes: every write of a response succeeds.
- Interleavings finer than a step; in particular an event that arrives between the two loops of one publishing cycle.
- Keys from server to client across two renewals with no response in between: only client to server is stated.
- Chunks.ReadRequest: the token in force for each chunk is a parameter; its installation is the subject of `Tokens`.
- Revision.Revise: reals instead of 64-bit floats, so rounding is not covered.
- Delivery.AcceptedAreKeptSamples: for an item that is not modified, switched or sent again, since these restart its sampling.
- Delivery.Feed.Publish: one item at a time is an object; what the other items of the subscription keep is a parameter.
- Publishing.ExpiryWindow: keepAliveCount and publishRequestCount do not wrap, which would take 2^32 ticks or requests.
- Publishing.StepKeeps: the channel of status changes is unbounded; in the program a full one blocks.
- Subscriptions.Subscription.Publish: the fields of a subscription are held in one record; sorting the subscriptions by priority is left to the caller of the publish handler.
- Subscriptions.HandlePublish: the acknowledgements of a publish request are separate steps before it.
- Sessions.QueuedOrAnsweredOnce: one time stamp per step, and no deletion of the session.
- The overflow bit of queued values, and disabledMonitoredItemCount and the other diagnostic counters.
- MonitoredItems.SteadyIff: the rounding and overflow of floating-point differences is not covered; structures and arrays inside a variant are compared as opaque values.
- Event filters: which events an item accepts is left open.
- PollGroups.InItsGroupOnly: does not cover the closing of the server, which empties the groups.
- AddressSpace.NamespaceManager.AddNodes: nodes are values under their ids, so two nodes with the same id in one batch are taken to be the last of them.
- Deleting the children of a node, subtype searches and event propagation: they need references without cycles, which nothing establishes.
- Decoding and encoding of the OPC UA binary types, node-set loading, attribute access, roles, the read and write services.
- The dashboard's web server, login, agents, configuration.
