# dsh-proxy: a verified model of the relay

dsh-proxy moves a phone's bytes to a bridge. The bytes arrive inside WebSocket
frames, are cut into mux DATA frames under credit flow control, are sealed into
length-prefixed Noise messages, and leave on one bridge link; replies come back the
same way. Around that pipe stand admission (a global permit, a per-address guard) and
a routing table in which a newer link takes over its key. This project models those
four pieces and proves what holds over every input, every cut of the wire, every
interleaving and every reachable state.

| file | what it models |
|---|---|
| `Bytes.dfy`, `Wire.dfy`, `Counting.dfy` | bytes, big-endian integers, constants, sizes of sets and maps |
| `Incremental.dfy` | decoders over a growing buffer: independence from cuts, round trips |
| `WsCodec.dfy`, `WsReading.dfy`, `WsStream.dfy` | src/ws.rs: frame formats, reading in pieces, the stream object |
| `NoiseCodec.dfy`, `NoiseLink.dfy` | src/noise.rs: the codec objects, one link direction down to its bytes |
| `MuxPair.dfy`, `MuxInbox.dfy`, `MuxClosing.dfy` | one mux stream between two ends: conservation, exactness, inbox size, what can follow a close |
| `MuxProgress.dfy`, `SharedLink.dfy` | transfers: over one stream, and over many that share outboxes and a link of bounded capacity |
| `SafeTraffic.dfy` | which frames can never overflow an inbox |
| `LinkStall.dfy` | read loops that wait to answer, and the link that stands still |
| `MuxSession.dfy`, `MuxSystem.dfy`, `StreamBudget.dfy` | src/mux.rs: the session object, two sessions with all streams, the permit pool |
| `SealedSystem.dfy` | the two sessions joined by sealed bytes instead of packets |
| `MuxStreamIo.dfy`, `ServeClient.dfy` | the byte-stream adapter and the loops of `serve_client` |
| `EndToEnd.dfy`, `EndToEndDelivery.dfy` | phones, preambles, relay, mux, sealed link and bridge together: what never goes wrong, and what can be done |
| `IpGuard.dfy`, `Routing.dfy` | src/lib.rs: the per-address guard, registration and takeover |

Objects the source updates in place are classes, and their methods are tied either to
a function of the old state or to an invariant over ghost history. Concurrency is a
step system: a step is one atomic action of one task, a run is any list of steps each
possible when taken, and a theorem about `After(start, run)` is a theorem about every
reachable state, since `run` is arbitrary.

How the layers meet:

* `MuxSession.ReadFrame` performs exactly `Hear`, and `Hear` is the read-loop step of
  `MuxSystem`; `EachStreamRunsAlone` then reduces the system, stream by stream, to
  `MuxPair`.
* `MuxSystem` joins its ends by packet queues. `SealedSystem` replaces each queue by an
  outbox, an encoder, bytes cut anywhere and a decoder, and `BytesArePackets` shows that
  each of its runs is a run of `MuxSystem` in which neither codec ever fails, and
  `PacketsAreBytes` the converse.
* `WsStream.PollRead` delivers what `Piecewise` decodes, and `WsStream.PollWrite`,
  `PollFlush` and the pongs keep `sent + outgoing` equal to a list of whole frames;
  those are the steps of `EndToEnd`, which stands on `SealedSystem`.
* The loops of `ServeClient` appear in `EndToEnd` as the steps of a phone: the
  preamble is read, a stream is opened, the preamble is its first send, and then each
  read is sent frame by frame before the next read.

Points where the code and its comments, or the obvious claim, differ:

* The comment at src/mux.rs:31-38 says an overflow means that the peer ignored its
  credit. Of a lower bound on frame sizes, 256 bytes is exactly what makes that true
  (`InboxSizing`); of a given sequence of frames, it is true exactly when no 1025 of them
  in a row fit into the credit that is out at that point (`SafeExactly`), and exactly
  then nothing can be lost (`DeliveryExactly`).
* Reading a WebSocket does not depend on how the wire was cut exactly when nothing
  behind the first CLOSE carries payload or is malformed (`ChunkingIndependence`);
  frames already buffered behind a CLOSE are still decoded, later ones are not read.
* With a per-address ceiling of zero a refused claim leaves a zero entry that nothing
  removes (`ZeroEntriesAreTransient`).
* An empty DATA frame makes `MuxStreamIo::poll_read` answer with zero bytes, which its
  reader takes for an end of stream (`MuxStreamIo.PollRead` states both causes).
* DATA may follow CLOSE on a link, exactly when the closing end still holds a paid frame,
  or credit behind a gate the close leaves open (`DataBehindClose`, with a run from the
  start in `DataMayFollowClose`); the far end absorbs it (`LateFramesAbsorbed`).
* `StreamTx::close` does not close the credit gate (src/mux.rs:327-330), so a detached
  uplink that waits for credit at that moment waits for ever (`CloseWakesNobody`, with a
  run from the start in `SenderLeftWaiting`).
* A read loop awaits its outbox when it answers, outside the idle timeout
  (src/mux.rs:204-222). When both ends answer, a link of any capacity can stand still for
  good, in exactly one kind of state (`ComesToRestExactly`, `StandstillHappens`).
* `close_stream` does not wait for room in the outbox (src/mux.rs:350-355). With the outbox
  full its CLOSE is lost and the far end keeps the stream (`SilentDropHappens`); apart
  from that and a torn-down link, no end is left holding a stream (`NoHalfOpenStream`).
* Stream ids are fresh for exactly the first 2^32 - 1 opens of a link (`IdsAreFresh`).

## Model

| member | source | states |
|---|---|---|
| `Incremental.FeedIsScan` | src/noise.rs:90-116 | A decoder that keeps its leftover between reads yields, for any cut of the wire, the items, the state and the verdict of a one-shot parse; the decoder only has to be stable under bytes added behind. |
| `Incremental.PartialRoundTrip` | src/ws.rs:94-107 | From any part of a printed list a matching reader obtains a prefix of the list and no error. |
| `WsCodec.ClientParseStable` | src/ws.rs:112-165 | `decode` never changes its mind: a frame or an error found in a buffer stays the same whatever bytes follow, and a frame consumes at least one byte and no more than are there. |
| `WsCodec.OpcodesOfTheStandard` | src/ws.rs:171-184 | Which opcodes are known, which carry data, and which one closes, as numbers of section 5.2 of RFC 6455. |
| `WsCodec.PhoneWireDecodes` | src/ws.rs:116-184 | For every list of legal phone frames, with any FIN, reserved bits and masks, decoding the wire gives back exactly those opcodes and payloads with nothing left over. |
| `WsCodec.AcceptsExactly` | src/ws.rs:112-165 | A buffer yields a frame if and only if it starts with a legal one: masked, of a known opcode, at most 1 MiB, in any of the three length forms, and if a control frame then final, short and in the short form. |
| `WsCodec.RefusesOnlyIllegal` | src/ws.rs:112-165 | Bytes that are refused could not have become a legal frame, whatever had followed. |
| `WsCodec.RefusesEarly` | src/ws.rs:118-156 | A bad control head is refused from two bytes, a bad length or missing mask from the length field, and no buffer of 1 MiB + 14 bytes or more still waits. |
| `WsCodec.MaskedBits` | src/ws.rs:168-170 | Each bit of a masked byte is the exclusive or of its own bit and that bit of the mask byte at its index modulo four. |
| `WsCodec.MaskOrder` | src/ws.rs:168-170 | The mask is used from its first byte on and over again every four bytes. |
| `WsCodec.MaskedExamples` | src/ws.rs:112-184 | The masked text and pong examples of section 5.7 of RFC 6455 decode to "Hello". |
| `WsCodec.UnmaskedExamples` | src/ws.rs:94-107 | The unmasked examples of that section, with 5, 256 and 65536 bytes, are what is sent. |
| `WsCodec.ServerFrameDecodes` | src/ws.rs:94-107 | A staged frame read by a strict phone (final, unmasked, no reserved bits, shortest length form) is the same opcode and payload, with exactly its bytes used. |
| `WsCodec.PhoneReadsPrefix` | src/ws.rs:190-200 | After any partial socket writes the phone has decoded a prefix of the staged frames and no error, so no pong lies inside a data frame; with all bytes written, all of them. |
| `WsReading.ChunkingIndependence` | src/ws.rs:204-242 | The delivered bytes and the error verdict equal the one-shot parse for every cut into socket reads if and only if nothing behind the first CLOSE carries payload or is malformed. |
| `WsReading.CloseLastIsSilent` | src/ws.rs:175-175 | A phone whose CLOSE is its last frame meets that condition, and its one-shot payload is the payload of its frames. |
| `WsStreams.Unmask` | src/ws.rs:168-170 | The in-place loop leaves every byte xored with its mask byte and no other change. |
| `WsStreams.WsStream.TakeFrame` | src/ws.rs:112-170 | Waits, fails with the right error or takes one unmasked frame exactly as `ClientParse` says; waiting changes nothing. |
| `WsStreams.WsStream.Decode` | src/ws.rs:166-184 | A data frame extends `plain`, CLOSE sets `closed`, a ping stages a pong with its payload only while at most 8 KiB wait, an unknown opcode fails; what is queued stays whole frames. |
| `WsStreams.PongEchoes` | src/ws.rs:176-180 | What a phone reads in answer to a ping is one final, unmasked pong with its own payload, and nothing at all once more than 8 KiB wait. |
| `WsStreams.WsStream.Drain` | src/ws.rs:190-200 | For every pattern of socket answers, bytes sent and bytes queued together stay the same list of whole frames; it reports Empty exactly when nothing is queued, and Blocked or Broken exactly when that was the socket's last answer, with everything left on offer. |
| `WsStreams.WsStream.PollRead` | src/ws.rs:203-243 | For any socket script: every byte the socket hands over goes into the decoder; the reader gets the next bytes in order, and at once what is decoded already; it waits only when the socket said "not yet" and nothing is left to decode or deliver; zero bytes into a non-empty buffer come only after a close or end of file with everything delivered; it fails only for a protocol error, after every good byte, or a socket error; what it stages are pongs for pings it took, and it puts them to the socket; `incoming`, `plain` and `outgoing` stay within 1 MiB + 14 + 16 KiB, 1 MiB and 65548 bytes. |
| `WsStreams.DeliveredIsOneShot` | src/ws.rs:209-241 | When reading has stopped, what was delivered and the verdict are those of a one-shot parse of the phone's whole wire, if it is quiet behind its CLOSE. |
| `WsStreams.WsStream.PollWrite` | src/ws.rs:246-263 | Accepts min(len, 64 KiB) bytes as one binary frame, or nothing while older bytes wait; it waits or refuses only as the socket does; the staged binary payload is exactly what was accepted; the reading side and all buffer bounds are kept. |
| `WsStreams.WsStream.PollShutdown` | src/ws.rs:272-281 | Stages one CLOSE and only one, and finishes exactly when every staged byte is with the socket. |
| `NoiseCodec.NoiseEncoder.Encode` | src/noise.rs:60-83 | Appends one length-prefixed sealed message and advances the nonce, or refuses and changes nothing, exactly when the payload exceeds the u16 frame limit. |
| `NoiseCodec.NoiseDecoder.Decode` | src/noise.rs:92-116 | Decides as `OpenMessage` does; only a whole message is consumed and advances the nonce, and waiting changes nothing. |
| `NoiseCodec.HeadPlain` | src/mux.rs:208-215 | The read loop's header parse recovers id, kind and payload of every frame the encoder laid out. |
| `NoiseCodec.StrictHeadPlain` | src/noise.rs:66-71 | A reader that takes id, kind, length and the reserved zero byte from their places, most significant byte first, and believes the length, recovers every frame below 64 KiB. |
| `NoiseCodec.OpensExactly` | src/noise.rs:92-116 | A plaintext comes out exactly when a whole length-prefixed message of at least a tag is there and opens to it under the expected nonce; it fails exactly on a shorter length or a message that does not open. |
| `NoiseCodec.LinkRoundTrip` | src/noise.rs:54-117 | Feeding the decoder the encoder's output in arbitrary pieces yields exactly the original frames, leaves nothing behind and ends with nonce = number of frames mod 2^64. |
| `NoiseCodec.LinkPrefix` | src/noise.rs:86-117 | Any received part of those bytes gives a prefix of the frames without error, with the decoder's nonce equal to the encoder's after that many frames. |
| `NoiseLink.LinkIsFifo` | src/noise.rs:54-117 | From a new link on, over every schedule of writes, deliveries and decodes, packets come out in the order they went in, the decoder never errs, both nonces count their messages, and once all bytes have arrived it waits only if it has handed over everything. |
| `MuxPair.CreditConservation` | src/mux.rs:297-324 | In every reachable state, for both directions: permits + reserved + DATA in flight + inbox + in hand + owed + grants in flight = 256 KiB while both halves are live, and never more. |
| `MuxPair.StreamExactness` | src/mux.rs:246-283 | In every reachable state the reader has a prefix of what the sender handed over, and while the receiver is live every handed byte is received, queued, in flight or reserved, in that order. |
| `MuxPair.CountersBounded` | src/mux.rs:388-395 | Credit never exceeds the window even after any grant still in flight, and credit owed fits its u32. |
| `MuxInbox.InboxSizing` | src/mux.rs:31-38 | In either direction, a peer inside its credit that sends frames of at least m bytes can never fill a 1024-frame inbox if and only if m is at least 256. |
| `MuxClosing.DataBehindClose` | src/mux.rs:327-330 | From any ordered state of a live link, on either end: some continuation puts DATA behind the CLOSE this end just sent if and only if it holds a paid frame at that moment, or holds credit and the close leaves its gate open. |
| `MuxClosing.DataMayFollowClose` | src/lib.rs:315-319 | The run from the start in which that happens: OPEN, CLOSE and then DATA lie on the link. |
| `MuxClosing.SenderLeftWaiting` | src/lib.rs:315-320 | A run from the start after which a sender of any frame over 1024 bytes waits for ever. |
| `MuxClosing.CloseWakesNobody` | src/lib.rs:315-320 | After `StreamTx::close` a sender of the stream neither gets its credit nor an error, whatever either end does later, if and only if its credit was short and its gate open at the close. |
| `MuxClosing.GateShutsExactly` | src/mux.rs:246-280 | At either end, the open gate of a stream in the map is shut by the peer's CLOSE, an inbox overflow, a dropped stream or a torn-down link, and by nothing else. |
| `MuxClosing.CutWakesEverybody` | src/mux.rs:275-279 | After any of these, in every continuation, no sender of the stream waits and none can pay for a frame. |
| `MuxClosing.HungUpForGood` | src/mux.rs:249-253 | Once a stream's receiver is dropped, in every continuation nothing is queued for it, received by it or granted for it. |
| `MuxClosing.NoHalfOpenStream` | src/mux.rs:226-279 | In every run on a live link without a silent drop, an end that still has a stream the other dropped or refused finds a CLOSE on its way; with both directions empty, both have the stream or neither. |
| `MuxClosing.DropInformsExactly` | src/mux.rs:350-355 | `close_stream` leaves the other end informed if and only if its CLOSE was queued. |
| `MuxClosing.SilentDropHappens` | src/mux.rs:350-355 | A run from the start after which the far end keeps a stream that nothing will ever close. |
| `MuxProgress.NoCreditDeadlock` | src/lib.rs:35-38 | In every reachable state with both ends live, when nothing is on its way and the reader owes less than half a window, the sender holds more than half a window, so acquiring any frame succeeds. |
| `SharedLink.NeverStuck` | src/mux.rs:88-120 | As long as any of the transfers of any number of streams is unfinished, some step is possible, although grants come only in half windows, all streams share one outbox of 256 frames per end, and one FIFO link of any capacity lets only its oldest frame through. |
| `SharedLink.TransfersComplete` | src/mux.rs:299-313 | Whatever frames are to cross on whatever streams, every schedule has at most `FleetMeasure` steps and comes to rest only with every frame of every stream delivered in order. |
| `SharedLink.AnyTransfersComplete` | src/mux.rs:299-313 | On new streams any safe lists of frames, from any number of sends, cross in at most fourteen steps a byte under any schedule; no inbox overflows, and a schedule can only come to rest with everything delivered both ways. |
| `SafeTraffic.SafeExactly` | src/mux.rs:249-266 | No schedule of any number of streams ever overflows an inbox if and only if, on every stream and in both directions, no 1025 frames in a row fit into the credit out at that point, which is a function of that stream's frames alone. |
| `SafeTraffic.DeliveryExactly` | src/mux.rs:246-266 | Under every schedule everything can still be delivered on every stream, at every point, if and only if all frames are safe; otherwise some schedule loses a frame for good. |
| `SafeTraffic.OneSendIsSafe` | src/mux.rs:299-311 | The frames one `send` of any length makes are safe. |
| `SafeTraffic.UplinkIsSafe` | src/lib.rs:275-289 | The 37-byte preamble followed by reads of at least 256 bytes, each of any length, is safe. |
| `LinkStall.ComesToRestExactly` | src/mux.rs:202-222 | In every reachable state of a live link of any capacity, its writer and reader tasks all wait if and only if nothing is on the way, or both read loops hold an answer behind a full outbox and a full link. |
| `LinkStall.StuckForGood` | src/mux.rs:204-206 | From that second state on, whatever any task does, no frame is ever sent, read or answered again in either direction; the idle timeout watches only the read that is not taking place. |
| `LinkStall.StandstillHappens` | src/mux.rs:217-222 | For every capacity some run reaches that state, by keepalives that both ends answer. |
| `MuxSessions.PacketRoundTrip` | src/mux.rs:223-280 | What the read loop makes of a frame a session built is the packet that was meant. |
| `MuxSessions.KindsOnTheWire` | src/wire.rs:26-30 | Each packet's kind byte and body, and exactly which frames mean nothing. |
| `MuxSessions.AnswersExactly` | src/mux.rs:219-266 | The read loop answers a stream with CLOSE exactly when it refuses it for want of budget or drops it although the peer did not close it; it echoes keepalives and says nothing else. |
| `MuxSessions.OpenIsMet` | src/mux.rs:226-245 | An OPEN with a permit left makes a stream with a full window and an empty inbox, with a reader exactly if a handler is registered; without one nothing is made. |
| `MuxSessions.StreamsAreIndependent` | src/mux.rs:202-283 | Whatever else arrives or happens on the link, births of other streams included, a stream's membership, inbox, credit and history end as if only its own frames and steps had occurred. |
| `MuxSessions.LateFramesAbsorbed` | src/mux.rs:247-248 | Any number of frames for a stream that has left the map leaves it as it was. |
| `MuxSessions.IdsAreFresh` | src/mux.rs:182-182 | The next id differs from all earlier ones and from the keepalive's 0 if and only if fewer than 2^32 - 1 streams were opened. |
| `MuxSessions.CutAllConcat` | src/mux.rs:300-311 | The frames `send` cuts are non-empty, all but the last are full, and together they are the data. |
| `MuxSessions.MuxSession.constructor` | src/mux.rs:88-101 | A new session has max(1, max_streams) permits, no streams and ids from 1. |
| `MuxSessions.MuxSession.TryOpenStream` | src/mux.rs:180-193 | Takes a permit before inserting; a full budget changes nothing; a dead link leaves neither an entry nor a missing permit; free permits plus streams stay the ceiling. |
| `MuxSessions.MuxSession.OnData` | src/mux.rs:246-268 | Queues for a live listener, drops for a gone one, and on a full inbox removes that stream, closes its gate and answers CLOSE. |
| `MuxSessions.MuxSession.ReadFrame` | src/mux.rs:203-283 | One turn of the read loop has exactly the effect and the answer of the specification `Hear` on the parsed frame, and calls the registered handler exactly for an OPEN it lets in; a stream the peer closes, or whose inbox overflows, leaves the map with its gate shut; a short frame fails and changes nothing. |
| `MuxSessions.MuxSession.Shutdown` | src/mux.rs:162-171 | Every stream leaves the map with its gate closed, all permits return, every other half is untouched. |
| `MuxSessions.MuxSession.Send` | src/mux.rs:299-313 | Whatever credit or close arrives while it waits: frames enqueued, the one frame lost on a dead link and bytes left are the cut of the data in order, every byte sent or lost was paid for, and nothing else changed but what a close changes; it fails exactly on a closed gate or a lost frame, and stops early otherwise only for want of credit. |
| `MuxSystem.EachStreamRunsAlone` | src/mux.rs:202-283 | Any interleaved run of all streams is, for each stream, a run of that stream alone that ends in the same state. |
| `MuxSystem.StreamMovesOn` | src/mux.rs:202-283 | The converse: whatever a stream could do next alone, it can do among the others after finitely many turns of the read loop, ending in the same state. |
| `MuxSystem.SystemCreditConservation` | src/mux.rs:180-313 | Credit conservation for every stream and direction of every run of two sessions. |
| `MuxSystem.SystemExactness` | src/mux.rs:180-313 | No stream's bytes are lost, repeated, reordered or mixed with another's in any run of two sessions. |
| `MuxSystem.SystemBudget` | src/mux.rs:180-185 | In every run each session's free permits and streams add up to its ceiling. |
| `MuxSystem.SystemFramesFit` | src/mux.rs:306-311 | In every run each frame on either link fits a Noise message and a u32 grant, and an open that gets a permit gets an unused id. |
| `SealedSystem.BytesArePackets` | src/mux.rs:104-120 | With lawful transports every run of two sessions over sealed bytes, however cut and scheduled, is a run of the packet system ending in the same state; neither codec ever fails. |
| `SealedSystem.PacketsAreBytes` | src/mux.rs:104-120 | The converse: every run of the packet system is the view of some run over sealed bytes. |
| `StreamBudget.ExactBudget` | src/mux.rs:61-66 | Under every interleaving of acquires, inserts (also over a live id), removals and releases, free + in transit + in the map is the ceiling, and a released permit is held nowhere else. |
| `StreamBudget.CeilingHolds` | src/mux.rs:98-98 | The same sum is max(1, max_streams) in every run of a new session. |
| `StreamBudget.PermitCanComeBack` | src/mux.rs:61-66 | Wherever a permit is, at most two steps bring it back. |
| `MuxStreamIos.MuxStreamIo.PollRead` | src/mux.rs:439-480 | Bytes returned, unread tail and queued chunks stay what was dispatched, in order, and a read takes all that fits of the chunk at hand; granted plus owed is what was returned; credit is granted from half a window on and in full at the end of the stream, and stays owed when the outbox is full; a zero-byte answer means the end of the stream or an empty DATA frame, and nothing else. |
| `MuxStreamIos.MuxStreamIo.PollWrite` | src/mux.rs:484-500 | Takes all of the data or, while a send is in flight, none; from 32 KiB on the buffer becomes a send, below that it stays; handed, in flight and buffered bytes stay what was accepted. |
| `MuxStreamIos.MuxStreamIo.PollFlush` | src/mux.rs:502-521 | Does what `FlushOnce` says of the writing side; reports ready only when every accepted byte has been handed over, and an error exactly when the in-flight send failed. |
| `MuxStreamIos.FlushStartsSend` | src/mux.rs:502-521 | A flush leaves nothing merely buffered: everything accepted is handed over or in one send in flight, and it is ready only with nothing left. |
| `MuxStreamIos.FlushEnds` | src/mux.rs:502-521 | When sends succeed, one poll with a send in flight, and otherwise two, end in ready with all accepted bytes handed over. |
| `MuxStreamIos.MuxStreamIo.PollShutdown` | src/mux.rs:523-532 | Closes the stream only when the flush has ended, after offering all credit owed. |
| `ServeClient.Uplink` | src/lib.rs:273-295 | The sends are first the 37-byte preamble, then what each read returned, in order, up to the first end, error or failed send. |
| `ServeClient.BeforeStopExactly` | src/lib.rs:281-292 | What the uplink sends are exactly the reads in front of the first end, error or empty read. |
| `ServeClient.Downlink` | src/lib.rs:296-311 | Grants plus pending is what was written; credit is given back as soon as half a window is due, so what stays owed follows from the chunks; it stops only at the end, at a failed write or at a failed grant. |
| `EndToEnd.EndToEndExactness` | src/edge.rs:118-129 | For any lawful transports, any number of phones, any cuts of their wires and of the sealed bytes both ways, and any interleaving: no codec fails; nothing is sent for a phone before its 37 bytes are in; a stream is one phone's alone, whose preamble names this bridge and is its whole first frame; the bridge holds on it a prefix of that phone's payload; every delivered byte is received, queued, on the link, reserved or held, in that order; and the phone decodes a prefix of what the bridge sent on that stream, all that was accepted for it once its socket has taken every staged byte. |
| `EndToEndDelivery.WholePayloadArrives` | src/lib.rs:264-295 | Any phone whose preamble names this bridge can have its whole payload, of any length, delivered: some schedule of reads, frames, seals and grants ends with the bridge holding exactly that payload on the phone's stream. |
| `EndToEndDelivery.RepliesReachPhone` | src/lib.rs:296-311 | From every reachable state some steps of the phone's own socket end with the phone decoding exactly what the proxy received on its stream. |
| `EndToEnd.MeantByLegalPhone` | src/ws.rs:172-174 | For a phone that speaks legal WebSocket that payload is the concatenated payload of its data frames. |
| `IpGuard.IpTable.Claim` | src/lib.rs:97-104 | Grants exactly below the ceiling and touches no other address. |
| `IpGuard.GuardAccounting` | src/lib.rs:107-117 | With claims interleaved between the two steps of drops, the stored count is always the slots held and not yet decremented, and never exceeds the ceiling. |
| `IpGuard.NeverSaturates` | src/lib.rs:109-111 | The decrement always finds a count above zero. |
| `IpGuard.ZeroEntriesAreTransient` | src/lib.rs:112-115 | A zero entry exists only while some drop is between its steps, in every run, if and only if the ceiling is at least one. |
| `Routing.RouteTable.RemoveIf` | src/lib.rs:251-251 | Removes the entry only if it still names this session, and no other entry. |
| `Routing.RouteStability` | src/lib.rs:246-251 | In every reachable state an entry goes only when its own dead session leaves, or when a newer link replaces it and holds it to shut down. |
| `Routing.NoOrphanedLink` | src/lib.rs:238-251 | Over all interleavings a session still running is its key's current route or about to be shut down by the task that displaced it. |
| `Routing.RefinesGuard` | src/lib.rs:211-216 | Registration takes and returns per-address slots exactly as the guard's own tasks do. |
| `Routing.TableIsBounded` | src/lib.rs:211-254 | In every reachable state the table has at most max_bridges entries and at most max_bridges_per_ip from one address. |
| `Routing.EveryTaskCanLeave` | src/lib.rs:249-254 | From every stage a task can leave by its own steps once its link is dead: its permit is back and no route leads to it. |

## Left out

- TLS, certificates, HTTP routing, the upgrade handshake and command-line parsing: glue around libraries.
- The Noise_XX handshake and the ciphers: a finished handshake is a pair of functions with `open(n, seal(n, p)) == p` and a 16-byte tag.
- Timers and idle timeouts: a dead link is a step that may happen at any time.
- Wakers and the executor: a pending poll is a step that changes nothing, so `MuxStreamIo` has safety but no liveness here (`poll_write` does not poll the send in flight, and a grant refused by a full outbox waits for the next read).
- The outbox bound of 256 frames outside `SharedLink` and `LinkStall`: the safety theorems let an outbox grow, which only adds runs. The writer task takes frames one by one, not in batches.
- An answer a read loop holds outside `LinkStall`: elsewhere it enters the outbox with the frame that provoked it.
- Partial permit assignment inside the semaphore and sharding of the concurrent maps: each acquire, insert, remove and conditional remove is one step; `retain` is one step per entry.
- The inner socket's own flush and shutdown, which the WebSocket layer only forwards to.
- MuxSessions.MuxSession.Send: what arrives while it waits is a list given up front.
- MuxSystem.SystemExactness: opens stop at 2^32 - 1 per link, where ids would wrap; `IdsAreFresh` states that bound exactly.
- NoiseCodec.NoiseEncoder.Encode: the nonce wraps at 2^64 in step on both sides; the cipher library's own refusal at its last nonce is not modelled.
- MuxStreamIos.MuxStreamIo.PollRead: the u32 width of the owed counter is not part of the object; `CountersBounded` shows that it never exceeds a window.
- ServeClient.Uplink: the frames inside one send and the wait for credit are `MuxSession.Send` and `MuxPair`.
- EndToEnd.EndToEndExactness: one bridge link with its key; phones whose preamble names another bridge stay without a stream here.
- SharedLink.TransfersComplete: both readers return credit as `serve_client` does, and no keepalives or closes are among the traffic.
