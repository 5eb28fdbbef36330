# A verified model of the MQTT 3.1.1 client

This project models the hard core of a C++ MQTT client and proves what it promises: the packet codec,
the byte transport, the publisher's acknowledgement tracking, the subscriber's session, the reconnect
worker and the topic filter matcher. Check it with `dafny verify dfyconfig.toml`.

The development is layered, and the layers meet in theorems that span several of them.

- **Codec** (`WireEncoding`, `PublishPacket`, `ConnectPacket`, `SubscribePackets`, `StandardBytes`). The builders are
  methods that grow a byte buffer in place, each proved against a specification function. Beside them
  stand two kinds of reader: lenient ones that follow the layout, for two-sided inverse laws that say
  exactly for which arguments a packet can be read back, and those of a broker that refuses what
  sections 2.3.1, 3.1, 3.8, 3.10 and 4.7 of MQTT 3.1.1 tell it to, for the exact condition on which
  what the client builds is accepted. `StandardBytes` has the formats in literal bytes.
- **Bytes to packets** (`Transport`, `PacketReader`, `SendLock`). The transport's loops run over an
  arbitrary schedule of partial transfers, interrupts, timeouts, errors and stop requests. `SendLock`
  is a step machine of any number of threads sending under `sendMtx`: the wire always holds whole
  packets in lock order, up to the first failed send. `SendLock.PeerReads` puts it together: whatever
  the interleaving of the senders and the fragmentation of the stream, repeated reading at the other
  end returns exactly those packets.
- **Publisher** (`PacketIds`, `PublisherModel`, `PublisherProofs`, `Publisher`). A step machine of any
  number of threads inside `publish` and `publishAsync`, the receive thread, losses and disconnects;
  each atomic operation or region under `pubackMtx` is one step. The class `MqttPublisher` carries its
  own history as ghost state, and every method is proved to take only steps of the machine, so what is
  proved of all runs holds of every object. `PublisherCallbacks` adds the detached threads that deliver
  the callbacks of `publishAsync`.
- **Subscriber** (`SubscriberModel`, `SubscriberProofs`, `SubscriberIds`, `SubscriberAnomaly`,
  `SubscriberBroker`, `SubscriberWire`, `SubscriberLine`, `Subscriber`). The same for the subscription
  table, the pending SUBACK and UNSUBACK maps, the connection state and `resubscribeAll`. The main
  results say when the table agrees with what the broker was told, over every run of losses and
  reconnects, and when with what a broker holds that may keep or forget a session, refuse a request, or
  grant less than was asked. `SubscriberLine` puts this session and the line it sends on into one machine, in which a request is a
  lock, chunks and a return, among the packets of all other threads; so the agreement is followed down
  to the bytes that a broker decodes.
- **Connecting, reconnecting, disconnecting** (`Handshake`, `Backoff`, `Reconnect`, `ReconnectClient`).
  The handshake over the transport; and the receive thread's end, the reconnect worker and
  `disconnect()` as a step machine with a step for each look at shared state: over every run, which
  losses are answered by a connect, when a disconnect is final, how often the worker tries and how long
  it sleeps. The class `Client` takes its steps.
- **Dispatch, matching, URLs** (`Dispatch`, `TopicFilter`, `BrokerUrl`).

## What the proofs found

Where the code does less than its documentation or the standard suggests, the model keeps the code and
the project proves the exact condition.

- The matcher refuses `a` for `a/#` and `a/` for `a/+`, which sections 4.7.1.2 and 4.7.1.3 allow
  (`TopicFilter.LoopMisses`). These are the only two kinds of miss, and there are no false matches
  (`TopicFilter.MatchesRefinesLevels`).
- A subscription can be left behind at the broker: the connection drops while `subscribe()` waits, the
  reconnect tells the broker the topic again, and only then does the caller drop the topic from the
  table (`SubscriberAnomaly.OrphanedSubscription`). The table and what the broker was told agree on a
  topic if and only if no such drop is left standing, which is said of the run's steps
  (`SubscriberProofs.TableAgreesWithTold`).
- What was told is not what is held. `SubscriberBroker.BrokerAgreesIff` is the exact condition for a broker
  that may keep the session over a reconnect or forget it, lose the end of a broken connection, refuse
  any SUBSCRIBE and grant any with another QoS. A request of `resubscribeAll` that it refuses is never
  noticed, and the table keeps the topic (`SubscriberAnomaly.RefusedResubscribe`); a refused
  `subscribe()` is, and leaves neither side with the topic (`SubscriberAnomaly.RefusedSubscribe`); a lower
  granted QoS is taken for the one asked (`SubscriberBroker.ConfirmedIsHeld`).
- Without a clean session, a topic unsubscribed while there is no connection stays subscribed at the broker,
  and no reconnect mends it (`SubscriberAnomaly.OfflineUnsubscribe`). A broker that keeps the session and
  grants everything agrees with the table if and only if no drop is left standing from any connection
  (`SubscriberBroker.PersistentAgreesIff`); with a clean session, from this one
  (`SubscriberBroker.CleanAgreesIff`).
- A `subscribe()` whose send fails, or which the broker refuses, erases the table entry even when an
  earlier, successful subscription had put one there (`Subscriber.MqttSubscriber.Subscribe`).
- Packet ids are never checked against those in flight. A registration destroys another call's promise
  exactly when the two increments lie a multiple of 65536 apart (`PublisherProofs.RegisterOverwrites`,
  `SubscriberIds.RegisterOverwrites`). The results that need it assume fewer than 65536 increments
  while a call runs (`PublisherModel.CallWindow`, `SubscriberIds.Window`); only what is said of
  `publishAsync` promises, which outlive their calls, assumes it for the promise's lifetime
  (`PublisherModel.PromiseWindow`). The others hold without it.
- `publishAsync` leaves its promise in the map when its send fails, if and only if it tracks one
  (`Publisher.MqttPublisher.PublishAsync`).
- The callback of a tracked `publishAsync` whose send fails is never told so: it is told Ok or
  ConnectionLost when its promise is settled, or nothing (`PublisherCallbacks.CallbackIff`), and Ok even
  for a packet that was not sent (`PublisherCallbacks.FailureReportedAsSuccess`).
- The reconnect worker is launched once per object, because a finished `jthread` stays joinable. A loss
  is answered by a connect if and only if, when it is scheduled, the worker has neither ended nor left its
  loop nor used up its retries, asleep before its last one excepted (`Reconnect.LossServedIff`). So after
  one automatic reconnect no loss is answered any more (`Reconnect.OneReconnectOnly`, `Reconnect.SecondLossUnserved`),
  nor when the last retry has failed and a caller has connected (`Reconnect.LossAfterRetriesTrace`). The
  README of the repository promises automatic reconnects without that limit.
- `disconnect()` is not final. The client tries to connect after it has returned if and only if the worker
  is then on its way to a connect, or the receive thread is past its look at the stop request while
  reconnecting is enabled and the worker can still serve it (`Reconnect.DisconnectUndoneIff`). So it is undone when called while Reconnecting, when the worker
  sleeps on since an earlier loss, and when a read fails before the stop request, as when the broker closes
  on DISCONNECT (`Reconnect.UndoneAtGuardTrace`, `Reconnect.UndoneBySleeperTrace`,
  `Reconnect.UndoneByLossTrace`).
- The 32-bit attempt counter wraps past a limit of 2^32 - 1, which then limits nothing
  (`Reconnect.RetriesUnbounded`).
- A CONNACK shorter than two bytes makes `connect` throw with the state left at Connecting
  (`ReconnectClient.Client.Conclude`).
- The builders check nothing that the standard asks of their arguments. A broker that does refuses a
  CONNECT with a password and no user name, with will QoS 3, or with an empty client id and no clean
  session (`ConnectPacket.ConnectAccepted`), a SUBSCRIBE with QoS 3, a malformed filter, no entry or
  id 0 (`SubscribePackets.SubscribeAccepted`), and a PUBLISH with QoS 3, DUP at QoS 0, an empty topic, one
  with a wildcard or a null character, or id 0 (`PublishPacket.PublishAccepted`).
- With a fallback registered a message is dropped if and only if its topic is itself a key of the table
  with an empty callback (`Dispatch.DroppedDespiteFallback`).
- The first back-off delay is not capped (`Backoff.UpperBoundIff`).
- The host of a printed URL survives parsing exactly when it holds no slash
  (`BrokerUrl.BrokerUrlRoundTrip`).

## Model

| member | source | states |
|---|---|---|
| WireEncoding.ByteBuffer.AppendVarLen | src/protocol/MqttPacket.cpp:9-16 | the loop appends the variable-length form of section 2.2.3, for every 32-bit value |
| WireEncoding.ByteBuffer.AppendU16 | src/protocol/MqttPacket.cpp:18-21 | appends the value's two bytes, high byte first |
| WireEncoding.ByteBuffer.AppendMqttString | src/protocol/MqttPacket.cpp:23-26 | appends the length prefix, truncated to 16 bits, and the whole string |
| WireEncoding.ByteBuffer.PrependFixedHeader | src/protocol/MqttPacket.cpp:28-34 | the buffer becomes type byte, remaining length and old contents |
| WireEncoding.VarLenReadsBack | src/protocol/MqttPacket.cpp:9-16 | a reader with any budget of n bytes gets back exactly the values below 128^n, and refuses all others |
| WireEncoding.RemainingLengthRoundTrip | src/protocol/MqttPacket.cpp:146-160 | for every 32-bit value, four bytes are enough iff it is below 2^28; then the value comes back and exactly its bytes are consumed |
| WireEncoding.VarLenSize | src/protocol/MqttPacket.cpp:9-16 | an encoding fits n bytes iff the value is below 128^n |
| WireEncoding.VarLenIsShortest | src/protocol/MqttPacket.cpp:9-16 | no accepted encoding of a value is shorter than the encoder's, and one of equal length is the encoder's |
| WireEncoding.U16RoundTrip | src/protocol/MqttPacket.cpp:18-21 | a 16-bit integer comes back from its two bytes |
| WireEncoding.StringRoundTrip | src/protocol/MqttPacket.cpp:23-26 | a string comes back, with what follows it, iff it has at most 65535 bytes |
| WireEncoding.TakeStringInverse | src/protocol/MqttPacket.cpp:190-201 | whatever the topic reader accepts is the encoding of what it returns |
| WireEncoding.FrameInjective | src/protocol/MqttPacket.cpp:28-34 | two packets with bodies below 2^28 bytes and equal bytes have equal type bytes and bodies |
| StandardBytes.VarLenBytes | src/protocol/MqttPacket.cpp:9-16 | the variable-length form in digits to the base 128, the low one first and the top bit set on all but the last |
| StandardBytes.RemainingLengthTable | src/protocol/MqttPacket.cpp:9-16 | table 2.4 of MQTT 3.1.1 in literal bytes |
| StandardBytes.HighByteFirst | src/protocol/MqttPacket.cpp:18-26 | integers and string lengths have the high byte first, for every pair of bytes |
| PublishPacket.BuildPublish | src/protocol/MqttPacket.cpp:77-93 | the bytes built are type byte with flags, remaining length, topic, id only for QoS above 0, payload |
| PublishPacket.PackByte0 | src/protocol/MqttPacket.cpp:86-89 | or-ing the masks gives the sum of the disjoint fields of section 3.3.1, for every int QoS |
| PublishPacket.PublishByte0Fields | src/protocol/MqttPacket.cpp:86-89 | packet type, DUP, two QoS bits and RETAIN can each be read off the byte again |
| PublishPacket.BuildPuback | src/protocol/MqttPacket.cpp:97-103 | the four literal bytes are a well-framed packet with the id as body |
| PublishPacket.ParsePublish | src/protocol/MqttPacket.cpp:183-212 | the moving-position parser returns the fields of the specification, and its three exceptions |
| PublishPacket.PublishBuildThenParse | src/protocol/MqttPacket.cpp:77-93 | parsing what was built returns every field iff the topic fits its prefix and the QoS its two bits |
| PublishPacket.PublishParseThenBuild | src/protocol/MqttPacket.cpp:183-212 | for every flag nibble and every accepted body, rebuilding gives that flag byte and that body |
| PublishPacket.PublishAccepted | src/protocol/MqttPacket.cpp:77-93 | a receiver that refuses what sections 2.3.1, 3.3 and 4.7 tell it to accepts the built packet iff it fits, the topic is proper, the QoS not 3, DUP not set at QoS 0 and the id not 0 above it; what fits and fails that is refused |
| PublishPacket.PacketIdRoundTrip | src/protocol/MqttPacket.cpp:223-226 | an acknowledged id survives the wire; a body too short for one reads as 0 |
| StandardBytes.PublishFigure | src/protocol/MqttPacket.cpp:77-93 | figure 3.11 in literal bytes, with and without an id, and three flag bytes |
| ConnectPacket.BuildConnect | src/protocol/MqttPacket.cpp:38-73 | the bytes built are the framed header, flags, keepalive and the optional fields in order |
| ConnectPacket.PackFlags | src/protocol/MqttPacket.cpp:45-54 | or-ing the masks gives the sum of the flags of section 3.1.2.3, each present flag once |
| ConnectPacket.ConnectFlagBits | src/protocol/MqttPacket.cpp:45-54 | each optional field and setting can be read off its own bits; the reserved bit is 0 and without a will so are its settings |
| ConnectPacket.AppendPayload | src/protocol/MqttPacket.cpp:58-69 | client id, will topic and payload, user name and password are appended in this order, each only when present |
| ConnectPacket.ConnectStartsWith | src/protocol/MqttPacket.cpp:41-56 | every body starts with the literal protocol name and level, then flags and keepalive with the high byte first |
| StandardBytes.ConnectFigure | src/protocol/MqttPacket.cpp:38-73 | figure 3.6 in literal bytes, with all optional fields in their order |
| ConnectPacket.ConnectRoundTrip | src/protocol/MqttPacket.cpp:38-73 | a reader that follows the flag bits recovers all parameters iff each field fits its prefix and the will QoS its two bits |
| ConnectPacket.ConnectAccepted | src/protocol/MqttPacket.cpp:38-73 | a broker that refuses what section 3.1 tells it to accepts exactly the encodable parameters with a user name for each password, will QoS below 3 and a client id or a clean session; the other encodable ones it refuses |
| ConnectPacket.ConnectInjective | src/protocol/MqttPacket.cpp:38-73 | encodable parameters with equal packets are equal |
| SubscribePackets.BuildSubscribe | src/protocol/MqttPacket.cpp:107-117 | the loop builds packet id and all entries, in order, framed with type byte 0x82 |
| SubscribePackets.BuildUnsubscribe | src/protocol/MqttPacket.cpp:121-128 | the same for UNSUBSCRIBE, framed with 0xA2 |
| SubscribePackets.SubscribeRoundTrip | src/protocol/MqttPacket.cpp:107-117 | a reader that follows the layout recovers id and ordered list, of any length, iff each topic and QoS fits its field |
| SubscribePackets.UnsubscribeRoundTrip | src/protocol/MqttPacket.cpp:121-128 | the same for UNSUBSCRIBE |
| StandardBytes.SubscribeFigures | src/protocol/MqttPacket.cpp:107-128 | figures 3.23 and 3.31 in literal bytes |
| StandardBytes.ControlBytes | src/protocol/MqttPacket.cpp:97-133 | PUBACK, PINGREQ and DISCONNECT in literal bytes |
| SubscribePackets.SubscribeAccepted | src/protocol/MqttPacket.cpp:107-117 | a broker that refuses what sections 2.3.1, 3.8 and 4.7 tell it to accepts the built packet iff it fits, the id is not 0, the list not empty, each QoS below 3 and each filter proper |
| SubscribePackets.UnsubscribeAccepted | src/protocol/MqttPacket.cpp:121-128 | the same for UNSUBSCRIBE and section 3.10 |
| SubscribePackets.SubackKeepsTheBody | src/protocol/MqttPacket.cpp:214-221 | a SUBACK parses iff it has three bytes; then it has a return code and the body can be rebuilt |
| Transport.SocketTransport.SendAll | src/transport/SocketTransport.cpp:260-285 | under any schedule it ends; Ok means exactly the data was appended, an error a strict prefix; only interrupted plain sends are tried again, and any other failing call ends it |
| Transport.SocketTransport.RecvByte | src/transport/SocketTransport.cpp:289-332 | Ok is the next byte of the stream, an error takes nothing; only timeouts and interrupted plain receives are tried again; a stop flag up before a turn gives NotConnected and takes no turn, and which error the last turn gives is exact; with a delivering peer the outcome is decided by the stream alone |
| Transport.SocketTransport.RecvExact | src/transport/SocketTransport.cpp:336-383 | Ok is exactly the next n bytes, none lost or repeated; an error means fewer were taken, and is exact as in RecvByte; a stop flag up at the start gives NotConnected with nothing taken; it fills its buffer in place and ends |
| PacketReader.ReadRemaining | src/protocol/MqttPacket.cpp:146-160 | the loop computes the specified length without ever leaving 32 bits, and fails exactly on a fourth continuation bit |
| PacketReader.LengthStep | src/protocol/MqttPacket.cpp:153-154 | neither the sum nor the multiplier can overflow |
| PacketReader.ReadPacket | src/protocol/MqttPacket.cpp:137-173 | a packet is returned only if it heads the unread stream, and takes exactly its bytes; with a delivering peer all three outcomes are decided by the stream |
| PacketReader.ReceiveAll | src/subscriber/MqttSubscriber.cpp:158-172 | repeated reading over any fragmentation yields a prefix of the stream's packets, and all of them when the peer delivers |
| PacketReader.FrameDecodes | src/protocol/MqttPacket.cpp:137-173 | a packet at the head of any stream is recovered iff its body is below 2^28 bytes, and otherwise refused |
| PacketReader.CutFrameNeedsMore | src/protocol/MqttPacket.cpp:137-173 | no proper prefix of a packet is taken for a packet or for a malformed one |
| PacketReader.HeadDecodes | src/protocol/MqttPacket.cpp:137-173 | reading goes on, after a packet, with what follows it |
| PacketReader.StreamDecodes | src/protocol/MqttPacket.cpp:137-173 | unique decodability: concatenated packets of any number decode to exactly those packets, whatever follows |
| SendLock.FramesAreAtomic | src/transport/SocketTransport.cpp:260-285 | in every run of senders the wire is the finished packets, whole and in lock order, and part of one more, up to the first failed send |
| SendLock.StepKeepsInv | src/subscriber/MqttSubscriber.cpp:101-104 | each acquisition, partial transfer, failure and release keeps that |
| SendLock.WireDecodes | src/protocol/MqttPacket.cpp:137-173 | decoding the wire gives exactly the finished packets in lock order, and stops at the unfinished one |
| SendLock.SendAllRefines | src/transport/SocketTransport.cpp:260-285 | what a sendAll may do to the wire, for every number of bytes it gets out, is a run of lock, transfer and unlock or failure |
| SendLock.TransfersCompose | src/transport/SocketTransport.cpp:260-285 | two chunks are one longer chunk, so one transfer stands for any chunking |
| SendLock.LockedSend | src/subscriber/MqttSubscriber.cpp:101-104 | calling sendAll under the lock, under any schedule, takes the real wire where such a run takes it, with the packet finished iff the result is Ok |
| SendLock.PeerReads | src/protocol/MqttPacket.cpp:137-173 | end to end: over any sender interleaving and any fragmentation the peer reads exactly the packets sent, in order |
| BrokerUrl.ParseBrokerUrl | src/transport/SocketTransport.cpp:389-418 | the stepwise parser computes scheme, host and port as specified, with stoi's failures leaving the default port |
| BrokerUrl.PrintIntReadsBack | src/config/ConfigLoader.cpp:55-58 | decimal printing followed by stoi is the identity on 32-bit integers |
| BrokerUrl.PrintedUrlParses | src/config/ConfigLoader.cpp:177-179 | a printed URL parses to its host, to the port modulo 2^16 and to TLS iff the scheme is ssl, for every host without a slash, colons allowed |
| BrokerUrl.BrokerUrlRoundTrip | src/config/ConfigLoader.cpp:55-58 | for every port the round trip holds iff the host has no slash |
| BrokerUrl.HostHasNoSlash | src/transport/SocketTransport.cpp:403-405 | no URL parses to a host with a slash |
| BrokerUrl.DefaultPorts | src/transport/SocketTransport.cpp:393-415 | without a port, or with one that is no number, a URL with any scheme, path or neither gives 8883 and TLS for "ssl" and "tls", and 1883 without for the rest |
| BrokerUrl.PathIsIgnored | src/transport/SocketTransport.cpp:403-405 | a path after the authority makes no difference, with or without a port |
| BrokerUrl.HugePort | src/transport/SocketTransport.cpp:410-412 | a port beyond the range of an int leaves the default |
| BrokerUrl.StoIForms | src/transport/SocketTransport.cpp:411 | white space, signs and trailing characters as `std::stoi` takes them, in literal strings |
| TopicFilter.TopicMatchesFilter | src/subscriber/MqttSubscriber.cpp:68-83 | the two-index loop ends and computes the recursive matcher |
| TopicFilter.MatchesRefinesLevels | src/subscriber/MqttSubscriber.cpp:68-83 | for a well-formed filter and any topic the loop answers what the level rule of section 4.7.1 does, minus exactly two cases |
| TopicFilter.MatcherIsSound | src/subscriber/MqttSubscriber.cpp:68-83 | it never accepts what the level rule rejects, and it agrees with the rule iff neither of the two cases arises or the rule rejects |
| TopicFilter.LoopMisses | src/subscriber/MqttSubscriber.cpp:81-82 | concrete topics and filters for both misses |
| TopicFilter.TwoLevels | src/subscriber/MqttSubscriber.cpp:72-79 | levels are what the byte 0x2F separates |
| TopicFilter.LiteralMatchesItself | src/subscriber/MqttSubscriber.cpp:75-79 | a filter without the bytes 0x2B and 0x23 matches itself and nothing else |
| TopicFilter.HashMatchesBelow | src/subscriber/MqttSubscriber.cpp:71 | the filter 0x23 matches everything, and s followed by 0x2F 0x23 exactly what starts with s and 0x2F |
| TopicFilter.PlusMatchesOneLevel | src/subscriber/MqttSubscriber.cpp:72-74 | the filter 0x2B matches exactly the topics of one level that are not empty |
| TopicFilter.PlusMatchesBefore | src/subscriber/MqttSubscriber.cpp:72-74 | 0x2B 0x2F followed by s without wildcards matches exactly one level, the empty one included, then 0x2F and s |
| TopicFilter.MatchesInBytes | src/subscriber/MqttSubscriber.cpp:68-83 | "+/b" and "a/#" match "a/b", "+" does not, and "a.b" is one level, in literal bytes |
| PacketIds.PacketIdCounter.AllocPacketId | src/publisher/MqttPublisher.cpp:56-60 | one caller's allocation is never 0 and takes one increment, or two at the wrap |
| PacketIds.PacketIdCounter.AllocMany | src/publisher/MqttPublisher.cpp:56-60 | the k-th id handed to a single caller is 1 + (k mod 65535) |
| PacketIds.SequentialStep | src/publisher/MqttPublisher.cpp:56-60 | the closed form survives one allocation, wrap-around and skipped zero included |
| PacketIds.ConsecutiveIdsDiffer | src/publisher/MqttPublisher.cpp:56-60 | any 65535 consecutive ids are distinct and not 0 |
| PacketIds.RecentGrants | src/publisher/MqttPublisher.cpp:56-60 | under any interleaving of increments, within a window of 65536 ids are not 0 and never shared |
| PacketIds.IdsComeBack | src/publisher/MqttPublisher.cpp:57 | the window is needed: 65536 increments later the id is the same |
| PublisherProofs.StepKeepsInv | src/publisher/MqttPublisher.cpp:341-433 | every step of every thread keeps the agreement of map, promises, calls and acknowledgements |
| PublisherProofs.StepKeepsOwn | src/publisher/MqttPublisher.cpp:351-378 | while calls keep their window, every step leaves each synchronous call its promise |
| PublisherProofs.Conservation | src/publisher/MqttPublisher.cpp:62-68 | over every run: the map's entries are exactly the pending promises, each under its own id; a registered publish is pending, acknowledged, lost or destroyed, and one that was sent is registered |
| PublisherProofs.WindowedConservation | src/publisher/MqttPublisher.cpp:351-381 | while calls keep their window, a synchronous destroyed promise was withdrawn by its own call after a failed send or a timeout; no future throws, and no id is 0 |
| PublisherProofs.AsyncConservation | src/publisher/MqttPublisher.cpp:405-411 | while promises keep theirs, no promise of a publishAsync is ever destroyed |
| PublisherProofs.SuccessWasAcknowledged | src/publisher/MqttPublisher.cpp:351-388 | over every run: success with QoS above 0 means sent and a PUBACK with its id read after registration; no PUBACK settles two publishes |
| PublisherProofs.SettledForGood | src/publisher/MqttPublisher.cpp:97-105 | a promise settled at any point of a run is the same at every later point |
| PublisherProofs.SettledStays | src/publisher/MqttPublisher.cpp:97-105 | no step settles a promise twice |
| PublisherProofs.PubackSettlesItsCall | src/publisher/MqttPublisher.cpp:97-105 | a PUBACK settles the pending publish with its id, and nothing else |
| PublisherProofs.FailAllSettlesPending | src/publisher/MqttPublisher.cpp:62-68 | a loss settles every pending publish, and nothing else |
| PublisherProofs.ShortPubackSettlesNothing | src/publisher/MqttPublisher.cpp:97-105 | a PUBACK too short for an id changes no promise and no entry |
| PublisherProofs.RegisterOverwrites | src/publisher/MqttPublisher.cpp:351-357 | registering destroys another pending promise iff the two increments lie a multiple of 65536 apart |
| PublisherProofs.PublishAccounting | src/publisher/MqttPublisher.cpp:341-394 | over every run the two counters miss exactly the calls that threw; while calls keep their window they count every completed call that passed the guard |
| PublisherProofs.RunKeepsInv | src/publisher/MqttPublisher.cpp:341-433 | the invariant and the accounts hold at the end of every run |
| Publisher.MqttPublisher.OnPuback | src/publisher/MqttPublisher.cpp:97-105 | the map region of the receive loop is the machine's PUBACK step |
| Publisher.MqttPublisher.FailAllPending | src/publisher/MqttPublisher.cpp:62-68 | the loop over the map, in any order, then clearing it, is the machine's loss step |
| Publisher.MqttPublisher.SetAllLost | src/publisher/MqttPublisher.cpp:64-66 | the loop sets exactly the mapped promises to ConnectionLost |
| Publisher.MqttPublisher.AllocPacketId | src/publisher/MqttPublisher.cpp:56-60 | both increments are machine steps; undisturbed the id is not 0 |
| Publisher.MqttPublisher.RegisterPending | src/publisher/MqttPublisher.cpp:351-357 | the assignment into the map is the machine's registration, the replaced promise included |
| Publisher.MqttPublisher.ErasePending | src/publisher/MqttPublisher.cpp:364-367 | the erasure is the machine's withdrawal |
| Publisher.MqttPublisher.AwaitAck | src/publisher/MqttPublisher.cpp:374-385 | while the receive thread works through any arrivals, the wait ends with the first that settles the id, or times out; a loss that ends it leaves Reconnecting, and any other end the state as it was |
| Publisher.MqttPublisher.SendAndAwait | src/publisher/MqttPublisher.cpp:359-393 | outcome, counters, the freed id and the connection state for every send result and every sequence of arrivals |
| Publisher.MqttPublisher.Publish | src/publisher/MqttPublisher.cpp:341-394 | refused iff not connected and then nothing changes; else the outcome is decided by the send and the first settling arrival, is counted once, leaves no entry behind, and the state Reconnecting iff a loss ended the wait |
| Publisher.MqttPublisher.PublishAfterLoss | src/publisher/MqttPublisher.cpp:341-386 | after a publish whose wait was ended by a loss the next one is refused |
| Publisher.FirstSettlingDecides | src/publisher/MqttPublisher.cpp:97-105 | by the bytes of the arrivals: the first that is a loss or a PUBACK with the id decides between loss and success |
| Publisher.NoneSettles | src/publisher/MqttPublisher.cpp:375-381 | and without one the publish times out |
| Publisher.MqttPublisher.PublishAsync | src/publisher/MqttPublisher.cpp:398-433 | refused iff not connected and not buffering; counted at the send; an entry is added, and stays after a failed send too, iff the QoS is above 0 and a callback given |
| PublisherCallbacks.CallbackIff | src/publisher/MqttPublisher.cpp:405-428 | over every run: no callback runs twice; a tracked call's gives Ok or ConnectionLost as its promise was settled, never PublishFailed, also when its send failed, and is made iff the promise is settled so and the thread has run; an untracked call's is made iff its send failed, with PublishFailed |
| PublisherCallbacks.NoneDropped | src/publisher/MqttPublisher.cpp:405-419 | while promises keep their window, a registered call's callback has been made iff its promise is no longer pending, once its thread has run |
| PublisherCallbacks.FailureReportedAsSuccess | src/publisher/MqttPublisher.cpp:424-426 | a run in which the send fails and is counted as a failure, and the callback is given Ok |
| Handshake.Shake | src/publisher/MqttPublisher.cpp:274-294 | the whole CONNECT is written before anything is read, a failed send writes a strict prefix, exactly one packet is taken; with a transport that neither fails nor starves the peer's bytes alone decide |
| Handshake.ConnackDecides | src/protocol/MqttPacket.cpp:177-181 | a CONNACK laid out as in section 3.2 makes a connect succeed iff its code is 0, whatever follows |
| Handshake.OtherAnswers | src/publisher/MqttPublisher.cpp:284-300 | a stream cut within its first packet and a first packet of another type make the attempt fail; a CONNACK body of less than two bytes makes it throw; a longer one succeeds iff its second byte is 0 |
| ReconnectClient.Client.Conclude | src/publisher/MqttPublisher.cpp:248-302 | result and final state for every way an attempt can go, the throwing CONNACK included |
| ReconnectClient.Client.Connect | src/publisher/MqttPublisher.cpp:238-302 | the same with the guard: already connected is an error that changes nothing |
| ReconnectClient.Client.ConnectOver | src/publisher/MqttPublisher.cpp:238-309 | a caller's connect over real packets: result, state and wire, each decided by the peer's bytes when the transport neither fails nor starves |
| ReconnectClient.Client.ScheduleReconnect | src/publisher/MqttPublisher.cpp:144-155 | every call requests a reconnect; only one that finds no worker launched launches it; it is the machine's step |
| ReconnectClient.Client.OnLoss | src/publisher/MqttPublisher.cpp:83-92 | undisturbed, a failed read without a stop request is counted, leaves Reconnecting and schedules iff enabled |
| ReconnectClient.Client.Disconnect | src/publisher/MqttPublisher.cpp:313-332 | undisturbed: nothing unless Connected; else Disconnected with the receive thread asked to stop and the worker left as it is |
| Reconnect.DeafForGood | src/publisher/MqttPublisher.cpp:150 | over every run: a worker that has ended, left its loop or has no retry left before another connect never connects again; and if it has left its loop a request made stays pending |
| Reconnect.LossServedIff | src/publisher/MqttPublisher.cpp:83-92 | over every run followed until worker and receive thread can do no more, with any disconnects but no stop and no caller's connect after it: a scheduled loss is answered by a connect iff the worker was not in such a place |
| Reconnect.OneReconnectOnly | src/publisher/MqttPublisher.cpp:180-183 | after one successful automatic reconnect the worker never connects again, in any continuation |
| Reconnect.ConnectedLookLeaves | src/publisher/MqttPublisher.cpp:166 | over every run: a worker that looks at the state while Connected leaves its loop, with nothing else changed, and never connects again |
| Reconnect.WorkerSparesConnection | src/publisher/MqttPublisher.cpp:157-197 | over every run: no step of the worker takes the state away from Connected |
| Reconnect.AnsweredTrace | src/publisher/MqttPublisher.cpp:144-199 | connect, loss and an answered reconnect is a run, with its last state in full |
| Reconnect.SecondLossTrace | src/publisher/MqttPublisher.cpp:144-199 | connect, loss, reconnect, loss is a run for every policy that enables reconnecting, and leaves the state Reconnecting, the request pending and the worker ended |
| Reconnect.SecondLossUnserved | src/publisher/MqttPublisher.cpp:144-150 | no continuation of that run takes the request or connects |
| Reconnect.LossAfterRetriesTrace | src/publisher/MqttPublisher.cpp:168-174 | with one retry: loss, failed reconnect, a caller's connect, loss is a run in which the request is taken and answered by giving up |
| Reconnect.DisconnectUndoneIff | src/publisher/MqttPublisher.cpp:313-332 | over every run followed until worker and receive thread can do no more, with no caller's connect and no stop after a disconnect has returned, at its guard or its end: the client tries to connect after that iff at the return the worker is on its way to a connect, or the receive thread past its check with a worker that is not deaf |
| Reconnect.UndoneAtGuardTrace | src/publisher/MqttPublisher.cpp:314 | a disconnect called while Reconnecting returns and the worker connects |
| Reconnect.UndoneBySleeperTrace | src/publisher/MqttPublisher.cpp:323-327 | a worker asleep since an earlier loss connects after a disconnect with no loss in it |
| Reconnect.UndoneByLossTrace | src/publisher/MqttPublisher.cpp:317-324 | a read that fails before the receive thread is asked to stop has the client connect after the disconnect |
| Reconnect.RunKeepsInv | src/publisher/MqttPublisher.cpp:79-92 | over every run: a receive thread that reads without having been asked to stop belongs to a connection, a disconnect under way or a worker that is done; with reconnecting disabled no worker is ever launched |
| Reconnect.RetriesBounded | src/publisher/MqttPublisher.cpp:153-197 | over every run: each attempt follows one sleep of one back-off sequence; with a limit from 1 to 2^32 - 2 there are no more in the life of the object; one launch iff a loss was scheduled |
| Reconnect.RetriesUnbounded | src/publisher/MqttPublisher.cpp:168-170 | for the other limits, 0 and 2^32 - 1, there is a run with any number of failed attempts, the worker going on |
| ReconnectClient.Client.RunTurn | src/publisher/MqttPublisher.cpp:157-197 | one turn of the worker amid anything other threads do: where it leaves the worker, the state and the retries; found Connected at its look it exits with no sleep and no connect |
| ReconnectClient.Client.Decide | src/publisher/MqttPublisher.cpp:166-174 | while Connected it leaves the loop and changes nothing else; otherwise one attempt is counted with wrap-around, and made iff it is not one too many |
| ReconnectClient.Client.RunWorker | src/publisher/MqttPublisher.cpp:153-197 | under a limit from 1 to 2^32 - 2, after as many turns and one more it has left the loop; if all attempts fail undisturbed it made exactly that many and leaves Failed; its sleeps are a back-off sequence |
| Backoff.BackoffBounds | src/publisher/MqttPublisher.cpp:186-192 | for any multiplier and draws no sleep is below the jitter-free one, nor from the second on above the maximum and a quarter |
| Backoff.BareIsGeometric | src/publisher/MqttPublisher.cpp:186-189 | with a whole multiplier the jitter-free sleeps are min(initial * m^k, max) |
| Backoff.BackoffSandwich | src/publisher/MqttPublisher.cpp:186-192 | min(initial * m^k, max) <= k-th sleep <= max + max/4 for every jitter choice, with equality on the left without jitter |
| Backoff.ScaleIsFloor | src/publisher/MqttPublisher.cpp:186-188 | the scaled delay is the product rounded down, or the maximum if that is less, for any multiplier |
| Backoff.DrawsReach | src/publisher/MqttPublisher.cpp:189-192 | with jitter the next sleep can be exactly the values from the scaled delay to a quarter above it; without, the scaled delay |
| Backoff.UpperBoundIff | src/publisher/MqttPublisher.cpp:153 | the upper bound holds for all sleeps iff the initial delay keeps it |
| Dispatch.ExactEntry | src/subscriber/MqttSubscriber.cpp:116-117 | a lookup finds the very topic iff it is a key |
| Dispatch.FirstMatch | src/subscriber/MqttSubscriber.cpp:119-124 | the first entry in iteration order that matches, and none before it does |
| Dispatch.Dispatcher.FindHandler | src/subscriber/MqttSubscriber.cpp:113-127 | the lookup and the loop choose the specified handler, fallback included |
| Dispatch.Dispatcher.DispatchPublish | src/subscriber/MqttSubscriber.cpp:97-138 | events and counters of one dispatch |
| Dispatch.Dispatcher.ReceiveLoop | src/subscriber/MqttSubscriber.cpp:176-184 | over a whole run, with the table changing between packets: PUBACKs are in order exactly the QoS 1 ids, and received = handler invocations + dropped |
| Dispatch.AcksInOrder | src/subscriber/MqttSubscriber.cpp:100-104 | section 4.6: the PUBACKs of a run are, in order, the ids of its parsed QoS 1 packets |
| Dispatch.AckBeforeHandler | src/subscriber/MqttSubscriber.cpp:97-138 | over a whole run: each PUBLISH that parsed is handled once, in order, and each PUBACK stands right before the handling of the QoS 1 packet with its id, and the other way round |
| Dispatch.DroppedDespiteFallback | src/subscriber/MqttSubscriber.cpp:116-126 | with a fallback registered a message is dropped iff its topic is a key with an empty callback |
| Dispatch.ExactEntryWins | src/subscriber/MqttSubscriber.cpp:116-126 | an exact entry wins over every wildcard wherever iteration puts it, even with an empty callback; any other handler belongs to a matching filter or is the fallback |
| Dispatch.ExactDecides | src/subscriber/MqttSubscriber.cpp:116-117 | a topic that is a key is handled by that entry's callback, or dropped if that is empty |
| Dispatch.FirstMatchDecides | src/subscriber/MqttSubscriber.cpp:119-126 | one that is no key is handled by the callback of the first entry whose filter matches, or by the fallback if that is empty |
| Dispatch.NoMatchFallsBack | src/subscriber/MqttSubscriber.cpp:125 | one that no filter matches goes to the fallback |
| Dispatch.PublishIsDispatched | src/subscriber/MqttSubscriber.cpp:178-184 | a received packet that buildPublish made is dispatched with what went into it |
| Dispatch.OnlyPublishIsDispatched | src/subscriber/MqttSubscriber.cpp:176-180 | nothing but a packet of type 3 is dispatched |
| SubscriberProofs.StepKeepsInv | src/subscriber/MqttSubscriber.cpp:140-149 | every step of API calls, receive and reconnect threads keeps the agreement of table and broker |
| SubscriberProofs.StepKeepsAcks | src/subscriber/MqttSubscriber.cpp:434-525 | every step keeps the acknowledgement maps and promises consistent |
| SubscriberProofs.RunKeepsInv | src/subscriber/MqttSubscriber.cpp:434-525 | both hold at the end of every run |
| SubscriberProofs.SubscriptionCoverage | src/subscriber/MqttSubscriber.cpp:140-149 | over every run of losses and reconnects: Connected and past resubscribeAll, each topic of the table was last told to the broker on this connection with its QoS, or its subscribe call is before its send |
| SubscriberProofs.NothingElseTold | src/subscriber/MqttSubscriber.cpp:492-507 | over every run, at any moment: what the broker was told is in the table, about to be unsubscribed, or a drop is left standing; without a call the drops left standing are exactly what was told and is not in the table |
| SubscriberProofs.TableAgreesWithTold | src/subscriber/MqttSubscriber.cpp:140-149 | for a topic with no call under way, the table and what the broker was told agree iff no drop is left standing |
| SubscriberProofs.OrphanedIff | src/subscriber/MqttSubscriber.cpp:449-476 | over every run, the machine's record of drops is right: some roll-back, or unsubscribe without a connection, came after the topic was told, and since then no subscribe stored it, no request about it was sent and no connection opened |
| SubscriberProofs.ConfirmedWasAcknowledged | src/subscriber/MqttSubscriber.cpp:434-480 | over every run: a subscribe that waited and returned Ok had a SUBACK with its id and no failure code read after registration; an unsubscribe an UNSUBACK |
| SubscriberProofs.SubackEffect | src/subscriber/MqttSubscriber.cpp:186-199 | a SUBACK settles the pending subscribe with its id, with its first code, and nothing else |
| SubscriberProofs.UnsubackEffect | src/subscriber/MqttSubscriber.cpp:201-209 | an UNSUBACK settles the pending unsubscribe with its id, and nothing else |
| SubscriberProofs.FailAllEffect | src/subscriber/MqttSubscriber.cpp:85-95 | a loss settles every pending call of either kind |
| SubscriberIds.RegisterOverwrites | src/subscriber/MqttSubscriber.cpp:442-467 | over every run: registering, and erasing after a failed send or a timeout, destroys another call's pending promise iff it is of the same kind and the increments lie a multiple of 65536 apart |
| SubscriberIds.NoneOverwritten | src/subscriber/MqttSubscriber.cpp:434-525 | over every windowed run: a destroyed promise belongs to a call whose own send failed or wait timed out, and only an unsubscribe severed by a loss throws |
| SubscriberIds.OthersKept | src/subscriber/MqttSubscriber.cpp:442-467 | with the window assumption no registration and no erasing touches another call |
| SubscriberIds.WindowedRunKeepsIds | src/subscriber/MqttSubscriber.cpp:61-65 | over every windowed run no id of a call, of resubscribeAll or of a request told is 0 |
| SubscriberIds.ShortUnsubackSettlesNothing | src/subscriber/MqttSubscriber.cpp:201-209 | with the window assumption an UNSUBACK too short for an id changes nothing |
| SubscriberAnomaly.OrphanedSubscription | src/subscriber/MqttSubscriber.cpp:471-476 | for every topic and QoS a reachable state: Connected, past resubscribeAll, nothing under way, table empty, and the broker told to subscribe |
| SubscriberAnomaly.RefusedSubscribe | src/subscriber/MqttSubscriber.cpp:470-475 | for every topic and QoS a subscribe refused by the broker leads to a state with the topic told and not in the table |
| SubscriberAnomaly.RefusedIsNoDisagreement | src/subscriber/MqttSubscriber.cpp:470-475 | there the table and what the broker was told disagree, and the table and what a broker with a clean session holds, that answered as was read, agree |
| SubscriberAnomaly.RefusedResubscribe | src/subscriber/MqttSubscriber.cpp:186-199 | for every topic and QoS a state in which a request of resubscribeAll was refused, its failure code was read, and the table has the topic |
| SubscriberAnomaly.KeptIsNoAgreement | src/subscriber/MqttSubscriber.cpp:190-195 | there the table and what the broker was told agree, and a broker with a clean session that answered as was read does not hold the topic |
| SubscriberAnomaly.OfflineUnsubscribe | src/subscriber/MqttSubscriber.cpp:492-494 | for every topic, QoS and granting return code: a subscribe confirmed, a loss, an unsubscribe while Reconnecting and a reconnect lead to a state Connected, past resubscribeAll, with an empty table and nothing told on the connection |
| SubscriberAnomaly.KeptBehindBackIsHeld | src/subscriber/MqttSubscriber.cpp:361 | there a broker that keeps the session holds the topic, and one with a clean session does not |
| SubscriberBroker.HeldAt | src/subscriber/MqttSubscriber.cpp:140-149 | whatever was kept and whatever the answers, the last request about a topic decides with its answer what is held; if it was refused, what was held before; without one, what was kept |
| SubscriberBroker.BrokerAgreesIff | src/subscriber/MqttSubscriber.cpp:140-149 | over every run and whatever the broker keeps, refuses or lowers, for a topic with no call: table and broker agree iff `Agrees`, a condition on the last request about the topic on this connection, its answer, and what was kept; the table's topics were last told with the table's QoS, and a topic not in it by a SUBSCRIBE iff a drop is left standing |
| SubscriberBroker.ToldOnceAgreesIff | src/subscriber/MqttSubscriber.cpp:140-149 | with a clean session, for a topic told once on the connection: table and broker agree iff the answer was the table's QoS, or a refusal if the table does not have it |
| SubscriberBroker.CleanAgreesIff | src/subscriber/MqttSubscriber.cpp:140-149 | with a clean session and a broker that grants what it is asked, it holds what it was told, and agrees iff no drop is left standing |
| SubscriberBroker.PersistentAgreesIff | src/subscriber/MqttSubscriber.cpp:140-149 | with a session kept over all connections by a broker that grants what it is asked and gets all that is sent, it agrees iff no drop is left standing from any connection |
| SubscriberBroker.ConfirmedIsHeld | src/subscriber/MqttSubscriber.cpp:470-479 | over every run: if a subscribe was confirmed on this connection by the broker's own answer and its request is the last about the topic, the broker holds the topic with the QoS of the SUBACK; table and broker then agree iff that is the table's |
| SubscriberWire.HeardAsTold | src/protocol/MqttPacket.cpp:107-128 | a broker that keeps to the standard hears a request as meant iff the topic is a proper filter that fits, the QoS is below 3 and the id not 0 |
| SubscriberWire.BrokerHearsTold | src/subscriber/MqttSubscriber.cpp:140-149 | a broker that decodes packets carrying the requests, among any others, hears exactly those requests in order |
| SubscriberLine.StepKeepsInv | src/subscriber/MqttSubscriber.cpp:450-461 | every step of session and line together keeps: the packet under way is its sender's, the sender can take its step when the send returns, and until a send fails the line has carried the session's requests in the session's order |
| SubscriberLine.SessionRun | src/subscriber/MqttSubscriber.cpp:434-525 | leaving out what only the line does, every such run is a run of the session through the same states |
| SubscriberLine.BrokerHearsSession | src/subscriber/MqttSubscriber.cpp:140-149 | over every run, with no failed send on the connection and none going on: a broker that decodes its bytes hears exactly the requests that the session has told, in order |
| SubscriberLine.BrokerHasTheTable | src/subscriber/MqttSubscriber.cpp:140-149 | end to end from the bytes of the connection and whatever the broker keeps, which is nothing if CONNECT asks for a clean session, refuses or lowers: the last it heard of a topic in the table is a SUBSCRIBE with its QoS, which it holds as granted; for a topic with no call, the exact condition on which table and broker agree |
| Subscriber.MqttSubscriber.OnSuback | src/subscriber/MqttSubscriber.cpp:186-199 | the map region is the machine's SUBACK step |
| Subscriber.MqttSubscriber.OnUnsuback | src/subscriber/MqttSubscriber.cpp:201-209 | the map region is the machine's UNSUBACK step |
| Subscriber.MqttSubscriber.FailAll | src/subscriber/MqttSubscriber.cpp:85-95 | both loops and both clears are the machine's step |
| Subscriber.MqttSubscriber.SettleAll | src/subscriber/MqttSubscriber.cpp:87-93 | a loop over a map, in any order, settles exactly the promises it names |
| Subscriber.MqttSubscriber.ResubscribeOne | src/subscriber/MqttSubscriber.cpp:142-147 | one turn tells the broker one more request, about that topic with the table's QoS and an id that is not 0, and leaves table and calls alone |
| Subscriber.MqttSubscriber.ResubscribeAll | src/subscriber/MqttSubscriber.cpp:140-149 | in any iteration order the pass adds to what was told exactly one request for each topic of the table, with its QoS; the table is unchanged |
| Subscriber.MqttSubscriber.Connect | src/subscriber/MqttSubscriber.cpp:342-405 | on success all that the new connection has been told is one request for each topic, with its QoS; result and state for every way an attempt can go; a call while Connected changes nothing |
| Subscriber.MqttSubscriber.RegisterPromise | src/subscriber/MqttSubscriber.cpp:442-448 | the assignment into either map is the machine's registration, the replaced promise included |
| Subscriber.MqttSubscriber.TakeBack | src/subscriber/MqttSubscriber.cpp:453-467 | erasing the entry after a failed send or a timeout is the machine's step, and what the call does next |
| Subscriber.MqttSubscriber.AwaitAck | src/subscriber/MqttSubscriber.cpp:463-469 | while the receive thread works through any arrivals, the wait ends with the first that settles the id, or times out; a loss that ends it leaves Reconnecting, and any other end the state as it was |
| Subscriber.MqttSubscriber.RollBackEntry | src/subscriber/MqttSubscriber.cpp:471-474 | the table loses the topic and nothing is told to the broker |
| Subscriber.MqttSubscriber.Perform | src/subscriber/MqttSubscriber.cpp:434-525 | outcome, table, state and the one request told, for every state, send result and sequence of arrivals; what is returned is what the machine records |
| Subscriber.MqttSubscriber.Subscribe | src/subscriber/MqttSubscriber.cpp:434-480 | what it returns is the outcome that the machine records; the entry is stored, and gone again after a failed send or a refusal, an earlier one included; it stays after a timeout or without a connection; no call is left behind; the state is Reconnecting iff a loss ended the wait |
| Subscriber.MqttSubscriber.Unsubscribe | src/subscriber/MqttSubscriber.cpp:492-525 | what it returns is the outcome that the machine records; the entry is gone however the call ends, and the broker is told iff connected; the state is Reconnecting iff a loss ended the wait |
| Subscriber.FirstSettlingDecides | src/subscriber/MqttSubscriber.cpp:85-95 | by the bytes of the arrivals: the first that settles a sent call decides what it returns; a loss makes subscribe report a rejection and unsubscribe throw, a SUBACK with its id Ok unless its first code is 0x80, an UNSUBACK with its id Ok |
| Subscriber.NoneSettles | src/subscriber/MqttSubscriber.cpp:463-468 | and without one the call times out |

## Left out

- Subscriber.MqttSubscriber.Subscribe: runs with no other API call or connect interleaved but with any acknowledgements and losses during its wait; the step machine covers all interleavings. So does `Publisher.MqttPublisher.Publish`.
- Publisher.MqttPublisher.PublishAsync: the callback is in `PublisherCallbacks`; a moved-from `std::function`, which the C++ standard leaves unspecified, is taken to be empty.
- Dispatch.Dispatcher.ReceiveLoop: sends succeed and callbacks throw nothing but `std::exception`, which the loop swallows; callbacks are events that do not call back into the client.
- Backoff.BackoffSandwich: the multiplier is a real number; the rounding of `double` in the product is not modelled.
- ReconnectClient.Client.RunWorker: its turns each find a request, which the worker itself makes after a failed attempt; a wait that goes on for ever is a state of the machine in which the worker cannot move.
- ReconnectClient.Client.OnLoss: the state, the metric and the reconnect; failing the pending acknowledgements is `Publisher.MqttPublisher.FailAllPending` and `Subscriber.MqttSubscriber.FailAll`.
- SubscriberProofs.SubscriptionCoverage: API calls may overlap in any number, but no two about the same topic; "told" means handed to the transport, and `SubscriberLine.BrokerHasTheTable` takes it to the bytes of a connection without failed sends.
- ConnectPacket.ConnectAccepted: whether strings are well-formed UTF-8 without null characters is not among the broker's checks here; topics and filters are checked for null characters.
- SubscriberBroker.BrokerAgreesIff: of an earlier connection some first part of the requests told has reached the broker; what it makes of bytes after a failed send is not modelled.
- One `connect()` or `disconnect()` by a caller at a time, and one reader: a connect succeeds only when the previous receive thread has ended. No replacement of the socket in the middle of a `sendAll`.
- The subscriber's roll-back after a failed send holds `sendMtx` while it takes the other two mutexes; the machine lets other senders in between, which allows more runs. Freedom from deadlock is not claimed: that path and `resubscribeAll` take `subsMtx` and `sendMtx` in opposite orders.
- `disconnect()` in the publisher's and subscriber's own machines: there its parts are steps (state changes, `failAllPending`); `Reconnect` has it as one call.
- The publisher's connection state changes arbitrarily in its machine; its connect sequence is `ReconnectClient.Client.ConnectOver`.
- `SSL_write` and `SSL_read` take an `int` length; packets beyond 2^31 bytes over TLS are not modelled.
- DNS, socket options, `poll` and the TLS handshake: foreign calls, replaced by a schedule of transfer outcomes.
- YAML and JSON loading: wrappers over libraries; only the URL that the loader prints is modelled.
- Time: timeouts are steps that can happen at any moment, and the keepalive thread is one more sender.
- The latency average, and the metrics' other gauges: easy members.
- QoS 2 beyond its header bits: the client does not implement it.
- The rule of section 4.7.2 about topics that begin with `$`: the matcher has none.
- Getters, `flush`, `startListening`, `stopListening`, `reconnect()` and the list overloads of subscribe and unsubscribe: wrappers.
- Logger, examples, build and container files.
