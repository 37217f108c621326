# Verification of the gnat broker

gnat is a small MQTT 3.1.1 broker. This project models it as one stack and proves properties that
run through all of it, from the bytes a client sends to the bytes another client receives.

| layer | files |
|---|---|
| bytes, the variable-length "Remaining Length", whole frames | `Bytes.dfy`, `RemainingLength.dfy`, `Frames.dfy` |
| message bodies as values; printers into byte buffers and streaming readers as methods | `Messages.dfy`, `WireBytes.dfy`, `Proto3.dfy`, `Subscriptions.dfy` |
| connections, fixed headers, packets that own the unread rest of a frame | `Links.dfy`, `Connections.dfy`, `Packets.dfy`, `PacketChains.dfy`, `PacketFamilies.dfy` |
| topics packed into 64-bit words, and the two key types of the store | `Bits.dfy`, `Keys.dfy`, `KeyKinds.dfy` |
| the broker as a state machine on values, and what holds in all its runs | `Broker.dfy`, `BrokerInvariants.dfy`, `BrokerTheorems.dfy`, `SubscriberView.dfy`, `StaleViews.dfy`, `Hearing.dfy`, `Transcripts.dfy`, `NonInterference.dfy`, `FastKeys.dfy` |
| the store and the server as classes, proved against the state machine | `DataStores.dfy`, `Servers.dfy` |

The main results:

* **The broker writes the transcript.** What a connection is due is told from the events alone, by a
  recursive function over its own filters and the payloads by topic, as texts: no keys, observers, room
  or other connections. Over every run the output is this transcript byte for byte, whole on an intact
  connection and cut short on one that breaks (`Transcripts.OutputIsTranscript`), on the heap too
  (`Servers.Server.WritesTranscript`).
* **A subscription hears its topics, and no others.** Every acknowledged SUBSCRIBE registers one
  observer; until its client is removed, every PUBLISH whose topic its filter takes is forwarded to it
  (`Hearing.SubscriberHears`), and over a whole run nothing else is (`Hearing.OnlyWantedTopics`). Which
  topics a filter takes is said in texts, for both key types (`Hearing.StringFilterTakes`,
  `Hearing.PackedFilterTakes`).
* **A subscriber sees the store.** Whoever only parses the bytes written to a connection, and folds
  the PUBLISH messages among them, gets all the stored entries that the connection's live filters
  select, with their payloads; and gets nothing else exactly when all the topics it was sent are still
  watched at the end. It holds for every run of the state machine in which the connection starts
  without observers or joins later (`SubscriberView.SubscriberSeesStore`), and for the objects on the
  heap from the making of the server on (`Servers.Server.SubscriberSees`). While the client's observers
  are not removed the view is exact (`SubscriberView.UndisturbedViewIsExact`); a removal leaves it right
  exactly when it is another client's or nothing was selected
  (`SubscriberView.RemovalKeepsViewExactlyIf`), and a run in which a view goes stale is given
  (`StaleViews.RemovalCanLeaveStaleTopics`).
* **Packed keys are a fast form of string keys.** A run over packed keys sends the same frames in the
  same order as the run over strings (`FastKeys.RunSame`) whenever the prefix filters in use mean the
  same for both; exact filters always do, and `FastKeys.AgreeExactlyIf` says which prefix filters do.
  Conversely every run over packed keys within such a vocabulary is the packed form of one over strings
  (`FastKeys.EveryRunIsPacked`).
* **Others cannot tell.** Dropping from a run everything one client does but connect and publish
  changes no byte on any other client's connection (`NonInterference.OthersCannotTell`).
* **Framing.** Output is always whole frames, input always resynchronises whatever is done with the
  packet objects of a frame, and every printed message reads back (`BrokerInvariants.OutputIsWholeFrames`,
  `PacketFamilies.Handle`, `PacketChains.KthHeaderIsKthFrames`,
  `Messages.PublishRoundTrip`, `RemainingLength.RoundTrip`).

How the state is modelled:

* A connection is a shared socket: a heap copy of a connection object is the same Dafny object.
  `handle` is a ghost number that tells sockets apart; `client` is the answer of `id()`, which several
  sockets may share.
* `room` is the number of bytes that the peer will still take. It is arbitrary, so a write may fail
  at any byte; a failed write puts out the bytes that fit and is final for the connection, and `lost`
  remembers it. "Writes succeed" in a theorem means that `lost` is false at the end.
* A run is a sequence of events: a connection is accepted, a frame arrives on one, or a client's
  observers are removed.
  The order in which an unordered map is walked for a new observer is part of the event, so theorems
  about all events are about all orders.
* The server's source has no loop that reads connections; `Servers.Server.Serve` is what its callers do
  around `HandleMessage`. `net`, `start` and `history` are ghost fields that record which connections
  take part and which events have happened, so that the run theorems apply to the objects themselves.
* The key type is a parameter. `KeyKinds.KeyKind` carries the functions that the store's template is
  specialised with; `Lawful` (decoding undoes encoding on topics that fit) is all that the general
  theorems assume, and it is proved for strings and for packed words.
* Where the code departs from what MQTT leads one to expect, the model follows the code: a SUBSCRIBE
  with several topics leaves one observer, for the last of them, and its SUBACK carries one response; a
  filter with a `#` anywhere loses its last character; an empty payload is stored like any other.
* A topic string, a payload and a buffer are sequences of bytes, the static buffers of the
  printers are arrays with arbitrary old contents, and their cursor is a variable of a type with the
  range of `uint8_t`.

## Model

| member | source | states |
|---|---|---|
| `RemainingLength.RoundTrip` | include/gnat/packets.h:54-70 | decoding an encoded length returns it and consumes its bytes only, whatever follows |
| `RemainingLength.EncodeIsShortest` | include/gnat/packets.h:328-338 | no encoding of a number, padded or not, is shorter than the printed one |
| `RemainingLength.FourBytesSuffice` | include/gnat/packets.h:328-338 | four bytes suffice exactly for the lengths up to 268435455 |
| `RemainingLength.NotOverlong` | include/gnat/packets.h:54-70 | within four bytes the decoder never meets a number above 268435455 |
| `Packets.ReadVariableByteInteger` | include/gnat/packets.h:53-70 | the decoding loop returns the decoded number, consumes exactly its bytes, fails exactly when the input ends first, and neither the 32-bit multiplier nor the accumulator overflows |
| `Proto3.PutLength` | include/gnat/packets.h:328-338 | the printing loop appends exactly the encoding, at most four bytes |
| `Bytes.ReversedBytesKeepTheNumber` | include/gnat/packets.h:93-103 | filling memory from the top down turns wire order into the number of a little-endian target |
| `Proto3.ReadBytes` | include/gnat/packets.h:93-103 | the byte loop returns the big-endian value of the bytes it consumes |
| `Bytes.StrRoundTrip` | include/gnat/packets.h:72-84 | a length-prefixed string reads back, and what follows it stays |
| `Proto3.ReadString` | include/gnat/packets.h:72-84 | returns the characters, or refuses after the length field when they exceed the buffer |
| `Frames.HeaderRoundTrip` | include/gnat/packets.h:134-147 | the fixed header of every legal frame reads back as its control byte and size |
| `Packets.ReadFixedHeader` | include/gnat/packets.h:134-147 | the header reader succeeds exactly when the input holds a header, and a failed control byte shows only through the size |
| `Frames.SplitFlatten` | include/gnat/packets.h:494-502 | a concatenation of legal frames splits into exactly those frames with nothing left over |
| `Messages.ConnectRoundTrip` | include/gnat/packets.h:163-218 | CONNECT reads back; exactly the client id field is left for the drain; the length fits one byte |
| `Proto3.ConnectSendOn` | include/gnat/packets.h:189-218 | the buffer printer writes exactly the frame, within bounds and without a cursor wrap |
| `Proto3.ConnectReadFrom` | include/gnat/packets.h:163-187 | the streaming reader returns what the body denotes and leaves the rest of it unread |
| `Proto3.ConnectAckSendOn` | include/gnat/packets.h:258-280 | the buffer printer writes exactly the frame |
| `Proto3.ConnectAckReadFrom` | include/gnat/packets.h:242-256 | the reader returns flags and return code and leaves the rest |
| `Messages.PublishRoundTrip` | include/gnat/packets.h:294-352 | a printed PUBLISH comes back through header reader and body reader with the same topic and payload, and nothing of the frame is left |
| `Messages.PublishReadsBack` | include/gnat/packets.h:294-315 | for every duplicate, quality and retain bits: topic and payload read back, a packet id being skipped exactly for a quality that is not zero |
| `Messages.ForwardingNeverGrows` | include/gnat/packets.h:302-312 | the forwarded frame is shorter than the incoming one by the packet id exactly when the quality of service is not zero, and else equally long |
| `Proto3.PublishSendOn` | include/gnat/packets.h:317-352 | two writes put out exactly one frame, also when one of them fails part way |
| `Proto3.PublishReadFrom` | include/gnat/packets.h:294-315 | the reader returns the topic, skips a packet id, and announces the payload size |
| `Messages.ScanEntries` | include/gnat/packets.h:373-388 | the topic loop calls the callback on any list of acceptable topics, in order, and goes on with what follows |
| `Messages.CompleteExactlyIf` | include/gnat/packets.h:373-388 | the loop reads and accepts everything exactly when there is nothing but entries with acceptable topics |
| `Messages.ScanStopsAtWildcard` | include/gnat/server.h:90-93 | a topic with the byte 43 is the last call, and nothing after it is read |
| `Messages.SubscribeRoundTrip` | include/gnat/packets.h:364-391 | a body of a packet id and any number of acceptable topics reads back whole and is consumed |
| `Messages.SubscribeFrameIsOneEntry` | include/gnat/packets.h:394-421 | the client's printer is the case of one topic, and its length stays below 127 |
| `Proto3.SubscribeSendOn` | include/gnat/packets.h:394-421 | the buffer printer writes exactly the frame |
| `Subscriptions.ReadTopics` | include/gnat/packets.h:372-388 | the loop ends, calls the callback on exactly the scanned topics, and leaves the scan's rest |
| `Subscriptions.TopicCallback.Call` | include/gnat/server.h:87-118 | refuses a plus sign, and otherwise replaces the captured observer by the topic's filter, whose meaning is `Hearing.FilterServes` |
| `Subscriptions.SubscribeReadFrom` | include/gnat/packets.h:363-391 | the reader's result, the calls made, and the observer that is left |
| `Messages.SubscribeAckRoundTrip` | include/gnat/packets.h:436-474 | reading takes the first response only, so SUBACK survives exactly when it has one |
| `Proto3.SubscribeAckSendOn` | include/gnat/packets.h:453-474 | the buffer printer writes exactly the frame, for up to 28 responses |
| `Proto3.SubscribeAckReadFrom` | include/gnat/packets.h:436-451 | the reader returns the packet id and one response |
| `Proto3.PingResponseSendOn` | include/gnat/packets.h:477-486 | writes exactly the two bytes of the frame |
| `WireBytes.SizeBytes` | include/gnat/packets.h:328-338 | the bytes of every printed size up to 268435455 as numbers |
| `WireBytes.ConnectBytes` | include/gnat/packets.h:189-218 | a printed CONNECT byte by byte, from the control byte 16 on |
| `WireBytes.PublishBytes` | include/gnat/packets.h:317-352 | a printed PUBLISH byte by byte, from the control byte 48 on |
| `WireBytes.SubscribeBytes` | include/gnat/packets.h:394-421 | a printed SUBSCRIBE byte by byte, from the control byte 130 on |
| `WireBytes.AnswerBytes` | include/gnat/packets.h:258-486 | CONNACK, SUBACK and PINGRESP as numbers |
| `WireBytes.ConnectAckReadsBack` | include/gnat/packets.h:242-256 | any flags and return code are read, and the rest stays |
| `WireBytes.SubscribeAckReadsBack` | include/gnat/packets.h:436-451 | any packet id and response are read, and the rest stays |
| `WireBytes.ConnectReadsBack` | include/gnat/packets.h:163-187 | name, level, flags and time to keep alive are read from their places, and the rest stays |
| `Packets.Packet.ReadNext` | include/gnat/packets.h:494-502 | makes a packet that owns exactly the declared bytes behind the header, or none when the header is not there |
| `Packets.Packet.Move` | include/gnat/packets.h:509-514 | hands all unread bytes over and leaves none, on any existing packet, moved from or not |
| `Packets.Packet.Read` | include/gnat/packets.h:555-562 | on any existing packet, returns the next bytes and gives up ownership of exactly those, or fails and keeps its count |
| `Packets.Packet.Drain` | include/gnat/packets.h:564-575 | on any existing packet, refuses more than it owns without moving, and otherwise skips |
| `Packets.Packet.Destroy` | include/gnat/packets.h:516-525 | takes exactly the bytes still owned, ending at the frame's end, and none from a packet that was moved from |
| `PacketChains.RunConserves` | include/gnat/packets.h:504-525 | over any reads, drains, moves and destructions, at most one packet owns bytes and consumed plus owned is the declared size |
| `PacketFamilies.PerformOne` | include/gnat/packets.h:504-575 | a read, drain, move or destruction of a packet object is a step of the chain, and consumed plus owned stays the declared size |
| `PacketFamilies.PerformAll` | include/gnat/packets.h:504-575 | any sequence of them on the objects that come from one packet is a run of the chain |
| `PacketFamilies.Handle` | include/gnat/packets.h:494-575 | from the header on: whatever is done with the objects, once all are destroyed the connection stands at the frame's end |
| `PacketChains.FrameIsConsumedOnce` | include/gnat/packets.h:516-525 | once all packets of a frame are gone, exactly its size has been taken |
| `PacketChains.Resynchronises` | include/gnat/packets.h:494-525 | after any such handling of the first frames the reader stands at the next frame's first byte |
| `PacketChains.KthHeaderIsKthFrames` | include/gnat/packets.h:494-525 | the k-th header read is the k-th frame's |
| `Links.SendConcat` | include/gnat/packets.h:348-351 | two writes in a row equal one write of both, failures included |
| `Keys.RoundTrip` | include/gnat/key.h:27-45 | unpacking undoes packing exactly for the topics without NUL |
| `Keys.PackBit` | include/gnat/key.h:13-33 | bit k of a packed topic is bit k mod 8 of its character k / 8, and zero behind the last one |
| `Keys.Injective` | include/gnat/key.h:27-33 | packing loses nothing |
| `Keys.Image` | include/gnat/key.h:13-45 | the packed words are exactly the seven-bit ones with nothing behind a zero byte |
| `Keys.EncodeString` | include/gnat/key.h:27-33 | the loop computes the packing |
| `Keys.Encode` | include/gnat/key.h:17-25 | compile-time packing of a literal with its NUL agrees with the packing of its text |
| `Keys.DecodeString` | include/gnat/key.h:41-45 | writes the topic and its size and leaves the rest of the buffer |
| `Bits.MaskIsBytewise` | include/gnat/datastore.h:103-110 | the mask test holds exactly when each byte of the target is bit-contained in the same byte of the other word |
| `Keys.MaskOfTopics` | include/gnat/datastore.h:103-110 | the mask admits a topic exactly when it is long enough and contains the prefix bit for bit |
| `Keys.PrefixIsMatched` | include/gnat/datastore.h:103-110 | a topic that starts with the prefix is never missed |
| `Keys.MaskAdmitsMore` | include/gnat/datastore.h:106-108 | a topic that does not start with the prefix can be admitted |
| `KeyKinds.StringPrefixIsExact` | include/gnat/datastore.h:134-141 | the string test compares the shorter length; on keys at least as long as the filter it is exact |
| `KeyKinds.StringKeysAreLawful` | include/gnat/datastore.h:112-123 | the string key functions fulfil what the general theorems assume |
| `KeyKinds.PackedKeysAreLawful` | include/gnat/datastore.h:84-92 | the packed key functions fulfil what the general theorems assume |
| `DataStores.DataStore.Call` | include/gnat/server.h:104-116 | an observer sends one PUBLISH on its connection if its matcher takes the key, and nothing otherwise; the answer is whether that PUBLISH went out |
| `DataStores.DataStore.NotifyObservers` | include/gnat/datastore.h:72-78 | each connection receives the notices of all observers in registration order |
| `DataStores.DataStore.Set` | include/gnat/datastore.h:45-49 | the entry is replaced and every observer notified of the new value |
| `DataStores.DataStore.AddObserver` | include/gnat/datastore.h:61-69 | the observer is appended and shown each stored entry once, in some order |
| `DataStores.DataStore.RemoveObserversForClient` | include/gnat/datastore.h:55-59 | exactly the client's observers go, the others keep their order |
| `BrokerTheorems.NoticesAreExact` | include/gnat/datastore.h:72-78 | a new value reaches a connection once for each of its matching observers, and no more |
| `BrokerTheorems.NotificationsKeepOrder` | include/gnat/datastore.h:45-78 | in a run without subscriptions and removals, the PUBLISH frames sent to a connection are, in the order of the sets, one for each of its matching observers |
| `BrokerTheorems.ReplayIsExact` | include/gnat/datastore.h:61-69 | the replay is one PUBLISH for each matching stored entry, none missing, none twice, no others |
| `BrokerTheorems.ReplayOrderIsInvisible` | include/gnat/datastore.h:66-68 | what a subscriber makes of the replay does not depend on the map's iteration order |
| `SubscriberView.NoticesView` | include/gnat/datastore.h:72-78 | however many observers match, the folded view has the new value under the topic, and nothing else changed |
| `SubscriberView.ReplayView` | include/gnat/datastore.h:61-69 | folding the replay adds exactly the entries that the matcher picks |
| `BrokerInvariants.StepKeeps` | include/gnat/server.h:40-154 | every step keeps the invariant, sends legal frames to known connections only, and each output grows by exactly the frames sent to it unless a write fails |
| `BrokerInvariants.RunKeeps` | include/gnat/server.h:40-154 | the same for every run |
| `BrokerInvariants.OutputIsWholeFrames` | include/gnat/packets.h:318-352 | what a run writes on an intact connection splits into the frames sent, with nothing left over |
| `BrokerInvariants.OutputIsCutFrames` | include/gnat/packets.h:348-351 | on a broken connection it is a prefix of those frames |
| `BrokerInvariants.ReachableKeysFit` | include/gnat/datastore.h:117-123 | every reachable key decodes to at most 128 bytes, which one length byte holds exactly, and forwards as a legal frame |
| `BrokerTheorems.FailsExactlyIf` | include/gnat/server.h:64-153 | a message fails exactly when it is not understood or its answer cannot be written whole |
| `BrokerTheorems.BadExactlyIf` | include/gnat/server.h:70-151 | the well-formed frames not understood are a PUBLISH with a topic over 128 bytes, a SUBSCRIBE that is not a list of entries with topics of at most 128 bytes and no plus sign, and the types not served |
| `BrokerTheorems.MessageByControl` | include/gnat/server.h:40-151 | which control bytes, as numbers, announce which message, and where the protocol level and the packet id stand |
| `BrokerTheorems.PublishIsParsed` | include/gnat/server.h:68-84 | a PUBLISH frame with any flags means its topic and payload |
| `BrokerTheorems.SubscribeIsParsed` | include/gnat/server.h:85-123 | a SUBSCRIBE frame with any flags and acceptable topics means its packet id and topics |
| `BrokerTheorems.FailureLeavesNoTrace` | include/gnat/server.h:70-139 | a failing message changes neither entries nor observers nor other connections |
| `BrokerTheorems.OnlyTheSenderHears` | include/gnat/server.h:42-151 | only a PUBLISH writes on connections other than the sender's |
| `BrokerTheorems.AcknowledgedFirst` | include/gnat/server.h:125-139 | on a SUBSCRIBE frame the SUBACK, with the two bytes of the client's packet id, precedes every PUBLISH, and a failed one has none after it |
| `BrokerTheorems.ConnectIsAnswered` | include/gnat/server.h:42-67 | on a CONNECT frame one CONNACK goes out, which reads as success exactly for protocol levels 3, 4 and 5, which alone mark the connection |
| `BrokerTheorems.PingIsAnswered` | include/gnat/server.h:140-144 | a PINGREQ frame is answered by the bytes 208 and 0 |
| `BrokerTheorems.PrintedConnectIsUnderstood` | include/gnat/packets.h:163-218 | a CONNECT printed by a client is parsed by the broker to its protocol level |
| `BrokerTheorems.PrintedPublishIsUnderstood` | include/gnat/packets.h:294-352 | a printed PUBLISH is parsed by the broker to the same topic and payload |
| `BrokerTheorems.PrintedSubscribeIsUnderstood` | include/gnat/packets.h:363-421 | a printed SUBSCRIBE is parsed to its id and topic, or refused exactly when the topic has a plus sign |
| `BrokerTheorems.NothingAfterDisconnect` | include/gnat/server.h:145-147 | after a DISCONNECT frame nothing is written to the connection in any run, given a closed socket that takes nothing |
| `BrokerTheorems.SilentUntilSubscribed` | include/gnat/datastore.h:55-59 | a connection without observers, known or still to come, receives no PUBLISH in any run until it subscribes |
| `Hearing.TakesOverStrings` | include/gnat/datastore.h:125-141 | over strings a filter with a `#` takes what its stem is a prefix of and what is a prefix of it, any other filter only itself |
| `Hearing.TakesOverWords` | include/gnat/datastore.h:94-110 | over packed words a filter with a `#` takes the topics that contain its stem bit for bit, any other filter only itself |
| `Hearing.FilterServes` | include/gnat/server.h:95-102 | the matcher made of a filter picks exactly the topics that the filter takes |
| `Hearing.StringFilterTakes` | include/gnat/server.h:95-102 | which string keys the matchers made of `t#` and of `t` pick |
| `Hearing.PackedFilterTakes` | include/gnat/server.h:95-102 | which packed keys they pick |
| `Hearing.ShownIfTaken` | include/gnat/server.h:104-116 | an observer shown an entry sends its PUBLISH exactly if the filter takes the topic |
| `Hearing.SubscriptionIsRegistered` | include/gnat/server.h:125-139 | a SUBSCRIBE frame registers exactly one observer, for its client, connection and last topic, whatever is stored; none only without topics or without room for the SUBACK |
| `Hearing.ExactObserverIsToldItsTopic` | include/gnat/server.h:95-116 | the observer left by a topic without `#` is told of that topic and of no other |
| `Hearing.PublishIsStored` | include/gnat/server.h:76-84 | a PUBLISH frame stores its payload under its topic and changes no other entry |
| `Hearing.TakenIsForwarded` | include/gnat/datastore.h:72-78 | a PUBLISH frame is forwarded to every observer whose filter takes its topic |
| `Hearing.SubscriberHears` | include/gnat/server.h:68-139 | from an acknowledged SUBSCRIBE until the client's removal, every PUBLISH of a taken topic is forwarded to the subscriber |
| `Hearing.OnlyWantedTopics` | include/gnat/server.h:68-139 | over every run each PUBLISH sent to a connection has a topic that one of its filters takes |
| `Hearing.ExactSubscriberHearsOneTopic` | include/gnat/server.h:68-139 | a connection that only subscribes to one topic without `#` receives no other topic |
| `Hearing.PrefixSubscriberHears` | include/gnat/server.h:68-139 | with printed frames: whoever subscribes to `t#` is sent what is published later about any topic that starts with `t` |
| `Transcripts.RunWritesTranscript` | include/gnat/server.h:40-154 | a connection's output grows by the transcript of its filters and the events, whole or up to where it breaks |
| `Transcripts.OutputIsTranscript` | include/gnat/server.h:40-154 | from any state in which the connection has no observers |
| `Transcripts.OutputIsTranscriptFromTheStart` | include/gnat/server.h:40-154 | from the empty broker: all that a connection ever gets |
| `SubscriberView.StepView` | include/gnat/server.h:68-139 | one step of any kind: the view follows the selection, except that the removal of the connection's own client empties the selection and sends nothing |
| `SubscriberView.SubscriberSeesStore` | include/gnat/server.h:68-139 | over every run, removals included, parsing the output of an intact connection gives every selected entry with its payload, only stored topics, and exactly the selection if and only if every topic sent is still watched |
| `SubscriberView.UndisturbedViewIsExact` | include/gnat/server.h:68-139 | it is exactly the selection in every run in which the connection's client is not removed |
| `SubscriberView.SubscriberSeesStoreFromTheStart` | include/gnat/server.h:68-139 | the same as `SubscriberSeesStore` for all that a connection ever received |
| `SubscriberView.RemovalStartsAfresh` | include/gnat/datastore.h:55-59 | after the removal none of the client's connections has an observer left, so a new view begins |
| `SubscriberView.RemovalKeepsViewExactlyIf` | include/gnat/datastore.h:55-59 | a removal leaves a right view right exactly when it is another client's or nothing was selected |
| `StaleViews.RemovalCanLeaveStaleTopics` | include/gnat/datastore.h:55-59 | a run from the empty broker that ends with a removal, after which the parsed output has a topic and nothing is selected |
| `NonInterference.OthersCannotTell` | include/gnat/datastore.h:55-78 | dropping one client's own events from any run changes neither the store nor a byte on other clients' connections |
| `NonInterference.PurgeIsComplete` | include/gnat/datastore.h:55-59 | what that drops: every removal of the client and all that its connections send but PUBLISH frames |
| `FastKeys.MatchesSame` | include/gnat/datastore.h:94-110 | a matcher answers the same for both key types exactly when its filter agrees on the topic |
| `FastKeys.ShownSame` | include/gnat/server.h:104-116 | an observer sends the same for both key types exactly then |
| `FastKeys.AgreeExactlyIf` | include/gnat/datastore.h:103-141 | which prefixes and topics the two prefix tests agree on |
| `FastKeys.ExactFiltersAlwaysAgree` | include/gnat/datastore.h:94-101 | without prefix filters every set of packable topics will do |
| `FastKeys.PrefixFiltersCanDisagree` | include/gnat/datastore.h:103-141 | each of the two kinds of disagreement exists |
| `FastKeys.StepSame` | include/gnat/server.h:40-154 | one step: same status, same frames, and the packed form of the same state |
| `FastKeys.RunSame` | include/gnat/server.h:40-154 | the same for every run within a vocabulary on which prefix filters agree |
| `FastKeys.EveryRunIsPacked` | include/gnat/server.h:40-154 | every run of the packed broker within the vocabulary is the packed form of a run of the string broker |
| `FastKeys.EveryOrderIsPacked` | include/gnat/datastore.h:66-68 | every replay order of the packed store is that of some order of the string store |
| `FastKeys.SameStore` | include/gnat/datastore.h:84-100 | both stores hold the same payload under each topic |
| `Servers.Server.AnswerConnect` | include/gnat/server.h:42-67 | marks the version and writes the CONNACK, as the state machine does |
| `Servers.Server.AnswerSubscribe` | include/gnat/server.h:125-139 | acknowledges first and observes after, as the state machine does; `Hearing.SubscriptionIsRegistered` says what that registers |
| `Servers.Server.HandlePublish` | include/gnat/server.h:68-84 | stores and notifies, or fails without a change when the topic is too long |
| `Servers.Server.HandleSubscribe` | include/gnat/server.h:85-139 | what the state machine does with the packet's topics |
| `Servers.Server.HandleMessage` | include/gnat/server.h:40-154 | on the heap, each message does exactly the state machine's step on the parsed frame and keeps the invariant; the socket is closed exactly by a DISCONNECT |
| `Servers.Server.Serve` | src/server_test.cpp:199-200 | reading, handling and destroying one packet does the step and leaves the connection at the next frame, or closed exactly after a DISCONNECT |
| `Servers.Server.Meet` | src/server_test.cpp:190-200 | a connection joins the run that is recorded, and the state gains its link |
| `Servers.Server.ServeTraced` | src/server_test.cpp:199-200 | serving a frame adds it to the recorded run, and the state is still that run's outcome |
| `Servers.Server.RemoveObserversTraced` | include/gnat/datastore.h:55-59 | a removal is recorded in the same way |
| `Servers.Server.SubscriberSees` | include/gnat/server.h:68-139 | the view theorem, removals included, for the real store and the real connections, whenever they were accepted |
| `Servers.Server.WritesTranscript` | include/gnat/server.h:40-154 | what has been written on a real connection is the transcript of the recorded events |
| `Servers.Server.UndisturbedSubscriberSees` | include/gnat/server.h:68-139 | the exact form while the client's observers have not been removed |

## Left out

- Reads that fail in the middle of a frame: messages are handled on complete frames, so the branch for a payload that cannot be read is not modelled. `TypedReadField` for bytes never reports a failed read, and `Packet::Read` asserts its bound.
- Malformed bodies whose fields run past their frame: the source asserts there, and the model requires that they do not. Topics over 128 bytes are handled as the source does.
- A CONNECT whose protocol name is longer than its six-byte buffer: the source then reads an empty optional. The test on protocol names can never be true as written, so nothing is claimed about names.
- Remaining lengths of more than four bytes: the decoder's multiplier would overflow, and the model requires that there are none.
- Packed keys for topics of more than eight characters, with bytes of 128 and above, or with NUL: `KeyKind.fits` excludes them from runs over packed keys, since shifts and signs are not defined or not exact there. For NUL, `Keys.RoundTrip` says what happens.
- `strlen` on a packed word without a zero byte reads past the word in the source; the model stops at eight bytes.
- BrokerTheorems.ConnectIsAnswered: the version mark is kept with the shared socket from one message to the next. In the source it marks the packet's own connection object, and the heap copies that observers write to carry no mark (include/gnat/arduino-connection.h:30-34 and 109). Nothing reads the mark.
- BrokerTheorems.NothingAfterDisconnect: that a closed socket takes no more bytes is the socket's own promise, which `Links.Close` states and the model assumes; what is proved is that no later step gets around it.
- A write that fails and later writes on the same connection that succeed: in the model a failed write is final.
- Sockets that are closed and whose number is reused: connections are told apart by a ghost handle.
- The bitwise operators of wire bytes (shifts and masks by constants) are written as division, remainder and addition.
- Entry timestamps, the clock, log messages, `Packet::Dump`, `Get`, the template and ownership machinery of C++, and the WiFi connection with its retries and delays.
- UNSUBSCRIBE and other packet types that the server rejects are only modelled as rejected.
