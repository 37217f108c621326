/**
 * The message bodies of MQTT 3.1.1 that the broker prints and reads: what each printer puts into a
 * frame, and what each reader takes out of one and leaves unread.
 */
module Messages {
  import opened Wrappers
  import opened Bytes
  import opened Frames
  import RemainingLength

  const CONNECT: nat := 1
  const CONNACK: nat := 2
  const PUBLISH: nat := 3
  const SUBSCRIBE: nat := 8
  const SUBACK: nat := 9
  const PINGREQ: nat := 12
  const PINGRESP: nat := 13
  const DISCONNECT: nat := 14

  const TOPIC_SIZE: nat := 128
  const NAME_SIZE: nat := 6
  const CLIENT_ID_SIZE: nat := 23

  const PLUS: byte := 43
  const HASH: byte := 35

  type Text = seq<byte>

  function TypeOf(control: byte): nat {
    control / 16
  }

  function FlagsOf(control: byte): byte {
    control % 16
  }

  /** A reader's result and the bytes of the frame it has not consumed. */
  datatype Reading<+T> = Reading(result: Option<T>, unread: seq<byte>)

  // ---------- CONNECT and CONNACK ----------

  datatype Connect = Connect(name: Text, level: byte, flags: byte, keepAlive: uint16)

  function ConnectFrame(c: Connect, clientId: Text): Frame {
    Frame(CONNECT * 16, Str(c.name) + [c.level, c.flags] + Be16(c.keepAlive) + Str(clientId))
  }

  predicate ConnectReadable(body: seq<byte>) {
    && StrReadable(body, NAME_SIZE)
    && (StrLength(body) <= NAME_SIZE ==> |body| >= StrLength(body) + 6)
  }

  function ReadConnect(body: seq<byte>): Reading<Connect>
    requires ConnectReadable(body)
  {
    var n := StrLength(body);
    if n > NAME_SIZE then Reading(None, body[2..])
    else
      BigEndianOfTwo(body[n + 4..n + 6]);
      Reading(Some(Connect(body[2..n + 2], body[n + 2], body[n + 3], BigEndian(body[n + 4..n + 6]))),
              body[n + 6..])
  }

  /** CONNECT survives the wire; the reader leaves exactly the client id field for the drain. */
  lemma ConnectRoundTrip(c: Connect, clientId: Text)
    requires |c.name| <= NAME_SIZE && |clientId| <= CLIENT_ID_SIZE
    ensures ConnectReadable(ConnectFrame(c, clientId).body)
    ensures ReadConnect(ConnectFrame(c, clientId).body) == Reading(Some(c), Str(clientId))
    ensures |ConnectFrame(c, clientId).body| <= 127
  {
    var body := ConnectFrame(c, clientId).body;
    var tail := [c.level, c.flags] + Be16(c.keepAlive) + Str(clientId);
    assert body == Str(c.name) + tail;
    StrRoundTrip(c.name, tail);
    ConnectTail(c, Str(clientId));
    Behind(Str(c.name), tail);
    Be16RoundTrip(c.keepAlive);
  }

  lemma ConnectTail(c: Connect, rest: seq<byte>)
    ensures
      var tail := [c.level, c.flags] + Be16(c.keepAlive) + rest;
      tail[0] == c.level && tail[1] == c.flags && tail[2..4] == Be16(c.keepAlive) && tail[4..] == rest
  {
  }

  lemma Behind(a: seq<byte>, b: seq<byte>)
    requires |b| >= 4
    ensures
      var s, n := a + b, |a|;
      s[n] == b[0] && s[n + 1] == b[1] && s[n + 2..n + 4] == b[2..4] && s[n + 4..] == b[4..]
  {
  }

  datatype ConnectAck = ConnectAck(flags: byte, returnCode: byte)

  function ConnectAckFrame(error: bool): Frame {
    Frame(CONNACK * 16, [0, if error then 0x80 else 0])
  }

  function ReadConnectAck(body: seq<byte>): Reading<ConnectAck>
    requires |body| >= 2
  {
    Reading(Some(ConnectAck(body[0], body[1])), body[2..])
  }

  // ---------- PUBLISH ----------

  function PublishFrame(topic: Text, payload: seq<byte>): Frame {
    Frame(PUBLISH * 16, Str(topic) + payload)
  }

  /** A packet id follows the topic when the quality-of-service bits are not zero. */
  predicate HasPacketId(flags: byte) {
    flags / 2 % 4 != 0
  }

  predicate PublishReadable(flags: byte, body: seq<byte>) {
    && StrReadable(body, TOPIC_SIZE)
    && (StrLength(body) <= TOPIC_SIZE && HasPacketId(flags) ==> |body| >= StrLength(body) + 4)
  }

  /** The topic; what stays unread is the payload. */
  function ReadPublish(flags: byte, body: seq<byte>): Reading<Text>
    requires PublishReadable(flags, body)
  {
    var n := StrLength(body);
    if n > TOPIC_SIZE then Reading(None, body[2..])
    else Reading(Some(body[2..n + 2]), body[n + 2 + (if HasPacketId(flags) then 2 else 0)..])
  }

  lemma ReadPublishOfFrame(topic: Text, payload: seq<byte>)
    requires |topic| <= TOPIC_SIZE
    ensures PublishReadable(0, PublishFrame(topic, payload).body)
    ensures ReadPublish(0, PublishFrame(topic, payload).body) == Reading(Some(topic), payload)
  {
    StrRoundTrip(topic, payload);
  }

  /**
   * A printed PUBLISH comes back from the wire with the same topic and payload: the header reader
   * announces exactly the body, and after topic and payload nothing of the frame is left.
   */
  lemma PublishRoundTrip(topic: Text, payload: seq<byte>, rest: seq<byte>)
    requires |topic| <= TOPIC_SIZE && 2 + |topic| + |payload| <= RemainingLength.MAX
    ensures
      var s := Wire(PublishFrame(topic, payload)) + rest;
      && ReadHeader(s).Some?
      && var h := ReadHeader(s).value;
      && TypeOf(h.control) == PUBLISH && FlagsOf(h.control) == 0
      && h.used + h.size + |rest| == |s|
      && PublishReadable(FlagsOf(h.control), s[h.used..h.used + h.size])
      && ReadPublish(FlagsOf(h.control), s[h.used..h.used + h.size]) == Reading(Some(topic), payload)
      && s[h.used + h.size..] == rest
  {
    var f := PublishFrame(topic, payload);
    HeaderRoundTrip(f, rest);
    var s := Wire(f) + rest;
    assert s[HeaderSize(f)..HeaderSize(f) + |f.body|] == f.body;
    ReadPublishOfFrame(topic, payload);
  }

  /** Forwarding drops the packet id, if the quality of service calls for one, and adds nothing. */
  lemma ForwardingNeverGrows(dup: nat, qos: nat, retain: nat, body: seq<byte>)
    requires dup <= 1 && qos <= 3 && retain <= 1
    requires PublishReadable(8 * dup + 2 * qos + retain, body) && ReadPublish(8 * dup + 2 * qos + retain, body).result.Some?
    ensures
      var r := ReadPublish(8 * dup + 2 * qos + retain, body);
      && |PublishFrame(r.result.value, r.unread).body| == |body| - (if qos == 0 then 0 else 2)
      && |r.result.value| <= 128
  {
    PacketIdWithQuality(dup, qos, retain);
  }

  lemma PacketIdWithQuality(dup: nat, qos: nat, retain: nat)
    requires dup <= 1 && qos <= 3 && retain <= 1
    ensures HasPacketId(8 * dup + 2 * qos + retain) <==> qos != 0
  {
  }

  /**
   * Whatever the flags, a PUBLISH body reads back: a packet id is skipped exactly when the quality of
   * service is not zero, and neither the duplicate nor the retain bit changes what is read.
   */
  lemma PublishReadsBack(topic: Text, id: uint16, payload: seq<byte>, dup: nat, qos: nat, retain: nat)
    requires |topic| <= 128 && dup <= 1 && qos <= 3 && retain <= 1
    ensures
      var flags, body := 8 * dup + 2 * qos + retain, Str(topic) + (if qos == 0 then [] else Be16(id)) + payload;
      PublishReadable(flags, body) && ReadPublish(flags, body) == Reading(Some(topic), payload)
  {
    PacketIdWithQuality(dup, qos, retain);
    var tail := (if qos == 0 then [] else Be16(id)) + payload;
    assert Str(topic) + (if qos == 0 then [] else Be16(id)) + payload == Str(topic) + tail;
    StrRoundTrip(topic, tail);
    var body, n := Str(topic) + tail, |topic|;
    if qos != 0 {
      assert body[n + 4..] == body[n + 2..][2..] == payload;
    }
  }

  // ---------- SUBSCRIBE and SUBACK ----------

  function SubscribeFrame(id: uint16, topic: Text): Frame {
    Frame(SUBSCRIBE * 16 + 2, Be16(id) + Entry(topic, 0))
  }

  /** One topic filter with its byte of requested quality of service. */
  function Entry(topic: Text, flags: byte): seq<byte> {
    Str(topic) + [flags]
  }

  /** The broker's topic callback refuses filters with the one-level wildcard. */
  predicate Accepts(topic: Text) {
    PLUS !in topic
  }

  predicate TopicsReadable(s: seq<byte>) {
    s == [] ||
    (&& StrReadable(s, TOPIC_SIZE)
     && var n := StrLength(s);
        (n <= TOPIC_SIZE && Accepts(s[2..n + 2]) ==> |s| > n + 2 && TopicsReadable(s[n + 3..])))
  }

  /** The topics the callback is called on, whether all were read and accepted, and the rest. */
  datatype Scan = Scan(calls: seq<Text>, complete: bool, unread: seq<byte>)

  function ScanTopics(s: seq<byte>): Scan
    requires TopicsReadable(s)
  {
    if s == [] then Scan([], true, [])
    else
      var n := StrLength(s);
      if n > TOPIC_SIZE then Scan([], false, s[2..])
      else if !Accepts(s[2..n + 2]) then Scan([s[2..n + 2]], false, s[n + 2..])
      else
        var rest := ScanTopics(s[n + 3..]);
        Scan([s[2..n + 2]] + rest.calls, rest.complete, rest.unread)
  }

  predicate SubscribeReadable(body: seq<byte>) {
    |body| >= 2 && TopicsReadable(body[2..])
  }

  function ReadSubscribe(body: seq<byte>): Reading<uint16>
    requires SubscribeReadable(body)
  {
    var scan := ScanTopics(body[2..]);
    BigEndianOfTwo(body[..2]);
    Reading(if scan.complete then Some(BigEndian(body[..2])) else None, scan.unread)
  }

  function Entries(topics: seq<Text>, flags: seq<byte>): seq<byte>
    requires |topics| == |flags|
  {
    if topics == [] then [] else Entry(topics[0], flags[0]) + Entries(topics[1..], flags[1..])
  }

  /** Topics of at most 128 bytes and without a plus sign (43). */
  ghost predicate Acceptable(topics: seq<Text>) {
    forall i :: 0 <= i < |topics| ==> |topics[i]| <= 128 && 43 !in topics[i]
  }

  /** The loop sees any list of acceptable topics, in order, and then goes on with what follows. */
  lemma {:induction false} ScanEntries(topics: seq<Text>, flags: seq<byte>, rest: seq<byte>)
    requires |topics| == |flags| && Acceptable(topics) && TopicsReadable(rest)
    ensures TopicsReadable(Entries(topics, flags) + rest)
    ensures
      var r := ScanTopics(rest);
      ScanTopics(Entries(topics, flags) + rest) == Scan(topics + r.calls, r.complete, r.unread)
  {
    EntriesStep(topics, flags, rest);
    CallsStep(topics, ScanTopics(rest).calls);
    if topics != [] {
      ScanEntries(topics[1..], flags[1..], rest);
      ScanEntry(topics[0], flags[0], Entries(topics[1..], flags[1..]) + rest);
    }
  }

  /** Entries with acceptable topics and nothing after them. */
  ghost predicate IsTopicList(s: seq<byte>) {
    exists topics, flags :: Lists(s, topics, flags)
  }

  ghost predicate Lists(s: seq<byte>, topics: seq<Text>, flags: seq<byte>) {
    |topics| == |flags| && Acceptable(topics) && s == Entries(topics, flags)
  }

  /** All topics are read and accepted exactly when there is nothing but acceptable topics. */
  lemma {:induction false} CompleteExactlyIf(s: seq<byte>)
    requires TopicsReadable(s)
    ensures ScanTopics(s).complete <==> IsTopicList(s)
  {
    if ScanTopics(s).complete {
      var flags := CompleteLists(s);
    }
    if IsTopicList(s) {
      var topics, flags :| Lists(s, topics, flags);
      ScanEntries(topics, flags, []);
      assert Entries(topics, flags) + [] == s;
    }
  }

  lemma FirstEntry(s: seq<byte>)
    requires StrReadable(s, TOPIC_SIZE) && StrLength(s) + 2 < |s|
    ensures var n := StrLength(s);
            s == Entry(s[2..n + 2], s[n + 2]) + s[n + 3..]
  {
    StrOfField(s);
  }

  /** The topics that were called on, and the bytes behind them, make up everything that was scanned. */
  lemma {:induction false} CompleteLists(s: seq<byte>) returns (flags: seq<byte>)
    requires TopicsReadable(s) && ScanTopics(s).complete
    ensures Lists(s, ScanTopics(s).calls, flags)
  {
    if s == [] {
      flags := [];
    } else {
      var n := StrLength(s);
      var more := CompleteLists(s[n + 3..]);
      flags := [s[n + 2]] + more;
      var rest := ScanTopics(s[n + 3..]);
      FirstEntry(s);
      assert flags[1..] == more && ([s[2..n + 2]] + rest.calls)[1..] == rest.calls;
    }
  }

  lemma {:induction false} EntriesStep(topics: seq<Text>, flags: seq<byte>, rest: seq<byte>)
    requires |topics| == |flags|
    ensures Entries(topics, flags) + rest ==
            if topics == [] then rest
            else Entry(topics[0], flags[0]) + (Entries(topics[1..], flags[1..]) + rest)
  {
  }

  lemma CallsStep(a: seq<Text>, b: seq<Text>)
    ensures a + b == if a == [] then b else [a[0]] + (a[1..] + b)
  {
  }

  lemma {:induction false} ScanEntry(t: Text, flags: byte, rest: seq<byte>)
    requires |t| <= TOPIC_SIZE && Accepts(t) && TopicsReadable(rest)
    ensures TopicsReadable(Entry(t, flags) + rest)
    ensures
      var r := ScanTopics(rest);
      ScanTopics(Entry(t, flags) + rest) == Scan([t] + r.calls, r.complete, r.unread)
  {
    var s := Entry(t, flags) + rest;
    assert s == Str(t) + ([flags] + rest);
    StrRoundTrip(t, [flags] + rest);
    assert s[|t| + 3..] == rest;
  }

  /** The first refused topic ends the loop: it is the last call, and nothing after it is read. */
  lemma {:induction false} ScanStopsAtWildcard(topics: seq<Text>, flags: seq<byte>, bad: Text, rest: seq<byte>)
    requires |topics| == |flags| && Acceptable(topics)
    requires |bad| <= 128 && 43 in bad
    ensures TopicsReadable(Entries(topics, flags) + (Str(bad) + rest))
    ensures ScanTopics(Entries(topics, flags) + (Str(bad) + rest)) == Scan(topics + [bad], false, rest)
  {
    StrRoundTrip(bad, rest);
    ScanEntries(topics, flags, Str(bad) + rest);
  }

  /** A SUBSCRIBE of any number of acceptable topics reads back whole. */
  lemma {:induction false} SubscribeRoundTrip(id: uint16, topics: seq<Text>, flags: seq<byte>)
    requires |topics| == |flags| && Acceptable(topics)
    ensures SubscribeReadable(Be16(id) + Entries(topics, flags))
    ensures ReadSubscribe(Be16(id) + Entries(topics, flags)) == Reading(Some(id), [])
    ensures ScanTopics((Be16(id) + Entries(topics, flags))[2..]).calls == topics
  {
    var body := Be16(id) + Entries(topics, flags);
    assert body[..2] == Be16(id);
    assert body[2..] == Entries(topics, flags);
    Be16RoundTrip(id);
    ScanEntries(topics, flags, []);
    assert Entries(topics, flags) + [] == Entries(topics, flags);
  }

  /** The client's own printer is the case of one topic. */
  lemma SubscribeFrameIsOneEntry(id: uint16, topic: Text)
    requires |topic| <= 25 && 43 !in topic
    ensures SubscribeReadable(SubscribeFrame(id, topic).body)
    ensures ReadSubscribe(SubscribeFrame(id, topic).body) == Reading(Some(id), [])
    ensures ScanTopics(SubscribeFrame(id, topic).body[2..]).calls == [topic]
    ensures |SubscribeFrame(id, topic).body| < 127
  {
    SubscribeRoundTrip(id, [topic], [0]);
    assert Entries([topic], [0]) == Entry(topic, 0) by {
      assert Entries([topic][1..], [0][1..]) == [];
      assert Entry(topic, 0) + [] == Entry(topic, 0);
    }
  }

  datatype SubscribeAck = SubscribeAck(id: uint16, responses: seq<byte>)

  function SubscribeAckFrame(ack: SubscribeAck): Frame {
    Frame(SUBACK * 16, Be16(ack.id) + ack.responses)
  }

  function ReadSubscribeAck(body: seq<byte>): Reading<SubscribeAck>
    requires |body| >= 3
  {
    BigEndianOfTwo(body[..2]);
    Reading(Some(SubscribeAck(BigEndian(body[..2]), [body[2]])), body[3..])
  }

  /** The reader takes one response only, so SUBACK survives exactly when it carries one. */
  lemma SubscribeAckRoundTrip(ack: SubscribeAck)
    requires 0 < |ack.responses| <= 28
    ensures
      var r := ReadSubscribeAck(SubscribeAckFrame(ack).body);
      && r == Reading(Some(SubscribeAck(ack.id, ack.responses[..1])), ack.responses[1..])
      && (r == Reading(Some(ack), []) <==> |ack.responses| == 1)
  {
    var body := SubscribeAckFrame(ack).body;
    assert body[..2] == Be16(ack.id);
    Be16RoundTrip(ack.id);
    assert body[3..] == ack.responses[1..];
    assert [body[2]] == ack.responses[..1];
    if |ack.responses| == 1 {
      assert ack.responses[..1] == ack.responses;
    }
  }

  // ---------- PINGRESP ----------

  function PingResponseFrame(): Frame {
    Frame(PINGRESP * 16, [])
  }
}
