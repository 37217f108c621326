/** The printers and readers of the MQTT 3.1.1 messages, each against its frame or body function. */
module Proto3 {
  import opened Wrappers
  import opened Bytes
  import opened Links
  import opened Frames
  import opened Messages
  import opened Connections
  import opened Packets
  import RemainingLength

  // ---------- readers of fields ----------

  /** An integer of `count` bytes: wire order in, so the target's memory fills from the top down. */
  method ReadBytes(packet: Packet, count: nat) returns (value: nat)
    requires packet.Complete() && count <= packet.bytesRemaining
    modifies packet`bytesRemaining, packet.connection`position
    ensures packet.Complete()
    ensures value == BigEndian(old(packet.Unread())[..count])
    ensures packet.Unread() == old(packet.Unread())[count..]
  {
    ghost var s := packet.Unread();
    var out := new byte[count];
    var i: int := count - 1;
    while i >= 0
      invariant -1 <= i < count
      invariant packet.Complete() && packet.Unread() == s[count - 1 - i..]
      invariant forall j :: i < j < count ==> out[j] == s[count - 1 - j]
    {
      var ok, data := packet.Read(1);
      out[i] := data[0];
      i := i - 1;
    }
    value := LittleEndian(out[..]);
    ghost var field := s[..count];
    forall j | 0 <= j < count ensures out[j] == Reversed(field)[j] {
      ReversedAt(field, j);
    }
    assert out[..] == Reversed(field);
    ReversedBytesKeepTheNumber(field);
  }

  /** A length-prefixed string, refused when it is longer than the buffer. */
  method ReadString(packet: Packet, capacity: nat) returns (text: Option<Text>)
    requires packet.Complete() && StrReadable(packet.Unread(), capacity)
    modifies packet`bytesRemaining, packet.connection`position
    ensures packet.Complete()
    ensures var s, n := old(packet.Unread()), StrLength(old(packet.Unread()));
            if n > capacity then text.None? && packet.Unread() == s[2..]
            else text == Some(s[2..n + 2]) && packet.Unread() == s[n + 2..]
  {
    ghost var s := packet.Unread();
    var ok, raw := packet.Read(2);
    BigEndianOfTwo(raw);
    var length := (raw[0] as int) * 256 + raw[1];
    if length > capacity {
      return None;
    }
    var data;
    ok, data := packet.Read(length);
    assert raw == s[..2] && data == s[2..][..length] == s[2..length + 2];
    text := Some(data);
  }

  // ---------- readers of messages ----------

  method ConnectReadFrom(packet: Packet) returns (connect: Option<Connect>)
    requires packet.Complete() && ConnectReadable(packet.Unread())
    modifies packet`bytesRemaining, packet.connection`position
    ensures packet.Complete()
    ensures Reading(connect, packet.Unread()) == ReadConnect(old(packet.Unread()))
  {
    ghost var s := packet.Unread();
    ghost var n := StrLength(s);
    var name := ReadString(packet, NAME_SIZE);
    if name.None? {
      return None;
    }
    var level := ReadBytes(packet, 1);
    var flags := ReadBytes(packet, 1);
    assert packet.Unread() == s[n + 4..];
    var keepAlive := ReadBytes(packet, 2);
    BigEndianOfOne(s[n + 2..][..1]);
    BigEndianOfOne(s[n + 2..][1..][..1]);
    assert s[n + 4..][..2] == s[n + 4..n + 6];
    BigEndianOfTwo(s[n + 4..n + 6]);
    connect := Some(Connect(name.value, level, flags, keepAlive));
  }

  method ConnectAckReadFrom(packet: Packet) returns (ack: Option<ConnectAck>)
    requires packet.Complete() && packet.bytesRemaining >= 2
    modifies packet`bytesRemaining, packet.connection`position
    ensures packet.Complete()
    ensures Reading(ack, packet.Unread()) == ReadConnectAck(old(packet.Unread()))
  {
    ghost var s := packet.Unread();
    var flags := ReadBytes(packet, 1);
    var returnCode := ReadBytes(packet, 1);
    BigEndianOfOne(s[..1]);
    BigEndianOfOne(s[1..][..1]);
    ack := Some(ConnectAck(flags, returnCode));
  }

  /** Stops at the payload, whose size is what remains of the packet. */
  method PublishReadFrom(packet: Packet, flags: byte) returns (topic: Option<Text>, payloadBytes: nat)
    requires packet.Complete() && PublishReadable(flags, packet.Unread())
    modifies packet`bytesRemaining, packet.connection`position
    ensures packet.Complete()
    ensures Reading(topic, packet.Unread()) == ReadPublish(flags, old(packet.Unread()))
    ensures topic.Some? ==> payloadBytes == packet.bytesRemaining
  {
    payloadBytes := 0;
    topic := ReadString(packet, TOPIC_SIZE);
    if topic.None? {
      return;
    }
    if HasPacketId(flags) {
      var id := ReadBytes(packet, 2);
    }
    payloadBytes := packet.bytesRemaining;
  }

  method SubscribeAckReadFrom(packet: Packet) returns (ack: Option<SubscribeAck>)
    requires packet.Complete() && packet.bytesRemaining >= 3
    modifies packet`bytesRemaining, packet.connection`position
    ensures packet.Complete()
    ensures Reading(ack, packet.Unread()) == ReadSubscribeAck(old(packet.Unread()))
  {
    ghost var s := packet.Unread();
    BigEndianOfTwo(s[..2]);
    var id := ReadBytes(packet, 2);
    var response := ReadBytes(packet, 1);
    BigEndianOfOne(s[2..][..1]);
    ack := Some(SubscribeAck(id, [response]));
  }

  // ---------- the printers' buffers ----------

  /** `buffer[current++] = b`; the cursor is a `byte` and stays one. */
  method Put(buffer: array<byte>, current: byte, b: byte) returns (next: byte)
    requires current < buffer.Length && current < 255
    modifies buffer
    ensures next == current + 1 && buffer[..next] == old(buffer[..current]) + [b]
  {
    buffer[current] := b;
    next := current + 1;
  }

  /** Copies `data` to the cursor and moves the cursor past it. */
  method PutAll(buffer: array<byte>, current: byte, data: seq<byte>) returns (next: byte)
    requires current as int + |data| <= buffer.Length && current as int + |data| <= 255
    modifies buffer
    ensures next as int == current as int + |data| && buffer[..next] == old(buffer[..current]) + data
  {
    forall i | 0 <= i < |data| {
      buffer[current + i] := data[i];
    }
    next := current + |data|;
  }

  /** A string with a length field whose high byte is always zero. */
  method PutText(buffer: array<byte>, current: byte, text: Text) returns (next: byte)
    requires |text| < 256 && current as int + 2 + |text| <= buffer.Length && current as int + 2 + |text| <= 255
    modifies buffer
    ensures next as int == current as int + 2 + |text| && buffer[..next] == old(buffer[..current]) + Str(text)
  {
    next := Put(buffer, current, 0);
    next := Put(buffer, next, |text|);
    next := PutAll(buffer, next, text);
    assert Str(text) == [0] + [|text|] + text;
  }

  /** The loop that prints a remaining length into the buffer. */
  method PutLength(buffer: array<byte>, current: byte, length: int32) returns (next: byte)
    requires 0 < length <= RemainingLength.MAX
    requires current as int + 4 <= buffer.Length && current as int + 4 <= 255
    modifies buffer
    ensures next as int == current as int + |RemainingLength.Encode(length)|
    ensures next as int <= current as int + 4
    ensures buffer[..next] == old(buffer[..current]) + RemainingLength.Encode(length)
  {
    ghost var all := old(buffer[..current]) + RemainingLength.Encode(length);
    RemainingLength.FourBytesSuffice(length);
    next := current;
    var left: int32 := length;
    while left > 0
      invariant left >= 0 && current <= next <= |all|
      invariant all == buffer[..next] + (if left > 0 then RemainingLength.Encode(left) else [])
    {
      ghost var before := buffer[..next];
      var digit: byte := if left > 127 then left % 128 + 128 else left;
      buffer[next] := digit;
      next := next + 1;
      left := left / 128;
      assert buffer[..next] == before + [digit];
    }
  }

  /** `*remaining_length = size - 2`, for the printers whose length takes one byte. */
  method SetLength(buffer: array<byte>, remainingLength: byte, size: byte, ghost f: Frame)
    requires remainingLength == 1 && 2 <= size <= buffer.Length && size - 2 < 128
    requires buffer[0] == f.control && buffer[2..size] == f.body
    modifies buffer
    ensures buffer[1] == size - 2 && buffer[..size] == Wire(f)
  {
    buffer[remainingLength] := size - 2;
    assert buffer[..size] == [buffer[0]] + [buffer[1]] + buffer[2..size];
  }

  // ---------- printers ----------

  method ConnectSendOn(c: Connect, clientId: Text, connection: Connection) returns (ok: bool)
    requires |c.name| <= NAME_SIZE && |clientId| <= CLIENT_ID_SIZE
    modifies connection`output, connection`room, connection`lost
    ensures connection.AsLink() == Send(old(connection.AsLink()), Wire(ConnectFrame(c, clientId)))
    ensures ok <==> |Wire(ConnectFrame(c, clientId))| <= old(connection.room)
  {
    var buffer := new byte[128];
    var current: byte := Put(buffer, 0, CONNECT * 16);
    // The length of the rest comes last; it takes one byte.
    var remainingLength := current;
    current := current + 1;
    ghost var start := buffer[..2];
    current := PutText(buffer, current, c.name);
    current := Put(buffer, current, c.level);
    current := Put(buffer, current, c.flags);
    current := Put(buffer, current, c.keepAlive / 256);
    current := Put(buffer, current, c.keepAlive % 256);
    current := PutText(buffer, current, clientId);
    ConnectBody(c, clientId, start);
    SetLength(buffer, remainingLength, current, ConnectFrame(c, clientId));
    ok := connection.Write(buffer[..current]);
  }

  method ConnectAckSendOn(error: bool, connection: Connection) returns (ok: bool)
    modifies connection`output, connection`room, connection`lost
    ensures connection.AsLink() == Send(old(connection.AsLink()), Wire(ConnectAckFrame(error)))
    ensures ok <==> |Wire(ConnectAckFrame(error))| <= old(connection.room)
  {
    var buffer := new byte[128];
    var current: byte := Put(buffer, 0, CONNACK * 16);
    var remainingLength := current;
    current := current + 1;
    ghost var start := buffer[..2];
    current := Put(buffer, current, 0);
    current := Put(buffer, current, if error then 0x80 else 0);
    SetLength(buffer, remainingLength, current, ConnectAckFrame(error));
    ok := connection.Write(buffer[..current]);
  }

  /** Fills the buffer with everything of a PUBLISH but its payload. */
  method PutPublishHeader(buffer: array<byte>, topic: Text, payload: seq<byte>) returns (current: byte)
    requires |topic| <= TOPIC_SIZE && 2 + |topic| + |payload| <= RemainingLength.MAX
    requires buffer.Length == 256
    modifies buffer
    ensures buffer[..current] + payload == Wire(PublishFrame(topic, payload))
  {
    current := Put(buffer, 0, PUBLISH * 16);
    var length := 2 + |topic| + |payload|;
    current := PutLength(buffer, current, length);
    ghost var e := RemainingLength.Encode(length);
    assert buffer[..current] == [PUBLISH * 16] + e;
    current := PutText(buffer, current, topic);
    PublishIsHeaderAndPayload(topic, payload, e);
    assert |PublishFrame(topic, payload).body| == length;
  }

  /** Two writes, the second only if the first succeeds; together they put out one whole frame. */
  method PublishSendOn(topic: Text, payload: seq<byte>, connection: Connection) returns (ok: bool)
    requires |topic| <= TOPIC_SIZE && 2 + |topic| + |payload| <= RemainingLength.MAX
    modifies connection`output, connection`room, connection`lost
    ensures connection.AsLink() == Send(old(connection.AsLink()), Wire(PublishFrame(topic, payload)))
    ensures ok <==> |Wire(PublishFrame(topic, payload))| <= old(connection.room)
  {
    var buffer := new byte[256];
    var current := PutPublishHeader(buffer, topic, payload);
    ghost var before, header := connection.AsLink(), buffer[..current];
    SendConcat(before, header, payload);
    ok := connection.Write(buffer[..current]);
    if !ok {
      CutHeader(before, header, payload);
      return;
    }
    ok := connection.Write(payload);
  }

  lemma PublishIsHeaderAndPayload(topic: Text, payload: seq<byte>, length: seq<byte>)
    ensures [PUBLISH * 16] + length + Str(topic) + payload == [PUBLISH * 16] + length + PublishFrame(topic, payload).body
  {
    assert PublishFrame(topic, payload).body == Str(topic) + payload;
  }

  /** The fields of CONNECT in the order in which the printer puts them out. */
  lemma ConnectBody(c: Connect, clientId: Text, start: seq<byte>)
    ensures start + Str(c.name) + [c.level] + [c.flags] + [c.keepAlive / 256] + [c.keepAlive % 256] + Str(clientId)
            == start + ConnectFrame(c, clientId).body
  {
    assert Be16(c.keepAlive) == [c.keepAlive / 256] + [c.keepAlive % 256];
  }

  /** A write that already failed on the header would have failed on the whole, with the same output. */
  lemma CutHeader(l: Link, header: seq<byte>, payload: seq<byte>)
    requires |header| > l.room
    ensures Send(l, header) == Send(l, header + payload)
  {
    assert (header + payload)[..l.room] == header[..l.room];
  }

  method SubscribeSendOn(id: uint16, topic: Text, connection: Connection) returns (ok: bool)
    requires |topic| <= 25
    modifies connection`output, connection`room, connection`lost
    ensures connection.AsLink() == Send(old(connection.AsLink()), Wire(SubscribeFrame(id, topic)))
    ensures ok <==> |Wire(SubscribeFrame(id, topic))| <= old(connection.room)
  {
    var buffer := new byte[128];
    var current: byte := Put(buffer, 0, SUBSCRIBE * 16 + 2);
    var remainingLength := current;
    current := current + 1;
    ghost var start := buffer[..2];
    current := Put(buffer, current, id / 256);
    current := Put(buffer, current, id % 256);
    current := PutText(buffer, current, topic);
    current := Put(buffer, current, 0);
    assert buffer[..current] == start + SubscribeFrame(id, topic).body;
    SetLength(buffer, remainingLength, current, SubscribeFrame(id, topic));
    assert buffer[remainingLength] < 127;
    ok := connection.Write(buffer[..current]);
  }

  method SubscribeAckSendOn(ack: SubscribeAck, connection: Connection) returns (ok: bool)
    requires |ack.responses| <= 28
    modifies connection`output, connection`room, connection`lost
    ensures connection.AsLink() == Send(old(connection.AsLink()), Wire(SubscribeAckFrame(ack)))
    ensures ok <==> |Wire(SubscribeAckFrame(ack))| <= old(connection.room)
  {
    var buffer := new byte[32];
    var current: byte := Put(buffer, 0, SUBACK * 16);
    var remainingLength := current;
    current := current + 1;
    ghost var start := buffer[..2];
    current := Put(buffer, current, ack.id / 256);
    current := Put(buffer, current, ack.id % 256);
    current := PutAll(buffer, current, ack.responses);
    // The cursor goes one too far here, and the packet size takes that back.
    current := current + 1;
    var packetSize: byte := current - 1;
    assert buffer[..packetSize] == start + SubscribeAckFrame(ack).body;
    SetLength(buffer, remainingLength, packetSize, SubscribeAckFrame(ack));
    ok := connection.Write(buffer[..packetSize]);
  }

  method PingResponseSendOn(connection: Connection) returns (ok: bool)
    modifies connection`output, connection`room, connection`lost
    ensures connection.AsLink() == Send(old(connection.AsLink()), Wire(PingResponseFrame()))
    ensures ok <==> 2 <= old(connection.room)
  {
    var buffer := new byte[] [PINGRESP * 16, 0];
    assert buffer[..] == Wire(PingResponseFrame());
    ok := connection.Write(buffer[..]);
  }
}
