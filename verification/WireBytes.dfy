/** The messages as numbers on the wire, byte by byte (sections 2.2 and 3 of MQTT 3.1.1). */
module WireBytes {
  import opened Wrappers
  import opened Bytes
  import opened Frames
  import opened Messages
  import RemainingLength

  /** The printed size: one byte below 128, and else seven bits a byte, lowest first. */
  lemma {:induction false} SizeBytes(n: nat)
    ensures n < 128 ==> RemainingLength.Encode(n) == [n]
    ensures 128 <= n < 16_384 ==> RemainingLength.Encode(n) == [n % 128 + 128, n / 128]
    ensures 16_384 <= n < 2_097_152 ==> RemainingLength.Encode(n) == [n % 128 + 128, n / 128 % 128 + 128, n / 16_384]
    ensures 2_097_152 <= n <= 268_435_455 ==>
              RemainingLength.Encode(n) == [n % 128 + 128, n / 128 % 128 + 128, n / 16_384 % 128 + 128, n / 2_097_152]
  {
    if n >= 128 {
      SizeBytes(n / 128);
      Quotients(n);
    }
  }

  lemma Quotients(n: nat)
    ensures n / 128 / 128 == n / 16_384 && n / 16_384 / 128 == n / 2_097_152
  {
  }

  lemma StrBytes(s: seq<byte>)
    requires |s| < 256
    ensures Str(s) == [0, |s|] + s
  {
  }

  lemma ConnectBytes(c: Connect, clientId: Text)
    requires |c.name| <= 6 && |clientId| <= 23
    ensures Wire(ConnectFrame(c, clientId))
            == [0x10, 8 + |c.name| + |clientId|] + [0, |c.name|] + c.name
               + [c.level, c.flags, c.keepAlive / 256, c.keepAlive % 256] + [0, |clientId|] + clientId
  {
    StrBytes(c.name);
    StrBytes(clientId);
    SizeBytes(8 + |c.name| + |clientId|);
  }

  lemma {:induction false} PublishBytes(topic: Text, payload: seq<byte>)
    requires |topic| <= 128
    ensures Wire(PublishFrame(topic, payload))
            == [0x30] + RemainingLength.Encode(2 + |topic| + |payload|) + [0, |topic|] + topic + payload
  {
    StrBytes(topic);
  }

  lemma SubscribeBytes(id: uint16, topic: Text)
    requires |topic| <= 25
    ensures Wire(SubscribeFrame(id, topic)) == [0x82, 5 + |topic|, id / 256, id % 256, 0, |topic|] + topic + [0]
  {
    StrBytes(topic);
    SizeBytes(5 + |topic|);
  }

  /** What the broker answers with. */
  lemma AnswerBytes(id: uint16, error: bool)
    ensures Wire(ConnectAckFrame(error)) == [0x20, 2, 0, if error then 0x80 else 0]
    ensures Wire(SubscribeAckFrame(SubscribeAck(id, [0]))) == [0x90, 3, id / 256, id % 256, 0]
    ensures Wire(PingResponseFrame()) == [0xD0, 0]
  {
  }

  /** Any CONNACK body: the flags, then the return code, then what stays unread. */
  lemma ConnectAckReadsBack(flags: byte, code: byte, rest: seq<byte>)
    ensures ReadConnectAck([flags, code] + rest) == Reading(Some(ConnectAck(flags, code)), rest)
  {
  }

  /** Any SUBACK body: the packet id, one response, and what stays unread. */
  lemma SubscribeAckReadsBack(high: byte, low: byte, response: byte, rest: seq<byte>)
    ensures ReadSubscribeAck([high, low, response] + rest)
            == Reading(Some(SubscribeAck((high as int) * 256 + low, [response])), rest)
  {
    var body := [high, low, response] + rest;
    BigEndianOfTwo(body[..2]);
  }

  /** Any CONNECT body: the name, the level, the flags, the time to keep alive, and what stays unread. */
  lemma ConnectReadsBack(name: Text, level: byte, flags: byte, high: byte, low: byte, rest: seq<byte>)
    requires |name| <= 6
    ensures
      var body := [0, |name|] + name + ([level, flags, high, low] + rest);
      && ConnectReadable(body)
      && ReadConnect(body) == Reading(Some(Connect(name, level, flags, (high as int) * 256 + low)), rest)
  {
    var n, tail := |name|, [level, flags, high, low] + rest;
    StrBytes(name);
    StrRoundTrip(name, tail);
    var body := Str(name) + tail;
    Behind(Str(name), tail);
    BigEndianOfTwo([high, low]);
    assert tail[2..4] == [high, low] && tail[4..] == rest;
    assert body[n + 4..n + 6] == [high, low];
  }
}
