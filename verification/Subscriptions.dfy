/** Reading a SUBSCRIBE: the loop over its topics, and the callback that turns a topic into an observer. */
module Subscriptions {
  import opened Wrappers
  import opened Bytes
  import opened Messages
  import opened KeyKinds
  import opened Broker
  import opened Connections
  import opened DataStores
  import opened Packets
  import opened Proto3

  /** The topic callback with the variable it captures: each accepted topic replaces the observer. */
  class TopicCallback<K> {
    const kind: KeyKind<K>
    const connection: Connection
    var observer: Option<ObserverEntry<K>>
    ghost var calls: seq<Text>

    constructor (kind: KeyKind<K>, connection: Connection)
      ensures this.kind == kind && this.connection == connection
      ensures observer == None && calls == []
    {
      this.kind, this.connection, observer, calls := kind, connection, None, [];
    }

    method Call(topic: Text) returns (ok: bool)
      requires Accepts(topic) ==> kind.fits(Stem(topic))
      modifies this
      ensures calls == old(calls) + [topic]
      ensures ok <==> Accepts(topic)
      ensures observer == if ok then Some(ObserverEntry(connection.client, FilterOf(kind, topic), connection))
                          else old(observer)
    {
      calls := calls + [topic];
      if PLUS in topic {
        return false;
      }
      var isPrefix := HASH in topic;
      var target := kind.encode(if isPrefix then topic[..|topic| - 1] else topic);
      var matcher := if isPrefix then Prefix(target) else Full(target);
      observer := Some(ObserverEntry(connection.client, matcher, connection));
      ok := true;
    }
  }

  /** What the callback holds after a sequence of accepted topics. */
  function LastObserver<K>(kind: KeyKind<K>, connection: Connection, topics: seq<Text>): Option<ObserverEntry<K>> {
    if topics == [] then None
    else Some(ObserverEntry(connection.client, FilterOf(kind, topics[|topics| - 1]), connection))
  }

  /** The scan of a non-empty body, one topic at a time. */
  lemma {:induction false} ScanStep(s: seq<byte>)
    requires TopicsReadable(s) && s != []
    ensures StrReadable(s, TOPIC_SIZE)
    ensures
      var n := StrLength(s);
      if n > TOPIC_SIZE then ScanTopics(s) == Scan([], false, s[2..])
      else if !Accepts(s[2..n + 2]) then ScanTopics(s) == Scan([s[2..n + 2]], false, s[n + 2..])
      else
        && |s| > n + 2 && TopicsReadable(s[n + 3..])
        && var rest := ScanTopics(s[n + 3..]);
           ScanTopics(s) == Scan([s[2..n + 2]] + rest.calls, rest.complete, rest.unread)
  {
  }

  /** One turn of the loop: a topic, the callback's verdict, and the byte of requested quality. */
  method ReadTopic<K>(packet: Packet, callback: TopicCallback<K>) returns (accepted: bool)
    requires packet.Complete() && TopicsReadable(packet.Unread()) && packet.bytesRemaining > 0
    requires FiltersFit(callback.kind, ScanTopics(packet.Unread()).calls)
    modifies packet`bytesRemaining, packet.connection`position, callback
    ensures packet.Complete() && packet.bytesRemaining < old(packet.bytesRemaining)
    ensures var before := ScanTopics(old(packet.Unread()));
            if accepted then
              && TopicsReadable(packet.Unread())
              && var rest := ScanTopics(packet.Unread());
                 && before.calls != []
                 && before == Scan([before.calls[0]] + rest.calls, rest.complete, rest.unread)
                 && callback.calls == old(callback.calls) + [before.calls[0]]
                 && callback.observer == LastObserver(callback.kind, callback.connection, [before.calls[0]])
            else
              && callback.calls == old(callback.calls) + before.calls
              && !before.complete && before.unread == packet.Unread()
  {
    ghost var s := packet.Unread();
    ScanStep(s);
    var topic := ReadString(packet, TOPIC_SIZE);
    if topic.None? {
      return false;
    }
    assert ScanTopics(s).calls[0] == topic.value;
    accepted := callback.Call(topic.value);
    if accepted {
      var flags := ReadBytes(packet, 1);
    }
  }

  lemma AddCall(a: seq<Text>, b: Text, c: seq<Text>)
    ensures a + ([b] + c) == (a + [b]) + c
  {
  }

  /** Calls the callback on the topics of the body, in order, and stops when one is refused. */
  method ReadTopics<K>(packet: Packet, callback: TopicCallback<K>) returns (complete: bool)
    requires packet.Complete() && TopicsReadable(packet.Unread())
    requires FiltersFit(callback.kind, ScanTopics(packet.Unread()).calls)
    requires callback.calls == [] && callback.observer == None
    modifies packet`bytesRemaining, packet.connection`position, callback
    ensures packet.Complete()
    ensures Scan(callback.calls, complete, packet.Unread()) == ScanTopics(old(packet.Unread()))
    ensures complete ==> callback.observer == LastObserver(callback.kind, callback.connection, callback.calls)
  {
    ghost var all := ScanTopics(packet.Unread());
    ghost var rest := all;
    while packet.bytesRemaining > 0
      invariant packet.Complete() && TopicsReadable(packet.Unread())
      invariant rest == ScanTopics(packet.Unread()) && FiltersFit(callback.kind, rest.calls)
      invariant all == Scan(callback.calls + rest.calls, rest.complete, rest.unread)
      invariant callback.observer == LastObserver(callback.kind, callback.connection, callback.calls)
      decreases packet.bytesRemaining
    {
      ghost var calls, before := callback.calls, rest;
      var accepted := ReadTopic(packet, callback);
      if !accepted {
        return false;
      }
      rest := ScanTopics(packet.Unread());
      AddCall(calls, before.calls[0], rest.calls);
      FitRest(callback.kind, before.calls[0], rest.calls);
    }
    complete := true;
  }

  lemma FitRest<K>(kind: KeyKind<K>, topic: Text, rest: seq<Text>)
    requires FiltersFit(kind, [topic] + rest)
    ensures FiltersFit(kind, rest)
  {
    forall i | 0 <= i < |rest| && Accepts(rest[i]) ensures kind.fits(Stem(rest[i])) {
      assert ([topic] + rest)[i + 1] == rest[i];
    }
  }

  method SubscribeReadFrom<K>(packet: Packet, callback: TopicCallback<K>) returns (id: Option<uint16>)
    requires packet.Complete() && SubscribeReadable(packet.Unread())
    requires FiltersFit(callback.kind, ScanTopics(packet.Unread()[2..]).calls)
    requires callback.calls == [] && callback.observer == None
    modifies packet`bytesRemaining, packet.connection`position, callback
    ensures packet.Complete()
    ensures Reading(id, packet.Unread()) == ReadSubscribe(old(packet.Unread()))
    ensures callback.calls == ScanTopics(old(packet.Unread())[2..]).calls
    ensures id.Some? ==> callback.observer == LastObserver(callback.kind, callback.connection, callback.calls)
  {
    ghost var s := packet.Unread();
    var packetId := ReadBytes(packet, 2);
    BigEndianOfTwo(s[..2]);
    var complete := ReadTopics(packet, callback);
    id := if complete then Some(packetId) else None;
  }
}
