/** Who hears what: exact notification and replay, failures without a trace, silence, and answers. */
module BrokerTheorems {
  import opened Wrappers
  import opened Bytes
  import opened Frames
  import opened Links
  import opened Messages
  import opened KeyKinds
  import opened Broker
  import opened BrokerInvariants
  import opened SubscriberView
  import RemainingLength

  // ---------- notification and replay ----------

  function Copies(n: nat, f: Frame): seq<Frame> {
    if n == 0 then [] else Copies(n - 1, f) + [f]
  }

  /** How many observers on the connection `h` match the key. */
  function Count<K(==)>(kind: KeyKind<K>, observers: seq<Observer<K>>, h: nat, key: K): nat {
    if observers == [] then 0
    else
      var last := observers[|observers| - 1];
      Count(kind, observers[..|observers| - 1], h, key)
      + (if last.handle == h && Matches(kind, last.matcher, key) then 1 else 0)
  }

  lemma {:induction false} ShownFrames<K>(kind: KeyKind<K>, o: Observer<K>, key: K, value: seq<byte>, h: nat)
    ensures FramesTo(h, Shown(kind, o, key, value))
            == if o.handle == h && Matches(kind, o.matcher, key) then [PublishFrame(kind.decode(key), value)] else []
  {
    OneDelivery(h, Delivery(o.handle, PublishFrame(kind.decode(key), value)));
  }

  /** A new value reaches each matching observer exactly once. */
  lemma {:induction false} NoticesAreExact<K>(kind: KeyKind<K>, observers: seq<Observer<K>>, key: K, value: seq<byte>, h: nat)
    ensures FramesTo(h, Notices(kind, observers, key, value))
            == Copies(Count(kind, observers, h, key), PublishFrame(kind.decode(key), value))
  {
    if observers != [] {
      var front, last := observers[..|observers| - 1], observers[|observers| - 1];
      NoticesAreExact(kind, front, key, value, h);
      FramesToConcat(h, Notices(kind, front, key, value), Shown(kind, last, key, value));
      ShownFrames(kind, last, key, value, h);
    }
  }

  /** The keys of an order that a matcher picks. */
  function MatchedKeys<K(==)>(kind: KeyKind<K>, m: Matcher<K>, order: seq<K>): seq<K> {
    if order == [] then []
    else
      var last := order[|order| - 1];
      MatchedKeys(kind, m, order[..|order| - 1]) + (if Matches(kind, m, last) then [last] else [])
  }

  function Publishes<K(==)>(kind: KeyKind<K>, entries: map<K, seq<byte>>, keys: seq<K>): seq<Frame>
    requires forall i :: 0 <= i < |keys| ==> keys[i] in entries
  {
    seq(|keys|, i requires 0 <= i < |keys| => PublishFrame(kind.decode(keys[i]), entries[keys[i]]))
  }

  lemma {:induction false} MatchedKeysAmong<K>(kind: KeyKind<K>, m: Matcher<K>, order: seq<K>)
    ensures forall i :: 0 <= i < |MatchedKeys(kind, m, order)| ==>
              MatchedKeys(kind, m, order)[i] in order && Matches(kind, m, MatchedKeys(kind, m, order)[i])
    ensures forall k :: k in order && Matches(kind, m, k) ==> k in MatchedKeys(kind, m, order)
  {
    if order != [] {
      var front := order[..|order| - 1];
      MatchedKeysAmong(kind, m, front);
      assert forall k :: k in order <==> k in front || k == order[|order| - 1];
    }
  }

  lemma {:induction false} MatchedKeysDistinct<K>(kind: KeyKind<K>, m: Matcher<K>, order: seq<K>)
    requires Distinct(order)
    ensures Distinct(MatchedKeys(kind, m, order))
  {
    if order != [] {
      var front := order[..|order| - 1];
      MatchedKeysDistinct(kind, m, front);
      MatchedKeysAmong(kind, m, front);
      var ks := MatchedKeys(kind, m, front);
      forall i | 0 <= i < |ks| ensures ks[i] != order[|order| - 1] {
        var j :| 0 <= j < |front| && front[j] == ks[i];
        assert order[j] == ks[i];
      }
      assert MatchedKeys(kind, m, order)
             == ks + (if Matches(kind, m, order[|order| - 1]) then [order[|order| - 1]] else []);
    }
  }

  lemma {:induction false} ReplayFrames<K>(kind: KeyKind<K>, o: Observer<K>, entries: map<K, seq<byte>>, order: seq<K>)
    requires forall i :: 0 <= i < |order| ==> order[i] in entries
    ensures forall i :: 0 <= i < |MatchedKeys(kind, o.matcher, order)| ==> MatchedKeys(kind, o.matcher, order)[i] in entries
    ensures FramesTo(o.handle, Replay(kind, o, entries, order))
            == Publishes(kind, entries, MatchedKeys(kind, o.matcher, order))
  {
    MatchedKeysAmong(kind, o.matcher, order);
    if order != [] {
      var front, key := order[..|order| - 1], order[|order| - 1];
      ReplayFrames(kind, o, entries, front);
      FramesToConcat(o.handle, Replay(kind, o, entries, front), Shown(kind, o, key, entries[key]));
      ShownFrames(kind, o, key, entries[key], o.handle);
    }
  }

  /** The replay is one PUBLISH for each matching stored entry: all of them, none twice, no others. */
  lemma {:induction false} ReplayIsExact<K>(kind: KeyKind<K>, o: Observer<K>, entries: map<K, seq<byte>>, order: seq<K>)
    requires IsOrder(order, entries.Keys) && forall i :: 0 <= i < |order| ==> order[i] in entries
    ensures
      var ks := MatchedKeys(kind, o.matcher, order);
      && Distinct(ks)
      && (forall k :: k in ks <==> k in entries && Matches(kind, o.matcher, k))
      && (forall i :: 0 <= i < |ks| ==> ks[i] in entries)
      && FramesTo(o.handle, Replay(kind, o, entries, order)) == Publishes(kind, entries, ks)
  {
    var ks := MatchedKeys(kind, o.matcher, order);
    MatchedKeysAmong(kind, o.matcher, order);
    MatchedKeysDistinct(kind, o.matcher, order);
    ReplayFrames(kind, o, entries, order);
    forall k | k in entries ensures k in order {
      assert k in Elements(order);
    }
    forall k | k in ks ensures k in entries && Matches(kind, o.matcher, k) {
      var i :| 0 <= i < |ks| && ks[i] == k;
    }
  }

  /** What a subscriber makes of the replay does not depend on the store's iteration order. */
  lemma {:induction false} ReplayOrderIsInvisible<K>(kind: KeyKind<K>, o: Observer<K>, entries: map<K, seq<byte>>, a: seq<K>, b: seq<K>, view: Retained)
    requires AllKept(kind, entries) && IsOrder(a, entries.Keys) && IsOrder(b, entries.Keys)
    requires forall i :: 0 <= i < |a| ==> a[i] in entries
    requires forall i :: 0 <= i < |b| ==> b[i] in entries
    ensures ViewAfter(view, o.handle, Replay(kind, o, entries, a)) == ViewAfter(view, o.handle, Replay(kind, o, entries, b))
  {
    ReplayView(kind, o, entries, a, view);
    ReplayView(kind, o, entries, b, view);
  }

  // ---------- failures ----------

  /** The answer to this message, if it gets one, is longer than what the connection still takes. */
  predicate AnswerTooLong<K>(w: World<K>, h: nat, m: Message)
    requires h in w.links
  {
    match m
    case Hello(_) => w.links[h].room < 4
    case Watch(_, _) => w.links[h].room < 5
    case Ping => w.links[h].room < 2
    case _ => false
  }

  lemma AnswerSizes(id: uint16, error: bool)
    ensures |Wire(SubscribeAckFrame(SubscribeAck(id, [0])))| == 5
    ensures |Wire(ConnectAckFrame(error))| == 4 && |Wire(PingResponseFrame())| == 2
  {
  }

  /** Exactly when a message fails: it is not understood, or its answer cannot be written whole. */
  lemma FailsExactlyIf<K>(kind: KeyKind<K>, w: World<K>, h: nat, m: Message, order: seq<K>)
    requires h in w.links
    requires forall i :: 0 <= i < |order| ==> order[i] in w.entries
    ensures Act(kind, w, h, m, order).status.Failure? <==> m.Bad? || AnswerTooLong(w, h, m)
  {
    match m
    case Hello(level) => AnswerSizes(0, LevelKind(level).None?);
    case Watch(id, _) => AnswerSizes(id, false);
    case _ => AnswerSizes(0, false);
  }

  /**
   * Exactly which well-formed frames are not understood: a PUBLISH with a topic of more than 128
   * bytes, a SUBSCRIBE that is not a list of entries whose topics have at most 128 bytes and no `+`,
   * and all the types the broker does not serve.
   */
  lemma BadExactlyIf(control: byte, body: seq<byte>)
    requires Formed(control, body)
    ensures Parse(control, body).Bad? <==>
            || (control / 16 == 3 && StrLength(body) > 128)
            || (control / 16 == 8 && !IsTopicList(body[2..]))
            || control / 16 !in {1, 3, 8, 12, 14}
  {
    if TypeOf(control) == SUBSCRIBE {
      CompleteExactlyIf(body[2..]);
    }
  }

  /** Which control bytes announce which message, and where a CONNECT frame has its protocol level. */
  lemma {:induction false} MessageByControl(control: byte, body: seq<byte>)
    requires Formed(control, body)
    ensures
      var m := Parse(control, body);
      && (m.Hello? <==> 0x10 <= control <= 0x1F)
      && (m.Hello? ==> m.level == body[StrLength(body) + 2])
      && (m.Post? <==> 0x30 <= control <= 0x3F && StrLength(body) <= 128)
      && (m.Watch? <==> 0x80 <= control <= 0x8F && IsTopicList(body[2..]))
      && (m.Watch? ==> m.id == BigEndian(body[..2]))
      && (m.Ping? <==> 0xC0 <= control <= 0xCF)
      && (m.Bye? <==> 0xE0 <= control <= 0xEF)
  {
    if TypeOf(control) == SUBSCRIBE {
      CompleteExactlyIf(body[2..]);
    }
  }

  /** A PUBLISH frame with any flags means its topic and payload. */
  lemma {:induction false} PublishIsParsed(topic: Text, id: uint16, payload: seq<byte>, dup: nat, qos: nat, retain: nat)
    requires |topic| <= 128 && dup <= 1 && qos <= 3 && retain <= 1
    requires 2 + |topic| + (if qos == 0 then 0 else 2) + |payload| <= RemainingLength.MAX
    ensures
      var control, body := 48 + 8 * dup + 2 * qos + retain, Str(topic) + (if qos == 0 then [] else Be16(id)) + payload;
      Formed(control, body) && Parse(control, body) == Post(topic, payload)
  {
    PublishReadsBack(topic, id, payload, dup, qos, retain);
    var control: byte := 48 + 8 * dup + 2 * qos + retain;
    assert TypeOf(control) == 3 && FlagsOf(control) == 8 * dup + 2 * qos + retain;
  }

  /** A SUBSCRIBE frame with any flags and acceptable topics means its packet id and its topics. */
  lemma {:induction false} SubscribeIsParsed(control: byte, id: uint16, topics: seq<Text>, flags: seq<byte>)
    requires 0x80 <= control <= 0x8F && |topics| == |flags| && Acceptable(topics)
    requires |Be16(id) + Entries(topics, flags)| <= RemainingLength.MAX
    ensures
      var body := Be16(id) + Entries(topics, flags);
      Formed(control, body) && Parse(control, body) == Watch(id, topics)
  {
    SubscribeRoundTrip(id, topics, flags);
  }

  /** A message that fails changes neither entries nor observers, nor what other connections receive. */
  lemma FailureLeavesNoTrace<K>(kind: KeyKind<K>, w: World<K>, h: nat, m: Message, order: seq<K>)
    requires h in w.links
    requires forall i :: 0 <= i < |order| ==> order[i] in w.entries
    requires Act(kind, w, h, m, order).status.Failure?
    ensures
      var after := Act(kind, w, h, m, order).world;
      && after.entries == w.entries && after.observers == w.observers
      && (forall g :: g in w.links && g != h ==> after.links[g] == w.links[g])
      && (m.Bad? ==> after == w)
  {
    OnlyTheSenderHears(kind, w, h, m, order);
  }

  /** Any message but a PUBLISH makes writes only on the connection it came from. */
  lemma OnlyTheSenderHears<K>(kind: KeyKind<K>, w: World<K>, h: nat, m: Message, order: seq<K>)
    requires h in w.links && !m.Post?
    requires forall i :: 0 <= i < |order| ==> order[i] in w.entries
    ensures
      var r := Act(kind, w, h, m, order);
      forall g :: g in w.links && g != h ==> FramesTo(g, r.sends) == [] && r.world.links[g] == w.links[g]
  {
    forall g | g in w.links && g != h
      ensures FramesTo(g, Act(kind, w, h, m, order).sends) == []
      ensures Act(kind, w, h, m, order).world.links[g] == w.links[g]
    {
      match m
      case Hello(level) => ConnectingElsewhere(w, h, level, g);
      case Watch(id, topics) => SubscribingElsewhere(kind, w, h, id, topics, order, g);
      case Ping => AnswerElsewhere(w, h, PingResponseFrame(), g);
      case _ =>
    }
  }

  lemma {:induction false} AnswerElsewhere<K>(w: World<K>, h: nat, f: Frame, g: nat)
    requires h in w.links && g in w.links && g != h
    ensures FramesTo(g, Answer(w, h, f).sends) == [] && Answer(w, h, f).world.links[g] == w.links[g]
  {
    OneDelivery(g, Delivery(h, f));
    SendNothing(w.links[g]);
  }

  lemma {:induction false} ConnectingElsewhere<K>(w: World<K>, h: nat, level: byte, g: nat)
    requires h in w.links && g in w.links && g != h
    ensures FramesTo(g, Connecting(w, h, level).sends) == [] && Connecting(w, h, level).world.links[g] == w.links[g]
  {
    var k := LevelKind(level);
    var marked := if k.None? then w else w.(links := w.links[h := w.links[h].(kind := k.value)]);
    AnswerElsewhere(marked, h, ConnectAckFrame(k.None?), g);
  }

  lemma {:induction false} SubscribingElsewhere<K>(kind: KeyKind<K>, w: World<K>, h: nat, id: uint16, topics: seq<Text>, order: seq<K>, g: nat)
    requires h in w.links && g in w.links && g != h
    requires forall i :: 0 <= i < |order| ==> order[i] in w.entries
    ensures
      var r := Subscribing(kind, w, h, id, topics, order);
      FramesTo(g, r.sends) == [] && r.world.links[g] == w.links[g]
  {
    var f := SubscribeAckFrame(SubscribeAck(id, [0]));
    AnswerElsewhere(w, h, f, g);
    RegisteringElsewhere(kind, Answer(w, h, f), h, topics, order, g);
  }

  lemma {:induction false} RegisteringElsewhere<K>(kind: KeyKind<K>, ack: Reply<K>, h: nat, topics: seq<Text>, order: seq<K>, g: nat)
    requires h in ack.world.links && g in ack.world.links && g != h
    requires forall i :: 0 <= i < |order| ==> order[i] in ack.world.entries
    requires FramesTo(g, ack.sends) == []
    ensures
      var r := Registering(kind, ack, h, topics, order);
      FramesTo(g, r.sends) == [] && r.world.links[g] == ack.world.links[g]
  {
    if ack.status.Ok? && topics != [] {
      var o := SubscriberOf(kind, ack.world, h, topics);
      ReplayElsewhere(kind, o, ack.world.entries, order, g);
      SendNothing(ack.world.links[g]);
      FramesToConcat(g, ack.sends, Replay(kind, o, ack.world.entries, order));
    }
  }

  ghost predicate AllPublish(fs: seq<Frame>) {
    forall i :: 0 <= i < |fs| ==> TypeOf(fs[i].control) == PUBLISH
  }

  lemma {:induction false} ReplayIsPublish<K>(kind: KeyKind<K>, o: Observer<K>, entries: map<K, seq<byte>>, order: seq<K>)
    requires forall i :: 0 <= i < |order| ==> order[i] in entries
    ensures AllPublish(FramesTo(o.handle, Replay(kind, o, entries, order)))
  {
    ReplayFrames(kind, o, entries, order);
  }

  lemma {:induction false} RegisteringFrames<K>(kind: KeyKind<K>, ack: Reply<K>, h: nat, topics: seq<Text>, order: seq<K>)
    requires h in ack.world.links
    requires forall i :: 0 <= i < |order| ==> order[i] in ack.world.entries
    ensures
      var sent, fs := FramesTo(h, ack.sends), FramesTo(h, Registering(kind, ack, h, topics, order).sends);
      sent <= fs && AllPublish(fs[|sent|..]) && (ack.status.Failure? ==> fs == sent)
  {
    if ack.status.Ok? && topics != [] {
      var o := SubscriberOf(kind, ack.world, h, topics);
      FramesToConcat(h, ack.sends, Replay(kind, o, ack.world.entries, order));
      ReplayIsPublish(kind, o, ack.world.entries, order);
    }
  }

  lemma {:induction false} SubscribingAcknowledges<K>(kind: KeyKind<K>, w: World<K>, h: nat, id: uint16, topics: seq<Text>, order: seq<K>)
    requires h in w.links
    requires forall i :: 0 <= i < |order| ==> order[i] in w.entries
    ensures
      var r := Subscribing(kind, w, h, id, topics, order);
      var fs := FramesTo(h, r.sends);
      && |fs| > 0 && fs[0] == SubscribeAckFrame(SubscribeAck(id, [0])) && AllPublish(fs[1..])
      && (r.status.Failure? ==> |fs| == 1)
  {
    var f := SubscribeAckFrame(SubscribeAck(id, [0]));
    OneDelivery(h, Delivery(h, f));
    RegisteringFrames(kind, Answer(w, h, f), h, topics, order);
  }

  /**
   * The acknowledgement, with the client's packet id, is the first thing that a SUBSCRIBE frame with
   * acceptable topics causes; after it come PUBLISH frames and nothing else, and none of those if the
   * acknowledgement failed.
   */
  lemma {:induction false} AcknowledgedFirst<K>(kind: KeyKind<K>, w: World<K>, h: nat, control: byte, body: seq<byte>, order: seq<K>)
    requires Allowed(kind, w, Arrive(h, control, body, order)) && 0x80 <= control <= 0x8F && IsTopicList(body[2..])
    ensures
      var r := Step(kind, w, Arrive(h, control, body, order));
      var fs := FramesTo(h, r.sends);
      && |fs| > 0 && Wire(fs[0]) == [0x90, 3, body[0], body[1], 0] && AllPublish(fs[1..])
      && (r.status.Failure? ==> |fs| == 1)
  {
    OrderInEntries(w, order);
    MessageByControl(control, body);
    var m := Parse(control, body);
    SubscribingAcknowledges(kind, w, h, m.id, m.topics, order);
    SubscribeAckBytes(body, m.id);
  }

  /** The acknowledgement repeats the two bytes of the packet id. */
  lemma SubscribeAckBytes(body: seq<byte>, id: uint16)
    requires |body| >= 2 && id == BigEndian(body[..2])
    ensures Wire(SubscribeAckFrame(SubscribeAck(id, [0]))) == [0x90, 3, body[0], body[1], 0]
  {
    BigEndianOfTwo(body[..2]);
    HighAndLow(body[0], body[1]);
  }

  // ---------- silence after removal ----------

  ghost predicate NoPublish(fs: seq<Frame>) {
    forall i :: 0 <= i < |fs| ==> TypeOf(fs[i].control) != PUBLISH
  }

  ghost predicate Subscribes<K>(e: Event<K>, h: nat) {
    e.Arrive? && e.handle == h && TypeOf(e.control) == SUBSCRIBE
  }

  lemma {:induction false} NoticesElsewhere<K>(kind: KeyKind<K>, observers: seq<Observer<K>>, key: K, value: seq<byte>, h: nat)
    requires forall i :: 0 <= i < |observers| ==> observers[i].handle != h
    ensures FramesTo(h, Notices(kind, observers, key, value)) == []
  {
    if observers != [] {
      var front, last := observers[..|observers| - 1], observers[|observers| - 1];
      NoticesElsewhere(kind, front, key, value, h);
      FramesToConcat(h, Notices(kind, front, key, value), Shown(kind, last, key, value));
      ShownFrames(kind, last, key, value, h);
    }
  }

  /** `after` is `before`, or `before` and one more observer of the client on its connection `h`. */
  ghost predicate GrewBy<K>(before: seq<Observer<K>>, after: seq<Observer<K>>, client: nat, h: nat) {
    after == before
    || (|after| > |before| && after == before + [Observer(client, after[|before|].matcher, h)])
  }

  lemma RegisteringState<K>(kind: KeyKind<K>, ack: Reply<K>, h: nat, topics: seq<Text>, order: seq<K>)
    requires h in ack.world.links
    requires forall i :: 0 <= i < |order| ==> order[i] in ack.world.entries
    ensures
      var after := Registering(kind, ack, h, topics, order).world;
      && after.entries == ack.world.entries
      && GrewBy(ack.world.observers, after.observers, ack.world.links[h].client, h)
  {
  }

  lemma SubscribingState<K>(kind: KeyKind<K>, w: World<K>, h: nat, id: uint16, topics: seq<Text>, order: seq<K>)
    requires h in w.links
    requires forall i :: 0 <= i < |order| ==> order[i] in w.entries
    ensures
      var after := Subscribing(kind, w, h, id, topics, order).world;
      after.entries == w.entries && GrewBy(w.observers, after.observers, w.links[h].client, h)
  {
    RegisteringState(kind, Answer(w, h, SubscribeAckFrame(SubscribeAck(id, [0]))), h, topics, order);
  }

  /** Only a PUBLISH changes entries; only a SUBSCRIBE registers an observer, on its own connection. */
  lemma StateAfter<K>(kind: KeyKind<K>, w: World<K>, h: nat, m: Message, order: seq<K>)
    requires h in w.links
    requires forall i :: 0 <= i < |order| ==> order[i] in w.entries
    ensures
      var after := Act(kind, w, h, m, order).world;
      && (!m.Post? ==> after.entries == w.entries)
      && (!m.Watch? ==> after.observers == w.observers)
      && GrewBy(w.observers, after.observers, w.links[h].client, h)
  {
    match m
    case Watch(id, topics) => SubscribingState(kind, w, h, id, topics, order);
    case Post(_, _) =>
    case _ => NeitherStoresNorRegisters(kind, w, h, m, order);
  }

  lemma NeitherStoresNorRegisters<K>(kind: KeyKind<K>, w: World<K>, h: nat, m: Message, order: seq<K>)
    requires h in w.links && !m.Watch? && !m.Post?
    requires forall i :: 0 <= i < |order| ==> order[i] in w.entries
    ensures Act(kind, w, h, m, order).world.entries == w.entries
    ensures Act(kind, w, h, m, order).world.observers == w.observers
  {
  }

  lemma StaysUnobserved<K>(before: World<K>, after: World<K>, client: nat, from: nat, h: nat)
    requires Unobserved(before, h) && GrewBy(before.observers, after.observers, client, from)
    requires from == h ==> after.observers == before.observers
    ensures Unobserved(after, h)
  {
  }

  lemma {:induction false} AnswerIsSilent(h: nat, d: Delivery)
    requires TypeOf(d.frame.control) != PUBLISH
    ensures NoPublish(FramesTo(h, [d]))
  {
    OneDelivery(h, d);
  }

  lemma {:induction false} ActIsSilent<K>(kind: KeyKind<K>, w: World<K>, from: nat, m: Message, order: seq<K>, h: nat)
    requires from in w.links && h in w.links && Unobserved(w, h)
    requires forall i :: 0 <= i < |order| ==> order[i] in w.entries
    requires from == h ==> !m.Watch?
    ensures NoPublish(FramesTo(h, Act(kind, w, from, m, order).sends))
  {
    match m
    case Post(topic, payload) => NoticesElsewhere(kind, w.observers, kind.encode(topic), payload, h);
    case Hello(level) => AnswerIsSilent(h, Delivery(from, ConnectAckFrame(LevelKind(level).None?)));
    case Ping => AnswerIsSilent(h, Delivery(from, PingResponseFrame()));
    case Watch(_, _) => OnlyTheSenderHears(kind, w, from, m, order);
    case _ =>
  }

  lemma {:induction false} ArrivalIsSilent<K>(kind: KeyKind<K>, w: World<K>, from: nat, m: Message, order: seq<K>, h: nat)
    requires Lawful(kind) && Invariant(kind, w) && Publishable(kind, m) && Unobserved(w, h)
    requires from in w.links && (from == h ==> !m.Watch?)
    requires forall i :: 0 <= i < |order| ==> order[i] in w.entries
    ensures Unobserved(Act(kind, w, from, m, order).world, h)
    ensures NoPublish(FramesTo(h, Act(kind, w, from, m, order).sends))
  {
    StateAfter(kind, w, from, m, order);
    StaysUnobserved(w, Act(kind, w, from, m, order).world, w.links[from].client, from, h);
    if h in w.links {
      ActIsSilent(kind, w, from, m, order, h);
    } else {
      ActKeeps(kind, w, from, m, order);
      LegalFramesTo(h, w.links.Keys, Act(kind, w, from, m, order).sends);
    }
  }

  lemma {:induction false} StepIsSilent<K>(kind: KeyKind<K>, w: World<K>, e: Event<K>, h: nat)
    requires Lawful(kind) && Invariant(kind, w) && Allowed(kind, w, e) && Unobserved(w, h) && !Subscribes(e, h)
    ensures Unobserved(Step(kind, w, e).world, h) && NoPublish(FramesTo(h, Step(kind, w, e).sends))
  {
    match e
    case Join(_, _) =>
    case Remove(client) =>
      OthersAmong(w.observers, client);
    case Arrive(from, control, body, order) =>
      OrderInEntries(w, order);
      ParsedIsPublishable(kind, control, body);
      ArrivalIsSilent(kind, w, from, Parse(control, body), order, h);
  }

  /** A connection without observers receives no PUBLISH until it subscribes, whoever publishes. */
  lemma {:induction false} SilentUntilSubscribed<K>(kind: KeyKind<K>, w: World<K>, es: seq<Event<K>>, h: nat)
    requires Lawful(kind) && Invariant(kind, w) && AllAllowed(kind, w, es) && Unobserved(w, h)
    requires forall i :: 0 <= i < |es| ==> !Subscribes(es[i], h)
    ensures Unobserved(Run(kind, w, es), h) && NoPublish(FramesTo(h, RunSends(kind, w, es)))
    decreases |es|
  {
    if es != [] {
      var r := Step(kind, w, es[0]);
      assert es[0] in es;
      StepIsSilent(kind, w, es[0], h);
      StepKeeps(kind, w, es[0]);
      SilentUntilSubscribed(kind, r.world, es[1..], h);
      FramesToConcat(h, r.sends, RunSends(kind, r.world, es[1..]));
    }
  }

  // ---------- the order of notifications ----------

  /** The PUBLISH frames among those on a connection. */
  function PublishesAmong(fs: seq<Frame>): seq<Frame> {
    if fs == [] then []
    else
      var last := fs[|fs| - 1];
      PublishesAmong(fs[..|fs| - 1]) + (if TypeOf(last.control) == PUBLISH then [last] else [])
  }

  lemma {:induction false} PublishesAmongConcat(a: seq<Frame>, b: seq<Frame>)
    ensures PublishesAmong(a + b) == PublishesAmong(a) + PublishesAmong(b)
  {
    if b == [] {
      assert a + b == a;
    } else {
      var front, last := b[..|b| - 1], b[|b| - 1];
      PublishesAmongConcat(a, front);
      assert (a + b)[..|a + b| - 1] == a + front && (a + b)[|a + b| - 1] == last;
      Associates(PublishesAmong(a), PublishesAmong(front), if TypeOf(last.control) == PUBLISH then [last] else []);
    }
  }

  lemma {:induction false} NoneAmong(fs: seq<Frame>)
    requires NoPublish(fs)
    ensures PublishesAmong(fs) == []
  {
    if fs != [] {
      NoneAmong(fs[..|fs| - 1]);
    }
  }

  lemma {:induction false} CopiesArePublishes(n: nat, topic: Text, value: seq<byte>)
    ensures PublishesAmong(Copies(n, PublishFrame(topic, value))) == Copies(n, PublishFrame(topic, value))
  {
    if n > 0 {
      CopiesArePublishes(n - 1, topic, value);
      var all := Copies(n, PublishFrame(topic, value));
      assert all[..|all| - 1] == Copies(n - 1, PublishFrame(topic, value));
    }
  }

  /** Neither a subscription nor a removal. */
  ghost predicate Steady<K>(e: Event<K>) {
    && !e.Remove?
    && (e.Arrive? ==> TypeOf(e.control) != SUBSCRIBE)
  }

  /** What one event is due to send to the connection: a copy of the new value for each matching observer. */
  function Due<K(==)>(kind: KeyKind<K>, observers: seq<Observer<K>>, h: nat, e: Event<K>): seq<Frame> {
    if e.Arrive? && Formed(e.control, e.body) then DueFor(kind, observers, h, Parse(e.control, e.body)) else []
  }

  function DueFor<K(==)>(kind: KeyKind<K>, observers: seq<Observer<K>>, h: nat, m: Message): seq<Frame> {
    match m
    case Post(topic, payload) => Copies(Count(kind, observers, h, kind.encode(topic)), PublishFrame(topic, payload))
    case _ => []
  }

  function AllDue<K(==)>(kind: KeyKind<K>, observers: seq<Observer<K>>, h: nat, es: seq<Event<K>>): seq<Frame> {
    if es == [] then [] else Due(kind, observers, h, es[0]) + AllDue(kind, observers, h, es[1..])
  }

  lemma {:induction false} ActSendsDue<K>(kind: KeyKind<K>, w: World<K>, from: nat, m: Message, order: seq<K>, h: nat)
    requires Lawful(kind) && from in w.links && !m.Watch? && Publishable(kind, m)
    requires forall i :: 0 <= i < |order| ==> order[i] in w.entries
    ensures PublishesAmong(FramesTo(h, Act(kind, w, from, m, order).sends)) == DueFor(kind, w.observers, h, m)
  {
    match m
    case Post(topic, payload) =>
      NoticesAreExact(kind, w.observers, kind.encode(topic), payload, h);
      CopiesArePublishes(Count(kind, w.observers, h, kind.encode(topic)), topic, payload);
    case Hello(level) => AnswerIsNoPublish(h, Delivery(from, ConnectAckFrame(LevelKind(level).None?)));
    case Ping => AnswerIsNoPublish(h, Delivery(from, PingResponseFrame()));
    case _ =>
  }

  lemma {:induction false} AnswerIsNoPublish(h: nat, d: Delivery)
    requires TypeOf(d.frame.control) != PUBLISH
    ensures PublishesAmong(FramesTo(h, [d])) == []
  {
    AnswerIsSilent(h, d);
    NoneAmong(FramesTo(h, [d]));
  }

  lemma {:induction false} StepSendsDue<K>(kind: KeyKind<K>, w: World<K>, e: Event<K>, h: nat)
    requires Lawful(kind) && Allowed(kind, w, e) && Steady(e)
    ensures Step(kind, w, e).world.observers == w.observers
    ensures PublishesAmong(FramesTo(h, Step(kind, w, e).sends)) == Due(kind, w.observers, h, e)
  {
    match e
    case Join(_, _) =>
    case Remove(_) =>
    case Arrive(from, control, body, order) =>
      OrderInEntries(w, order);
      ParsedIsPublishable(kind, control, body);
      StateAfter(kind, w, from, Parse(control, body), order);
      ActSendsDue(kind, w, from, Parse(control, body), order, h);
  }

  /**
   * While nobody subscribes or is removed, the PUBLISH frames sent to a connection are, in the order in
   * which the values were set, one for each of its matching observers: none lost, doubled or overtaken.
   */
  lemma {:induction false} NotificationsKeepOrder<K>(kind: KeyKind<K>, w: World<K>, es: seq<Event<K>>, h: nat)
    requires Lawful(kind) && AllAllowed(kind, w, es)
    requires forall i :: 0 <= i < |es| ==> Steady(es[i])
    ensures PublishesAmong(FramesTo(h, RunSends(kind, w, es))) == AllDue(kind, w.observers, h, es)
    decreases |es|
  {
    if es != [] {
      var r := Step(kind, w, es[0]);
      StepSendsDue(kind, w, es[0], h);
      NotificationsKeepOrder(kind, r.world, es[1..], h);
      FramesToConcat(h, r.sends, RunSends(kind, r.world, es[1..]));
      PublishesAmongConcat(FramesTo(h, r.sends), FramesTo(h, RunSends(kind, r.world, es[1..])));
    }
  }

  // ---------- connecting and disconnecting ----------

  /** Which versions the protocol levels stand for. */
  function VersionOf(level: nat, otherwise: ConnectionType): ConnectionType {
    if level == 3 then MQTT_31 else if level == 4 then MQTT_311 else if level == 5 then MQTT_5 else otherwise
  }

  /**
   * A CONNECT frame is answered by one CONNACK, which the client's reader decodes to success exactly for
   * the protocol levels 3, 4 and 5; exactly those mark the connection with a version.
   */
  lemma {:induction false} ConnectIsAnswered<K>(kind: KeyKind<K>, w: World<K>, h: nat, control: byte, body: seq<byte>, order: seq<K>)
    requires Allowed(kind, w, Arrive(h, control, body, order)) && 0x10 <= control <= 0x1F
    ensures
      var r, level := Step(kind, w, Arrive(h, control, body, order)), body[StrLength(body) + 2];
      var f := ConnectAckFrame(level !in {3, 4, 5});
      && FramesTo(h, r.sends) == [f]
      && Wire(f) == [0x20, 2, 0, if level in {3, 4, 5} then 0 else 0x80]
      && ReadConnectAck(f.body) == Reading(Some(ConnectAck(0, if level in {3, 4, 5} then 0 else 0x80)), [])
      && r.world.links[h].kind == VersionOf(level, w.links[h].kind)
  {
    MessageByControl(control, body);
    ConnectingAnswers(w, h, body[StrLength(body) + 2]);
    ConnectAckBytes(body[StrLength(body) + 2] !in {3, 4, 5});
  }

  lemma ConnectAckBytes(error: bool)
    ensures Wire(ConnectAckFrame(error)) == [0x20, 2, 0, if error then 0x80 else 0]
    ensures ReadConnectAck(ConnectAckFrame(error).body) == Reading(Some(ConnectAck(0, if error then 0x80 else 0)), [])
  {
  }

  lemma {:induction false} ConnectingAnswers<K>(w: World<K>, h: nat, level: byte)
    requires h in w.links
    ensures
      var r := Connecting(w, h, level);
      && FramesTo(h, r.sends) == [ConnectAckFrame(level !in {3, 4, 5})]
      && r.world.links[h].kind == VersionOf(level, w.links[h].kind)
  {
    OneDelivery(h, Delivery(h, ConnectAckFrame(LevelKind(level).None?)));
  }

  /** A PINGREQ frame is answered by a PINGRESP, the bytes 208 and 0. */
  lemma {:induction false} PingIsAnswered<K>(kind: KeyKind<K>, w: World<K>, h: nat, control: byte, body: seq<byte>, order: seq<K>)
    requires Allowed(kind, w, Arrive(h, control, body, order)) && 0xC0 <= control <= 0xCF
    ensures BytesTo(h, Step(kind, w, Arrive(h, control, body, order)).sends) == [0xD0, 0]
  {
    MessageByControl(control, body);
    PingResponseBytes(h);
  }

  lemma PingResponseBytes(h: nat)
    ensures BytesTo(h, [Delivery(h, PingResponseFrame())]) == [0xD0, 0]
  {
    OneDelivery(h, Delivery(h, PingResponseFrame()));
    assert RemainingLength.Encode(0) == [0];
  }

  /** Once a client's DISCONNECT frame has arrived, nothing is ever written to it again. */
  lemma {:induction false} NothingAfterDisconnect<K>(kind: KeyKind<K>, w: World<K>, h: nat, control: byte, body: seq<byte>, order: seq<K>, es: seq<Event<K>>)
    requires Lawful(kind) && Invariant(kind, w) && Allowed(kind, w, Arrive(h, control, body, order)) && 0xE0 <= control <= 0xEF
    requires AllAllowed(kind, Step(kind, w, Arrive(h, control, body, order)).world, es)
    ensures
      var after := Step(kind, w, Arrive(h, control, body, order)).world;
      Run(kind, after, es).links[h].output == w.links[h].output
  {
    MessageByControl(control, body);
    var after := Step(kind, w, Arrive(h, control, body, order)).world;
    StepKeeps(kind, w, Arrive(h, control, body, order));
    RunKeeps(kind, after, es);
  }

  // ---------- what clients print, the broker understands ----------

  lemma PrintedConnectIsUnderstood(c: Connect, clientId: Text)
    requires |c.name| <= NAME_SIZE && |clientId| <= CLIENT_ID_SIZE
    ensures var f := ConnectFrame(c, clientId);
            Formed(f.control, f.body) && Parse(f.control, f.body) == Hello(c.level)
  {
    ConnectRoundTrip(c, clientId);
    assert ConnectFrame(c, clientId).body == Str(c.name) + ([c.level, c.flags] + Be16(c.keepAlive) + Str(clientId));
    StrRoundTrip(c.name, [c.level, c.flags] + Be16(c.keepAlive) + Str(clientId));
  }

  /** The broker prints what it forwards in the same form, so the same holds of a chain of brokers. */
  lemma PrintedPublishIsUnderstood(topic: Text, payload: seq<byte>)
    requires |topic| <= TOPIC_SIZE && Legal(PublishFrame(topic, payload))
    ensures var f := PublishFrame(topic, payload);
            Formed(f.control, f.body) && Parse(f.control, f.body) == Post(topic, payload)
  {
    ReadPublishOfFrame(topic, payload);
  }

  lemma PrintedSubscribeIsUnderstood(id: uint16, topic: Text)
    requires |topic| <= 25
    ensures var f := SubscribeFrame(id, topic);
            Formed(f.control, f.body)
            && Parse(f.control, f.body) == if 43 in topic then Bad else Watch(id, [topic])
  {
    if 43 !in topic {
      SubscribeFrameIsOneEntry(id, topic);
    } else {
      var f := SubscribeFrame(id, topic);
      ScanStopsAtWildcard([], [], topic, [0]);
      assert Entries([], []) + (Str(topic) + [0]) == Entry(topic, 0);
      assert f.body[2..] == Entry(topic, 0);
    }
  }
}
