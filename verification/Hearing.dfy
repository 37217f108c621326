/** What a subscription hears, in terms of texts: which topics its filter takes, from when on, and no others. */
module Hearing {
  import opened Wrappers
  import opened Bytes
  import opened Frames
  import opened Links
  import opened Messages
  import opened KeyKinds
  import opened Broker
  import opened BrokerInvariants
  import opened SubscriberView
  import opened BrokerTheorems
  import Keys

  // ---------- which topics a filter takes ----------

  /** A filter with a `#` (35) anywhere is a prefix without its last character; any other is exact. */
  predicate Takes<K>(kind: KeyKind<K>, filter: Text, topic: Text) {
    if 35 in filter then kind.hasPrefix(kind.encode(filter[..|filter| - 1]), kind.encode(topic)) else topic == filter
  }

  /** The part of a filter that is compared. */
  function Compared(filter: Text): Text {
    if 35 in filter then filter[..|filter| - 1] else filter
  }

  /** Over strings, a prefix takes what it is a prefix of, and what is a prefix of it. */
  lemma TakesOverStrings(filter: Text, topic: Text)
    ensures Takes(StringKeys(), filter, topic) <==>
            if 35 in filter then filter[..|filter| - 1] <= topic || topic <= filter[..|filter| - 1]
            else topic == filter
  {
    StringPrefixIsExact(Compared(filter), topic);
  }

  /** Over packed words, a prefix takes the topics that are long enough and contain it bit for bit. */
  lemma TakesOverWords(filter: Text, topic: Text)
    requires Keys.Packable(Compared(filter)) && Keys.Packable(topic)
    ensures Takes(PackedKeys(), filter, topic) <==>
            if 35 in filter then Keys.BitPrefix(filter[..|filter| - 1], topic) else topic == filter
  {
    Keys.MaskOfTopics(Compared(filter), topic);
  }

  /** The matcher picks exactly the topics that the filter takes. */
  ghost predicate Serves<K>(kind: KeyKind<K>, m: Matcher<K>, filter: Text) {
    forall t: Text :: kind.fits(t) ==> (Matches(kind, m, kind.encode(t)) <==> Takes(kind, filter, t))
  }

  /** The matcher that the broker makes of a filter does. */
  lemma FilterServes<K>(kind: KeyKind<K>, filter: Text)
    requires Lawful(kind) && kind.fits(Compared(filter))
    ensures Serves(kind, FilterOf(kind, filter), filter)
  {
    forall t: Text | kind.fits(t)
      ensures Matches(kind, FilterOf(kind, filter), kind.encode(t)) <==> Takes(kind, filter, t)
    {
      if 35 !in filter && kind.encode(t) == kind.encode(filter) {
        assert t == kind.decode(kind.encode(filter)) == filter;
      }
    }
  }

  /** The same of any string key: with a `#` behind it, and without one. */
  lemma StringFilterTakes(filter: Text, key: Text)
    ensures Matches(StringKeys(), FilterOf(StringKeys(), filter + [35]), key) <==> filter <= key || key <= filter
    ensures 35 !in filter ==> (Matches(StringKeys(), FilterOf(StringKeys(), filter), key) <==> key == filter)
  {
    var hash := filter + [35];
    assert hash[..|filter|] == filter && hash[|filter|] == 35;
    StringKeysAreLawful();
    FilterServes(StringKeys(), hash);
    FilterServes(StringKeys(), filter);
    assert StringKeys().fits(key) && StringKeys().encode(key) == key;
    TakesOverStrings(hash, key);
  }

  /** And of any packed topic. */
  lemma {:induction false} PackedFilterTakes(filter: Text, topic: Text)
    requires Keys.Packable(filter) && Keys.Packable(topic)
    ensures Matches(PackedKeys(), FilterOf(PackedKeys(), filter + [35]), Keys.Pack(topic)) <==> Keys.BitPrefix(filter, topic)
    ensures 35 !in filter ==> (Matches(PackedKeys(), FilterOf(PackedKeys(), filter), Keys.Pack(topic)) <==> topic == filter)
  {
    var hash := filter + [35];
    assert hash[..|filter|] == filter && hash[|filter|] == 35;
    PackedKeysAreLawful();
    FilterServes(PackedKeys(), hash);
    if 35 !in filter {
      FilterServes(PackedKeys(), filter);
    }
    assert PackedKeys().fits(topic) && PackedKeys().encode(topic) == Keys.Pack(topic);
    TakesOverWords(hash, topic);
  }

  /** What an observer sends when it is shown an entry: a PUBLISH exactly if the filter takes the topic. */
  lemma ShownIfTaken<K>(kind: KeyKind<K>, o: Observer<K>, filter: Text, key: K, value: seq<byte>)
    requires Lawful(kind) && Serves(kind, o.matcher, filter) && Kept(kind, key, value)
    ensures Shown(kind, o, key, value)
            == if Takes(kind, filter, kind.decode(key)) then [Delivery(o.handle, PublishFrame(kind.decode(key), value))] else []
  {
    assert kind.encode(kind.decode(key)) == key;
  }

  // ---------- registration ----------

  lemma {:induction false} ListedTopicsAreCalled(s: seq<byte>, topics: seq<Text>, flags: seq<byte>)
    requires TopicsReadable(s) && Lists(s, topics, flags)
    ensures ScanTopics(s) == Scan(topics, true, [])
  {
    ScanEntries(topics, flags, []);
    assert Entries(topics, flags) + [] == s;
    assert topics + [] == topics;
  }

  lemma {:induction false} SubscriptionMeans<K>(kind: KeyKind<K>, control: byte, body: seq<byte>, topics: seq<Text>, flags: seq<byte>)
    requires Readable(kind, control, body) && 0x80 <= control <= 0x8F && Lists(body[2..], topics, flags)
    ensures Parse(control, body).Watch? && Parse(control, body).topics == topics
    ensures topics != [] ==> kind.fits(Compared(topics[|topics| - 1]))
  {
    ListedTopicsAreCalled(body[2..], topics, flags);
    assert TypeOf(control) == SUBSCRIBE;
    if topics != [] {
      var last := topics[|topics| - 1];
      assert Accepts(last) && Compared(last) == Stem(last);
    }
  }

  lemma {:induction false} Registered<K>(kind: KeyKind<K>, w: World<K>, h: nat, id: uint16, topics: seq<Text>, order: seq<K>)
    requires h in w.links
    requires forall i :: 0 <= i < |order| ==> order[i] in w.entries
    ensures
      var after := Subscribing(kind, w, h, id, topics, order).world;
      && after.entries == w.entries
      && after.observers == w.observers
           + (if topics == [] || w.links[h].room < 5 then []
              else [Observer(w.links[h].client, FilterOf(kind, topics[|topics| - 1]), h)])
  {
    AnswerSizes(id, false);
  }

  /**
   * A SUBSCRIBE frame with acceptable topics registers one observer behind all others, for the client
   * and the connection it came from and for its last topic, whatever is stored; it registers none only
   * if it has no topics or if the five bytes of its acknowledgement cannot be written.
   */
  lemma {:induction false} SubscriptionIsRegistered<K>(kind: KeyKind<K>, w: World<K>, h: nat, control: byte, body: seq<byte>, order: seq<K>, topics: seq<Text>, flags: seq<byte>)
    requires Lawful(kind) && Allowed(kind, w, Arrive(h, control, body, order))
    requires 0x80 <= control <= 0x8F && Lists(body[2..], topics, flags)
    ensures
      var before, after := w.observers, Step(kind, w, Arrive(h, control, body, order)).world.observers;
      if topics == [] || w.links[h].room < 5 then after == before
      else
        && |after| == |before| + 1 && after[..|before|] == before
        && var o := after[|before|];
           o.client == w.links[h].client && o.handle == h && Serves(kind, o.matcher, topics[|topics| - 1])
  {
    OrderInEntries(w, order);
    SubscriptionMeans(kind, control, body, topics, flags);
    Registered(kind, w, h, Parse(control, body).id, topics, order);
    if topics != [] {
      FilterServes(kind, topics[|topics| - 1]);
    }
  }

  /** The observer of a topic without `#` is told of that topic and of no other. */
  lemma {:induction false} ExactObserverIsToldItsTopic<K>(kind: KeyKind<K>, w: World<K>, h: nat, control: byte, body: seq<byte>, order: seq<K>,
                                                          topic: Text, flags: byte, key: K, value: seq<byte>)
    requires Lawful(kind) && Allowed(kind, w, Arrive(h, control, body, order)) && w.links[h].room >= 5
    requires 0x80 <= control <= 0x8F && Lists(body[2..], [topic], [flags]) && 35 !in topic && Kept(kind, key, value)
    ensures
      var observers := Step(kind, w, Arrive(h, control, body, order)).world.observers;
      && |observers| == |w.observers| + 1
      && Shown(kind, observers[|w.observers|], key, value)
         == if kind.decode(key) == topic then [Delivery(h, PublishFrame(topic, value))] else []
  {
    SubscriptionIsRegistered(kind, w, h, control, body, order, [topic], [flags]);
    var observers := Step(kind, w, Arrive(h, control, body, order)).world.observers;
    ShownIfTaken(kind, observers[|w.observers|], topic, key, value);
  }

  // ---------- from then on ----------

  /** A PUBLISH frame stores its payload under its topic, and touches nothing else that is stored. */
  lemma {:induction false} PublishIsStored<K>(kind: KeyKind<K>, w: World<K>, e: Event<K>, topic: Text, payload: seq<byte>)
    requires Allowed(kind, w, e) && e.Arrive? && Parse(e.control, e.body) == Post(topic, payload)
    ensures
      var r := Step(kind, w, e);
      && r.status == Ok && r.world.observers == w.observers
      && r.world.entries == w.entries[kind.encode(topic) := payload]
  {
  }

  lemma {:induction false} CountsOne<K>(kind: KeyKind<K>, observers: seq<Observer<K>>, o: Observer<K>, key: K)
    requires o in observers && Matches(kind, o.matcher, key)
    ensures Count(kind, observers, o.handle, key) > 0
  {
    var front, last := observers[..|observers| - 1], observers[|observers| - 1];
    if o != last {
      assert observers == front + [last];
      CountsOne(kind, front, o, key);
    }
  }

  lemma {:induction false} CountsNone<K>(kind: KeyKind<K>, observers: seq<Observer<K>>, h: nat, key: K)
    requires forall i :: 0 <= i < |observers| && observers[i].handle == h ==> !Matches(kind, observers[i].matcher, key)
    ensures Count(kind, observers, h, key) == 0
  {
    if observers != [] {
      CountsNone(kind, observers[..|observers| - 1], h, key);
    }
  }

  lemma {:induction false} CopiesOf(n: nat, f: Frame)
    ensures |Copies(n, f)| == n && forall i :: 0 <= i < n ==> Copies(n, f)[i] == f
  {
    if n > 0 {
      CopiesOf(n - 1, f);
    }
  }

  /** A PUBLISH frame whose topic an observer's filter takes is forwarded to the observer's connection. */
  lemma {:induction false} TakenIsForwarded<K>(kind: KeyKind<K>, w: World<K>, o: Observer<K>, filter: Text, e: Event<K>, topic: Text, payload: seq<byte>)
    requires Lawful(kind) && o in w.observers && Serves(kind, o.matcher, filter) && Takes(kind, filter, topic)
    requires Allowed(kind, w, e) && e.Arrive? && Parse(e.control, e.body) == Post(topic, payload)
    ensures PublishFrame(topic, payload) in FramesTo(o.handle, Step(kind, w, e).sends)
  {
    var key := kind.encode(topic);
    NoticesAreExact(kind, w.observers, key, payload, o.handle);
    CountsOne(kind, w.observers, o, key);
    var n := Count(kind, w.observers, o.handle, key);
    CopiesOf(n, PublishFrame(topic, payload));
    assert Copies(n, PublishFrame(topic, payload))[0] == PublishFrame(topic, payload);
  }

  lemma {:induction false} OthersKeep<K>(observers: seq<Observer<K>>, o: Observer<K>, client: nat)
    requires o in observers && o.client != client
    ensures o in Others(observers, client)
  {
    var front, last := observers[..|observers| - 1], observers[|observers| - 1];
    if o != last {
      assert observers == front + [last];
      OthersKeep(front, o, client);
    }
  }

  lemma {:induction false} ObserverStays<K>(kind: KeyKind<K>, w: World<K>, o: Observer<K>, e: Event<K>)
    requires Allowed(kind, w, e) && o in w.observers && e != Remove(o.client)
    ensures o in Step(kind, w, e).world.observers
  {
    match e
    case Join(_, _) =>
    case Remove(client) =>
      OthersKeep(w.observers, o, client);
    case Arrive(h, control, body, order) =>
      OrderInEntries(w, order);
      StateAfter(kind, w, h, Parse(control, body), order);
  }

  /** An observer stays until its client is removed. */
  lemma {:induction false} ObserverOutlives<K>(kind: KeyKind<K>, w: World<K>, o: Observer<K>, es: seq<Event<K>>)
    requires AllAllowed(kind, w, es) && o in w.observers && Remove(o.client) !in es
    ensures o in Run(kind, w, es).observers
    decreases |es|
  {
    if es != [] {
      ObserverStays(kind, w, o, es[0]);
      ObserverOutlives(kind, Step(kind, w, es[0]).world, o, es[1..]);
    }
  }

  /**
   * Once a SUBSCRIBE frame has been acknowledged, and until its client is removed, every PUBLISH frame
   * from anybody whose topic the last filter takes is forwarded to the subscriber.
   */
  lemma {:induction false} SubscriberHears<K>(kind: KeyKind<K>, w: World<K>, h: nat, control: byte, body: seq<byte>, order: seq<K>,
                                              topics: seq<Text>, flags: seq<byte>, es: seq<Event<K>>, e: Event<K>, topic: Text, payload: seq<byte>)
    requires Lawful(kind) && Allowed(kind, w, Arrive(h, control, body, order)) && w.links[h].room >= 5
    requires 0x80 <= control <= 0x8F && Lists(body[2..], topics, flags) && topics != []
    requires AllAllowed(kind, Step(kind, w, Arrive(h, control, body, order)).world, es) && Remove(w.links[h].client) !in es
    requires Allowed(kind, Run(kind, Step(kind, w, Arrive(h, control, body, order)).world, es), e)
    requires e.Arrive? && Parse(e.control, e.body) == Post(topic, payload) && Takes(kind, topics[|topics| - 1], topic)
    ensures
      var later := Run(kind, Step(kind, w, Arrive(h, control, body, order)).world, es);
      PublishFrame(topic, payload) in FramesTo(h, Step(kind, later, e).sends)
  {
    SubscriptionIsRegistered(kind, w, h, control, body, order, topics, flags);
    var after := Step(kind, w, Arrive(h, control, body, order)).world;
    var o := after.observers[|w.observers|];
    ObserverOutlives(kind, after, o, es);
    TakenIsForwarded(kind, Run(kind, after, es), o, topics[|topics| - 1], e, topic, payload);
  }

  // ---------- and nothing else ----------

  /** A frame other than a PUBLISH, or a PUBLISH with a topic that one of the filters takes. */
  ghost predicate Wanted<K>(kind: KeyKind<K>, filters: set<Text>, f: Frame) {
    f.control / 16 == 3 ==>
      exists filter, topic, payload ::
        filter in filters && Takes(kind, filter, topic) && f == PublishFrame(topic, payload)
  }

  ghost predicate AllWanted<K>(kind: KeyKind<K>, filters: set<Text>, fs: seq<Frame>) {
    forall i :: 0 <= i < |fs| ==> Wanted(kind, filters, fs[i])
  }

  /** A subscription on the connection is for one of the filters; other events do not matter. */
  ghost predicate AsksFor<K>(e: Event<K>, h: nat, filters: set<Text>) {
    e.Arrive? && e.handle == h && Formed(e.control, e.body) ==> MessageAsksFor(Parse(e.control, e.body), filters)
  }

  predicate MessageAsksFor(m: Message, filters: set<Text>) {
    match m
    case Watch(_, topics) => topics != [] ==> topics[|topics| - 1] in filters
    case _ => true
  }

  ghost predicate ServesOne<K>(kind: KeyKind<K>, m: Matcher<K>, filters: set<Text>) {
    exists filter :: filter in filters && Serves(kind, m, filter)
  }

  ghost predicate AllServe<K>(kind: KeyKind<K>, observers: seq<Observer<K>>, h: nat, filters: set<Text>) {
    forall i :: 0 <= i < |observers| && observers[i].handle == h ==> ServesOne(kind, observers[i].matcher, filters)
  }

  lemma {:induction false} WantedIfMatched<K>(kind: KeyKind<K>, m: Matcher<K>, filters: set<Text>, topic: Text, payload: seq<byte>)
    requires ServesOne(kind, m, filters) && kind.fits(topic) && Matches(kind, m, kind.encode(topic))
    ensures Wanted(kind, filters, PublishFrame(topic, payload))
  {
    var filter :| filter in filters && Serves(kind, m, filter);
    assert Takes(kind, filter, topic);
  }

  lemma {:induction false} NoticesAreWanted<K>(kind: KeyKind<K>, observers: seq<Observer<K>>, h: nat, filters: set<Text>, topic: Text, payload: seq<byte>)
    requires Lawful(kind) && AllServe(kind, observers, h, filters) && kind.fits(topic)
    ensures AllWanted(kind, filters, FramesTo(h, Notices(kind, observers, kind.encode(topic), payload)))
  {
    var key := kind.encode(topic);
    NoticesAreExact(kind, observers, key, payload, h);
    CopiesOf(Count(kind, observers, h, key), PublishFrame(topic, payload));
    if i :| 0 <= i < |observers| && observers[i].handle == h && Matches(kind, observers[i].matcher, key) {
      WantedIfMatched(kind, observers[i].matcher, filters, topic, payload);
    } else {
      CountsNone(kind, observers, h, key);
    }
  }

  lemma {:induction false} ReplayIsWanted<K>(kind: KeyKind<K>, o: Observer<K>, filters: set<Text>, entries: map<K, seq<byte>>, order: seq<K>)
    requires Lawful(kind) && ServesOne(kind, o.matcher, filters) && AllKept(kind, entries)
    requires forall i :: 0 <= i < |order| ==> order[i] in entries
    ensures AllWanted(kind, filters, FramesTo(o.handle, Replay(kind, o, entries, order)))
  {
    if order != [] {
      var front, key := order[..|order| - 1], order[|order| - 1];
      ReplayIsWanted(kind, o, filters, entries, front);
      FramesToConcat(o.handle, Replay(kind, o, entries, front), Shown(kind, o, key, entries[key]));
      ShownFrames(kind, o, key, entries[key], o.handle);
      assert Kept(kind, key, entries[key]);
      if Matches(kind, o.matcher, key) {
        WantedIfMatched(kind, o.matcher, filters, kind.decode(key), entries[key]);
      }
    }
  }

  /** All frames that a subscription sends to its own connection. */
  lemma {:induction false} SubscriptionFrames<K>(kind: KeyKind<K>, w: World<K>, h: nat, id: uint16, topics: seq<Text>, order: seq<K>)
    requires h in w.links
    requires forall i :: 0 <= i < |order| ==> order[i] in w.entries
    ensures
      FramesTo(h, Subscribing(kind, w, h, id, topics, order).sends)
      == [SubscribeAckFrame(SubscribeAck(id, [0]))]
         + (if topics == [] || w.links[h].room < 5 then []
            else FramesTo(h, Replay(kind, SubscriberOf(kind, w, h, topics), w.entries, order)))
  {
    var f := SubscribeAckFrame(SubscribeAck(id, [0]));
    AnswerSizes(id, false);
    OneDelivery(h, Delivery(h, f));
    if topics != [] && w.links[h].room >= 5 {
      FramesToConcat(h, [Delivery(h, f)], Replay(kind, SubscriberOf(kind, w, h, topics), w.entries, order));
    }
  }

  lemma NoPublishIsWanted<K>(kind: KeyKind<K>, filters: set<Text>, fs: seq<Frame>)
    requires NoPublish(fs)
    ensures AllWanted(kind, filters, fs)
  {
  }

  lemma WantedConcat<K>(kind: KeyKind<K>, filters: set<Text>, a: seq<Frame>, b: seq<Frame>)
    requires AllWanted(kind, filters, a) && AllWanted(kind, filters, b)
    ensures AllWanted(kind, filters, a + b)
  {
  }

  lemma {:induction false} SubscribingIsWanted<K>(kind: KeyKind<K>, w: World<K>, h: nat, id: uint16, topics: seq<Text>, order: seq<K>, filters: set<Text>)
    requires Lawful(kind) && h in w.links && AllKept(kind, w.entries)
    requires forall i :: 0 <= i < |order| ==> order[i] in w.entries
    requires topics != [] ==> topics[|topics| - 1] in filters && kind.fits(Compared(topics[|topics| - 1]))
    ensures AllWanted(kind, filters, FramesTo(h, Subscribing(kind, w, h, id, topics, order).sends))
  {
    SubscriptionFrames(kind, w, h, id, topics, order);
    var ack := [SubscribeAckFrame(SubscribeAck(id, [0]))];
    NoPublishIsWanted(kind, filters, ack);
    if topics != [] && w.links[h].room >= 5 {
      var o := SubscriberOf(kind, w, h, topics);
      FilterServes(kind, topics[|topics| - 1]);
      ReplayIsWanted(kind, o, filters, w.entries, order);
      WantedConcat(kind, filters, ack, FramesTo(h, Replay(kind, o, w.entries, order)));
    }
  }

  /** The topic that is published, or the last one that is subscribed to, fits the key type. */
  predicate Fitting<K>(kind: KeyKind<K>, m: Message) {
    match m
    case Post(topic, _) => kind.fits(topic)
    case Watch(_, topics) => topics != [] ==> kind.fits(Compared(topics[|topics| - 1]))
    case _ => true
  }

  lemma {:induction false} ReadableIsFitting<K>(kind: KeyKind<K>, control: byte, body: seq<byte>)
    requires Readable(kind, control, body)
    ensures Fitting(kind, Parse(control, body))
  {
    if Parse(control, body).Watch? {
      MessageByControl(control, body);
      var topics, flags :| Lists(body[2..], topics, flags);
      SubscriptionMeans(kind, control, body, topics, flags);
    }
  }

  lemma {:induction false} ActIsWanted<K>(kind: KeyKind<K>, w: World<K>, from: nat, m: Message, order: seq<K>, h: nat, filters: set<Text>)
    requires Lawful(kind) && AllKept(kind, w.entries) && from in w.links && Fitting(kind, m)
    requires h in w.links && AllServe(kind, w.observers, h, filters)
    requires from == h ==> MessageAsksFor(m, filters)
    requires forall i :: 0 <= i < |order| ==> order[i] in w.entries
    ensures AllWanted(kind, filters, FramesTo(h, Act(kind, w, from, m, order).sends))
  {
    match m
    case Post(topic, payload) => NoticesAreWanted(kind, w.observers, h, filters, topic, payload);
    case Hello(level) =>
      AnswerIsSilent(h, Delivery(from, ConnectAckFrame(LevelKind(level).None?)));
      NoPublishIsWanted(kind, filters, FramesTo(h, Act(kind, w, from, m, order).sends));
    case Ping =>
      AnswerIsSilent(h, Delivery(from, PingResponseFrame()));
      NoPublishIsWanted(kind, filters, FramesTo(h, Act(kind, w, from, m, order).sends));
    case Watch(id, topics) =>
      if from == h {
        SubscribingIsWanted(kind, w, h, id, topics, order, filters);
      } else {
        OnlyTheSenderHears(kind, w, from, m, order);
      }
    case _ =>
  }

  lemma {:induction false} ActServes<K>(kind: KeyKind<K>, w: World<K>, from: nat, m: Message, order: seq<K>, h: nat, filters: set<Text>)
    requires Lawful(kind) && from in w.links && Fitting(kind, m) && AllServe(kind, w.observers, h, filters)
    requires from == h ==> MessageAsksFor(m, filters)
    requires forall i :: 0 <= i < |order| ==> order[i] in w.entries
    ensures AllServe(kind, Act(kind, w, from, m, order).world.observers, h, filters)
  {
    StateAfter(kind, w, from, m, order);
    if m.Watch? {
      Registered(kind, w, from, m.id, m.topics, order);
      if m.topics != [] {
        FilterServes(kind, m.topics[|m.topics| - 1]);
      }
    }
  }

  lemma {:induction false} StepIsWanted<K>(kind: KeyKind<K>, w: World<K>, e: Event<K>, h: nat, filters: set<Text>)
    requires Lawful(kind) && Invariant(kind, w) && Allowed(kind, w, e) && AllServe(kind, w.observers, h, filters) && AsksFor(e, h, filters)
    ensures AllServe(kind, Step(kind, w, e).world.observers, h, filters)
    ensures AllWanted(kind, filters, FramesTo(h, Step(kind, w, e).sends))
  {
    match e
    case Join(_, _) =>
    case Remove(client) =>
      OthersAmong(w.observers, client);
    case Arrive(from, control, body, order) =>
      OrderInEntries(w, order);
      ReadableIsFitting(kind, control, body);
      ActServes(kind, w, from, Parse(control, body), order, h, filters);
      if h in w.links {
        ActIsWanted(kind, w, from, Parse(control, body), order, h, filters);
      } else {
        StepKeeps(kind, w, e);
        LegalFramesTo(h, w.links.Keys, Step(kind, w, e).sends);
      }
  }

  /**
   * Over every run from a state in which a connection has no observers: if all its subscriptions are for
   * some filters, then every PUBLISH that is sent to it has a topic that one of these filters takes.
   */
  lemma {:induction false} OnlyWantedTopics<K>(kind: KeyKind<K>, w: World<K>, es: seq<Event<K>>, h: nat, filters: set<Text>)
    requires Lawful(kind) && Invariant(kind, w) && AllAllowed(kind, w, es) && AllServe(kind, w.observers, h, filters)
    requires forall i :: 0 <= i < |es| ==> AsksFor(es[i], h, filters)
    ensures AllWanted(kind, filters, FramesTo(h, RunSends(kind, w, es)))
    decreases |es|
  {
    if es != [] {
      var r := Step(kind, w, es[0]);
      StepIsWanted(kind, w, es[0], h, filters);
      StepKeeps(kind, w, es[0]);
      OnlyWantedTopics(kind, r.world, es[1..], h, filters);
      FramesToConcat(h, r.sends, RunSends(kind, r.world, es[1..]));
    }
  }

  /** So a connection that only ever subscribes to one topic without `#` receives no other topic. */
  lemma {:induction false} ExactSubscriberHearsOneTopic<K>(kind: KeyKind<K>, w: World<K>, es: seq<Event<K>>, h: nat, topic: Text, i: nat)
    requires Lawful(kind) && Invariant(kind, w) && AllAllowed(kind, w, es) && Unobserved(w, h)
    requires 35 !in topic && forall j :: 0 <= j < |es| ==> AsksFor(es[j], h, {topic})
    requires i < |FramesTo(h, RunSends(kind, w, es))|
    ensures
      var f := FramesTo(h, RunSends(kind, w, es))[i];
      f.control / 16 == 3 ==> exists payload :: f == PublishFrame(topic, payload)
  {
    OnlyWantedTopics(kind, w, es, h, {topic});
    assert Wanted(kind, {topic}, FramesTo(h, RunSends(kind, w, es))[i]);
  }

  // ---------- with printed frames, over strings ----------

  /** Whoever prints a subscription to "t#" is sent what others print about any topic that starts with "t". */
  lemma {:induction false} PrefixSubscriberHears(w: World<Text>, h: nat, id: uint16, stem: Text, order: seq<Text>, es: seq<Event<Text>>,
                                                 g: nat, more: Text, payload: seq<byte>, later: seq<Text>)
    requires Invariant(StringKeys(), w) && h in w.links && w.links[h].room >= 5 && IsOrder(order, w.entries.Keys)
    requires |stem| <= 24 && 43 !in stem && |stem + more| <= 128 && Legal(PublishFrame(stem + more, payload))
    ensures
      var f, p := SubscribeFrame(id, stem + [35]), PublishFrame(stem + more, payload);
      var sub, pub := Arrive(h, f.control, f.body, order), Arrive(g, p.control, p.body, later);
      && Allowed(StringKeys(), w, sub)
      && var after := Step(StringKeys(), w, sub).world;
         (AllAllowed(StringKeys(), after, es) && Remove(w.links[h].client) !in es
          && g in Run(StringKeys(), after, es).links && IsOrder(later, Run(StringKeys(), after, es).entries.Keys)) ==>
           && Allowed(StringKeys(), Run(StringKeys(), after, es), pub)
           && p in FramesTo(h, Step(StringKeys(), Run(StringKeys(), after, es), pub).sends)
  {
    var kind, filter := StringKeys(), stem + [35];
    var f, p := SubscribeFrame(id, filter), PublishFrame(stem + more, payload);
    StringKeysAreLawful();
    PrintedFilter(id, filter);
    PrintedPublishIsUnderstood(stem + more, payload);
    assert filter[..|filter| - 1] == stem && filter[|stem|] == 35;
    TakesOverStrings(filter, stem + more);
    var sub, pub := Arrive(h, f.control, f.body, order), Arrive(g, p.control, p.body, later);
    assert Allowed(kind, w, sub);
    var after := Step(kind, w, sub).world;
    if AllAllowed(kind, after, es) && Remove(w.links[h].client) !in es
       && g in Run(kind, after, es).links && IsOrder(later, Run(kind, after, es).entries.Keys) {
      SubscriberHears(kind, w, h, f.control, f.body, order, [filter], [0], es, pub, stem + more, payload);
    }
  }

  lemma {:induction false} PrintedFilter(id: uint16, filter: Text)
    requires |filter| <= 25 && 43 !in filter
    ensures var f := SubscribeFrame(id, filter);
            Readable(StringKeys(), f.control, f.body) && f.control == 0x82 && Lists(f.body[2..], [filter], [0])
  {
    PrintedSubscribeIsUnderstood(id, filter);
    assert SubscribeFrame(id, filter).body[2..] == Entry(filter, 0);
    assert Entries([filter][1..], [0][1..]) == [];
    assert Entry(filter, 0) + [] == Entry(filter, 0);
  }
}
