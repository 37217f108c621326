/**
 * The store over packed words is a fast form of the store over strings: the same run over both
 * writes the same frames, as long as the prefix filters in use mean the same for both key types.
 */
module FastKeys {
  import opened Wrappers
  import opened Bytes
  import opened Frames
  import opened Links
  import opened Messages
  import opened KeyKinds
  import opened Broker
  import opened BrokerInvariants
  import opened BrokerTheorems
  import opened Bits
  import Keys

  type Entries = map<Text, seq<byte>>

  // ---------- packing a state ----------

  function PackMatcher(m: Matcher<Text>): Matcher<Word> {
    match m
    case Full(target) => Full(Keys.Pack(target))
    case Prefix(target) => Prefix(Keys.Pack(target))
  }

  function PackObserver(o: Observer<Text>): Observer<Word> {
    Observer(o.client, PackMatcher(o.matcher), o.handle)
  }

  function PackObservers(observers: seq<Observer<Text>>): seq<Observer<Word>> {
    seq(|observers|, i requires 0 <= i < |observers| => PackObserver(observers[i]))
  }

  function PackAll(order: seq<Text>): (packed: seq<Word>)
    ensures |packed| == |order|
  {
    seq(|order|, i requires 0 <= i < |order| => Keys.Pack(order[i]))
  }

  ghost predicate PackableKeys(entries: Entries) {
    forall k :: k in entries ==> Keys.Packable(k)
  }

  ghost function PackEntries(entries: Entries): map<Word, seq<byte>>
    requires PackableKeys(entries)
  {
    map w | w in (set k | k in entries :: Keys.Pack(k)) && Keys.Unpack(w) in entries :: entries[Keys.Unpack(w)]
  }

  ghost function PackWorld(s: World<Text>): World<Word>
    requires PackableKeys(s.entries)
  {
    World(PackEntries(s.entries), PackObservers(s.observers), s.links)
  }

  function PackEvent(e: Event<Text>): Event<Word> {
    match e
    case Join(h, link) => Join(h, link)
    case Arrive(h, control, body, order) => Arrive(h, control, body, PackAll(order))
    case Remove(client) => Remove(client)
  }

  function PackEvents(es: seq<Event<Text>>): seq<Event<Word>> {
    if es == [] then [] else [PackEvent(es[0])] + PackEvents(es[1..])
  }

  lemma {:induction false} PackEntry(entries: Entries, key: Text)
    requires PackableKeys(entries) && key in entries
    ensures Keys.Unpack(Keys.Pack(key)) == key
    ensures Keys.Pack(key) in PackEntries(entries) && PackEntries(entries)[Keys.Pack(key)] == entries[key]
  {
    Keys.RoundTrip(key);
  }

  lemma {:induction false} PackEntriesSet(entries: Entries, key: Text, value: seq<byte>)
    requires PackableKeys(entries) && Keys.Packable(key)
    ensures PackableKeys(entries[key := value])
    ensures PackEntries(entries[key := value]) == PackEntries(entries)[Keys.Pack(key) := value]
  {
    Keys.RoundTrip(key);
    var a, b := PackEntries(entries[key := value]), PackEntries(entries)[Keys.Pack(key) := value];
    forall w ensures w in a <==> w in b {
      if w in a {
        var k :| k in entries[key := value] && Keys.Pack(k) == w;
        if k != key {
          PackEntry(entries, k);
        }
      }
      if w in PackEntries(entries) {
        var k :| k in entries && Keys.Pack(k) == w;
        PackEntry(entries[key := value], k);
      }
      PackEntry(entries[key := value], key);
    }
    forall w | w in a ensures a[w] == b[w] {
      var k :| k in entries[key := value] && Keys.Pack(k) == w;
      PackEntry(entries[key := value], k);
    }
  }

  // ---------- what filters mean ----------

  /** The two prefix matchers give the same answer. */
  predicate Agree(stem: Text, topic: Text) {
    StringKeys().hasPrefix(stem, topic) <==> PackedKeys().hasPrefix(Keys.Pack(stem), Keys.Pack(topic))
  }

  /**
   * Exactly when they do: the packed test wrongly takes topics that only contain the prefix bit for
   * bit, and the string test wrongly takes topics that the prefix itself extends.
   */
  lemma AgreeExactlyIf(stem: Text, topic: Text)
    requires Keys.Packable(stem) && Keys.Packable(topic)
    ensures Agree(stem, topic) <==>
            && (Keys.BitPrefix(stem, topic) ==> stem <= topic)
            && (topic <= stem ==> topic == stem)
  {
    StringPrefixIsExact(stem, topic);
    Keys.MaskOfTopics(stem, topic);
    if stem <= topic {
      Keys.PrefixIsMatched(stem, topic);
    }
  }

  predicate MeansTheSame(m: Matcher<Text>, topic: Text) {
    m.Prefix? ==> Agree(m.target, topic)
  }

  lemma {:induction false} MatchesSame(m: Matcher<Text>, topic: Text)
    requires Keys.Packable(m.target) && Keys.Packable(topic)
    ensures (Matches(StringKeys(), m, topic) <==> Matches(PackedKeys(), PackMatcher(m), Keys.Pack(topic)))
            <==> MeansTheSame(m, topic)
  {
    if m.Full? && Keys.Pack(m.target) == Keys.Pack(topic) {
      Keys.Injective(m.target, topic);
    }
  }

  /** An observer sends the same for an entry under both key types exactly when its filter agrees on it. */
  lemma {:induction false} ShownSame(o: Observer<Text>, topic: Text, value: seq<byte>)
    requires Keys.Packable(o.matcher.target) && Keys.Packable(topic)
    ensures Shown(PackedKeys(), PackObserver(o), Keys.Pack(topic), value) == Shown(StringKeys(), o, topic, value)
            <==> MeansTheSame(o.matcher, topic)
  {
    MatchesSame(o.matcher, topic);
    Keys.RoundTrip(topic);
  }

  // ---------- a run within a vocabulary ----------

  /** Topics that may be published, and prefixes that may be subscribed to. */
  datatype Vocabulary = Vocabulary(topics: set<Text>, stems: set<Text>)

  ghost predicate Harmonious(v: Vocabulary) {
    && (forall t :: t in v.topics ==> Keys.Packable(t))
    && (forall s, t :: s in v.stems && t in v.topics ==> Agree(s, t))
  }

  predicate Speaks(v: Vocabulary, m: Matcher<Text>) {
    Keys.Packable(m.target) && (m.Prefix? ==> m.target in v.stems)
  }

  ghost predicate Within(v: Vocabulary, s: World<Text>) {
    match s
    case World(entries, observers, _) =>
      && entries.Keys <= v.topics
      && forall i :: 0 <= i < |observers| ==> Speaks(v, observers[i].matcher)
  }

  /** The message stays within the vocabulary; exact filters always do. */
  predicate MessageWithin(v: Vocabulary, m: Message) {
    match m
    case Post(topic, _) => topic in v.topics
    case Watch(_, topics) => topics != [] ==> Speaks(v, FilterOf(StringKeys(), topics[|topics| - 1]))
    case _ => true
  }

  predicate EventWithin<K>(v: Vocabulary, e: Event<K>) {
    e.Arrive? ==> Readable(PackedKeys(), e.control, e.body) && MessageWithin(v, Parse(e.control, e.body))
  }

  lemma {:induction false} NoticesSame(v: Vocabulary, observers: seq<Observer<Text>>, topic: Text, value: seq<byte>)
    requires Harmonious(v) && topic in v.topics
    requires forall i :: 0 <= i < |observers| ==> Speaks(v, observers[i].matcher)
    ensures Notices(PackedKeys(), PackObservers(observers), Keys.Pack(topic), value)
            == Notices(StringKeys(), observers, topic, value)
  {
    if observers != [] {
      var front, last := observers[..|observers| - 1], observers[|observers| - 1];
      NoticesSame(v, front, topic, value);
      ShownSame(last, topic, value);
      assert PackObservers(observers)[..|observers| - 1] == PackObservers(front);
    }
  }

  lemma {:induction false} ReplaySame(v: Vocabulary, o: Observer<Text>, entries: Entries, order: seq<Text>)
    requires Harmonious(v) && Speaks(v, o.matcher) && entries.Keys <= v.topics && PackableKeys(entries)
    requires forall i :: 0 <= i < |order| ==> order[i] in entries
    ensures forall i :: 0 <= i < |order| ==> PackAll(order)[i] in PackEntries(entries)
    ensures Replay(PackedKeys(), PackObserver(o), PackEntries(entries), PackAll(order))
            == Replay(StringKeys(), o, entries, order)
  {
    forall i | 0 <= i < |order| ensures PackAll(order)[i] in PackEntries(entries) {
      PackEntry(entries, order[i]);
    }
    if order != [] {
      var front, key := order[..|order| - 1], order[|order| - 1];
      ReplaySame(v, o, entries, front);
      ShownSame(o, key, entries[key]);
      PackEntry(entries, key);
      assert PackAll(order)[..|order| - 1] == PackAll(front);
    }
  }

  // ---------- steps ----------

  /** `q` is the packed form of `r`: the same status, the same frames sent, and the packed state. */
  ghost predicate Mirrors(v: Vocabulary, r: Reply<Text>, q: Reply<Word>) {
    match q
    case Reply(world, status, sends) =>
      && Within(v, r.world) && PackableKeys(r.world.entries)
      && world == PackWorld(r.world) && status == r.status && sends == r.sends
  }

  lemma {:induction false} SettingSame(v: Vocabulary, s: World<Text>, topic: Text, value: seq<byte>)
    requires Harmonious(v) && Within(v, s) && PackableKeys(s.entries) && topic in v.topics
    ensures Mirrors(v, Setting(StringKeys(), s, topic, value),
                    Setting(PackedKeys(), PackWorld(s), Keys.Pack(topic), value))
  {
    NoticesSame(v, s.observers, topic, value);
    PackEntriesSet(s.entries, topic, value);
  }

  lemma PackObserversSnoc(observers: seq<Observer<Text>>, o: Observer<Text>)
    ensures PackObservers(observers + [o]) == PackObservers(observers) + [PackObserver(o)]
  {
  }

  lemma ObservingSame(v: Vocabulary, s: World<Text>, o: Observer<Text>, order: seq<Text>)
    requires Harmonious(v) && Within(v, s) && PackableKeys(s.entries) && Speaks(v, o.matcher)
    requires forall i :: 0 <= i < |order| ==> order[i] in s.entries
    ensures forall i :: 0 <= i < |order| ==> PackAll(order)[i] in PackWorld(s).entries
    ensures Mirrors(v, Observing(StringKeys(), s, o, order),
                    Observing(PackedKeys(), PackWorld(s), PackObserver(o), PackAll(order)))
  {
    ReplaySame(v, o, s.entries, order);
    PackObserversSnoc(s.observers, o);
  }

  lemma FilterSame(topic: Text)
    ensures FilterOf(PackedKeys(), topic) == PackMatcher(FilterOf(StringKeys(), topic))
  {
  }

  lemma RegisteringSame(v: Vocabulary, a: Reply<Text>, b: Reply<Word>, h: nat, topics: seq<Text>, order: seq<Text>)
    requires Harmonious(v) && Mirrors(v, a, b) && h in a.world.links
    requires topics != [] ==> Speaks(v, FilterOf(StringKeys(), topics[|topics| - 1]))
    requires forall i :: 0 <= i < |order| ==> order[i] in a.world.entries
    ensures h in b.world.links && forall i :: 0 <= i < |order| ==> PackAll(order)[i] in b.world.entries
    ensures Mirrors(v, Registering(StringKeys(), a, h, topics, order),
                    Registering(PackedKeys(), b, h, topics, PackAll(order)))
  {
    forall i | 0 <= i < |order| ensures PackAll(order)[i] in b.world.entries {
      PackEntry(a.world.entries, order[i]);
    }
    if a.status.Ok? && topics != [] {
      var o := SubscriberOf(StringKeys(), a.world, h, topics);
      FilterSame(topics[|topics| - 1]);
      assert SubscriberOf(PackedKeys(), b.world, h, topics) == PackObserver(o);
      ObservingSame(v, a.world, o, order);
    }
  }

  lemma AnswerSame(v: Vocabulary, s: World<Text>, h: nat, f: Frame)
    requires Within(v, s) && PackableKeys(s.entries) && h in s.links
    ensures Mirrors(v, Answer(s, h, f), Answer(PackWorld(s), h, f))
  {
  }

  lemma ConnectingSame(v: Vocabulary, s: World<Text>, h: nat, level: byte)
    requires Within(v, s) && PackableKeys(s.entries) && h in s.links
    ensures Mirrors(v, Connecting(s, h, level), Connecting(PackWorld(s), h, level))
  {
    var k := LevelKind(level);
    var marked := if k.None? then s else s.(links := s.links[h := s.links[h].(kind := k.value)]);
    AnswerSame(v, marked, h, ConnectAckFrame(k.None?));
  }

  lemma ActSame(v: Vocabulary, s: World<Text>, h: nat, m: Message, order: seq<Text>)
    requires Harmonious(v) && Within(v, s) && PackableKeys(s.entries) && MessageWithin(v, m) && h in s.links
    requires forall i :: 0 <= i < |order| ==> order[i] in s.entries
    ensures forall i :: 0 <= i < |order| ==> PackAll(order)[i] in PackWorld(s).entries
    ensures Mirrors(v, Act(StringKeys(), s, h, m, order), Act(PackedKeys(), PackWorld(s), h, m, PackAll(order)))
  {
    forall i | 0 <= i < |order| ensures PackAll(order)[i] in PackWorld(s).entries {
      PackEntry(s.entries, order[i]);
    }
    match m
    case Hello(level) => ConnectingSame(v, s, h, level);
    case Post(topic, payload) => SettingSame(v, s, topic, payload);
    case Watch(id, topics) =>
      var f := SubscribeAckFrame(SubscribeAck(id, [0]));
      AnswerSame(v, s, h, f);
      RegisteringSame(v, Answer(s, h, f), Answer(PackWorld(s), h, f), h, topics, order);
    case Ping => AnswerSame(v, s, h, PingResponseFrame());
    case _ =>
  }

  lemma {:induction false} RemovingSame(observers: seq<Observer<Text>>, client: nat)
    ensures Others(PackObservers(observers), client) == PackObservers(Others(observers, client))
  {
    if observers != [] {
      var front, last := observers[..|observers| - 1], observers[|observers| - 1];
      RemovingSame(front, client);
      assert PackObservers(observers)[..|observers| - 1] == PackObservers(front);
      PackObserversSnoc(Others(front, client), last);
    }
  }

  lemma {:induction false} OthersWithin(v: Vocabulary, s: World<Text>, client: nat)
    requires Within(v, s)
    ensures Within(v, s.(observers := Others(s.observers, client)))
  {
    OthersAmong(s.observers, client);
  }

  lemma PackOrder(entries: Entries, order: seq<Text>)
    requires PackableKeys(entries) && IsOrder(order, entries.Keys)
    ensures IsOrder(PackAll(order), PackEntries(entries).Keys)
  {
    var packed := PackAll(order);
    forall i | 0 <= i < |order| ensures order[i] in entries && Keys.Packable(order[i]) {
      assert order[i] in Elements(order);
    }
    forall i, j | 0 <= i < j < |order| ensures packed[i] != packed[j] {
      if packed[i] == packed[j] {
        Keys.Injective(order[i], order[j]);
      }
    }
    forall w ensures w in Elements(packed) <==> w in PackEntries(entries) {
      if w in PackEntries(entries) {
        var k :| k in entries && Keys.Pack(k) == w;
        assert k in Elements(order);
        var i :| 0 <= i < |order| && order[i] == k;
        assert packed[i] == w;
      }
      if w in Elements(packed) {
        var i :| 0 <= i < |packed| && packed[i] == w;
        PackEntry(entries, order[i]);
      }
    }
  }

  function UnpackAll(packed: seq<Word>): seq<Text> {
    seq(|packed|, i requires 0 <= i < |packed| => Keys.Unpack(packed[i]))
  }

  lemma PackedKeyUnpacks(entries: Entries, w: Word)
    requires PackableKeys(entries) && w in PackEntries(entries)
    ensures Keys.Unpack(w) in entries && Keys.Pack(Keys.Unpack(w)) == w
  {
    var k :| k in entries && Keys.Pack(k) == w;
    PackEntry(entries, k);
  }

  lemma UnpackedElements(entries: Entries, packed: seq<Word>)
    requires PackableKeys(entries) && IsOrder(packed, PackEntries(entries).Keys)
    ensures Elements(UnpackAll(packed)) == entries.Keys
  {
    var order := UnpackAll(packed);
    forall k | k in entries ensures k in Elements(order) {
      PackEntry(entries, k);
      assert Keys.Pack(k) in Elements(packed);
      var i :| 0 <= i < |packed| && packed[i] == Keys.Pack(k);
      assert order[i] == k;
    }
    forall i | 0 <= i < |order| ensures order[i] in entries {
      PackedKeyUnpacks(entries, packed[i]);
    }
  }

  /** Every order of the packed keys is the packed form of an order of the strings. */
  lemma EveryOrderIsPacked(entries: Entries, packed: seq<Word>)
    requires PackableKeys(entries) && IsOrder(packed, PackEntries(entries).Keys)
    ensures IsOrder(UnpackAll(packed), entries.Keys) && PackAll(UnpackAll(packed)) == packed
  {
    UnpackedElements(entries, packed);
    forall i | 0 <= i < |packed|
      ensures UnpackAll(packed)[i] in entries && Keys.Pack(UnpackAll(packed)[i]) == packed[i]
    {
      PackedKeyUnpacks(entries, packed[i]);
    }
    forall i, j | 0 <= i < j < |packed| ensures UnpackAll(packed)[i] != UnpackAll(packed)[j] {
      assert packed[i] != packed[j];
    }
  }

  /** One step: the packed broker does what the string broker does. */
  lemma StepSame(v: Vocabulary, s: World<Text>, e: Event<Text>)
    requires Harmonious(v) && Within(v, s) && PackableKeys(s.entries)
    requires Allowed(StringKeys(), s, e) && EventWithin(v, e)
    ensures Allowed(PackedKeys(), PackWorld(s), PackEvent(e))
    ensures Mirrors(v, Step(StringKeys(), s, e), Step(PackedKeys(), PackWorld(s), PackEvent(e)))
  {
    match e
    case Join(_, _) =>
    case Remove(client) =>
      RemovingSame(s.observers, client);
      OthersWithin(v, s, client);
    case Arrive(h, control, body, order) =>
      PackOrder(s.entries, order);
      assert forall i :: 0 <= i < |order| ==> order[i] in Elements(order);
      ActSame(v, s, h, Parse(control, body), order);
  }

  // ---------- runs ----------

  /**
   * For any run within a vocabulary on whose topics the prefix filters agree: the packed broker can
   * take the same run, ends in the packed form of the same state, and sends the same frames in the
   * same order to the same connections. Without prefix filters every vocabulary of packable topics
   * will do.
   */
  lemma {:induction false} RunSame(v: Vocabulary, s: World<Text>, es: seq<Event<Text>>)
    requires Harmonious(v) && Within(v, s) && PackableKeys(s.entries)
    requires AllAllowed(StringKeys(), s, es) && forall i :: 0 <= i < |es| ==> EventWithin(v, es[i])
    ensures AllAllowed(PackedKeys(), PackWorld(s), PackEvents(es))
    ensures RunSends(PackedKeys(), PackWorld(s), PackEvents(es)) == RunSends(StringKeys(), s, es)
    ensures PackableKeys(Run(StringKeys(), s, es).entries)
    ensures Run(PackedKeys(), PackWorld(s), PackEvents(es)) == PackWorld(Run(StringKeys(), s, es))
    ensures Run(PackedKeys(), PackWorld(s), PackEvents(es)).links == Run(StringKeys(), s, es).links
    decreases |es|
  {
    if es != [] {
      StepSame(v, s, es[0]);
      RunSame(v, Step(StringKeys(), s, es[0]).world, es[1..]);
      assert PackEvents(es)[1..] == PackEvents(es[1..]);
    }
  }

  /** The string event whose packed form this is. */
  function UnpackEvent(e: Event<Word>): Event<Text> {
    match e
    case Join(h, link) => Join(h, link)
    case Arrive(h, control, body, order) => Arrive(h, control, body, UnpackAll(order))
    case Remove(client) => Remove(client)
  }

  function UnpackEvents(es: seq<Event<Word>>): seq<Event<Text>> {
    if es == [] then [] else [UnpackEvent(es[0])] + UnpackEvents(es[1..])
  }

  lemma UnpackedStep(v: Vocabulary, s: World<Text>, e: Event<Word>)
    requires Harmonious(v) && Within(v, s) && PackableKeys(s.entries)
    requires Allowed(PackedKeys(), PackWorld(s), e) && EventWithin(v, e)
    ensures Allowed(StringKeys(), s, UnpackEvent(e)) && EventWithin(v, UnpackEvent(e))
    ensures PackEvent(UnpackEvent(e)) == e
  {
    if e.Arrive? {
      EveryOrderIsPacked(s.entries, e.order);
    }
  }

  /**
   * And the other way round: every run of the packed broker within the vocabulary is the packed form
   * of a run of the string broker.
   */
  lemma {:induction false} EveryRunIsPacked(v: Vocabulary, s: World<Text>, es: seq<Event<Word>>)
    requires Harmonious(v) && Within(v, s) && PackableKeys(s.entries)
    requires AllAllowed(PackedKeys(), PackWorld(s), es) && forall i :: 0 <= i < |es| ==> EventWithin(v, es[i])
    ensures AllAllowed(StringKeys(), s, UnpackEvents(es)) && PackEvents(UnpackEvents(es)) == es
    ensures forall i :: 0 <= i < |UnpackEvents(es)| ==> EventWithin(v, UnpackEvents(es)[i])
    decreases |es|
  {
    if es != [] {
      var e := UnpackEvent(es[0]);
      UnpackedStep(v, s, es[0]);
      StepSame(v, s, e);
      EveryRunIsPacked(v, Step(StringKeys(), s, e).world, es[1..]);
      assert UnpackEvents(es)[1..] == UnpackEvents(es[1..]);
    }
  }

  /** The matching stores agree too: each topic has the same payload under both key types. */
  lemma {:induction false} SameStore(s: World<Text>, topic: Text)
    requires PackableKeys(s.entries) && Keys.Packable(topic)
    ensures Keys.Pack(topic) in PackWorld(s).entries <==> topic in s.entries
    ensures topic in s.entries ==> PackWorld(s).entries[Keys.Pack(topic)] == s.entries[topic]
  {
    Keys.RoundTrip(topic);
    if topic in s.entries {
      PackEntry(s.entries, topic);
    }
  }

  /** Exact filters alone agree on every set of packable topics. */
  lemma ExactFiltersAlwaysAgree(topics: set<Text>)
    requires forall t :: t in topics ==> Keys.Packable(t)
    ensures Harmonious(Vocabulary(topics, {}))
  {
  }

  /** Both kinds of disagreement exist: "A" (65) against "C" (67), and "AB" against "A". */
  lemma PrefixFiltersCanDisagree()
    ensures Keys.Packable([65]) && Keys.Packable([67]) && Keys.Packable([65, 66])
    ensures !Agree([65], [67]) && !Agree([65, 66], [65])
  {
    Keys.AIsInC();
    AgreeExactlyIf([65], [67]);
    AgreeExactlyIf([65, 66], [65]);
  }
}
