/** What every step of the broker keeps, and what its writes put on the connections. */
module BrokerInvariants {
  import opened Wrappers
  import opened Bytes
  import opened Frames
  import opened Links
  import opened Messages
  import opened KeyKinds
  import opened Broker
  import RemainingLength

  // ---------- deliveries ----------

  lemma {:induction false} FramesToConcat(h: nat, a: seq<Delivery>, b: seq<Delivery>)
    ensures FramesTo(h, a + b) == FramesTo(h, a) + FramesTo(h, b)
  {
    if b == [] {
      assert a + b == a;
    } else {
      FramesToConcat(h, a, b[..|b| - 1]);
      assert (a + b)[..|a + b| - 1] == a + b[..|b| - 1];
    }
  }

  lemma BytesToConcat(h: nat, a: seq<Delivery>, b: seq<Delivery>)
    ensures BytesTo(h, a + b) == BytesTo(h, a) + BytesTo(h, b)
  {
    FramesToConcat(h, a, b);
    FlattenConcat(FramesTo(h, a), FramesTo(h, b));
  }

  lemma {:induction false} OneDelivery(h: nat, d: Delivery)
    ensures FramesTo(h, [d]) == if d.handle == h then [d.frame] else []
    ensures BytesTo(h, [d]) == if d.handle == h then Wire(d.frame) else []
  {
    assert [d][..0] == [];
    FlattenOne(d.frame);
  }

  /** Legal frames for known connections. */
  ghost predicate Deliverable(handles: set<nat>, ds: seq<Delivery>) {
    forall i :: 0 <= i < |ds| ==> ds[i].handle in handles && Legal(ds[i].frame)
  }

  lemma {:induction false} LegalFramesTo(h: nat, handles: set<nat>, ds: seq<Delivery>)
    requires Deliverable(handles, ds)
    ensures AllLegal(FramesTo(h, ds))
    ensures h !in handles ==> FramesTo(h, ds) == []
  {
    if ds != [] {
      LegalFramesTo(h, handles, ds[..|ds| - 1]);
    }
  }

  // ---------- the invariant ----------

  /** The key stands for one topic of at most 128 bytes, and a PUBLISH of the entry has a legal size. */
  predicate Kept<K(==)>(kind: KeyKind<K>, key: K, value: seq<byte>) {
    var topic := kind.decode(key);
    && kind.fits(topic) && kind.encode(topic) == key
    && |topic| <= TOPIC_SIZE && 2 + |topic| + |value| <= RemainingLength.MAX
  }

  ghost predicate Invariant<K>(kind: KeyKind<K>, w: World<K>) {
    match w
    case World(entries, observers, links) =>
      && (forall k :: k in entries ==> Kept(kind, k, entries[k]))
      && (forall i :: 0 <= i < |observers| ==>
            observers[i].handle in links && links[observers[i].handle].client == observers[i].client)
      && (forall h :: h in links ==> Spent(links[h]))
  }

  lemma {:induction false} NoticesAreLegal<K>(kind: KeyKind<K>, handles: set<nat>, observers: seq<Observer<K>>, key: K, value: seq<byte>)
    requires Kept(kind, key, value)
    requires forall i :: 0 <= i < |observers| ==> observers[i].handle in handles
    ensures Deliverable(handles, Notices(kind, observers, key, value))
  {
    if observers != [] {
      NoticesAreLegal(kind, handles, observers[..|observers| - 1], key, value);
    }
  }

  lemma {:induction false} ReplayIsLegal<K>(kind: KeyKind<K>, handles: set<nat>, o: Observer<K>, entries: map<K, seq<byte>>, order: seq<K>)
    requires forall i :: 0 <= i < |order| ==> order[i] in entries
    requires forall k :: k in entries ==> Kept(kind, k, entries[k])
    requires o.handle in handles
    ensures Deliverable(handles, Replay(kind, o, entries, order))
  {
    if order != [] {
      ReplayIsLegal(kind, handles, o, entries, order[..|order| - 1]);
    }
  }

  lemma {:induction false} OthersAmong<K>(observers: seq<Observer<K>>, client: nat)
    ensures forall i :: 0 <= i < |Others(observers, client)| ==>
              Others(observers, client)[i] in observers && Others(observers, client)[i].client != client
  {
    if observers != [] {
      OthersAmong(observers[..|observers| - 1], client);
    }
  }

  /** A published topic has at most 128 bytes and fits the key type; forwarding it is of legal size. */
  predicate Publishable<K>(kind: KeyKind<K>, m: Message) {
    match m
    case Post(topic, payload) =>
      kind.fits(topic) && |topic| <= TOPIC_SIZE && 2 + |topic| + |payload| <= RemainingLength.MAX
    case _ => true
  }

  lemma ParsedIsPublishable<K>(kind: KeyKind<K>, control: byte, body: seq<byte>)
    requires Readable(kind, control, body)
    ensures Publishable(kind, Parse(control, body))
  {
    if TypeOf(control) == PUBLISH && ReadPublish(FlagsOf(control), body).result.Some? {
      var flags := FlagsOf(control);
      ForwardingNeverGrows(flags / 8, flags / 2 % 4, flags % 2, body);
    }
  }

  /** The relation between the links before and after new connections and a batch of attempted writes. */
  ghost predicate Carried(before: map<nat, Link>, after: map<nat, Link>, ds: seq<Delivery>) {
    && before.Keys <= after.Keys
    && forall h :: h in after ==>
         if h in before then Carries(before[h], after[h], BytesTo(h, ds)) else Begins(after[h], BytesTo(h, ds))
  }

  lemma DeliverCarries(links: map<nat, Link>, ds: seq<Delivery>)
    requires forall h :: h in links ==> Spent(links[h])
    ensures Carried(links, Deliver(links, ds), ds)
  {
    forall h | h in links ensures Carries(links[h], Deliver(links, ds)[h], BytesTo(h, ds)) {
      SendCarries(links[h], BytesTo(h, ds));
    }
  }

  lemma CarriedConcat(a: map<nat, Link>, b: map<nat, Link>, c: map<nat, Link>, ds: seq<Delivery>, es: seq<Delivery>)
    requires Carried(a, b, ds) && Carried(b, c, es) && Deliverable(b.Keys, ds)
    ensures Carried(a, c, ds + es)
  {
    forall h | h in c
      ensures if h in a then Carries(a[h], c[h], BytesTo(h, ds + es)) else Begins(c[h], BytesTo(h, ds + es))
    {
      BytesToConcat(h, ds, es);
      if h in a {
        CarriesConcat(a[h], b[h], c[h], BytesTo(h, ds), BytesTo(h, es));
      } else if h in b {
        BeginsConcat(b[h], c[h], BytesTo(h, ds), BytesTo(h, es));
      } else {
        LegalFramesTo(h, b.Keys, ds);
      }
    }
  }

  /** What is proved of each step: the invariant goes on, and the links carry the legal frames sent. */
  ghost predicate Keeps<K>(kind: KeyKind<K>, w: World<K>, r: Reply<K>) {
    match r
    case Reply(world, _, sends) =>
      Invariant(kind, world) && Carried(w.links, world.links, sends) && Deliverable(world.links.Keys, sends)
  }

  lemma ChainKeeps<K>(kind: KeyKind<K>, w: World<K>, a: Reply<K>, b: Reply<K>)
    requires Keeps(kind, w, a) && Keeps(kind, a.world, b)
    ensures Keeps(kind, w, Reply(b.world, b.status, a.sends + b.sends))
  {
    CarriedConcat(w.links, a.world.links, b.world.links, a.sends, b.sends);
  }

  lemma DeliveringKeeps<K>(kind: KeyKind<K>, w: World<K>, r: Reply<K>)
    requires Invariant(kind, w) && Invariant(kind, r.world.(links := w.links))
    requires r.world.links == Deliver(w.links, r.sends) && Deliverable(w.links.Keys, r.sends)
    ensures Keeps(kind, w, r)
  {
    DeliverCarries(w.links, r.sends);
  }

  /** An answer is one legal frame on the asking connection, whatever else the state holds. */
  lemma AnswerKeeps<K>(kind: KeyKind<K>, w: World<K>, h: nat, f: Frame)
    requires Invariant(kind, w) && h in w.links && Legal(f)
    ensures Keeps(kind, w, Answer(w, h, f))
  {
    var r := Answer(w, h, f);
    assert r.world.(links := w.links) == w;
    DeliveringKeeps(kind, w, r);
  }

  lemma ConnectingKeeps<K>(kind: KeyKind<K>, w: World<K>, h: nat, level: byte)
    requires Invariant(kind, w) && h in w.links
    ensures Keeps(kind, w, Connecting(w, h, level))
  {
    var k := LevelKind(level);
    var marked := if k.None? then w else w.(links := w.links[h := w.links[h].(kind := k.value)]);
    AnswerKeeps(kind, marked, h, ConnectAckFrame(k.None?));
  }

  lemma SettingKeeps<K>(kind: KeyKind<K>, w: World<K>, key: K, value: seq<byte>)
    requires Invariant(kind, w) && Kept(kind, key, value)
    ensures Keeps(kind, w, Setting(kind, w, key, value))
  {
    NoticesAreLegal(kind, w.links.Keys, w.observers, key, value);
    DeliveringKeeps(kind, w, Setting(kind, w, key, value));
  }

  lemma ObservingKeeps<K>(kind: KeyKind<K>, w: World<K>, o: Observer<K>, order: seq<K>)
    requires Invariant(kind, w) && o.handle in w.links && w.links[o.handle].client == o.client
    requires forall i :: 0 <= i < |order| ==> order[i] in w.entries
    ensures Keeps(kind, w, Observing(kind, w, o, order))
  {
    ReplayIsLegal(kind, w.links.Keys, o, w.entries, order);
    DeliveringKeeps(kind, w, Observing(kind, w, o, order));
  }

  lemma RegisteringKeeps<K>(kind: KeyKind<K>, w: World<K>, ack: Reply<K>, h: nat, topics: seq<Text>, order: seq<K>)
    requires Keeps(kind, w, ack) && h in ack.world.links
    requires forall i :: 0 <= i < |order| ==> order[i] in ack.world.entries
    ensures Keeps(kind, w, Registering(kind, ack, h, topics, order))
  {
    if ack.status.Ok? && topics != [] {
      var o := SubscriberOf(kind, ack.world, h, topics);
      ObservingKeeps(kind, ack.world, o, order);
      ChainKeeps(kind, w, ack, Observing(kind, ack.world, o, order));
    }
  }

  lemma SubscribingKeeps<K>(kind: KeyKind<K>, w: World<K>, h: nat, id: uint16, topics: seq<Text>, order: seq<K>)
    requires Invariant(kind, w) && h in w.links
    requires forall i :: 0 <= i < |order| ==> order[i] in w.entries
    ensures Keeps(kind, w, Subscribing(kind, w, h, id, topics, order))
  {
    var f := SubscribeAckFrame(SubscribeAck(id, [0]));
    AnswerKeeps(kind, w, h, f);
    RegisteringKeeps(kind, w, Answer(w, h, f), h, topics, order);
  }

  lemma OrderInEntries<K>(w: World<K>, order: seq<K>)
    requires IsOrder(order, w.entries.Keys)
    ensures forall i :: 0 <= i < |order| ==> order[i] in w.entries
  {
    assert forall i :: 0 <= i < |order| ==> order[i] in Elements(order);
  }

  lemma ActKeeps<K>(kind: KeyKind<K>, w: World<K>, h: nat, m: Message, order: seq<K>)
    requires Lawful(kind) && Invariant(kind, w) && h in w.links && Publishable(kind, m)
    requires forall i :: 0 <= i < |order| ==> order[i] in w.entries
    ensures Keeps(kind, w, Act(kind, w, h, m, order))
  {
    match m
    case Hello(level) => ConnectingKeeps(kind, w, h, level);
    case Post(topic, payload) => SettingKeeps(kind, w, kind.encode(topic), payload);
    case Watch(id, topics) => SubscribingKeeps(kind, w, h, id, topics, order);
    case Ping => AnswerKeeps(kind, w, h, PingResponseFrame());
    case _ =>
  }

  /**
   * Every step keeps the invariant, and every connection's output grows by exactly the bytes of the
   * frames sent to it, whole legal frames, unless a write on it fails.
   */
  lemma StepKeeps<K>(kind: KeyKind<K>, w: World<K>, e: Event<K>)
    requires Lawful(kind) && Invariant(kind, w) && Allowed(kind, w, e)
    ensures Keeps(kind, w, Step(kind, w, e))
  {
    match e
    case Join(_, _) =>
    case Remove(client) =>
      RemoveKeeps(kind, w, client);
    case Arrive(h, control, body, order) =>
      OrderInEntries(w, order);
      ParsedIsPublishable(kind, control, body);
      ActKeeps(kind, w, h, Parse(control, body), order);
  }

  lemma {:induction false} RemoveKeeps<K>(kind: KeyKind<K>, w: World<K>, client: nat)
    requires Invariant(kind, w)
    ensures Invariant(kind, w.(observers := Others(w.observers, client)))
  {
    OthersAmong(w.observers, client);
    var kept := Others(w.observers, client);
    forall i | 0 <= i < |kept|
      ensures kept[i].handle in w.links && w.links[kept[i].handle].client == kept[i].client
    {
      var j :| 0 <= j < |w.observers| && w.observers[j] == kept[i];
    }
  }

  /** So does every run, and its output is the concatenation of what its steps sent. */
  lemma {:induction false} RunKeeps<K>(kind: KeyKind<K>, w: World<K>, es: seq<Event<K>>)
    requires Lawful(kind) && Invariant(kind, w) && AllAllowed(kind, w, es)
    ensures Invariant(kind, Run(kind, w, es))
    ensures Carried(w.links, Run(kind, w, es).links, RunSends(kind, w, es))
    ensures Deliverable(Run(kind, w, es).links.Keys, RunSends(kind, w, es))
    decreases |es|
  {
    if es != [] {
      var r := Step(kind, w, es[0]);
      StepKeeps(kind, w, es[0]);
      RunKeeps(kind, r.world, es[1..]);
      CarriedConcat(w.links, r.world.links, Run(kind, w, es).links, r.sends, RunSends(kind, r.world, es[1..]));
    }
  }

  lemma {:induction false} RunCons<K>(kind: KeyKind<K>, w: World<K>, e: Event<K>, es: seq<Event<K>>)
    requires Allowed(kind, w, e) && AllAllowed(kind, Step(kind, w, e).world, es)
    ensures AllAllowed(kind, w, [e] + es) && Run(kind, w, [e] + es) == Run(kind, Step(kind, w, e).world, es)
  {
    assert ([e] + es)[1..] == es;
  }

  /** A run one event longer. */
  lemma {:induction false} RunSnoc<K>(kind: KeyKind<K>, w: World<K>, es: seq<Event<K>>, e: Event<K>)
    requires AllAllowed(kind, w, es) && Allowed(kind, Run(kind, w, es), e)
    ensures AllAllowed(kind, w, es + [e])
    ensures Run(kind, w, es + [e]) == Step(kind, Run(kind, w, es), e).world
    decreases |es|
  {
    if es == [] {
      RunCons(kind, w, e, []);
      assert es + [e] == [e] + [];
    } else {
      RunSnoc(kind, Step(kind, w, es[0]).world, es[1..], e);
      RunCons(kind, w, es[0], es[1..] + [e]);
      assert es + [e] == [es[0]] + (es[1..] + [e]);
    }
  }

  lemma OutcomeSnoc<K>(kind: KeyKind<K>, start: World<K>, es: seq<Event<K>>, w: World<K>, e: Event<K>)
    requires Outcome(kind, start, es) == Some(w) && Allowed(kind, w, e)
    ensures Outcome(kind, start, es + [e]) == Some(Step(kind, w, e).world)
  {
    RunSnoc(kind, start, es, e);
  }

  // ---------- what follows for every run ----------

  /** What has been written on a connection so far; nothing, if it is still to come. */
  function OutputOf(links: map<nat, Link>, h: nat): seq<byte> {
    if h in links then links[h].output else []
  }

  /** Whole frames: what a run writes on a connection splits into frames with nothing left over. */
  lemma {:induction false} OutputIsWholeFrames<K>(kind: KeyKind<K>, w: World<K>, es: seq<Event<K>>, h: nat)
    requires Lawful(kind) && Invariant(kind, w) && AllAllowed(kind, w, es)
    requires h in Run(kind, w, es).links && !Run(kind, w, es).links[h].lost
    ensures
      var before, after := OutputOf(w.links, h), Run(kind, w, es).links[h].output;
      before <= after && Split(after[|before|..]) == Some(FramesTo(h, RunSends(kind, w, es)))
  {
    RunKeeps(kind, w, es);
    var end, ds := Run(kind, w, es), RunSends(kind, w, es);
    LegalFramesTo(h, end.links.Keys, ds);
    SplitFlatten(FramesTo(h, ds));
    var before, after := OutputOf(w.links, h), end.links[h].output;
    assert after == before + BytesTo(h, ds);
    assert after[|before|..] == BytesTo(h, ds);
  }

  /** Even on a connection that breaks, the output is whole frames up to the byte where it broke. */
  lemma {:induction false} OutputIsCutFrames<K>(kind: KeyKind<K>, w: World<K>, es: seq<Event<K>>, h: nat)
    requires Lawful(kind) && Invariant(kind, w) && AllAllowed(kind, w, es) && h in Run(kind, w, es).links
    ensures
      var before, after := OutputOf(w.links, h), Run(kind, w, es).links[h].output;
      before <= after <= before + Flatten(FramesTo(h, RunSends(kind, w, es)))
  {
    RunKeeps(kind, w, es);
  }

  /** Every stored key stands for a topic that fits the 128 bytes it is decoded into. */
  lemma {:induction false} ReachableKeysFit<K>(kind: KeyKind<K>, w: World<K>, es: seq<Event<K>>, key: K)
    requires Lawful(kind) && Invariant(kind, w) && AllAllowed(kind, w, es)
    requires key in Run(kind, w, es).entries
    ensures |kind.decode(key)| <= TOPIC_SIZE && kind.encode(kind.decode(key)) == key
    ensures |kind.decode(key)| % 256 == |kind.decode(key)|
    ensures |PublishFrame(kind.decode(key), Run(kind, w, es).entries[key]).body| <= RemainingLength.MAX
  {
    RunKeeps(kind, w, es);
    assert Kept(kind, key, Run(kind, w, es).entries[key]);
  }
}
