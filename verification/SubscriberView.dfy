/**
 * The central promise: a subscriber that only parses what it receives reconstructs the part of the
 * store that its filters select.
 */
module SubscriberView {
  import opened Wrappers
  import opened Bytes
  import opened Frames
  import opened Links
  import opened Messages
  import opened KeyKinds
  import opened Broker
  import opened BrokerInvariants

  type Retained = map<Text, seq<byte>>

  /** What a subscriber makes of one frame: a PUBLISH overwrites its topic, all else is ignored. */
  function See(view: Retained, f: Frame): Retained {
    if TypeOf(f.control) == PUBLISH && PublishReadable(FlagsOf(f.control), f.body) then
      var r := ReadPublish(FlagsOf(f.control), f.body);
      if r.result.Some? then view[r.result.value := r.unread] else view
    else view
  }

  function ViewFrom(view: Retained, fs: seq<Frame>): Retained {
    if fs == [] then view else See(ViewFrom(view, fs[..|fs| - 1]), fs[|fs| - 1])
  }

  /** What a subscriber makes of a stream of bytes, if the stream ends with a whole frame. */
  function ViewOfBytes(s: seq<byte>): Option<Retained> {
    var fs := Split(s);
    if fs.None? then None else Some(ViewFrom(map[], fs.value))
  }

  lemma {:induction false} ViewFromConcat(view: Retained, a: seq<Frame>, b: seq<Frame>)
    ensures ViewFrom(view, a + b) == ViewFrom(ViewFrom(view, a), b)
  {
    if b == [] {
      assert a + b == a;
    } else {
      ViewFromConcat(view, a, b[..|b| - 1]);
      assert (a + b)[..|a + b| - 1] == a + b[..|b| - 1];
    }
  }

  /** What a view was before shows only under the topics that no frame sets. */
  lemma {:induction false} ViewFromMerges(view: Retained, fs: seq<Frame>)
    ensures ViewFrom(view, fs) == view + ViewFrom(map[], fs)
  {
    if fs == [] {
      assert view + map[] == view;
    } else {
      ViewFromMerges(view, fs[..|fs| - 1]);
    }
  }

  /** The topics that the PUBLISH frames in a stream set. */
  function SentTopics(fs: seq<Frame>): set<Text> {
    if fs == [] then {}
    else SentTopics(fs[..|fs| - 1]) + See(map[], fs[|fs| - 1]).Keys
  }

  lemma {:induction false} ViewHasSentTopics(fs: seq<Frame>)
    ensures ViewFrom(map[], fs).Keys == SentTopics(fs)
  {
    if fs != [] {
      ViewHasSentTopics(fs[..|fs| - 1]);
    }
  }

  lemma SeePublish(view: Retained, topic: Text, value: seq<byte>)
    requires |topic| <= TOPIC_SIZE
    ensures See(view, PublishFrame(topic, value)) == view[topic := value]
  {
    ReadPublishOfFrame(topic, value);
  }

  /** The view of the connection `h` after a batch of deliveries. */
  function ViewAfter(view: Retained, h: nat, ds: seq<Delivery>): Retained {
    ViewFrom(view, FramesTo(h, ds))
  }

  lemma ViewAfterConcat(view: Retained, h: nat, a: seq<Delivery>, b: seq<Delivery>)
    ensures ViewAfter(view, h, a + b) == ViewAfter(ViewAfter(view, h, a), h, b)
  {
    FramesToConcat(h, a, b);
    ViewFromConcat(view, FramesTo(h, a), FramesTo(h, b));
  }

  // ---------- what is selected ----------

  /** Some observer on the connection `h` matches the key. */
  ghost predicate Watched<K>(kind: KeyKind<K>, observers: seq<Observer<K>>, h: nat, key: K) {
    exists i :: 0 <= i < |observers| && observers[i].handle == h && Matches(kind, observers[i].matcher, key)
  }

  ghost function WatchedTopics<K>(kind: KeyKind<K>, w: World<K>, h: nat): set<Text> {
    set k | k in w.entries && Watched(kind, w.observers, h, k) :: kind.decode(k)
  }

  /** The stored entries that the live filters of the connection `h` select, by topic. */
  ghost function Selected<K>(kind: KeyKind<K>, w: World<K>, h: nat): Retained
    requires Invariant(kind, w)
  {
    map t | t in WatchedTopics(kind, w, h) :: w.entries[kind.encode(t)]
  }

  lemma SelectedTopic<K>(kind: KeyKind<K>, w: World<K>, h: nat, key: K)
    requires Invariant(kind, w) && key in w.entries
    ensures kind.decode(key) in Selected(kind, w, h) <==> Watched(kind, w.observers, h, key)
  {
    assert Kept(kind, key, w.entries[key]);
    if kind.decode(key) in WatchedTopics(kind, w, h) {
      var k :| k in w.entries && Watched(kind, w.observers, h, k) && kind.decode(k) == kind.decode(key);
      assert Kept(kind, k, w.entries[k]);
    }
  }

  // ---------- one entry shown to all observers ----------

  /** However many observers of a connection match, together they set the entry once and for all. */
  lemma {:induction false} NoticesView<K>(kind: KeyKind<K>, observers: seq<Observer<K>>, key: K, value: seq<byte>, h: nat, view: Retained)
    requires |kind.decode(key)| <= TOPIC_SIZE
    ensures ViewAfter(view, h, Notices(kind, observers, key, value))
            == if Watched(kind, observers, h, key) then view[kind.decode(key) := value] else view
  {
    if observers != [] {
      var front, last := observers[..|observers| - 1], observers[|observers| - 1];
      NoticesView(kind, front, key, value, h, view);
      WatchedLast(kind, observers, h, key);
      ViewAfterConcat(view, h, Notices(kind, front, key, value), Shown(kind, last, key, value));
      ShownView(kind, last, key, value, h, ViewAfter(view, h, Notices(kind, front, key, value)));
    }
  }

  lemma WatchedLast<K>(kind: KeyKind<K>, observers: seq<Observer<K>>, h: nat, key: K)
    requires observers != []
    ensures
      var front, last := observers[..|observers| - 1], observers[|observers| - 1];
      Watched(kind, observers, h, key)
      <==> Watched(kind, front, h, key) || (last.handle == h && Matches(kind, last.matcher, key))
  {
    var front := observers[..|observers| - 1];
    if Watched(kind, front, h, key) {
      var i :| 0 <= i < |front| && front[i].handle == h && Matches(kind, front[i].matcher, key);
      assert observers[i] == front[i];
    }
    if Watched(kind, observers, h, key) {
      var i :| 0 <= i < |observers| && observers[i].handle == h && Matches(kind, observers[i].matcher, key);
      if i < |front| {
        assert front[i] == observers[i];
      }
    }
  }

  lemma ShownView<K>(kind: KeyKind<K>, o: Observer<K>, key: K, value: seq<byte>, h: nat, view: Retained)
    requires |kind.decode(key)| <= TOPIC_SIZE
    ensures ViewAfter(view, h, Shown(kind, o, key, value))
            == if o.handle == h && Matches(kind, o.matcher, key) then view[kind.decode(key) := value] else view
  {
    var f := PublishFrame(kind.decode(key), value);
    OneDelivery(h, Delivery(o.handle, f));
    SeePublish(view, kind.decode(key), value);
    assert [f][..0] == [];
    assert ViewFrom(view, [f]) == See(ViewFrom(view, []), f);
  }

  // ---------- all entries shown to one observer ----------

  ghost function PickedTopics<K>(kind: KeyKind<K>, m: Matcher<K>, keys: set<K>): set<Text> {
    set k | k in keys && Matches(kind, m, k) :: kind.decode(k)
  }

  ghost predicate AllKept<K>(kind: KeyKind<K>, entries: map<K, seq<byte>>) {
    forall k :: k in entries ==> Kept(kind, k, entries[k])
  }

  /** The entries that a matcher picks among some of the stored keys, by topic. */
  ghost function Picked<K>(kind: KeyKind<K>, m: Matcher<K>, entries: map<K, seq<byte>>, keys: set<K>): Retained
    requires AllKept(kind, entries) && keys <= entries.Keys
  {
    map t | t in PickedTopics(kind, m, keys) :: entries[kind.encode(t)]
  }

  lemma ElementsLast<K>(order: seq<K>)
    requires order != []
    ensures Elements(order) == Elements(order[..|order| - 1]) + {order[|order| - 1]}
  {
    var front := order[..|order| - 1];
    forall k | k in Elements(order) ensures k in Elements(front) + {order[|order| - 1]} {
      var i :| 0 <= i < |order| && order[i] == k;
      if i < |front| {
        assert front[i] == k;
      }
    }
    forall k | k in Elements(front) ensures k in Elements(order) {
      var i :| 0 <= i < |front| && front[i] == k;
      assert order[i] == k;
    }
    assert order[|order| - 1] in Elements(order);
  }

  lemma ElementsInEntries<K>(order: seq<K>, entries: map<K, seq<byte>>)
    requires forall i :: 0 <= i < |order| ==> order[i] in entries
    ensures Elements(order) <= entries.Keys
  {
  }

  /** The replay adds exactly the picked entries; the order of the keys does not show in the result. */
  lemma {:induction false} ReplayView<K>(kind: KeyKind<K>, o: Observer<K>, entries: map<K, seq<byte>>, order: seq<K>, view: Retained)
    requires AllKept(kind, entries)
    requires forall i :: 0 <= i < |order| ==> order[i] in entries
    ensures Elements(order) <= entries.Keys
    ensures ViewAfter(view, o.handle, Replay(kind, o, entries, order))
            == view + Picked(kind, o.matcher, entries, Elements(order))
  {
    ElementsInEntries(order, entries);
    if order == [] {
      assert PickedTopics(kind, o.matcher, Elements(order)) == {};
      assert view + Picked(kind, o.matcher, entries, Elements(order)) == view;
    } else {
      var front, key := order[..|order| - 1], order[|order| - 1];
      var ds := Replay(kind, o, entries, front);
      ReplayView(kind, o, entries, front, view);
      ViewAfterConcat(view, o.handle, ds, Shown(kind, o, key, entries[key]));
      ShownView(kind, o, key, entries[key], o.handle, ViewAfter(view, o.handle, ds));
      ElementsLast(order);
      PickedLast(kind, o.matcher, entries, Elements(front), key);
      MergeLast(view, Picked(kind, o.matcher, entries, Elements(front)), kind.decode(key), entries[key]);
    }
  }

  lemma MergeLast(a: Retained, b: Retained, t: Text, value: seq<byte>)
    ensures (a + b)[t := value] == a + b[t := value]
  {
  }

  lemma PickedLast<K>(kind: KeyKind<K>, m: Matcher<K>, entries: map<K, seq<byte>>, keys: set<K>, key: K)
    requires AllKept(kind, entries) && keys <= entries.Keys && key in entries
    ensures Picked(kind, m, entries, keys + {key})
            == if Matches(kind, m, key) then Picked(kind, m, entries, keys)[kind.decode(key) := entries[key]]
               else Picked(kind, m, entries, keys)
  {
    assert Kept(kind, key, entries[key]);
    var all, some := PickedTopics(kind, m, keys + {key}), PickedTopics(kind, m, keys);
    if Matches(kind, m, key) {
      assert key in keys + {key};
      assert all == some + {kind.decode(key)};
    } else {
      assert all == some;
    }
  }

  lemma {:induction false} ReplayElsewhere<K>(kind: KeyKind<K>, o: Observer<K>, entries: map<K, seq<byte>>, order: seq<K>, h: nat)
    requires forall i :: 0 <= i < |order| ==> order[i] in entries
    requires o.handle != h
    ensures FramesTo(h, Replay(kind, o, entries, order)) == []
  {
    if order != [] {
      var front, key := order[..|order| - 1], order[|order| - 1];
      ReplayElsewhere(kind, o, entries, front, h);
      FramesToConcat(h, Replay(kind, o, entries, front), Shown(kind, o, key, entries[key]));
      OneDelivery(h, Delivery(o.handle, PublishFrame(kind.decode(key), entries[key])));
    }
  }

  // ---------- one step ----------

  lemma WatchedEntry<K>(kind: KeyKind<K>, w: World<K>, h: nat, t: Text)
    requires Invariant(kind, w) && t in WatchedTopics(kind, w, h)
    ensures kind.encode(t) in w.entries && kind.decode(kind.encode(t)) == t && Watched(kind, w.observers, h, kind.encode(t))
  {
    var k :| k in w.entries && Watched(kind, w.observers, h, k) && kind.decode(k) == t;
    assert Kept(kind, k, w.entries[k]);
  }

  lemma WatchedAfterSet<K>(kind: KeyKind<K>, w: World<K>, key: K, value: seq<byte>, h: nat)
    ensures WatchedTopics(kind, Setting(kind, w, key, value).world, h)
            == if Watched(kind, w.observers, h, key) then WatchedTopics(kind, w, h) + {kind.decode(key)}
               else WatchedTopics(kind, w, h)
  {
  }

  /** A new value leaves the payload of every other topic alone. */
  lemma OtherTopics<K>(kind: KeyKind<K>, w: World<K>, key: K, value: seq<byte>, h: nat, t: Text)
    requires Invariant(kind, w) && t in WatchedTopics(kind, w, h)
    requires Watched(kind, w.observers, h, key) ==> t != kind.decode(key)
    ensures kind.encode(t) in w.entries && kind.encode(t) != key
  {
    WatchedEntry(kind, w, h, t);
  }

  /** After a new value, the selected entries are the old ones with the value under its topic. */
  lemma SelectedAfterSet<K>(kind: KeyKind<K>, w: World<K>, key: K, value: seq<byte>, h: nat)
    requires Invariant(kind, w) && Kept(kind, key, value)
    requires Invariant(kind, Setting(kind, w, key, value).world)
    ensures Selected(kind, Setting(kind, w, key, value).world, h)
            == if Watched(kind, w.observers, h, key) then Selected(kind, w, h)[kind.decode(key) := value]
               else Selected(kind, w, h)
  {
    WatchedAfterSet(kind, w, key, value, h);
    forall t | t in WatchedTopics(kind, w, h) && (Watched(kind, w.observers, h, key) ==> t != kind.decode(key))
      ensures kind.encode(t) in w.entries && kind.encode(t) != key
    {
      OtherTopics(kind, w, key, value, h, t);
    }
  }

  lemma SettingView<K>(kind: KeyKind<K>, w: World<K>, key: K, value: seq<byte>, h: nat)
    requires Invariant(kind, w) && Kept(kind, key, value)
    requires Invariant(kind, Setting(kind, w, key, value).world)
    ensures ViewAfter(Selected(kind, w, h), h, Setting(kind, w, key, value).sends)
            == Selected(kind, Setting(kind, w, key, value).world, h)
  {
    NoticesView(kind, w.observers, key, value, h, Selected(kind, w, h));
    SelectedAfterSet(kind, w, key, value, h);
  }

  lemma AnswerView(view: Retained, h: nat, d: Delivery)
    requires TypeOf(d.frame.control) != PUBLISH
    ensures ViewAfter(view, h, [d]) == view
  {
    OneDelivery(h, d);
    assert [d.frame][..0] == [];
    assert ViewFrom(view, [d.frame]) == See(ViewFrom(view, []), d.frame);
  }

  /** A new observer on `h` selects what its matcher picks among all entries, besides what was selected. */
  lemma SelectedAfterObserve<K>(kind: KeyKind<K>, w: World<K>, o: Observer<K>, order: seq<K>, h: nat)
    requires IsOrder(order, w.entries.Keys)
    requires forall i :: 0 <= i < |order| ==> order[i] in w.entries
    requires Invariant(kind, w) && Invariant(kind, Observing(kind, w, o, order).world)
    ensures Selected(kind, Observing(kind, w, o, order).world, h)
            == if o.handle == h then Selected(kind, w, h) + Picked(kind, o.matcher, w.entries, w.entries.Keys)
               else Selected(kind, w, h)
  {
    var after := Observing(kind, w, o, order).world;
    assert after.observers[..|after.observers| - 1] == w.observers;
    forall k ensures Watched(kind, after.observers, h, k)
                     <==> Watched(kind, w.observers, h, k) || (o.handle == h && Matches(kind, o.matcher, k)) {
      WatchedLast(kind, after.observers, h, k);
    }
    if o.handle == h {
      assert WatchedTopics(kind, after, h)
             == WatchedTopics(kind, w, h) + PickedTopics(kind, o.matcher, w.entries.Keys);
    } else {
      assert WatchedTopics(kind, after, h) == WatchedTopics(kind, w, h);
    }
  }

  lemma ObservingView<K>(kind: KeyKind<K>, w: World<K>, o: Observer<K>, order: seq<K>, h: nat)
    requires IsOrder(order, w.entries.Keys)
    requires forall i :: 0 <= i < |order| ==> order[i] in w.entries
    requires Invariant(kind, w) && Invariant(kind, Observing(kind, w, o, order).world)
    ensures ViewAfter(Selected(kind, w, h), h, Observing(kind, w, o, order).sends)
            == Selected(kind, Observing(kind, w, o, order).world, h)
  {
    SelectedAfterObserve(kind, w, o, order, h);
    if o.handle == h {
      ReplayView(kind, o, w.entries, order, Selected(kind, w, h));
    } else {
      ReplayElsewhere(kind, o, w.entries, order, h);
    }
  }

  /** What is selected depends on entries and observers only. */
  lemma SelectedIgnoresLinks<K>(kind: KeyKind<K>, v: World<K>, w: World<K>, h: nat)
    requires Invariant(kind, v) && Invariant(kind, w)
    requires v.entries == w.entries && v.observers == w.observers
    ensures Selected(kind, v, h) == Selected(kind, w, h)
  {
    assert WatchedTopics(kind, v, h) == WatchedTopics(kind, w, h);
  }

  lemma RegisteringView<K>(kind: KeyKind<K>, ack: Reply<K>, from: nat, topics: seq<Text>, order: seq<K>, h: nat, view: Retained)
    requires from in ack.world.links && IsOrder(order, ack.world.entries.Keys)
    requires forall i :: 0 <= i < |order| ==> order[i] in ack.world.entries
    requires Invariant(kind, ack.world) && Invariant(kind, Registering(kind, ack, from, topics, order).world)
    requires ViewAfter(view, h, ack.sends) == Selected(kind, ack.world, h)
    ensures ViewAfter(view, h, Registering(kind, ack, from, topics, order).sends)
            == Selected(kind, Registering(kind, ack, from, topics, order).world, h)
  {
    if ack.status.Ok? && topics != [] {
      var o := SubscriberOf(kind, ack.world, from, topics);
      ObservingView(kind, ack.world, o, order, h);
      ViewAfterConcat(view, h, ack.sends, Observing(kind, ack.world, o, order).sends);
    }
  }

  lemma SubscribingView<K>(kind: KeyKind<K>, w: World<K>, from: nat, id: uint16, topics: seq<Text>, order: seq<K>, h: nat)
    requires from in w.links && IsOrder(order, w.entries.Keys)
    requires forall i :: 0 <= i < |order| ==> order[i] in w.entries
    requires Invariant(kind, w) && Invariant(kind, Subscribing(kind, w, from, id, topics, order).world)
    ensures ViewAfter(Selected(kind, w, h), h, Subscribing(kind, w, from, id, topics, order).sends)
            == Selected(kind, Subscribing(kind, w, from, id, topics, order).world, h)
  {
    var f := SubscribeAckFrame(SubscribeAck(id, [0]));
    var ack := Answer(w, from, f);
    AnswerKeeps(kind, w, from, f);
    AnswerView(Selected(kind, w, h), h, Delivery(from, f));
    SelectedIgnoresLinks(kind, w, ack.world, h);
    RegisteringView(kind, ack, from, topics, order, h, Selected(kind, w, h));
  }

  lemma {:induction false} WatchedAmongOthers<K>(kind: KeyKind<K>, observers: seq<Observer<K>>, client: nat, h: nat, key: K)
    requires forall i :: 0 <= i < |observers| && observers[i].handle == h ==> observers[i].client != client
    ensures Watched(kind, Others(observers, client), h, key) <==> Watched(kind, observers, h, key)
  {
    if observers != [] {
      var front, last := observers[..|observers| - 1], observers[|observers| - 1];
      WatchedAmongOthers(kind, front, client, h, key);
      WatchedLast(kind, observers, h, key);
      if last.client != client {
        var kept := Others(observers, client);
        assert kept == Others(front, client) + [last];
        assert kept[..|kept| - 1] == Others(front, client) && kept[|kept| - 1] == last;
        WatchedLast(kind, kept, h, key);
      } else {
        assert Others(observers, client) == Others(front, client);
        assert last.handle != h;
      }
    }
  }

  /** The observers of a connection are its client's, so their removal leaves it with none, and no other. */
  lemma {:induction false} RemovingView<K>(kind: KeyKind<K>, w: World<K>, client: nat, h: nat)
    requires Invariant(kind, w) && Invariant(kind, w.(observers := Others(w.observers, client)))
    ensures
      var own := h in w.links && w.links[h].client == client;
      Selected(kind, w.(observers := Others(w.observers, client)), h) == if own then map[] else Selected(kind, w, h)
  {
    var after := w.(observers := Others(w.observers, client));
    if h in w.links && w.links[h].client == client {
      OthersAmong(w.observers, client);
      assert forall k :: !Watched(kind, after.observers, h, k);
      assert WatchedTopics(kind, after, h) == {};
    } else {
      forall k ensures Watched(kind, after.observers, h, k) <==> Watched(kind, w.observers, h, k) {
        WatchedAmongOthers(kind, w.observers, client, h, k);
      }
      assert WatchedTopics(kind, after, h) == WatchedTopics(kind, w, h);
    }
  }

  lemma ActView<K>(kind: KeyKind<K>, w: World<K>, from: nat, m: Message, order: seq<K>, h: nat)
    requires Lawful(kind) && Invariant(kind, w) && Publishable(kind, m)
    requires from in w.links && IsOrder(order, w.entries.Keys)
    requires forall i :: 0 <= i < |order| ==> order[i] in w.entries
    requires Invariant(kind, Act(kind, w, from, m, order).world)
    ensures ViewAfter(Selected(kind, w, h), h, Act(kind, w, from, m, order).sends)
            == Selected(kind, Act(kind, w, from, m, order).world, h)
  {
    var r := Act(kind, w, from, m, order);
    match m
    case Post(topic, payload) =>
      SettingView(kind, w, kind.encode(topic), payload, h);
    case Watch(id, topics) =>
      SubscribingView(kind, w, from, id, topics, order, h);
    case Hello(level) =>
      SelectedIgnoresLinks(kind, w, r.world, h);
      AnswerView(Selected(kind, w, h), h, Delivery(from, ConnectAckFrame(LevelKind(level).None?)));
    case Ping =>
      SelectedIgnoresLinks(kind, w, r.world, h);
      AnswerView(Selected(kind, w, h), h, Delivery(from, PingResponseFrame()));
    case _ =>
      SelectedIgnoresLinks(kind, w, r.world, h);
  }

  /** The event removes the observers of the connection's own client. */
  predicate EndsView<K>(links: map<nat, Link>, e: Event<K>, h: nat) {
    e.Remove? && h in links && links[h].client == e.client
  }

  /**
   * One step: the view follows the selection; but when the connection's own client is removed,
   * nothing is selected any more, and the connection does not hear of it.
   */
  lemma StepView<K>(kind: KeyKind<K>, w: World<K>, e: Event<K>, h: nat)
    requires Lawful(kind) && Invariant(kind, w) && Allowed(kind, w, e)
    ensures Invariant(kind, Step(kind, w, e).world)
    ensures
      var r := Step(kind, w, e);
      if EndsView(w.links, e, h) then r.sends == [] && Selected(kind, r.world, h) == map[]
      else ViewAfter(Selected(kind, w, h), h, r.sends) == Selected(kind, r.world, h)
  {
    StepKeeps(kind, w, e);
    match e
    case Join(_, _) =>
      SelectedIgnoresLinks(kind, w, Step(kind, w, e).world, h);
    case Arrive(from, control, body, order) =>
      OrderInEntries(w, order);
      ParsedIsPublishable(kind, control, body);
      ActView(kind, w, from, Parse(control, body), order, h);
    case Remove(client) =>
      RemovingView(kind, w, client, h);
  }

  /** Entries can change, but none is ever dropped. */
  lemma EntriesStay<K>(kind: KeyKind<K>, w: World<K>, e: Event<K>)
    requires Allowed(kind, w, e)
    ensures w.entries.Keys <= Step(kind, w, e).world.entries.Keys
  {
  }

  // ---------- runs ----------

  /** The view has all selected entries right, and all its topics are in the store. */
  ghost predicate Covers<K>(kind: KeyKind<K>, w: World<K>, h: nat, view: Retained)
    requires Invariant(kind, w)
  {
    view + Selected(kind, w, h) == view && Stored(kind, w, view)
  }

  /** The topics of the view stand for stored keys. */
  ghost predicate Stored<K>(kind: KeyKind<K>, w: World<K>, view: Retained) {
    forall t :: t in view ==> kind.encode(t) in w.entries && kind.decode(kind.encode(t)) == t
  }

  lemma SelectedIsStored<K>(kind: KeyKind<K>, w: World<K>, h: nat)
    requires Invariant(kind, w)
    ensures Stored(kind, w, Selected(kind, w, h))
  {
    forall t | t in Selected(kind, w, h)
      ensures kind.encode(t) in w.entries && kind.decode(kind.encode(t)) == t
    {
      WatchedEntry(kind, w, h, t);
    }
  }

  lemma MergeThrice(a: Retained, b: Retained, c: Retained)
    ensures a + (b + c) == (a + b) + c
  {
  }

  /** Frames that lead from one selection to the next also lead from a view that has more topics. */
  lemma {:induction false} LargerView(view: Retained, before: Retained, after: Retained, fs: seq<Frame>)
    requires view + before == view && ViewFrom(before, fs) == after
    ensures ViewFrom(view, fs) == view + after
  {
    ViewFromMerges(view, fs);
    ViewFromMerges(before, fs);
    MergeThrice(view, before, ViewFrom(map[], fs));
  }

  lemma CoversAgain<K>(kind: KeyKind<K>, w: World<K>, h: nat, view: Retained)
    requires Invariant(kind, w) && Stored(kind, w, view)
    ensures Covers(kind, w, h, view + Selected(kind, w, h))
  {
    SelectedIsStored(kind, w, h);
    MergeThrice(view, Selected(kind, w, h), Selected(kind, w, h));
    assert Selected(kind, w, h) + Selected(kind, w, h) == Selected(kind, w, h);
  }

  lemma StepCovers<K>(kind: KeyKind<K>, w: World<K>, e: Event<K>, h: nat, view: Retained)
    requires Lawful(kind) && Invariant(kind, w) && Allowed(kind, w, e) && Covers(kind, w, h, view)
    ensures Invariant(kind, Step(kind, w, e).world)
    ensures Covers(kind, Step(kind, w, e).world, h, ViewAfter(view, h, Step(kind, w, e).sends))
  {
    var r := Step(kind, w, e);
    StepView(kind, w, e, h);
    EntriesStay(kind, w, e);
    CoversAgain(kind, r.world, h, view);
    if EndsView(w.links, e, h) {
      assert view + map[] == view;
    } else {
      LargerView(view, Selected(kind, w, h), Selected(kind, r.world, h), FramesTo(h, r.sends));
    }
  }

  /** Over any run, removals included: what was right stays right, and what is selected is in the view. */
  lemma {:induction false} RunCovers<K>(kind: KeyKind<K>, w: World<K>, es: seq<Event<K>>, h: nat, view: Retained)
    requires Lawful(kind) && Invariant(kind, w) && AllAllowed(kind, w, es) && Covers(kind, w, h, view)
    ensures Invariant(kind, Run(kind, w, es))
    ensures Covers(kind, Run(kind, w, es), h, ViewAfter(view, h, RunSends(kind, w, es)))
    decreases |es|
  {
    if es != [] {
      var r := Step(kind, w, es[0]);
      StepCovers(kind, w, es[0], h, view);
      RunCovers(kind, r.world, es[1..], h, ViewAfter(view, h, r.sends));
      ViewAfterConcat(view, h, r.sends, RunSends(kind, r.world, es[1..]));
    }
  }

  /** The connection has no observers: it is new, or its client's observers have just been removed. */
  ghost predicate Unobserved<K>(w: World<K>, h: nat) {
    forall i :: 0 <= i < |w.observers| ==> w.observers[i].handle != h
  }

  lemma NothingSelected<K>(kind: KeyKind<K>, w: World<K>, h: nat)
    requires Invariant(kind, w) && Unobserved(w, h)
    ensures Selected(kind, w, h) == map[]
  {
    assert WatchedTopics(kind, w, h) == {};
  }

  /** Some live filter of the connection still matches each of the topics. */
  ghost predicate StillWatched<K>(kind: KeyKind<K>, w: World<K>, h: nat, topics: set<Text>) {
    forall t :: t in topics ==> Watched(kind, w.observers, h, kind.encode(t))
  }

  /** A view that covers the selection is the selection exactly when all its topics are still watched. */
  lemma CoverIsExactlyIf<K>(kind: KeyKind<K>, w: World<K>, h: nat, view: Retained)
    requires Invariant(kind, w) && Covers(kind, w, h, view)
    ensures view == Selected(kind, w, h) <==> StillWatched(kind, w, h, view.Keys)
  {
    forall t | t in view ensures t in Selected(kind, w, h) <==> Watched(kind, w.observers, h, kind.encode(t)) {
      SelectedTopic(kind, w, h, kind.encode(t));
    }
    var all := view + Selected(kind, w, h);
    if StillWatched(kind, w, h, view.Keys) {
      assert view.Keys == Selected(kind, w, h).Keys by {
        assert all.Keys == view.Keys + Selected(kind, w, h).Keys;
      }
      forall t | t in view ensures view[t] == Selected(kind, w, h)[t] {
        assert all[t] == Selected(kind, w, h)[t];
      }
    }
  }

  /** Each entry is in the view with the same payload. */
  ghost predicate Includes(view: Retained, entries: Retained) {
    forall t :: t in entries ==> t in view && view[t] == entries[t]
  }

  /**
   * The view's topics are those that were sent, all of them stored; all selected entries are in it with
   * their payloads; and nothing else is, exactly when all the topics that were sent are still watched.
   */
  ghost predicate Sees<K>(kind: KeyKind<K>, w: World<K>, h: nat, sent: set<Text>, view: Option<Retained>)
    requires Invariant(kind, w)
  {
    match view
    case None => false
    case Some(v) =>
      && v.Keys == sent && Stored(kind, w, v) && Includes(v, Selected(kind, w, h))
      && (v == Selected(kind, w, h) <==> StillWatched(kind, w, h, sent))
  }

  /**
   * Over every run from a state in which a connection has no observers (a connection still to come
   * has none): parsing the bytes written to it since then, and folding the PUBLISH messages among
   * them, gives all the entries of the store that its live filters select, with their payloads; and
   * it gives nothing else exactly when all the topics sent to it are still watched at the end.
   */
  lemma {:induction false} SubscriberSeesStore<K>(kind: KeyKind<K>, w: World<K>, es: seq<Event<K>>, h: nat)
    requires Lawful(kind) && Invariant(kind, w) && AllAllowed(kind, w, es) && Unobserved(w, h)
    requires h in Run(kind, w, es).links && !Run(kind, w, es).links[h].lost
    ensures Invariant(kind, Run(kind, w, es))
    ensures
      var end, sent := Run(kind, w, es), SentTopics(FramesTo(h, RunSends(kind, w, es)));
      var before, after := OutputOf(w.links, h), end.links[h].output;
      before <= after && Sees(kind, end, h, sent, ViewOfBytes(after[|before|..]))
  {
    OutputIsWholeFrames(kind, w, es, h);
    NothingSelected(kind, w, h);
    RunCovers(kind, w, es, h, map[]);
    CoverSees(kind, Run(kind, w, es), h, FramesTo(h, RunSends(kind, w, es)));
  }

  lemma {:induction false} CoverSees<K>(kind: KeyKind<K>, w: World<K>, h: nat, fs: seq<Frame>)
    requires Invariant(kind, w) && Covers(kind, w, h, ViewFrom(map[], fs))
    ensures Sees(kind, w, h, SentTopics(fs), Some(ViewFrom(map[], fs)))
  {
    ViewHasSentTopics(fs);
    CoverIsExactlyIf(kind, w, h, ViewFrom(map[], fs));
    CoverIncludes(kind, w, h, ViewFrom(map[], fs));
  }

  lemma CoverIncludes<K>(kind: KeyKind<K>, w: World<K>, h: nat, view: Retained)
    requires Invariant(kind, w) && Covers(kind, w, h, view)
    ensures Includes(view, Selected(kind, w, h))
  {
    var all := view + Selected(kind, w, h);
    forall t | t in Selected(kind, w, h) ensures t in view && view[t] == Selected(kind, w, h)[t] {
      assert t in all && all[t] == Selected(kind, w, h)[t];
    }
  }

  // ---------- until the next removal ----------

  /** Nobody removes the observers of this client. */
  ghost predicate AllUndisturbed<K>(es: seq<Event<K>>, client: nat) {
    forall i :: 0 <= i < |es| && es[i].Remove? ==> es[i].client != client
  }

  lemma {:induction false} RunView<K>(kind: KeyKind<K>, w: World<K>, es: seq<Event<K>>, h: nat)
    requires Lawful(kind) && Invariant(kind, w) && AllAllowed(kind, w, es)
    requires h in Run(kind, w, es).links && AllUndisturbed(es, Run(kind, w, es).links[h].client)
    ensures Invariant(kind, Run(kind, w, es))
    ensures ViewAfter(Selected(kind, w, h), h, RunSends(kind, w, es)) == Selected(kind, Run(kind, w, es), h)
    decreases |es|
  {
    if es != [] {
      var r := Step(kind, w, es[0]);
      RunKeeps(kind, w, es);
      StepView(kind, w, es[0], h);
      assert es[0] in es;
      RunView(kind, r.world, es[1..], h);
      ViewAfterConcat(Selected(kind, w, h), h, r.sends, RunSends(kind, r.world, es[1..]));
    }
  }

  /** As long as the client's observers are not removed, the view is exactly what is selected. */
  lemma {:induction false} UndisturbedViewIsExact<K>(kind: KeyKind<K>, w: World<K>, es: seq<Event<K>>, h: nat)
    requires Lawful(kind) && Invariant(kind, w) && AllAllowed(kind, w, es) && Unobserved(w, h)
    requires h in Run(kind, w, es).links && !Run(kind, w, es).links[h].lost
    requires AllUndisturbed(es, Run(kind, w, es).links[h].client)
    ensures Invariant(kind, Run(kind, w, es))
    ensures
      var before, after := OutputOf(w.links, h), Run(kind, w, es).links[h].output;
      && before <= after
      && ViewOfBytes(after[|before|..]) == Some(Selected(kind, Run(kind, w, es), h))
  {
    OutputIsWholeFrames(kind, w, es, h);
    NothingSelected(kind, w, h);
    RunView(kind, w, es, h);
  }

  /** Removal ends a view: none of the client's connections has an observer left, so a new view can start. */
  lemma RemovalStartsAfresh<K>(kind: KeyKind<K>, w: World<K>, h: nat)
    requires Invariant(kind, w) && h in w.links
    ensures
      var r := Step(kind, w, Remove(w.links[h].client));
      Unobserved(r.world, h) && Invariant(kind, r.world) && r.world.links == w.links
  {
    RemoveKeeps(kind, w, w.links[h].client);
    OthersAmong(w.observers, w.links[h].client);
  }

  /**
   * One removal leaves a right view right exactly when it is another client's, or when nothing was
   * selected.
   */
  lemma RemovalKeepsViewExactlyIf<K>(kind: KeyKind<K>, w: World<K>, client: nat, h: nat)
    requires Lawful(kind) && Invariant(kind, w) && h in w.links
    ensures Invariant(kind, Step(kind, w, Remove(client)).world)
    ensures
      var r := Step(kind, w, Remove(client));
      ViewAfter(Selected(kind, w, h), h, r.sends) == Selected(kind, r.world, h)
      <==> w.links[h].client != client || Selected(kind, w, h) == map[]
  {
    StepView(kind, w, Remove(client), h);
  }

  // ---------- where views begin ----------

  /** A broker that has stored nothing and knows no observers. */
  function Idle<K>(links: map<nat, Link>): World<K> {
    World(map[], [], links)
  }

  ghost predicate AllUnused(links: map<nat, Link>) {
    forall h :: h in links ==> Unused(links[h])
  }

  lemma IdleIsInvariant<K>(kind: KeyKind<K>, links: map<nat, Link>)
    requires AllUnused(links)
    ensures Invariant(kind, Idle(links))
    ensures forall h :: Unobserved(Idle<K>(links), h)
  {
  }

  /** From the very start: the same for all that a connection ever got. */
  lemma {:induction false} SubscriberSeesStoreFromTheStart<K>(kind: KeyKind<K>, links: map<nat, Link>, es: seq<Event<K>>, h: nat)
    requires Lawful(kind) && AllUnused(links) && AllAllowed(kind, Idle(links), es)
    requires h in Run(kind, Idle(links), es).links && !Run(kind, Idle(links), es).links[h].lost
    ensures Invariant(kind, Run(kind, Idle(links), es))
    ensures
      var end, sent := Run(kind, Idle(links), es), SentTopics(FramesTo(h, RunSends(kind, Idle(links), es)));
      Sees(kind, end, h, sent, ViewOfBytes(end.links[h].output))
  {
    IdleIsInvariant(kind, links);
    SubscriberSeesStore(kind, Idle(links), es, h);
    var after := Run(kind, Idle(links), es).links[h].output;
    assert OutputOf(Idle<K>(links).links, h) == [];
    assert after[0..] == after;
  }
}
