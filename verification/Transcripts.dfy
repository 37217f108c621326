/**
 * What a connection is due to receive, told from the events alone: a transcript that knows texts, filters
 * and payloads, but no keys, observers, links or other connections. The broker writes exactly that.
 */
module Transcripts {
  import opened Wrappers
  import opened Bytes
  import opened Frames
  import opened Links
  import opened Messages
  import opened KeyKinds
  import opened Broker
  import opened BrokerInvariants
  import opened SubscriberView
  import opened BrokerTheorems
  import opened Hearing

  // ---------- the transcript ----------

  /** One connection's live filters in the order of subscription, and all payloads by topic. */
  datatype Listener = Listener(filters: seq<Text>, retained: Retained)

  /** How many of the filters take the topic. */
  function Taking<K>(kind: KeyKind<K>, filters: seq<Text>, topic: Text): nat {
    if filters == [] then 0
    else
      Taking(kind, filters[..|filters| - 1], topic)
      + (if Takes(kind, filters[|filters| - 1], topic) then 1 else 0)
  }

  /** The stored payloads whose topics a new filter takes, in the order in which the store is walked. */
  function Replayed<K>(kind: KeyKind<K>, filter: Text, retained: Retained, order: seq<K>): seq<Frame> {
    if order == [] then []
    else
      var topic := kind.decode(order[|order| - 1]);
      Replayed(kind, filter, retained, order[..|order| - 1])
      + (if topic in retained && Takes(kind, filter, topic) then [PublishFrame(topic, retained[topic])] else [])
  }

  /** What a message is due to send to the connection; `own` says that the message came from it. */
  function MessageDue<K>(kind: KeyKind<K>, s: Listener, own: bool, m: Message, order: seq<K>): seq<Frame> {
    match m
    case Post(topic, payload) => Copies(Taking(kind, s.filters, topic), PublishFrame(topic, payload))
    case Hello(level) => if own then [ConnectAckFrame(level !in {3, 4, 5})] else []
    case Ping => if own then [PingResponseFrame()] else []
    case Watch(id, topics) =>
      if !own then []
      else [SubscribeAckFrame(SubscribeAck(id, [0]))]
           + (if topics == [] then [] else Replayed(kind, topics[|topics| - 1], s.retained, order))
    case _ => []
  }

  function MessageLeaves(s: Listener, own: bool, m: Message): Listener {
    match m
    case Post(topic, payload) => s.(retained := s.retained[topic := payload])
    case Watch(_, topics) => if own && topics != [] then s.(filters := s.filters + [topics[|topics| - 1]]) else s
    case _ => s
  }

  function EventDue<K>(kind: KeyKind<K>, s: Listener, h: nat, e: Event<K>): seq<Frame> {
    if e.Arrive? && Formed(e.control, e.body) then MessageDue(kind, s, e.handle == h, Parse(e.control, e.body), e.order)
    else []
  }

  function EventLeaves<K>(s: Listener, client: nat, h: nat, e: Event<K>): Listener {
    match e
    case Join(_, _) => s
    case Remove(c) => if c == client then s.(filters := []) else s
    case Arrive(from, control, body, _) => if Formed(control, body) then MessageLeaves(s, from == h, Parse(control, body)) else s
  }

  /** All that is due to the connection `h` of a client over some events. */
  function Transcript<K>(kind: KeyKind<K>, s: Listener, client: nat, h: nat, es: seq<Event<K>>): seq<Frame>
    decreases |es|
  {
    if es == [] then []
    else EventDue(kind, s, h, es[0]) + Transcript(kind, EventLeaves(s, client, h, es[0]), client, h, es[1..])
  }

  // ---------- how the broker's state stands for a listener ----------

  function MatchersOn<K>(observers: seq<Observer<K>>, h: nat): seq<Matcher<K>> {
    if observers == [] then []
    else
      var last := observers[|observers| - 1];
      MatchersOn(observers[..|observers| - 1], h) + (if last.handle == h then [last.matcher] else [])
  }

  function MatchersOf<K>(kind: KeyKind<K>, filters: seq<Text>): seq<Matcher<K>> {
    seq(|filters|, i requires 0 <= i < |filters| => FilterOf(kind, filters[i]))
  }

  ghost predicate AllFit<K>(kind: KeyKind<K>, filters: seq<Text>) {
    forall i :: 0 <= i < |filters| ==> kind.fits(Compared(filters[i]))
  }

  ghost predicate SameEntries<K>(kind: KeyKind<K>, entries: map<K, seq<byte>>, retained: Retained) {
    && (forall t :: t in retained ==> kind.fits(t) && kind.encode(t) in entries && entries[kind.encode(t)] == retained[t])
    && (forall k :: k in entries ==> kind.decode(k) in retained)
  }

  ghost predicate Tracks<K>(kind: KeyKind<K>, w: World<K>, h: nat, client: nat, s: Listener) {
    match w
    case World(entries, observers, links) =>
      && MatchersOn(observers, h) == MatchersOf(kind, s.filters) && AllFit(kind, s.filters)
      && SameEntries(kind, entries, s.retained)
      && (h in links ==> links[h].client == client)
  }

  lemma {:induction false} MatchersOnSnoc<K>(observers: seq<Observer<K>>, o: Observer<K>, h: nat)
    ensures MatchersOn(observers + [o], h) == MatchersOn(observers, h) + (if o.handle == h then [o.matcher] else [])
  {
    assert (observers + [o])[..|observers|] == observers;
  }

  lemma MatchersOfSnoc<K>(kind: KeyKind<K>, filters: seq<Text>, filter: Text)
    ensures MatchersOf(kind, filters + [filter]) == MatchersOf(kind, filters) + [FilterOf(kind, filter)]
  {
  }

  /** The removal of its client takes all matchers of a connection, and that of another client none. */
  lemma {:induction false} MatchersOnOthers<K>(observers: seq<Observer<K>>, h: nat, own: nat, client: nat)
    requires forall i :: 0 <= i < |observers| && observers[i].handle == h ==> observers[i].client == own
    ensures MatchersOn(Others(observers, client), h) == if client == own then [] else MatchersOn(observers, h)
  {
    if observers != [] {
      var front, last := observers[..|observers| - 1], observers[|observers| - 1];
      MatchersOnOthers(front, h, own, client);
      MatchersOnSnoc(Others(front, client), last, h);
    }
  }

  lemma {:induction false} NoMatchersOn<K>(observers: seq<Observer<K>>, h: nat)
    requires forall i :: 0 <= i < |observers| ==> observers[i].handle != h
    ensures MatchersOn(observers, h) == []
  {
    if observers != [] {
      NoMatchersOn(observers[..|observers| - 1], h);
    }
  }

  lemma SnocsEqual<T>(a: seq<T>, x: T, b: seq<T>, y: T)
    requires a + [x] == b + [y]
    ensures a == b && x == y
  {
    assert |a| == |b|;
    assert a == (a + [x])[..|a|] && b == (b + [y])[..|b|];
    assert x == (a + [x])[|a|] && y == (b + [y])[|b|];
  }

  lemma {:induction false} CountIsTaking<K>(kind: KeyKind<K>, observers: seq<Observer<K>>, h: nat, filters: seq<Text>, topic: Text)
    requires Lawful(kind) && kind.fits(topic) && AllFit(kind, filters)
    requires MatchersOn(observers, h) == MatchersOf(kind, filters)
    ensures Count(kind, observers, h, kind.encode(topic)) == Taking(kind, filters, topic)
  {
    if observers != [] {
      var front, last := observers[..|observers| - 1], observers[|observers| - 1];
      if last.handle == h {
        var some, filter := filters[..|filters| - 1], filters[|filters| - 1];
        assert filters == some + [filter];
        MatchersOfSnoc(kind, some, filter);
        SnocsEqual(MatchersOn(front, h), last.matcher, MatchersOf(kind, some), FilterOf(kind, filter));
        CountIsTaking(kind, front, h, some, topic);
        FilterServes(kind, filter);
      } else {
        CountIsTaking(kind, front, h, filters, topic);
      }
    }
  }

  lemma {:induction false} ReplayIsReplayed<K>(kind: KeyKind<K>, o: Observer<K>, filter: Text, entries: map<K, seq<byte>>, retained: Retained, order: seq<K>)
    requires Lawful(kind) && Serves(kind, o.matcher, filter) && AllKept(kind, entries) && SameEntries(kind, entries, retained)
    requires forall i :: 0 <= i < |order| ==> order[i] in entries
    ensures FramesTo(o.handle, Replay(kind, o, entries, order)) == Replayed(kind, filter, retained, order)
  {
    if order != [] {
      var front, key := order[..|order| - 1], order[|order| - 1];
      ReplayIsReplayed(kind, o, filter, entries, retained, front);
      FramesToConcat(o.handle, Replay(kind, o, entries, front), Shown(kind, o, key, entries[key]));
      assert Kept(kind, key, entries[key]);
      ShownIfTaken(kind, o, filter, key, entries[key]);
      OneDelivery(o.handle, Delivery(o.handle, PublishFrame(kind.decode(key), entries[key])));
      assert retained[kind.decode(key)] == entries[key];
    }
  }

  lemma {:induction false} SetKeepsSame<K>(kind: KeyKind<K>, entries: map<K, seq<byte>>, retained: Retained, topic: Text, payload: seq<byte>)
    requires Lawful(kind) && SameEntries(kind, entries, retained) && kind.fits(topic)
    ensures SameEntries(kind, entries[kind.encode(topic) := payload], retained[topic := payload])
  {
    forall t | t in retained && t != topic ensures kind.encode(t) != kind.encode(topic) {
      assert kind.decode(kind.encode(t)) == t && kind.decode(kind.encode(topic)) == topic;
    }
  }

  // ---------- one message ----------

  /** The frames sent are those due, at most; and all of them, with the listener tracked, if nothing broke. */
  ghost predicate Follows<K>(kind: KeyKind<K>, r: Reply<K>, h: nat, client: nat, due: seq<Frame>, s: Listener) {
    match r
    case Reply(world, _, sends) =>
      && FramesTo(h, sends) <= due
      && ((h in world.links ==> !world.links[h].lost) ==> FramesTo(h, sends) == due && Tracks(kind, world, h, client, s))
  }

  lemma {:induction false} AnswerFollows<K>(kind: KeyKind<K>, w: World<K>, from: nat, f: Frame, h: nat, client: nat, s: Listener)
    requires from in w.links && Tracks(kind, w, h, client, s)
    ensures Follows(kind, Answer(w, from, f), h, client, if from == h then [f] else [], s)
  {
    OneDelivery(h, Delivery(from, f));
  }

  lemma {:induction false} ConnectingFollows<K>(kind: KeyKind<K>, w: World<K>, from: nat, level: byte, h: nat, client: nat, s: Listener)
    requires from in w.links && Tracks(kind, w, h, client, s)
    ensures Follows(kind, Connecting(w, from, level), h, client, if from == h then [ConnectAckFrame(level !in {3, 4, 5})] else [], s)
  {
    var k := LevelKind(level);
    var marked := if k.None? then w else w.(links := w.links[from := w.links[from].(kind := k.value)]);
    AnswerFollows(kind, marked, from, ConnectAckFrame(k.None?), h, client, s);
  }

  lemma {:induction false} SettingFollows<K>(kind: KeyKind<K>, w: World<K>, topic: Text, payload: seq<byte>, h: nat, client: nat, s: Listener)
    requires Lawful(kind) && Tracks(kind, w, h, client, s) && kind.fits(topic)
    ensures Follows(kind, Setting(kind, w, kind.encode(topic), payload), h, client,
                    Copies(Taking(kind, s.filters, topic), PublishFrame(topic, payload)), s.(retained := s.retained[topic := payload]))
  {
    NoticesAreExact(kind, w.observers, kind.encode(topic), payload, h);
    CountIsTaking(kind, w.observers, h, s.filters, topic);
    SetKeepsSame(kind, w.entries, s.retained, topic, payload);
  }

  lemma {:induction false} OwnSubscriptionFollows<K>(kind: KeyKind<K>, w: World<K>, h: nat, id: uint16, topics: seq<Text>, order: seq<K>, client: nat, s: Listener)
    requires Lawful(kind) && Invariant(kind, w) && h in w.links && Tracks(kind, w, h, client, s)
    requires topics != [] ==> kind.fits(Compared(topics[|topics| - 1]))
    requires forall i :: 0 <= i < |order| ==> order[i] in w.entries
    ensures Follows(kind, Subscribing(kind, w, h, id, topics, order), h, client,
                    MessageDue(kind, s, true, Watch(id, topics), order), MessageLeaves(s, true, Watch(id, topics)))
  {
    SubscribingLinks(kind, w, h, id, topics, order);
    OwnSubscriptionSends(kind, w, h, id, topics, order, client, s);
    if topics != [] && w.links[h].room >= 5 {
      OwnSubscriptionTracks(kind, w, h, id, topics, order, client, s);
    } else {
      Registered(kind, w, h, id, topics, order);
    }
  }

  lemma {:induction false} OwnSubscriptionSends<K>(kind: KeyKind<K>, w: World<K>, h: nat, id: uint16, topics: seq<Text>, order: seq<K>, client: nat, s: Listener)
    requires Lawful(kind) && Invariant(kind, w) && h in w.links && Tracks(kind, w, h, client, s)
    requires topics != [] ==> kind.fits(Compared(topics[|topics| - 1]))
    requires forall i :: 0 <= i < |order| ==> order[i] in w.entries
    ensures
      var fs, due := FramesTo(h, Subscribing(kind, w, h, id, topics, order).sends), MessageDue(kind, s, true, Watch(id, topics), order);
      fs <= due && (w.links[h].room >= 5 ==> fs == due)
  {
    SubscriptionFrames(kind, w, h, id, topics, order);
    if topics != [] && w.links[h].room >= 5 {
      FilterServes(kind, topics[|topics| - 1]);
      ReplayIsReplayed(kind, SubscriberOf(kind, w, h, topics), topics[|topics| - 1], w.entries, s.retained, order);
    }
  }

  lemma {:induction false} OwnSubscriptionTracks<K>(kind: KeyKind<K>, w: World<K>, h: nat, id: uint16, topics: seq<Text>, order: seq<K>, client: nat, s: Listener)
    requires h in w.links && Tracks(kind, w, h, client, s)
    requires topics != [] && w.links[h].room >= 5 && kind.fits(Compared(topics[|topics| - 1]))
    requires forall i :: 0 <= i < |order| ==> order[i] in w.entries
    ensures Tracks(kind, Subscribing(kind, w, h, id, topics, order).world, h, client, s.(filters := s.filters + [topics[|topics| - 1]]))
  {
    Registered(kind, w, h, id, topics, order);
    SubscribingLinks(kind, w, h, id, topics, order);
    MatchersOnSnoc(w.observers, SubscriberOf(kind, w, h, topics), h);
    MatchersOfSnoc(kind, s.filters, topics[|topics| - 1]);
  }

  /** A subscription keeps its connection's client, and breaks the connection if the answer does not fit. */
  lemma {:induction false} SubscribingLinks<K>(kind: KeyKind<K>, w: World<K>, h: nat, id: uint16, topics: seq<Text>, order: seq<K>)
    requires h in w.links
    requires forall i :: 0 <= i < |order| ==> order[i] in w.entries
    ensures
      var after := Subscribing(kind, w, h, id, topics, order).world.links;
      && after[h].client == w.links[h].client
      && (w.links[h].room < 5 ==> after[h].lost)
  {
    AnswerSizes(id, false);
    AnswerLinks(w, h, SubscribeAckFrame(SubscribeAck(id, [0])));
    RegisteringLinks(kind, Answer(w, h, SubscribeAckFrame(SubscribeAck(id, [0]))), h, topics, order);
  }

  lemma {:induction false} AnswerLinks<K>(w: World<K>, h: nat, f: Frame)
    requires h in w.links
    ensures
      var r := Answer(w, h, f);
      && r.world.links[h].client == w.links[h].client
      && (w.links[h].room < |Wire(f)| ==> r.status == Failure && r.world.links[h].lost)
  {
    OneDelivery(h, Delivery(h, f));
  }

  lemma {:induction false} RegisteringLinks<K>(kind: KeyKind<K>, ack: Reply<K>, h: nat, topics: seq<Text>, order: seq<K>)
    requires h in ack.world.links
    requires forall i :: 0 <= i < |order| ==> order[i] in ack.world.entries
    ensures
      var r := Registering(kind, ack, h, topics, order);
      && r.world.links[h].client == ack.world.links[h].client
      && (ack.status.Failure? ==> r == ack)
  {
  }

  lemma {:induction false} OtherSubscriptionFollows<K>(kind: KeyKind<K>, w: World<K>, from: nat, id: uint16, topics: seq<Text>, order: seq<K>, h: nat, client: nat, s: Listener)
    requires Lawful(kind) && Invariant(kind, w) && from in w.links && from != h && Tracks(kind, w, h, client, s)
    requires forall i :: 0 <= i < |order| ==> order[i] in w.entries
    ensures Follows(kind, Subscribing(kind, w, from, id, topics, order), h, client, [], s)
  {
    var r := Subscribing(kind, w, from, id, topics, order);
    Registered(kind, w, from, id, topics, order);
    if topics != [] {
      MatchersOnSnoc(w.observers, SubscriberOf(kind, w, from, topics), h);
    }
    if h in w.links {
      SubscribingElsewhere(kind, w, from, id, topics, order, h);
    } else {
      SubscribingKeeps(kind, w, from, id, topics, order);
      LegalFramesTo(h, w.links.Keys, r.sends);
    }
  }

  lemma {:induction false} ActFollows<K>(kind: KeyKind<K>, w: World<K>, from: nat, m: Message, order: seq<K>, h: nat, client: nat, s: Listener)
    requires Lawful(kind) && Invariant(kind, w) && from in w.links && Fitting(kind, m) && Tracks(kind, w, h, client, s)
    requires forall i :: 0 <= i < |order| ==> order[i] in w.entries
    ensures Follows(kind, Act(kind, w, from, m, order), h, client, MessageDue(kind, s, from == h, m, order), MessageLeaves(s, from == h, m))
  {
    match m
    case Hello(level) => ConnectingFollows(kind, w, from, level, h, client, s);
    case Post(topic, payload) => SettingFollows(kind, w, topic, payload, h, client, s);
    case Ping => AnswerFollows(kind, w, from, PingResponseFrame(), h, client, s);
    case Watch(id, topics) =>
      if from == h {
        OwnSubscriptionFollows(kind, w, h, id, topics, order, client, s);
      } else {
        OtherSubscriptionFollows(kind, w, from, id, topics, order, h, client, s);
      }
    case _ =>
  }

  // ---------- one event ----------

  lemma {:induction false} RemovingFollows<K>(kind: KeyKind<K>, w: World<K>, c: nat, h: nat, client: nat, s: Listener)
    requires Invariant(kind, w) && Tracks(kind, w, h, client, s)
    ensures Tracks(kind, w.(observers := Others(w.observers, c)), h, client, if c == client then s.(filters := []) else s)
  {
    MatchersOnOthers(w.observers, h, client, c);
  }

  lemma {:induction false} StepFollows<K>(kind: KeyKind<K>, w: World<K>, e: Event<K>, h: nat, client: nat, s: Listener)
    requires Lawful(kind) && Invariant(kind, w) && Allowed(kind, w, e) && Tracks(kind, w, h, client, s)
    requires h in Step(kind, w, e).world.links ==> Step(kind, w, e).world.links[h].client == client
    ensures Follows(kind, Step(kind, w, e), h, client, EventDue(kind, s, h, e), EventLeaves(s, client, h, e))
  {
    match e
    case Join(_, _) =>
    case Remove(c) =>
      RemovingFollows(kind, w, c, h, client, s);
    case Arrive(from, control, body, order) =>
      OrderInEntries(w, order);
      ReadableIsFitting(kind, control, body);
      ActFollows(kind, w, from, Parse(control, body), order, h, client, s);
  }

  // ---------- runs ----------

  /** The output is what it was, and then as much of the bytes as went out; all of them, if nothing broke. */
  ghost predicate Carrying(before: seq<byte>, link: Link, data: seq<byte>) {
    && before <= link.output <= before + data
    && (!link.lost ==> link.output == before + data)
  }

  lemma {:induction false} FlattenPrefix(a: seq<Frame>, b: seq<Frame>)
    requires a <= b
    ensures Flatten(a) <= Flatten(b)
  {
    assert b == a + b[|a|..];
    FlattenConcat(a, b[|a|..]);
  }

  lemma CarryingOn(before: seq<byte>, middle: seq<byte>, link: Link, a: seq<byte>, b: seq<byte>)
    requires middle == before + a && Carrying(middle, link, b)
    ensures Carrying(before, link, a + b)
  {
    Associates(before, a, b);
  }

  lemma BrokeBefore(before: seq<byte>, link: Link, a: seq<byte>, b: seq<byte>)
    requires link.lost && before <= link.output <= before + a
    ensures Carrying(before, link, a + b)
  {
    Associates(before, a, b);
  }

  /** One event adds its frames to the output, or breaks the connection somewhere within them. */
  lemma {:induction false} StepCarries<K>(kind: KeyKind<K>, w: World<K>, r: Reply<K>, h: nat, client: nat, due: seq<Frame>, s: Listener)
    requires Keeps(kind, w, r) && Follows(kind, r, h, client, due, s)
    ensures h !in r.world.links ==> OutputOf(w.links, h) == [] && due == []
    ensures h in r.world.links ==> Carrying(OutputOf(w.links, h), r.world.links[h], Flatten(due))
  {
    var fs := FramesTo(h, r.sends);
    if h !in r.world.links {
      LegalFramesTo(h, r.world.links.Keys, r.sends);
    } else if h in w.links {
      CarriesDue(w.links[h], r.world.links[h], fs, due);
    } else {
      BeginsDue(r.world.links[h], fs, due);
    }
  }

  lemma {:induction false} CarriesDue(l: Link, m: Link, fs: seq<Frame>, due: seq<Frame>)
    requires Carries(l, m, Flatten(fs)) && fs <= due && (!m.lost ==> fs == due)
    ensures Carrying(l.output, m, Flatten(due))
  {
    FlattenPrefix(fs, due);
  }

  lemma {:induction false} BeginsDue(m: Link, fs: seq<Frame>, due: seq<Frame>)
    requires Begins(m, Flatten(fs)) && fs <= due && (!m.lost ==> fs == due)
    ensures Carrying([], m, Flatten(due))
  {
    FlattenPrefix(fs, due);
    assert [] + Flatten(due) == Flatten(due);
  }

  /** A connection that has broken stays as it is. */
  lemma {:induction false} BrokenStays<K>(kind: KeyKind<K>, w: World<K>, es: seq<Event<K>>, h: nat)
    requires Lawful(kind) && Invariant(kind, w) && AllAllowed(kind, w, es) && h in w.links && w.links[h].lost
    ensures h in Run(kind, w, es).links && Run(kind, w, es).links[h].lost
    ensures Run(kind, w, es).links[h].output == w.links[h].output
  {
    RunKeeps(kind, w, es);
  }

  lemma {:induction false} SameClient<K>(kind: KeyKind<K>, w: World<K>, es: seq<Event<K>>, h: nat)
    requires Lawful(kind) && Invariant(kind, w) && AllAllowed(kind, w, es) && h in w.links
    ensures h in Run(kind, w, es).links && Run(kind, w, es).links[h].client == w.links[h].client
  {
    RunKeeps(kind, w, es);
  }

  /** Every run writes the transcript: what a connection gets is told by the events and its own filters alone. */
  lemma {:induction false} RunWritesTranscript<K>(kind: KeyKind<K>, w: World<K>, es: seq<Event<K>>, h: nat, s: Listener)
    requires Lawful(kind) && Invariant(kind, w) && AllAllowed(kind, w, es) && h in Run(kind, w, es).links
    requires Tracks(kind, w, h, Run(kind, w, es).links[h].client, s)
    ensures
      var link := Run(kind, w, es).links[h];
      Carrying(OutputOf(w.links, h), link, Flatten(Transcript(kind, s, link.client, h, es)))
    decreases |es|
  {
    if es != [] {
      var link, r := Run(kind, w, es).links[h], Step(kind, w, es[0]);
      var due, next := EventDue(kind, s, h, es[0]), EventLeaves(s, link.client, h, es[0]);
      var rest := Transcript(kind, next, link.client, h, es[1..]);
      StepKeeps(kind, w, es[0]);
      if h in r.world.links {
        SameClient(kind, r.world, es[1..], h);
      }
      StepFollows(kind, w, es[0], h, link.client, s);
      StepCarries(kind, w, r, h, link.client, due, next);
      FlattenConcat(due, rest);
      if h in r.world.links && r.world.links[h].lost {
        BrokenStays(kind, r.world, es[1..], h);
        BrokeBefore(OutputOf(w.links, h), link, Flatten(due), Flatten(rest));
      } else {
        RunWritesTranscript(kind, r.world, es[1..], h, next);
        CarryingOn(OutputOf(w.links, h), OutputOf(r.world.links, h), link, Flatten(due), Flatten(rest));
      }
    }
  }

  // ---------- where transcripts begin ----------

  /** All that is stored, by topic. */
  ghost function Everything<K>(kind: KeyKind<K>, w: World<K>): Retained
    requires Invariant(kind, w)
  {
    map t | t in (set k | k in w.entries :: kind.decode(k)) && kind.encode(t) in w.entries :: w.entries[kind.encode(t)]
  }

  lemma {:induction false} UnobservedTracks<K>(kind: KeyKind<K>, w: World<K>, h: nat, client: nat)
    requires Invariant(kind, w) && Unobserved(w, h) && (h in w.links ==> w.links[h].client == client)
    ensures Tracks(kind, w, h, client, Listener([], Everything(kind, w)))
  {
    NoMatchersOn(w.observers, h);
    forall t | t in Everything(kind, w) ensures kind.fits(t) {
      var k :| k in w.entries && kind.decode(k) == t;
      assert Kept(kind, k, w.entries[k]);
    }
    forall k | k in w.entries ensures kind.decode(k) in Everything(kind, w) {
      assert Kept(kind, k, w.entries[k]);
    }
  }

  /**
   * From any state in which a connection has no observers: its output grows by the transcript of a
   * listener without filters, whole if the connection stays intact and cut short if it breaks.
   */
  lemma {:induction false} OutputIsTranscript<K>(kind: KeyKind<K>, w: World<K>, es: seq<Event<K>>, h: nat)
    requires Lawful(kind) && Invariant(kind, w) && AllAllowed(kind, w, es) && Unobserved(w, h)
    requires h in Run(kind, w, es).links
    ensures
      var link := Run(kind, w, es).links[h];
      Carrying(OutputOf(w.links, h), link, Flatten(Transcript(kind, Listener([], Everything(kind, w)), link.client, h, es)))
  {
    if h in w.links {
      SameClient(kind, w, es, h);
    }
    UnobservedTracks(kind, w, h, Run(kind, w, es).links[h].client);
    RunWritesTranscript(kind, w, es, h, Listener([], Everything(kind, w)));
  }

  /** From the very start: all that a connection ever gets is the transcript of the events. */
  lemma {:induction false} OutputIsTranscriptFromTheStart<K>(kind: KeyKind<K>, links: map<nat, Link>, es: seq<Event<K>>, h: nat)
    requires Lawful(kind) && AllUnused(links) && AllAllowed(kind, Idle(links), es) && h in Run(kind, Idle(links), es).links
    ensures
      var link := Run(kind, Idle(links), es).links[h];
      Carrying([], link, Flatten(Transcript(kind, Listener([], map[]), link.client, h, es)))
  {
    IdleIsInvariant(kind, links);
    OutputIsTranscript(kind, Idle(links), es, h);
    assert Everything(kind, Idle(links)) == map[];
  }
}
