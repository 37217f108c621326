/**
 * One client's subscriptions are invisible to all others: a run, and the same run without that
 * client's subscriptions, other non-publishing messages and removals, write the same bytes to
 * everybody else.
 */
module NonInterference {
  import opened Wrappers
  import opened Bytes
  import opened Frames
  import opened Links
  import opened Messages
  import opened KeyKinds
  import opened Broker
  import opened BrokerInvariants
  import opened BrokerTheorems

  /** An event of the client's own: anything it sends but a PUBLISH, and the removal of its observers. */
  predicate Private<K>(links: map<nat, Link>, e: Event<K>, client: nat) {
    match e
    case Join(_, _) => false
    case Remove(c) => c == client
    case Arrive(h, control, _, _) => h in links && links[h].client == client && TypeOf(control) != PUBLISH
  }

  /** The connections known after an event, with their clients. */
  function Known<K>(links: map<nat, Link>, e: Event<K>): map<nat, Link> {
    if e.Join? then links[e.handle := e.link] else links
  }

  function Purge<K>(links: map<nat, Link>, es: seq<Event<K>>, client: nat): seq<Event<K>>
    decreases |es|
  {
    if es == [] then []
    else (if Private(links, es[0], client) then [] else [es[0]]) + Purge(Known(links, es[0]), es[1..], client)
  }

  /** Equal links, but for what the one client's connections carry. */
  ghost predicate SameLinks(a: map<nat, Link>, b: map<nat, Link>, client: nat) {
    && a.Keys == b.Keys
    && forall h :: h in a ==> a[h].client == b[h].client && (a[h].client != client ==> a[h] == b[h])
  }

  /** Two states that only the one client can tell apart. */
  ghost predicate Alike<K>(v: World<K>, w: World<K>, client: nat) {
    match v
    case World(entries, observers, links) =>
      && entries == w.entries
      && Others(observers, client) == Others(w.observers, client)
      && SameLinks(links, w.links, client)
  }

  // ---------- observers of others ----------

  lemma {:induction false} OthersCommute<K>(observers: seq<Observer<K>>, c: nat, d: nat)
    ensures Others(Others(observers, c), d) == Others(Others(observers, d), c)
  {
    if observers != [] {
      var front, last := observers[..|observers| - 1], observers[|observers| - 1];
      OthersCommute(front, c, d);
      OthersSnoc(Others(front, c), last, d);
      OthersSnoc(Others(front, d), last, c);
    }
  }

  lemma {:induction false} OthersSnoc<K>(observers: seq<Observer<K>>, o: Observer<K>, client: nat)
    ensures Others(observers + [o], client)
            == if o.client == client then Others(observers, client) else Others(observers, client) + [o]
  {
    assert (observers + [o])[..|observers|] == observers;
  }

  ghost predicate NoneOf<K>(observers: seq<Observer<K>>, h: nat, client: nat) {
    forall i :: 0 <= i < |observers| && observers[i].handle == h ==> observers[i].client != client
  }

  lemma {:induction false} NoticesSnoc<K>(kind: KeyKind<K>, observers: seq<Observer<K>>, o: Observer<K>, key: K, value: seq<byte>, h: nat)
    ensures FramesTo(h, Notices(kind, observers + [o], key, value))
            == FramesTo(h, Notices(kind, observers, key, value)) + FramesTo(h, Shown(kind, o, key, value))
  {
    assert (observers + [o])[..|observers|] == observers;
    FramesToConcat(h, Notices(kind, observers, key, value), Shown(kind, o, key, value));
  }

  lemma {:induction false} ShownElsewhere<K>(kind: KeyKind<K>, o: Observer<K>, key: K, value: seq<byte>, h: nat)
    requires o.handle != h
    ensures FramesTo(h, Shown(kind, o, key, value)) == []
  {
    OneDelivery(h, Delivery(o.handle, PublishFrame(kind.decode(key), value)));
  }

  /** The frames that a new value sends to other clients' connections are due to their own observers. */
  lemma {:induction false} NoticesOfOthers<K>(kind: KeyKind<K>, observers: seq<Observer<K>>, key: K, value: seq<byte>, h: nat, client: nat)
    requires NoneOf(observers, h, client)
    ensures FramesTo(h, Notices(kind, observers, key, value))
            == FramesTo(h, Notices(kind, Others(observers, client), key, value))
  {
    if observers != [] {
      var front, last := observers[..|observers| - 1], observers[|observers| - 1];
      assert observers == front + [last];
      NoticesOfOthers(kind, front, key, value, h, client);
      NoticesSnoc(kind, front, last, key, value, h);
      if last.client == client {
        ShownElsewhere(kind, last, key, value, h);
      } else {
        NoticesSnoc(kind, Others(front, client), last, key, value, h);
      }
    }
  }

  // ---------- steps that both runs take ----------

  lemma {:induction false} DeliverAlike(a: map<nat, Link>, b: map<nat, Link>, ds: seq<Delivery>, es: seq<Delivery>, client: nat)
    requires SameLinks(a, b, client)
    requires forall h :: h in a && a[h].client != client ==> FramesTo(h, ds) == FramesTo(h, es)
    ensures SameLinks(Deliver(a, ds), Deliver(b, es), client)
  {
    forall h | h in a
      ensures
        var x, y := Send(a[h], BytesTo(h, ds)), Send(b[h], BytesTo(h, es));
        x.client == y.client && (x.client != client ==> x == y)
    {
      assert a[h].client == b[h].client;
    }
  }

  lemma OwnObservers<K>(kind: KeyKind<K>, w: World<K>, h: nat, client: nat)
    requires Invariant(kind, w) && h in w.links && w.links[h].client != client
    ensures NoneOf(w.observers, h, client)
  {
  }

  lemma SettingAlike<K>(kind: KeyKind<K>, v: World<K>, w: World<K>, key: K, value: seq<byte>, client: nat)
    requires Invariant(kind, v) && Invariant(kind, w) && Alike(v, w, client)
    ensures Alike(Setting(kind, v, key, value).world, Setting(kind, w, key, value).world, client)
  {
    var ds, es := Notices(kind, v.observers, key, value), Notices(kind, w.observers, key, value);
    forall h | h in v.links && v.links[h].client != client
      ensures FramesTo(h, ds) == FramesTo(h, es)
    {
      OwnObservers(kind, v, h, client);
      OwnObservers(kind, w, h, client);
      NoticesOfOthers(kind, v.observers, key, value, h, client);
      NoticesOfOthers(kind, w.observers, key, value, h, client);
    }
    DeliverAlike(v.links, w.links, ds, es, client);
  }

  lemma AnswerAlike<K>(v: World<K>, w: World<K>, h: nat, f: Frame, client: nat)
    requires Alike(v, w, client) && h in v.links && v.links[h].client != client
    ensures h in w.links && Alike(Answer(v, h, f).world, Answer(w, h, f).world, client)
    ensures Answer(v, h, f).status == Answer(w, h, f).status
  {
    DeliverAlike(v.links, w.links, [Delivery(h, f)], [Delivery(h, f)], client);
  }

  lemma ObservingAlike<K>(kind: KeyKind<K>, v: World<K>, w: World<K>, o: Observer<K>, order: seq<K>, client: nat)
    requires Alike(v, w, client)
    requires forall i :: 0 <= i < |order| ==> order[i] in v.entries
    ensures Alike(Observing(kind, v, o, order).world, Observing(kind, w, o, order).world, client)
  {
    OthersSnoc(v.observers, o, client);
    OthersSnoc(w.observers, o, client);
    DeliverAlike(v.links, w.links, Replay(kind, o, v.entries, order), Replay(kind, o, v.entries, order), client);
  }

  lemma RegisteringAlike<K>(kind: KeyKind<K>, a: Reply<K>, b: Reply<K>, h: nat, topics: seq<Text>, order: seq<K>, client: nat)
    requires Alike(a.world, b.world, client) && a.status == b.status
    requires h in a.world.links && h in b.world.links
    requires forall i :: 0 <= i < |order| ==> order[i] in a.world.entries
    ensures Alike(Registering(kind, a, h, topics, order).world, Registering(kind, b, h, topics, order).world, client)
  {
    if a.status.Ok? && topics != [] {
      ObservingAlike(kind, a.world, b.world, SubscriberOf(kind, a.world, h, topics), order, client);
    }
  }

  lemma SubscribingAlike<K>(kind: KeyKind<K>, v: World<K>, w: World<K>, h: nat, id: uint16, topics: seq<Text>, order: seq<K>, client: nat)
    requires Alike(v, w, client) && h in v.links && v.links[h].client != client
    requires forall i :: 0 <= i < |order| ==> order[i] in v.entries
    ensures h in w.links && Alike(Subscribing(kind, v, h, id, topics, order).world, Subscribing(kind, w, h, id, topics, order).world, client)
  {
    var f := SubscribeAckFrame(SubscribeAck(id, [0]));
    AnswerAlike(v, w, h, f, client);
    RegisteringAlike(kind, Answer(v, h, f), Answer(w, h, f), h, topics, order, client);
  }

  lemma ConnectingAlike<K>(v: World<K>, w: World<K>, h: nat, level: byte, client: nat)
    requires Alike(v, w, client) && h in v.links && v.links[h].client != client
    ensures h in w.links && Alike(Connecting(v, h, level).world, Connecting(w, h, level).world, client)
  {
    var k := LevelKind(level);
    if k.Some? {
      var a := v.(links := v.links[h := v.links[h].(kind := k.value)]);
      var b := w.(links := w.links[h := w.links[h].(kind := k.value)]);
      assert Alike(a, b, client);
      AnswerAlike(a, b, h, ConnectAckFrame(false), client);
    } else {
      AnswerAlike(v, w, h, ConnectAckFrame(true), client);
    }
  }

  lemma {:induction false} RemovingAlike<K>(v: World<K>, w: World<K>, c: nat, client: nat)
    requires Alike(v, w, client)
    ensures Alike(v.(observers := Others(v.observers, c)), w.(observers := Others(w.observers, c)), client)
  {
    OthersCommute(v.observers, c, client);
    OthersCommute(w.observers, c, client);
  }

  lemma SharedAct<K>(kind: KeyKind<K>, v: World<K>, w: World<K>, h: nat, m: Message, order: seq<K>, client: nat)
    requires Invariant(kind, v) && Invariant(kind, w) && Alike(v, w, client)
    requires h in v.links && h in w.links && (v.links[h].client != client || m.Post? || m.Bad?)
    requires forall i :: 0 <= i < |order| ==> order[i] in v.entries
    requires forall i :: 0 <= i < |order| ==> order[i] in w.entries
    ensures Alike(Act(kind, v, h, m, order).world, Act(kind, w, h, m, order).world, client)
  {
    match m
    case Hello(level) => ConnectingAlike(v, w, h, level, client);
    case Post(topic, payload) => SettingAlike(kind, v, w, kind.encode(topic), payload, client);
    case Watch(id, topics) => SubscribingAlike(kind, v, w, h, id, topics, order, client);
    case Ping => AnswerAlike(v, w, h, PingResponseFrame(), client);
    case _ =>
  }

  lemma SharedStep<K>(kind: KeyKind<K>, v: World<K>, w: World<K>, e: Event<K>, client: nat)
    requires Invariant(kind, v) && Invariant(kind, w) && Alike(v, w, client)
    requires Allowed(kind, v, e) && !Private(v.links, e, client)
    ensures Allowed(kind, w, e) && Alike(Step(kind, v, e).world, Step(kind, w, e).world, client)
  {
    match e
    case Join(_, _) =>
    case Remove(c) =>
      RemovingAlike(v, w, c, client);
    case Arrive(h, control, body, order) =>
      OrderInEntries(v, order);
      OrderInEntries(w, order);
      SharedAct(kind, v, w, h, Parse(control, body), order, client);
  }

  // ---------- steps that only one run takes ----------

  lemma {:induction false} GrowthIsPrivate<K>(before: seq<Observer<K>>, after: seq<Observer<K>>, client: nat, h: nat)
    requires GrewBy(before, after, client, h)
    ensures Others(after, client) == Others(before, client)
  {
    if after != before {
      OthersSnoc(before, Observer(client, after[|before|].matcher, h), client);
    }
  }

  lemma PrivateAct<K>(kind: KeyKind<K>, v: World<K>, h: nat, m: Message, order: seq<K>)
    requires h in v.links && !m.Post?
    requires forall i :: 0 <= i < |order| ==> order[i] in v.entries
    requires Keeps(kind, v, Act(kind, v, h, m, order))
    ensures Alike(Act(kind, v, h, m, order).world, v, v.links[h].client)
  {
    var r := Act(kind, v, h, m, order);
    StateAfter(kind, v, h, m, order);
    GrowthIsPrivate(v.observers, r.world.observers, v.links[h].client, h);
    OnlyTheSenderHears(kind, v, h, m, order);
    KeptClients(kind, v, r);
    assert SameLinks(r.world.links, v.links, v.links[h].client);
  }

  lemma KeptClients<K>(kind: KeyKind<K>, v: World<K>, r: Reply<K>)
    requires Keeps(kind, v, r)
    ensures forall g :: g in v.links ==> g in r.world.links && r.world.links[g].client == v.links[g].client
  {
  }

  lemma AlikeIsTransitive<K>(u: World<K>, v: World<K>, w: World<K>, client: nat)
    requires Alike(u, v, client) && Alike(v, w, client)
    ensures Alike(u, w, client)
  {
  }

  lemma {:induction false} OthersTwice<K>(observers: seq<Observer<K>>, client: nat)
    ensures Others(Others(observers, client), client) == Others(observers, client)
  {
    if observers != [] {
      var front, last := observers[..|observers| - 1], observers[|observers| - 1];
      OthersTwice(front, client);
      OthersSnoc(Others(front, client), last, client);
    }
  }

  lemma PrivateStep<K>(kind: KeyKind<K>, v: World<K>, e: Event<K>, client: nat)
    requires Lawful(kind) && Invariant(kind, v) && Allowed(kind, v, e) && Private(v.links, e, client)
    ensures Alike(Step(kind, v, e).world, v, client)
  {
    match e
    case Remove(_) =>
      OthersTwice(v.observers, client);
    case Arrive(h, control, body, order) =>
      OrderInEntries(v, order);
      StepKeeps(kind, v, e);
      PrivateAct(kind, v, h, Parse(control, body), order);
  }

  /** What is left has no removal of the client, and of what its connection sends nothing but PUBLISH frames. */
  lemma {:induction false} PurgeIsComplete<K>(links: map<nat, Link>, es: seq<Event<K>>, client: nat, h: nat, i: nat)
    requires h in links && links[h].client == client && i < |Purge(links, es, client)|
    requires forall j :: 0 <= j < |es| && es[j].Join? ==> es[j].handle != h
    ensures
      var e := Purge(links, es, client)[i];
      e != Remove(client) && (e.Arrive? && e.handle == h ==> 0x30 <= e.control <= 0x3F)
    decreases |es|
  {
    var known := Known(links, es[0]);
    if Private(links, es[0], client) {
      PurgeIsComplete(known, es[1..], client, h, i);
    } else if i > 0 {
      PurgeIsComplete(known, es[1..], client, h, i - 1);
    }
  }

  // ---------- runs ----------

  ghost predicate SameClients(a: map<nat, Link>, b: map<nat, Link>) {
    a.Keys == b.Keys && forall h :: h in a ==> a[h].client == b[h].client
  }

  lemma {:induction false} PurgeHead<K>(now: map<nat, Link>, links: map<nat, Link>, es: seq<Event<K>>, client: nat)
    requires SameClients(now, links) && es != []
    ensures Purge(links, es, client)
            == if Private(now, es[0], client) then Purge(Known(links, es[0]), es[1..], client)
               else [es[0]] + Purge(Known(links, es[0]), es[1..], client)
  {
  }

  lemma StepKnows<K>(kind: KeyKind<K>, v: World<K>, e: Event<K>, links: map<nat, Link>)
    requires Lawful(kind) && Invariant(kind, v) && Allowed(kind, v, e) && SameClients(v.links, links)
    ensures SameClients(Step(kind, v, e).world.links, Known(links, e))
  {
    StepKeeps(kind, v, e);
    KeptClients(kind, v, Step(kind, v, e));
  }

  lemma {:induction false} PurgedRun<K>(kind: KeyKind<K>, v: World<K>, w: World<K>, es: seq<Event<K>>, client: nat, links: map<nat, Link>)
    requires Lawful(kind) && Invariant(kind, v) && Invariant(kind, w) && Alike(v, w, client)
    requires AllAllowed(kind, v, es) && SameClients(v.links, links)
    ensures AllAllowed(kind, w, Purge(links, es, client))
    ensures Alike(Run(kind, v, es), Run(kind, w, Purge(links, es, client)), client)
    decreases |es|
  {
    if es != [] {
      var e, known := es[0], Known(links, es[0]);
      var v' := Step(kind, v, e).world;
      StepKeeps(kind, v, e);
      StepKnows(kind, v, e, links);
      PurgeHead(v.links, links, es, client);
      if Private(v.links, e, client) {
        PrivateStep(kind, v, e, client);
        AlikeIsTransitive(v', v, w, client);
        PurgedRun(kind, v', w, es[1..], client, known);
      } else {
        SharedStep(kind, v, w, e, client);
        StepKeeps(kind, w, e);
        PurgedRun(kind, v', Step(kind, w, e).world, es[1..], client, known);
        RunCons(kind, w, e, Purge(known, es[1..], client));
      }
    }
  }

  /**
   * Dropping from a run everything one client does but connect and publish changes neither the store nor a single
   * byte on any connection of another client.
   */
  lemma {:induction false} OthersCannotTell<K>(kind: KeyKind<K>, w: World<K>, es: seq<Event<K>>, client: nat)
    requires Lawful(kind) && Invariant(kind, w) && AllAllowed(kind, w, es)
    ensures AllAllowed(kind, w, Purge(w.links, es, client))
    ensures
      var full, purged := Run(kind, w, es), Run(kind, w, Purge(w.links, es, client));
      && full.entries == purged.entries && full.links.Keys == purged.links.Keys
      && forall h :: h in full.links && full.links[h].client != client ==> full.links[h] == purged.links[h]
  {
    PurgedRun(kind, w, w, es, client, w.links);
    RunKeeps(kind, w, es);
  }
}
