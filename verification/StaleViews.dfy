/** A run in which a subscriber's view goes stale, because its observers are removed behind its back. */
module StaleViews {
  import opened Wrappers
  import opened Bytes
  import opened Frames
  import opened Links
  import opened Messages
  import opened KeyKinds
  import opened Broker
  import opened BrokerInvariants
  import opened SubscriberView
  import opened BrokerTheorems

  /** Topic "a" (97) is set, client 7 subscribes to it, and is then removed. */
  function StaleRun(): seq<Event<Text>> {
    var post, watch := PublishFrame([97], [1]), SubscribeFrame(1, [97]);
    [Join(0, Link(7, [], 100, false, UNKNOWN)),
     Arrive(0, post.control, post.body, []),
     Arrive(0, watch.control, watch.body, [[97]]),
     Remove(7)]
  }

  function StaleLinks(link: Link): map<nat, Link> {
    Deliver(Deliver(map[0 := link], [Delivery(0, SubscribeAckFrame(SubscribeAck(1, [0])))]), [Delivery(0, PublishFrame([97], [1]))])
  }

  /** The state after the first `n` events. */
  function StaleWorld(n: nat): World<Text> {
    var link := Link(7, [], 100, false, UNKNOWN);
    var entries: map<Text, seq<byte>> := if n < 2 then map[] else map[[97] := [1]];
    var observers := if n == 3 then [Observer(7, Full([97]), 0)] else [];
    World(entries, observers, if n == 0 then map[] else if n < 3 then map[0 := link] else StaleLinks(link))
  }

  lemma StaleJoin()
    ensures Allowed(StringKeys(), StaleWorld(0), StaleRun()[0])
    ensures Step(StringKeys(), StaleWorld(0), StaleRun()[0]).world == StaleWorld(1)
  {
  }

  lemma StalePost()
    ensures Allowed(StringKeys(), StaleWorld(1), StaleRun()[1])
    ensures Step(StringKeys(), StaleWorld(1), StaleRun()[1]).world == StaleWorld(2)
  {
    PrintedPublishIsUnderstood([97], [1]);
    var w := StaleWorld(1);
    assert Deliver(w.links, []) == w.links by {
      SendNothing(w.links[0]);
    }
  }

  lemma StaleReplay()
    ensures StaleWorld(2).entries == map[[97] := [1]]
    ensures Replay(StringKeys(), Observer(7, Full([97]), 0), map[[97] := [1]], [[97]]) == [Delivery(0, PublishFrame([97], [1]))]
  {
    assert [[97]][..0] == [];
  }

  lemma StaleAck()
    ensures
      var w, d := StaleWorld(2), Delivery(0, SubscribeAckFrame(SubscribeAck(1, [0])));
      Answer(w, 0, d.frame) == Reply(w.(links := Deliver(w.links, [d])), Ok, [d])
  {
    AnswerSizes(1, false);
  }

  lemma StaleRegister(ack: Reply<Text>)
    requires ack.status == Ok && 0 in ack.world.links && ack.world.links[0].client == 7
    requires ack.world.entries == map[[97] := [1]] && ack.world.observers == []
    ensures
      Registering(StringKeys(), ack, 0, [[97]], [[97]]).world
      == World(map[[97] := [1]], [Observer(7, Full([97]), 0)], Deliver(ack.world.links, [Delivery(0, PublishFrame([97], [1]))]))
  {
    StaleFilter();
    StaleReplay();
    assert SubscriberOf(StringKeys(), ack.world, 0, [[97]]) == Observer(7, Full([97]), 0);
  }

  lemma StaleAnswer()
    ensures Subscribing(StringKeys(), StaleWorld(2), 0, 1, [[97]], [[97]]).world == StaleWorld(3)
  {
    StaleAck();
    StaleRegister(Answer(StaleWorld(2), 0, SubscribeAckFrame(SubscribeAck(1, [0]))));
  }

  lemma StaleWatch()
    ensures Allowed(StringKeys(), StaleWorld(2), StaleRun()[2])
    ensures Step(StringKeys(), StaleWorld(2), StaleRun()[2]).world == StaleWorld(3)
  {
    PrintedSubscribeIsUnderstood(1, [97]);
    StaleFilter();
    StaleAnswer();
  }

  lemma StaleLink()
    ensures !StaleWorld(3).links[0].lost && StaleWorld(3).links[0].client == 7
  {
    var f, g := SubscribeAckFrame(SubscribeAck(1, [0])), PublishFrame([97], [1]);
    AnswerSizes(1, false);
    OneDelivery(0, Delivery(0, f));
    OneDelivery(0, Delivery(0, g));
    assert |Wire(g)| == 6;
  }

  lemma StaleFilter()
    ensures Accepts([97]) && FilterOf(StringKeys(), [97]) == Full([97])
    ensures Readable(StringKeys(), SubscribeFrame(1, [97]).control, SubscribeFrame(1, [97]).body)
    ensures IsOrder([[97]], StaleWorld(2).entries.Keys)
  {
    PrintedSubscribeIsUnderstood(1, [97]);
    assert [[97]][0] in Elements([[97]]);
  }

  lemma StaleRemove()
    ensures Step(StringKeys(), StaleWorld(3), Remove(7)).world == StaleWorld(4)
  {
    assert StaleWorld(3).observers[..0] == [];
  }

  lemma StaleStep(n: nat)
    requires n < 4
    ensures Allowed(StringKeys(), StaleWorld(n), StaleRun()[n])
    ensures Step(StringKeys(), StaleWorld(n), StaleRun()[n]).world == StaleWorld(n + 1)
  {
    if n == 0 {
      StaleJoin();
    } else if n == 1 {
      StalePost();
    } else if n == 2 {
      StaleWatch();
    } else {
      StaleRemove();
    }
  }

  /** A run whose states are known one by one. */
  lemma {:induction false} RunThrough<K>(kind: KeyKind<K>, states: seq<World<K>>, es: seq<Event<K>>, n: nat)
    requires |states| == |es| + 1 && n <= |es|
    requires forall i :: 0 <= i < |es| ==> Allowed(kind, states[i], es[i]) && Step(kind, states[i], es[i]).world == states[i + 1]
    ensures AllAllowed(kind, states[0], es[..n]) && Run(kind, states[0], es[..n]) == states[n]
  {
    if n > 0 {
      RunThrough(kind, states, es, n - 1);
      RunSnoc(kind, states[0], es[..n - 1], es[n - 1]);
      assert es[..n] == es[..n - 1] + [es[n - 1]];
    }
  }

  lemma StaleReaches(n: nat)
    requires n <= 4
    ensures AllAllowed(StringKeys(), Idle(map[]), StaleRun()[..n])
    ensures Run(StringKeys(), Idle(map[]), StaleRun()[..n]) == StaleWorld(n)
  {
    var states := seq(5, (i: nat) => StaleWorld(i));
    forall i | 0 <= i < 4
      ensures Allowed(StringKeys(), states[i], StaleRun()[i])
      ensures Step(StringKeys(), states[i], StaleRun()[i]).world == states[i + 1]
    {
      StaleStep(i);
    }
    RunThrough(StringKeys(), states, StaleRun(), n);
  }

  /** Just before the removal the view is right. */
  lemma StaleViewBefore()
    ensures ViewOfBytes(StaleWorld(3).links[0].output) == Some(map[[97] := [1]])
  {
    var w := StaleWorld(3);
    IdleIsInvariant(StringKeys(), map[]);
    StaleReaches(3);
    StaleLink();
    UndisturbedViewIsExact(StringKeys(), Idle(map[]), StaleRun()[..3], 0);
    assert w.links[0].output[0..] == w.links[0].output;
    StaleSelection(w);
  }

  lemma StaleSelection(w: World<Text>)
    requires w == StaleWorld(3) && Invariant(StringKeys(), w)
    ensures Selected(StringKeys(), w, 0) == map[[97] := [1]]
  {
    assert w.observers[0] == Observer(7, Full([97]), 0);
    assert Watched(StringKeys(), w.observers, 0, [97]);
    SelectedTopic(StringKeys(), w, 0, [97]);
    assert WatchedTopics(StringKeys(), w, 0) == {[97]};
  }

  lemma StaleEnd(w: World<Text>)
    requires w == StaleWorld(4)
    ensures Invariant(StringKeys(), w) && 0 in w.links && !w.links[0].lost
    ensures ViewOfBytes(w.links[0].output) == Some(map[[97] := [1]]) && Selected(StringKeys(), w, 0) == map[]
  {
    StaleViewBefore();
    StaleLink();
    IdleIsInvariant(StringKeys(), map[]);
    StaleReaches(4);
    RunKeeps(StringKeys(), Idle(map[]), StaleRun()[..4]);
    NothingSelected(StringKeys(), w, 0);
  }

  /**
   * A view can go stale: a client sets topic "a", subscribes to it and is removed; what its intact
   * connection got still shows the topic, and nothing is selected any more.
   */
  lemma RemovalCanLeaveStaleTopics() returns (es: seq<Event<Text>>)
    ensures |es| == 4 && es[3] == Remove(7)
    ensures AllAllowed(StringKeys(), Idle(map[]), es)
    ensures
      var end := Run(StringKeys(), Idle(map[]), es);
      && Invariant(StringKeys(), end) && 0 in end.links && !end.links[0].lost
      && ViewOfBytes(end.links[0].output) == Some(map[[97] := [1]])
      && Selected(StringKeys(), end, 0) == map[]
  {
    es := StaleRun()[..4];
    StaleReaches(4);
    StaleEnd(StaleWorld(4));
  }
}
