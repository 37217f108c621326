/** The server: one message at a time, from the bytes of a packet to the store and the connections. */
module Servers {
  import opened Wrappers
  import opened Bytes
  import opened Frames
  import opened Links
  import opened Messages
  import opened KeyKinds
  import opened Broker
  import opened BrokerInvariants
  import opened SubscriberView
  import opened Transcripts
  import opened Connections
  import opened DataStores
  import opened Packets
  import opened Subscriptions
  import Proto3

  /** The writing side of every connection, by handle. */
  ghost function LinksOf(net: set<Connection>): (links: map<nat, Link>)
    requires ToldApart(net)
    reads net`output, net`room, net`lost, net`kind
    ensures forall c :: c in net ==> c.handle in links && links[c.handle] == c.AsLink()
    ensures forall h :: h in links ==> exists c :: c in net && c.handle == h
  {
    map c | c in net :: c.handle := c.AsLink()
  }

  /** Batches sent to each connection of the net, one by one, are a delivery to the whole net. */
  lemma Delivered(net: set<Connection>, before: map<nat, Link>, ds: seq<Delivery>)
    requires ToldApart(net) && before.Keys == LinksOf(net).Keys
    requires forall c :: c in net ==> c.AsLink() == Send(before[c.handle], BytesTo(c.handle, ds))
    ensures LinksOf(net) == Deliver(before, ds)
  {
  }

  lemma OneMore(net: set<Connection>, connection: Connection)
    requires ToldApart(net) && forall c :: c in net ==> c.handle != connection.handle
    ensures ToldApart(net + {connection})
    ensures LinksOf(net + {connection}) == LinksOf(net)[connection.handle := connection.AsLink()]
  {
  }

  /** One link changed, and nothing else. */
  lemma Changed(net: set<Connection>, before: map<nat, Link>, connection: Connection)
    requires ToldApart(net) && before.Keys == LinksOf(net).Keys && connection in net
    requires forall c :: c in net && c != connection ==> c.AsLink() == before[c.handle]
    ensures LinksOf(net) == before[connection.handle := connection.AsLink()]
  {
  }

  lemma DeliverOne(links: map<nat, Link>, h: nat, f: Frame)
    requires h in links
    ensures Deliver(links, [Delivery(h, f)]) == links[h := Send(links[h], Wire(f))]
  {
    forall g | g in links
      ensures Send(links[g], BytesTo(g, [Delivery(h, f)])) == if g == h then Send(links[h], Wire(f)) else links[g]
    {
      OneDelivery(g, Delivery(h, f));
      SendNothing(links[g]);
    }
  }

  /** One frame written on one connection, and nothing else, is one delivery. */
  lemma Answered(net: set<Connection>, before: map<nat, Link>, connection: Connection, f: Frame)
    requires ToldApart(net) && before.Keys == LinksOf(net).Keys && connection in net
    requires forall c :: c in net && c != connection ==> c.AsLink() == before[c.handle]
    requires connection.AsLink() == Send(before[connection.handle], Wire(f))
    ensures LinksOf(net) == Deliver(before, [Delivery(connection.handle, f)])
  {
    Changed(net, before, connection);
    DeliverOne(before, connection.handle, f);
  }

  /** The state and the status are those of the reply. */
  ghost predicate Became<K>(state: World<K>, status: Status, r: Reply<K>) {
    match r
    case Reply(world, s, _) => state == world && status == s
  }

  class Server<K(==)> {
    const data: DataStore<K>
    /** All connections met so far. */
    ghost var net: set<Connection>

    /** The state of the broker, as the state machine sees it. */
    ghost function State(): World<K>
      requires ToldApart(net)
      reads `net, data, net`output, net`room, net`lost, net`kind
    {
      World(data.entries, Shapes(data.observers), LinksOf(net))
    }

    ghost predicate Valid()
      reads `net, data, net`output, net`room, net`lost, net`kind
    {
      data.Connected(net) && Lawful(data.kind) && Invariant(data.kind, State())
    }

    constructor (data: DataStore<K>)
      requires Lawful(data.kind) && data.entries == map[] && data.observers == []
      ensures Valid() && Traced() && this.data == data && net == {}
      ensures start == Idle(map[]) && history == []
    {
      this.data, net, history := data, {}, [];
      start := Idle(map[]);
    }

    ghost method Enter(connection: Connection)
      requires Valid() && Unused(connection.AsLink())
      requires forall c :: c in net ==> c.handle != connection.handle
      modifies `net
      ensures Valid() && net == old(net) + {connection}
      ensures State() == old(State()).(links := old(State()).links[connection.handle := connection.AsLink()])
    {
      OneMore(net, connection);
      net := net + {connection};
    }

    /** A connection is accepted; its handle is its own, and nothing has been written to it. */
    ghost method Meet(connection: Connection)
      requires Valid() && Traced() && Unused(connection.AsLink())
      requires forall c :: c in net ==> c.handle != connection.handle
      modifies `net, `history
      ensures Valid() && Traced() && net == old(net) + {connection}
      ensures history == old(history) + [Join(connection.handle, connection.AsLink())]
      ensures State() == old(State()).(links := old(State()).links[connection.handle := connection.AsLink()])
    {
      var before := State();
      Enter(connection);
      Record(before, Join(connection.handle, connection.AsLink()));
    }

    // ---------- answers ----------

    /** Marks the connection with its protocol version; there is an error if the version has none. */
    method MarkVersion(connection: Connection, level: byte) returns (error: bool)
      requires ToldApart(net) && connection in net
      modifies connection`kind
      ensures error == LevelKind(level).None?
      ensures var marked := if error then old(connection.AsLink()) else old(connection.AsLink()).(kind := LevelKind(level).value);
              connection.AsLink() == marked
    {
      error := false;
      if level == 3 {
        connection.SetConnectionType(MQTT_31);
      } else if level == 4 {
        connection.SetConnectionType(MQTT_311);
      } else if level == 5 {
        connection.SetConnectionType(MQTT_5);
      } else {
        error := true;
      }
    }

    method AnswerConnect(connection: Connection, level: byte) returns (status: Status)
      requires ToldApart(net) && connection in net
      modifies connection`kind, connection`output, connection`room, connection`lost
      ensures Became(State(), status, Connecting(old(State()), connection.handle, level))
    {
      ghost var before := LinksOf(net);
      var error := MarkVersion(connection, level);
      Changed(net, before, connection);
      ghost var marked := LinksOf(net);
      assert error ==> marked == before;
      var ok := Proto3.ConnectAckSendOn(error, connection);
      Answered(net, marked, connection, ConnectAckFrame(error));
      status := if ok then Ok else Failure;
    }

    method AnswerPing(connection: Connection) returns (status: Status)
      requires ToldApart(net) && connection in net
      modifies connection`output, connection`room, connection`lost
      ensures Became(State(), status, Answer(old(State()), connection.handle, PingResponseFrame()))
    {
      ghost var before := LinksOf(net);
      var ok := Proto3.PingResponseSendOn(connection);
      Answered(net, before, connection, PingResponseFrame());
      status := if ok then Ok else Failure;
    }

    method Acknowledge(connection: Connection, id: uint16) returns (status: Status)
      requires ToldApart(net) && connection in net
      modifies connection`output, connection`room, connection`lost
      ensures Became(State(), status, Answer(old(State()), connection.handle, SubscribeAckFrame(SubscribeAck(id, [0]))))
    {
      ghost var before := LinksOf(net);
      var ok := Proto3.SubscribeAckSendOn(SubscribeAck(id, [0]), connection);
      Answered(net, before, connection, SubscribeAckFrame(SubscribeAck(id, [0])));
      status := if ok then Ok else Failure;
    }

    method Close(connection: Connection)
      requires ToldApart(net) && connection in net
      modifies connection`open, connection`room
      ensures !connection.open
      ensures State() == Disconnecting(old(State()), connection.handle).world
    {
      ghost var before := LinksOf(net);
      connection.Shut();
      Changed(net, before, connection);
    }

    method Store(topic: Text, payload: seq<byte>)
      requires data.Connected(net) && Kept(data.kind, data.kind.encode(topic), payload)
      modifies data`entries, net`output, net`room, net`lost
      ensures State() == Setting(data.kind, old(State()), data.kind.encode(topic), payload).world
    {
      ghost var before := LinksOf(net);
      data.Set(data.kind.encode(topic), payload, net);
      Delivered(net, before, Notices(data.kind, Shapes(data.observers), data.kind.encode(topic), payload));
    }

    method Observe(o: ObserverEntry<K>) returns (ghost order: seq<K>)
      requires data.Connected(net) && o.connection in net
      requires forall k :: k in data.entries ==> Kept(data.kind, k, data.entries[k])
      modifies data`observers, net`output, net`room, net`lost
      ensures IsOrder(order, old(data.entries).Keys)
      ensures data.Connected(net)
      ensures State() == Observing(data.kind, old(State()), Shape(o), order).world
    {
      ghost var before := LinksOf(net);
      ShapesSnoc(data.observers, o);
      order := data.AddObserver(o, net);
      Delivered(net, before, Replay(data.kind, Shape(o), data.entries, order));
    }

    /** Acknowledges, and only after that registers the observer and lets it see what is stored. */
    method AnswerSubscribe(connection: Connection, id: uint16, observer: Option<ObserverEntry<K>>, ghost topics: seq<Text>)
      returns (status: Status, ghost order: seq<K>)
      requires data.Connected(net) && connection in net && Invariant(data.kind, State())
      requires observer == LastObserver(data.kind, connection, topics)
      modifies data`observers, net`output, net`room, net`lost
      ensures IsOrder(order, old(data.entries).Keys)
      ensures data.Connected(net)
      ensures Became(State(), status, Subscribing(data.kind, old(State()), connection.handle, id, topics, order))
    {
      status := Acknowledge(connection, id);
      if status == Failure || observer == None {
        order := SomeOrder(data.entries.Keys);
        return;
      }
      order := Observe(observer.value);
    }

    // ---------- messages ----------

    /** What a handler leaves: a packet that still owns the rest of its frame, unless the socket is shut. */
    ghost predicate Left(packet: Packet)
      reads `net, packet, packet.connection`position, packet.connection`open
    {
      match packet.Standing()
      case Gone => false
      case Loose => !packet.connection.open
      case Whole => packet.connection in net
    }

    ghost predicate Ready(packet: Packet)
      reads `net, packet, packet.connection`position, packet.connection`open
    {
      packet.Complete() && packet.connection in net
    }

    method HandleConnect(packet: Packet) returns (status: Status)
      requires ToldApart(net) && Ready(packet)
      requires ConnectReadable(packet.Unread()) && StrLength(packet.Unread()) <= NAME_SIZE
      modifies packet`bytesRemaining, packet.connection`position
      modifies packet.connection`kind, packet.connection`output, packet.connection`room, packet.connection`lost
      ensures packet.Complete()
      ensures Became(State(), status, Connecting(old(State()), packet.connection.handle, ReadConnect(old(packet.Unread())).result.value.level))
    {
      ghost var before, body := State(), packet.Unread();
      var connect := Proto3.ConnectReadFrom(packet);
      assert State() == before;
      assert connect == ReadConnect(body).result;
      status := AnswerConnect(packet.connection, connect.value.level);
    }

    /** Topic and payload, if the topic is not too long. */
    method ReadPost(packet: Packet) returns (topic: Option<Text>, payload: seq<byte>)
      requires packet.Complete() && PublishReadable(FlagsOf(packet.control), packet.Unread())
      modifies packet`bytesRemaining, packet.connection`position
      ensures packet.Complete()
      ensures var r := ReadPublish(FlagsOf(packet.control), old(packet.Unread()));
              topic == r.result && (topic.Some? ==> payload == r.unread)
    {
      payload := [];
      var payloadBytes;
      topic, payloadBytes := Proto3.PublishReadFrom(packet, FlagsOf(packet.control));
      if topic.Some? {
        var ok;
        ok, payload := packet.Read(payloadBytes);
      }
    }

    method HandlePublish(packet: Packet) returns (status: Status)
      requires data.Connected(net) && Ready(packet)
      requires PublishReadable(FlagsOf(packet.control), packet.Unread())
      requires var r := ReadPublish(FlagsOf(packet.control), packet.Unread());
               r.result.Some? ==> Kept(data.kind, data.kind.encode(r.result.value), r.unread)
      modifies packet`bytesRemaining, packet.connection`position
      modifies data`entries, net`output, net`room, net`lost
      ensures packet.Complete()
      ensures var p := ReadPublish(FlagsOf(packet.control), old(packet.Unread()));
              Became(State(), status, if p.result.None? then Failed(old(State()))
                                      else Setting(data.kind, old(State()), data.kind.encode(p.result.value), p.unread))
    {
      var topic, payload := ReadPost(packet);
      if topic.None? {
        return Failure;
      }
      Store(topic.value, payload);
      status := Ok;
    }

    /** The packet id and the observer for the last topic, if all topics were accepted. */
    method ReadWatch(packet: Packet) returns (id: Option<uint16>, observer: Option<ObserverEntry<K>>, ghost topics: seq<Text>)
      requires ToldApart(net) && packet.Complete() && SubscribeReadable(packet.Unread())
      requires FiltersFit(data.kind, ScanTopics(packet.Unread()[2..]).calls)
      modifies packet`bytesRemaining, packet.connection`position
      ensures packet.Complete() && State() == old(State())
      ensures id == ReadSubscribe(old(packet.Unread())).result && topics == ScanTopics(old(packet.Unread())[2..]).calls
      ensures id.Some? ==> observer == LastObserver(data.kind, packet.connection, topics)
    {
      var callback := new TopicCallback<K>(data.kind, packet.connection);
      id := SubscribeReadFrom(packet, callback);
      observer, topics := callback.observer, callback.calls;
    }

    method HandleSubscribe(packet: Packet) returns (status: Status, ghost order: seq<K>)
      requires data.Connected(net) && Invariant(data.kind, State()) && Ready(packet)
      requires SubscribeReadable(packet.Unread())
      requires FiltersFit(data.kind, ScanTopics(packet.Unread()[2..]).calls)
      modifies packet`bytesRemaining, packet.connection`position
      modifies data`observers, net`output, net`room, net`lost
      ensures packet.Complete()
      ensures IsOrder(order, old(data.entries).Keys)
      ensures data.Connected(net)
      ensures var p := ReadSubscribe(old(packet.Unread()));
              Became(State(), status, if p.result.None? then Failed(old(State()))
                                      else Subscribing(data.kind, old(State()), packet.connection.handle, p.result.value,
                                                       ScanTopics(old(packet.Unread())[2..]).calls, order))
    {
      ghost var before, body := State(), packet.Unread();
      var id, observer;
      ghost var topics;
      id, observer, topics := ReadWatch(packet);
      assert id == ReadSubscribe(body).result && topics == ScanTopics(body[2..]).calls && State() == before;
      if id.Some? {
        status, order := AnswerSubscribe(packet.connection, id.value, observer, topics);
        assert Became(State(), status, Subscribing(data.kind, before, packet.connection.handle, id.value, topics, order));
      } else {
        status := Failure;
        order := SomeOrder(data.entries.Keys);
      }
    }

    method HandlePing(packet: Packet) returns (status: Status)
      requires ToldApart(net) && Ready(packet)
      modifies packet.connection`output, packet.connection`room, packet.connection`lost
      ensures packet.Complete()
      ensures Became(State(), status, Answer(old(State()), packet.connection.handle, PingResponseFrame()))
    {
      status := AnswerPing(packet.connection);
    }

    method HandleDisconnect(packet: Packet) returns (status: Status)
      requires ToldApart(net) && Ready(packet)
      modifies packet.connection`open, packet.connection`room
      ensures packet.Valid() && !packet.connection.open
      ensures Became(State(), status, Disconnecting(old(State()), packet.connection.handle))
    {
      Close(packet.connection);
      status := Ok;
    }

    /** The message types whose body the broker does not read. */
    method DispatchOther(packet: Packet, ghost m: Message, ghost order: seq<K>) returns (status: Status)
      requires ToldApart(net) && Ready(packet) && TypeOf(packet.control) !in {CONNECT, PUBLISH, SUBSCRIBE}
      requires m == if TypeOf(packet.control) == PINGREQ then Ping
                    else if TypeOf(packet.control) == DISCONNECT then Bye
                    else Bad
      requires forall i :: 0 <= i < |order| ==> order[i] in data.entries
      modifies packet.connection`open, packet.connection`output, packet.connection`room, packet.connection`lost
      ensures Left(packet) && (packet.connection.open <==> !(0xE0 <= packet.control <= 0xEF))
      ensures Became(State(), status, Act(data.kind, old(State()), packet.connection.handle, m, order))
    {
      if TypeOf(packet.control) == PINGREQ {
        status := HandlePing(packet);
      } else if TypeOf(packet.control) == DISCONNECT {
        status := HandleDisconnect(packet);
      } else {
        status := Failure;
      }
    }

    method Dispatch(packet: Packet) returns (status: Status, ghost order: seq<K>)
      requires data.Connected(net) && Lawful(data.kind) && Invariant(data.kind, State())
      requires Ready(packet) && Readable(data.kind, packet.control, packet.Unread())
      modifies packet`bytesRemaining, packet.connection`position, packet.connection`kind, packet.connection`open
      modifies data, net`output, net`room, net`lost
      ensures data.Connected(net) && Left(packet) && (packet.connection.open <==> !(0xE0 <= packet.control <= 0xEF))
      ensures IsOrder(order, old(data.entries).Keys)
      ensures Became(State(), status, Act(data.kind, old(State()), packet.connection.handle,
                                          Parse(packet.control, old(packet.Unread())), order))
    {
      ghost var before, m, h := State(), Parse(packet.control, packet.Unread()), packet.connection.handle;
      ParsedIsPublishable(data.kind, packet.control, packet.Unread());
      order := SomeOrder(data.entries.Keys);
      if TypeOf(packet.control) == CONNECT {
        assert m.Hello?;
        status := HandleConnect(packet);
        assert Became(State(), status, Act(data.kind, before, h, m, order));
      } else if TypeOf(packet.control) == PUBLISH {
        assert m.Post? || m.Bad?;
        status := HandlePublish(packet);
        assert Became(State(), status, Act(data.kind, before, h, m, order));
      } else if TypeOf(packet.control) == SUBSCRIBE {
        assert m.Watch? || m.Bad?;
        status, order := HandleSubscribe(packet);
        assert Became(State(), status, Act(data.kind, before, h, m, order));
      } else {
        status := DispatchOther(packet, m, order);
      }
    }

    /**
     * One message: what the broker's state machine does with the frame, on the heap. A DISCONNECT, and
     * nothing else, closes the socket.
     */
    method HandleMessage(packet: Packet) returns (status: Status, ghost order: seq<K>)
      requires Valid() && Ready(packet) && Readable(data.kind, packet.control, packet.Unread())
      modifies packet`bytesRemaining, packet.connection`position, packet.connection`kind, packet.connection`open
      modifies data, net`output, net`room, net`lost
      ensures Valid() && Left(packet) && (packet.connection.open <==> !(0xE0 <= packet.control <= 0xEF))
      ensures IsOrder(order, old(data.entries).Keys)
      ensures Became(State(), status, Act(data.kind, old(State()), packet.connection.handle,
                                          Parse(packet.control, old(packet.Unread())), order))
    {
      ghost var before, m := State(), Parse(packet.control, packet.Unread());
      ParsedIsPublishable(data.kind, packet.control, packet.Unread());
      status, order := Dispatch(packet);
      ActKeeps(data.kind, before, packet.connection.handle, m, order);
    }

    // ---------- runs ----------

    /** The state in which the current observation began, and what has happened since. */
    ghost var start: World<K>
    ghost var history: seq<Event<K>>

    /** The state is the outcome of the run recorded in the history. */
    ghost predicate Recorded(w: World<K>)
      reads `start, `history
    {
      Invariant(data.kind, start) && Outcome(data.kind, start, history) == Some(w)
    }

    /** The frames whose writing on a connection was tried since then. */
    ghost function Sent(h: nat): seq<Frame>
      requires Outcome(data.kind, start, history).Some?
      reads `start, `history
    {
      FramesTo(h, RunSends(data.kind, start, history))
    }

    ghost predicate Traced()
      requires ToldApart(net)
      reads this, data, net`output, net`room, net`lost, net`kind
    {
      Recorded(State())
    }

    /** Starts a new observation from the present state. */
    ghost method Restart()
      requires Valid()
      modifies `start, `history
      ensures Valid() && Traced() && start == State() && history == []
    {
      start, history := State(), [];
    }

    /** The next frame is there as a whole, and its fields are well-formed. */
    ghost predicate FrameAhead(connection: Connection)
      requires connection.Valid()
      reads connection`position, connection`open
    {
      match Frames.ReadHeader(connection.Unread())
      case None => false
      case Some(h) =>
        && connection.open && h.used + h.size <= |connection.Unread()|
        && Readable(data.kind, h.control, connection.Unread()[h.used..h.used + h.size])
    }

    ghost function NextFrame(connection: Connection): Frame
      requires connection.Valid() && FrameAhead(connection)
      reads connection`position, connection`open
    {
      var s, h := connection.Unread(), Frames.ReadHeader(connection.Unread()).value;
      Frame(h.control, s[h.used..h.used + h.size])
    }

    /** Where in the input the next frame ends. */
    ghost function NextEnd(connection: Connection): nat
      requires connection.Valid() && FrameAhead(connection)
      reads connection`position, connection`open
    {
      var h := Frames.ReadHeader(connection.Unread()).value;
      connection.position + h.used + h.size
    }

    /** Adds an event to the history once its step has been taken. */
    ghost method Record(before: World<K>, e: Event<K>)
      requires ToldApart(net) && Recorded(before)
      requires Allowed(data.kind, before, e) && State() == Step(data.kind, before, e).world
      modifies `history
      ensures Traced() && history == old(history) + [e]
    {
      OutcomeSnoc(data.kind, start, history, before, e);
      history := history + [e];
    }

    /** The packet that owns the next frame. */
    method NextPacket(connection: Connection) returns (packet: Packet)
      requires connection.Valid() && FrameAhead(connection)
      modifies connection`position
      ensures fresh(packet) && packet.Complete() && packet.connection == connection
      ensures Frame(packet.control, packet.Unread()) == old(NextFrame(connection))
      ensures packet.end == old(NextEnd(connection))
      ensures Readable(data.kind, packet.control, packet.Unread())
    {
      var next := Packet.ReadNext(connection);
      packet := next.value;
      assert packet.Unread() == old(NextFrame(connection)).body;
    }

    /**
     * One frame from a connection: read its header, handle it, destroy the packet. Afterwards the
     * connection stands at the first byte of the next frame, whatever of this one was left unread.
     */
    method Serve(connection: Connection) returns (status: Status, ghost order: seq<K>)
      requires Valid() && connection in net && connection.Valid() && FrameAhead(connection)
      modifies connection`position, connection`kind, connection`open
      modifies data, net`output, net`room, net`lost
      ensures Valid() && connection.Valid() && IsOrder(order, old(data.entries).Keys)
      ensures connection.open <==> !(0xE0 <= old(NextFrame(connection)).control <= 0xEF)
      ensures connection.open ==> connection.position == old(NextEnd(connection))
      ensures var f := old(NextFrame(connection));
              Became(State(), status, Act(data.kind, old(State()), connection.handle, Parse(f.control, f.body), order))
    {
      ghost var f, before := NextFrame(connection), State();
      var packet := NextPacket(connection);
      assert packet.control == f.control && packet.Unread() == f.body && State() == before;
      status, order := HandleMessage(packet);
      assert Became(State(), status, Act(data.kind, before, connection.handle, Parse(f.control, f.body), order));
      Finish(packet);
    }

    /** The packet goes out of scope; the broker's state does not notice. */
    method Finish(packet: Packet)
      requires Valid() && packet.Valid()
      modifies packet`alive, packet.connection`position
      ensures Valid() && packet.connection.Valid() && State() == old(State())
      ensures old(packet.Complete()) ==> packet.connection.position == packet.end
    {
      packet.Destroy();
    }

    /** Serves a frame and records it in the history. */
    method ServeTraced(connection: Connection) returns (status: Status, ghost order: seq<K>)
      requires Valid() && Traced() && connection in net && connection.Valid() && FrameAhead(connection)
      modifies connection`position, connection`kind, connection`open
      modifies `history, data, net`output, net`room, net`lost
      ensures Valid() && Traced() && connection.Valid()
      ensures connection.open <==> !(0xE0 <= old(NextFrame(connection)).control <= 0xEF)
      ensures var f := old(NextFrame(connection));
              history == old(history) + [Arrive(connection.handle, f.control, f.body, order)]
    {
      ghost var before, f := State(), NextFrame(connection);
      status, order := Serve(connection);
      Record(before, Arrive(connection.handle, f.control, f.body, order));
    }

    /** The client is gone: its observers are removed from the store. */
    method RemoveObservers(clientId: nat)
      requires Valid()
      modifies data`observers
      ensures Valid()
      ensures State() == Step(data.kind, old(State()), Remove(clientId)).world
    {
      RemoveKeeps(data.kind, State(), clientId);
      data.RemoveObserversForClient(clientId);
    }

    method RemoveObserversTraced(clientId: nat)
      requires Valid() && Traced()
      modifies `history, data`observers
      ensures Valid() && Traced() && history == old(history) + [Remove(clientId)]
    {
      ghost var before := State();
      RemoveObservers(clientId);
      Record(before, Remove(clientId));
    }

    /**
     * What a subscriber sees of the real store: if its connection had no observers when the
     * observation began (no connection has any when the server is made), then parsing what has been
     * written on it since gives all the stored entries that its filters select, and nothing else
     * exactly when all the topics sent to it are still watched.
     */
    lemma SubscriberSees(connection: Connection)
      requires Valid() && Traced() && connection in net && !connection.lost
      requires Unobserved(start, connection.handle)
      ensures
        var before := OutputOf(start.links, connection.handle);
        && before <= connection.output
        && Sees(data.kind, State(), connection.handle, SentTopics(Sent(connection.handle)),
                ViewOfBytes(connection.output[|before|..]))
    {
      SubscriberSeesStore(data.kind, start, history, connection.handle);
      assert State().links[connection.handle] == connection.AsLink();
    }

    /**
     * What has been written on a connection since it had no observers is the transcript of the recorded
     * events, whole if no write on it has failed.
     */
    lemma WritesTranscript(connection: Connection)
      requires Valid() && Traced() && connection in net && Unobserved(start, connection.handle)
      ensures Carrying(OutputOf(start.links, connection.handle), connection.AsLink(),
                       Flatten(Transcript(data.kind, Listener([], Everything(data.kind, start)), connection.client, connection.handle, history)))
    {
      OutputIsTranscript(data.kind, start, history, connection.handle);
      assert State().links[connection.handle] == connection.AsLink();
    }

    /** As long as the client's observers have not been removed, it is exactly what its filters select. */
    lemma UndisturbedSubscriberSees(connection: Connection)
      requires Valid() && Traced() && connection in net && !connection.lost
      requires Unobserved(start, connection.handle) && AllUndisturbed(history, connection.client)
      ensures
        var before := OutputOf(start.links, connection.handle);
        && before <= connection.output
        && ViewOfBytes(connection.output[|before|..]) == Some(Selected(data.kind, State(), connection.handle))
    {
      assert State().links[connection.handle] == connection.AsLink();
      UndisturbedViewIsExact(data.kind, start, history, connection.handle);
    }
  }

  /** Any set of keys can be walked in some order. */
  lemma {:induction false} SomeOrder<K>(keys: set<K>) returns (order: seq<K>)
    ensures IsOrder(order, keys)
    decreases |keys|
  {
    if keys == {} {
      order := [];
    } else {
      var key :| key in keys;
      var rest := SomeOrder(keys - {key});
      order := rest + [key];
      assert order[..|order| - 1] == rest;
      forall k | k in keys ensures k in Elements(order) {
        if k == key {
          assert order[|rest|] == k;
        } else {
          assert k in Elements(rest);
          var i :| 0 <= i < |rest| && rest[i] == k;
          assert order[i] == k;
        }
      }
      forall i | 0 <= i < |rest| ensures order[i] != key {
        assert rest[i] in Elements(rest);
      }
    }
  }
}
