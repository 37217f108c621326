/**
 * The broker as a state machine on values: retained entries, the ordered observers, and the writing
 * side of every connection. The classes of the store and the server are proved against it.
 */
module Broker {
  import opened Wrappers
  import opened Bytes
  import opened Frames
  import opened Links
  import opened Messages
  import opened KeyKinds
  import RemainingLength

  datatype Matcher<+K> = Full(target: K) | Prefix(target: K)

  predicate Matches<K(==)>(kind: KeyKind<K>, m: Matcher<K>, key: K) {
    match m
    case Full(target) => target == key
    case Prefix(target) => kind.hasPrefix(target, key)
  }

  /** An observer of the store: who asked, which keys, and the connection that hears of them. */
  datatype Observer<+K> = Observer(client: nat, matcher: Matcher<K>, handle: nat)

  datatype World<K> = World(entries: map<K, seq<byte>>, observers: seq<Observer<K>>, links: map<nat, Link>)

  /** A frame on its way to a connection. */
  datatype Delivery = Delivery(handle: nat, frame: Frame)

  // ---------- deliveries ----------

  function FramesTo(h: nat, ds: seq<Delivery>): seq<Frame> {
    if ds == [] then []
    else
      var last := ds[|ds| - 1];
      FramesTo(h, ds[..|ds| - 1]) + (if last.handle == h then [last.frame] else [])
  }

  function BytesTo(h: nat, ds: seq<Delivery>): seq<byte> {
    Flatten(FramesTo(h, ds))
  }

  function Deliver(links: map<nat, Link>, ds: seq<Delivery>): (after: map<nat, Link>)
    ensures after.Keys == links.Keys
  {
    map h | h in links :: Send(links[h], BytesTo(h, ds))
  }

  // ---------- the store ----------

  /** What one observer's handler sends when it is shown an entry. */
  function Shown<K(==)>(kind: KeyKind<K>, o: Observer<K>, key: K, value: seq<byte>): seq<Delivery> {
    if Matches(kind, o.matcher, key) then [Delivery(o.handle, PublishFrame(kind.decode(key), value))] else []
  }

  /** One entry shown to every observer, in the order in which they registered. */
  function Notices<K(==)>(kind: KeyKind<K>, observers: seq<Observer<K>>, key: K, value: seq<byte>): seq<Delivery> {
    if observers == [] then []
    else
      Notices(kind, observers[..|observers| - 1], key, value)
      + Shown(kind, observers[|observers| - 1], key, value)
  }

  /** Every entry shown to one observer, in the given order of keys. */
  function Replay<K(==)>(kind: KeyKind<K>, o: Observer<K>, entries: map<K, seq<byte>>, order: seq<K>): seq<Delivery>
    requires forall i :: 0 <= i < |order| ==> order[i] in entries
  {
    if order == [] then []
    else
      var key := order[|order| - 1];
      Replay(kind, o, entries, order[..|order| - 1]) + Shown(kind, o, key, entries[key])
  }

  function Elements<K>(order: seq<K>): set<K> {
    set i | 0 <= i < |order| :: order[i]
  }

  ghost predicate Distinct<K>(order: seq<K>) {
    forall i, j :: 0 <= i < j < |order| ==> order[i] != order[j]
  }

  /** Each of the keys exactly once. */
  ghost predicate IsOrder<K>(order: seq<K>, keys: set<K>) {
    && Elements(order) == keys
    && Distinct(order)
    && forall i :: 0 <= i < |order| ==> order[i] in keys
  }

  /** The observers that other clients registered. */
  function Others<K>(observers: seq<Observer<K>>, client: nat): seq<Observer<K>> {
    if observers == [] then []
    else
      var last, rest := observers[|observers| - 1], Others(observers[..|observers| - 1], client);
      if last.client == client then rest else rest + [last]
  }

  // ---------- messages ----------

  /** The part of a filter that becomes the key: a filter with a `#` loses its last character. */
  function Stem(topic: Text): Text {
    if HASH in topic then topic[..|topic| - 1] else topic
  }

  function FilterOf<K>(kind: KeyKind<K>, topic: Text): Matcher<K> {
    if HASH in topic then Prefix(kind.encode(Stem(topic))) else Full(kind.encode(Stem(topic)))
  }

  /** What the broker understands of a frame. */
  datatype Message =
    | Hello(level: byte)
    | Post(topic: Text, payload: seq<byte>)
    | Watch(id: uint16, topics: seq<Text>)
    | Ping
    | Bye
    | Bad

  /** A whole frame of a size that four length bytes can announce and with well-formed fields. */
  predicate Formed(control: byte, body: seq<byte>) {
    && |body| <= RemainingLength.MAX
    && (TypeOf(control) == CONNECT ==> ConnectReadable(body) && StrLength(body) <= NAME_SIZE)
    && (TypeOf(control) == PUBLISH ==> PublishReadable(FlagsOf(control), body))
    && (TypeOf(control) == SUBSCRIBE ==> SubscribeReadable(body))
  }

  function Parse(control: byte, body: seq<byte>): Message
    requires Formed(control, body)
  {
    if TypeOf(control) == CONNECT then
      Hello(ReadConnect(body).result.value.level)
    else if TypeOf(control) == PUBLISH then
      var r := ReadPublish(FlagsOf(control), body);
      if r.result.None? then Bad else Post(r.result.value, r.unread)
    else if TypeOf(control) == SUBSCRIBE then
      var r := ReadSubscribe(body);
      if r.result.None? then Bad else Watch(r.result.value, ScanTopics(body[2..]).calls)
    else if TypeOf(control) == PINGREQ then Ping
    else if TypeOf(control) == DISCONNECT then Bye
    else Bad
  }

  /** Every topic that the broker turns into a key, accepted in the end or not, fits the key type. */
  predicate Readable<K>(kind: KeyKind<K>, control: byte, body: seq<byte>) {
    && Formed(control, body)
    && (Parse(control, body).Post? ==> kind.fits(Parse(control, body).topic))
    && (TypeOf(control) == SUBSCRIBE ==> FiltersFit(kind, ScanTopics(body[2..]).calls))
  }

  predicate FiltersFit<K>(kind: KeyKind<K>, calls: seq<Text>) {
    forall i :: 0 <= i < |calls| && Accepts(calls[i]) ==> kind.fits(Stem(calls[i]))
  }

  /** The outcome of one message: the new state, the status, and the frames whose writing was tried. */
  datatype Reply<K> = Reply(world: World<K>, status: Status, sends: seq<Delivery>)

  function Failed<K>(w: World<K>): Reply<K> {
    Reply(w, Failure, [])
  }

  function LevelKind(level: byte): Option<ConnectionType> {
    if level == 3 then Some(MQTT_31)
    else if level == 4 then Some(MQTT_311)
    else if level == 5 then Some(MQTT_5)
    else None
  }

  /** Sends one frame back on the connection the message came from. */
  function Answer<K>(w: World<K>, h: nat, f: Frame): (r: Reply<K>)
    requires h in w.links
    ensures r.world.links.Keys == w.links.Keys
  {
    var ds := [Delivery(h, f)];
    Reply(w.(links := Deliver(w.links, ds)), if |Wire(f)| <= w.links[h].room then Ok else Failure, ds)
  }

  function Connecting<K>(w: World<K>, h: nat, level: byte): (r: Reply<K>)
    requires h in w.links
    ensures r.world.links.Keys == w.links.Keys
  {
    var kind := LevelKind(level);
    var marked := if kind.None? then w else w.(links := w.links[h := w.links[h].(kind := kind.value)]);
    Answer(marked, h, ConnectAckFrame(kind.None?))
  }

  /** Stores an entry and shows it to all observers. */
  function Setting<K(==)>(kind: KeyKind<K>, w: World<K>, key: K, value: seq<byte>): (r: Reply<K>)
    ensures r.world.links.Keys == w.links.Keys
  {
    var ds := Notices(kind, w.observers, key, value);
    Reply(World(w.entries[key := value], w.observers, Deliver(w.links, ds)), Ok, ds)
  }

  /** Registers an observer and shows it all entries. */
  function Observing<K(==)>(kind: KeyKind<K>, w: World<K>, o: Observer<K>, order: seq<K>): (r: Reply<K>)
    requires forall i :: 0 <= i < |order| ==> order[i] in w.entries
    ensures r.world.links.Keys == w.links.Keys
  {
    var ds := Replay(kind, o, w.entries, order);
    Reply(World(w.entries, w.observers + [o], Deliver(w.links, ds)), Ok, ds)
  }

  /** The acknowledgement first; then, if it went out, the last filter's observer and its replay. */
  function Subscribing<K(==)>(kind: KeyKind<K>, w: World<K>, h: nat, id: uint16, topics: seq<Text>, order: seq<K>): (r: Reply<K>)
    requires h in w.links
    requires forall i :: 0 <= i < |order| ==> order[i] in w.entries
    ensures r.world.links.Keys == w.links.Keys
  {
    Registering(kind, Answer(w, h, SubscribeAckFrame(SubscribeAck(id, [0]))), h, topics, order)
  }

  function Registering<K(==)>(kind: KeyKind<K>, ack: Reply<K>, h: nat, topics: seq<Text>, order: seq<K>): (r: Reply<K>)
    requires h in ack.world.links
    requires forall i :: 0 <= i < |order| ==> order[i] in ack.world.entries
    ensures r.world.links.Keys == ack.world.links.Keys
  {
    if ack.status.Failure? || topics == [] then ack
    else
      var added := Observing(kind, ack.world, SubscriberOf(kind, ack.world, h, topics), order);
      Reply(added.world, Ok, ack.sends + added.sends)
  }

  /** The observer that a SUBSCRIBE leaves behind: each accepted topic replaces the one before it. */
  function SubscriberOf<K>(kind: KeyKind<K>, w: World<K>, h: nat, topics: seq<Text>): Observer<K>
    requires h in w.links && topics != []
  {
    Observer(w.links[h].client, FilterOf(kind, topics[|topics| - 1]), h)
  }

  function Disconnecting<K>(w: World<K>, h: nat): (r: Reply<K>)
    requires h in w.links
    ensures r.world.links.Keys == w.links.Keys
  {
    Reply(w.(links := w.links[h := Close(w.links[h])]), Ok, [])
  }

  /** One message from the connection `h`; `order` is the order in which a new observer gets its replay. */
  function Act<K(==)>(kind: KeyKind<K>, w: World<K>, h: nat, m: Message, order: seq<K>): (r: Reply<K>)
    requires h in w.links
    requires forall i :: 0 <= i < |order| ==> order[i] in w.entries
    ensures r.world.links.Keys == w.links.Keys
  {
    match m
    case Hello(level) => Connecting(w, h, level)
    case Post(topic, payload) => Setting(kind, w, kind.encode(topic), payload)
    case Watch(id, topics) => Subscribing(kind, w, h, id, topics, order)
    case Ping => Answer(w, h, PingResponseFrame())
    case Bye => Disconnecting(w, h)
    case Bad => Failed(w)
  }

  // ---------- runs ----------

  /** What can happen: a new connection, a frame on a connection, or the removal of a client's observers. */
  datatype Event<K> =
    | Join(handle: nat, link: Link)
    | Arrive(handle: nat, control: byte, body: seq<byte>, order: seq<K>)
    | Remove(client: nat)

  ghost predicate Allowed<K>(kind: KeyKind<K>, w: World<K>, e: Event<K>) {
    && (e.Join? ==> e.handle !in w.links && Unused(e.link))
    && (e.Arrive? ==> e.handle in w.links && Readable(kind, e.control, e.body) && IsOrder(e.order, w.entries.Keys))
  }

  ghost function Step<K>(kind: KeyKind<K>, w: World<K>, e: Event<K>): (r: Reply<K>)
    requires Allowed(kind, w, e)
    ensures w.links.Keys <= r.world.links.Keys
  {
    match e
    case Join(h, link) => Reply(w.(links := w.links[h := link]), Ok, [])
    case Arrive(h, control, body, order) =>
      assert forall i :: 0 <= i < |order| ==> order[i] in Elements(order);
      Act(kind, w, h, Parse(control, body), order)
    case Remove(client) => Reply(w.(observers := Others(w.observers, client)), Ok, [])
  }

  ghost predicate AllAllowed<K>(kind: KeyKind<K>, w: World<K>, es: seq<Event<K>>)
    decreases |es|
  {
    es == [] || (Allowed(kind, w, es[0]) && AllAllowed(kind, Step(kind, w, es[0]).world, es[1..]))
  }

  ghost function Run<K>(kind: KeyKind<K>, w: World<K>, es: seq<Event<K>>): (end: World<K>)
    requires AllAllowed(kind, w, es)
    ensures w.links.Keys <= end.links.Keys
    decreases |es|
  {
    if es == [] then w else Run(kind, Step(kind, w, es[0]).world, es[1..])
  }

  /** Where a run leads, if each of its events can happen when its turn comes. */
  ghost function Outcome<K>(kind: KeyKind<K>, w: World<K>, es: seq<Event<K>>): Option<World<K>> {
    if AllAllowed(kind, w, es) then Some(Run(kind, w, es)) else None
  }

  /** All frames whose writing was tried during a run, in order. */
  ghost function RunSends<K>(kind: KeyKind<K>, w: World<K>, es: seq<Event<K>>): seq<Delivery>
    requires AllAllowed(kind, w, es)
    decreases |es|
  {
    if es == [] then []
    else Step(kind, w, es[0]).sends + RunSends(kind, Step(kind, w, es[0]).world, es[1..])
  }
}
