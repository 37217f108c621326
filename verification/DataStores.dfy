/** The retained store: entries, and observers that hear of them over their connections. */
module DataStores {
  import opened Wrappers
  import opened Bytes
  import opened Frames
  import opened Links
  import opened Messages
  import opened KeyKinds
  import opened Broker
  import opened BrokerInvariants
  import opened Connections
  import Proto3

  /** A registered observer: its handler's matcher and the connection the handler writes to. */
  datatype ObserverEntry<+K> = ObserverEntry(clientId: nat, matcher: Matcher<K>, connection: Connection)

  ghost function Shape<K>(o: ObserverEntry<K>): Observer<K> {
    Observer(o.clientId, o.matcher, o.connection.handle)
  }

  ghost function Shapes<K>(observers: seq<ObserverEntry<K>>): seq<Observer<K>> {
    seq(|observers|, i requires 0 <= i < |observers| => Shape(observers[i]))
  }

  /** Different sockets have different handles. */
  ghost predicate ToldApart(net: set<Connection>) {
    forall c, d :: c in net && d in net && c.handle == d.handle ==> c == d
  }

  lemma ShapesSnoc<K>(observers: seq<ObserverEntry<K>>, o: ObserverEntry<K>)
    ensures Shapes(observers + [o]) == Shapes(observers) + [Shape(o)]
  {
  }

  lemma SendBatches(l: Link, h: nat, ds: seq<Delivery>, es: seq<Delivery>)
    ensures Send(Send(l, BytesTo(h, ds)), BytesTo(h, es)) == Send(l, BytesTo(h, ds + es))
  {
    BytesToConcat(h, ds, es);
    SendConcat(l, BytesTo(h, ds), BytesTo(h, es));
  }

  lemma NoBatch(l: Link, h: nat)
    ensures Send(l, BytesTo(h, [])) == l
  {
    SendNothing(l);
  }

  class DataStore<K(==)> {
    const kind: KeyKind<K>
    var entries: map<K, seq<byte>>
    var observers: seq<ObserverEntry<K>>

    constructor (kind: KeyKind<K>)
      ensures this.kind == kind && entries == map[] && observers == []
    {
      this.kind, entries, observers := kind, map[], [];
    }

    ghost predicate Connected(net: set<Connection>)
      reads this
    {
      ToldApart(net) && forall i :: 0 <= i < |observers| ==> observers[i].connection in net
    }

    /** An observer's handler: a PUBLISH on its connection if the key matches, and nothing otherwise. */
    method Call(o: ObserverEntry<K>, key: K, value: seq<byte>, ghost net: set<Connection>) returns (ok: bool)
      requires ToldApart(net) && o.connection in net && Kept(kind, key, value)
      modifies net`output, net`room, net`lost
      ensures ok <==> !Matches(kind, o.matcher, key) || |Wire(PublishFrame(kind.decode(key), value))| <= old(o.connection.room)
      ensures forall c :: c in net ==>
                c.AsLink() == Send(old(c.AsLink()), BytesTo(c.handle, Shown(kind, Shape(o), key, value)))
    {
      ghost var before := o.connection.AsLink();
      ok := true;
      if Matches(kind, o.matcher, key) {
        var topic := kind.decode(key);
        ok := Proto3.PublishSendOn(topic, value, o.connection);
      }
      forall c | c in net
        ensures c.AsLink() == Send(old(c.AsLink()), BytesTo(c.handle, Shown(kind, Shape(o), key, value)))
      {
        OneDelivery(c.handle, Delivery(o.connection.handle, PublishFrame(kind.decode(key), value)));
        SendNothing(old(c.AsLink()));
      }
    }

    /** Shows a stored entry to every observer, in the order of registration. */
    method NotifyObservers(key: K, ghost net: set<Connection>)
      requires Connected(net) && key in entries && Kept(kind, key, entries[key])
      modifies net`output, net`room, net`lost
      ensures forall c :: c in net ==>
                c.AsLink() == Send(old(c.AsLink()), BytesTo(c.handle, Notices(kind, Shapes(observers), key, entries[key])))
    {
      var value := entries[key];
      forall c | c in net ensures Send(c.AsLink(), BytesTo(c.handle, [])) == c.AsLink() {
        NoBatch(c.AsLink(), c.handle);
      }
      for i := 0 to |observers|
        invariant forall c :: c in net ==>
                    c.AsLink() == Send(old(c.AsLink()), BytesTo(c.handle, Notices(kind, Shapes(observers[..i]), key, value)))
      {
        var ok := Call(observers[i], key, value, net);
        NextNotice(i, key, value);
        forall c | c in net
          ensures c.AsLink() == Send(old(c.AsLink()), BytesTo(c.handle, Notices(kind, Shapes(observers[..i + 1]), key, value)))
        {
          SendBatches(old(c.AsLink()), c.handle, Notices(kind, Shapes(observers[..i]), key, value),
                      Shown(kind, Shape(observers[i]), key, value));
        }
      }
      assert observers[..|observers|] == observers;
    }

    lemma {:induction false} NextNotice(i: nat, key: K, value: seq<byte>)
      requires i < |observers|
      ensures Notices(kind, Shapes(observers[..i + 1]), key, value)
              == Notices(kind, Shapes(observers[..i]), key, value) + Shown(kind, Shape(observers[i]), key, value)
    {
      var front, all := Shapes(observers[..i]), Shapes(observers[..i + 1]);
      assert all[..|all| - 1] == front && all[|all| - 1] == Shape(observers[i]);
    }

    /** Replaces the entry under the key and tells every observer. */
    method Set(key: K, value: seq<byte>, ghost net: set<Connection>)
      requires Connected(net) && Kept(kind, key, value)
      modifies `entries, net`output, net`room, net`lost
      ensures entries == old(entries)[key := value]
      ensures forall c :: c in net ==>
                c.AsLink() == Send(old(c.AsLink()), BytesTo(c.handle, Notices(kind, Shapes(observers), key, value)))
    {
      entries := entries - {key};
      entries := entries[key := value];
      NotifyObservers(key, net);
    }

    /** Registers an observer and shows it everything stored, in whatever order the map is walked. */
    method AddObserver(o: ObserverEntry<K>, ghost net: set<Connection>) returns (ghost order: seq<K>)
      requires Connected(net) && o.connection in net
      requires forall k :: k in entries ==> Kept(kind, k, entries[k])
      modifies `observers, net`output, net`room, net`lost
      ensures observers == old(observers) + [o]
      ensures IsOrder(order, entries.Keys) && forall i :: 0 <= i < |order| ==> order[i] in entries
      ensures forall c :: c in net ==>
                c.AsLink() == Send(old(c.AsLink()), BytesTo(c.handle, Replay(kind, Shape(o), entries, order)))
    {
      observers := observers + [o];
      order := [];
      var left := entries.Keys;
      forall c | c in net ensures Send(c.AsLink(), BytesTo(c.handle, [])) == c.AsLink() {
        NoBatch(c.AsLink(), c.handle);
      }
      while left != {}
        invariant observers == old(observers) + [o]
        invariant left <= entries.Keys && Elements(order) == entries.Keys - left && Distinct(order)
        invariant forall i :: 0 <= i < |order| ==> order[i] in entries
        invariant forall c :: c in net ==>
                    c.AsLink() == Send(old(c.AsLink()), BytesTo(c.handle, Replay(kind, Shape(o), entries, order)))
        decreases left
      {
        var key :| key in left;
        left := left - {key};
        var ok := Call(o, key, entries[key], net);
        NextInOrder(order, key, o);
        forall c | c in net
          ensures c.AsLink() == Send(old(c.AsLink()), BytesTo(c.handle, Replay(kind, Shape(o), entries, order + [key])))
        {
          SendBatches(old(c.AsLink()), c.handle, Replay(kind, Shape(o), entries, order), Shown(kind, Shape(o), key, entries[key]));
        }
        order := order + [key];
      }
    }

    lemma {:induction false} NextInOrder(order: seq<K>, key: K, o: ObserverEntry<K>)
      requires key in entries && key !in Elements(order) && Distinct(order)
      requires forall i :: 0 <= i < |order| ==> order[i] in entries
      ensures Elements(order + [key]) == Elements(order) + {key} && Distinct(order + [key])
      ensures forall i :: 0 <= i < |order + [key]| ==> (order + [key])[i] in entries
      ensures Replay(kind, Shape(o), entries, order + [key])
              == Replay(kind, Shape(o), entries, order) + Shown(kind, Shape(o), key, entries[key])
    {
      var all := order + [key];
      assert all[..|all| - 1] == order;
      forall k | k in Elements(order) + {key} ensures k in Elements(all) {
        if k in Elements(order) {
          var i :| 0 <= i < |order| && order[i] == k;
          assert all[i] == k;
        } else {
          assert all[|order|] == k;
        }
      }
      forall i | 0 <= i < |order| ensures all[i] != key {
        assert order[i] in Elements(order);
      }
    }

    /** Forgets all observers of a client and keeps the others in order. */
    method RemoveObserversForClient(clientId: nat)
      modifies `observers
      ensures Shapes(observers) == Others(old(Shapes(observers)), clientId)
      ensures forall i :: 0 <= i < |observers| ==> observers[i] in old(observers)
    {
      var kept: seq<ObserverEntry<K>> := [];
      for i := 0 to |observers|
        invariant observers == old(observers)
        invariant Shapes(kept) == Others(Shapes(observers[..i]), clientId)
        invariant forall j :: 0 <= j < |kept| ==> kept[j] in observers
      {
        ghost var front, all := Shapes(observers[..i]), Shapes(observers[..i + 1]);
        assert all[..|all| - 1] == front && all[|all| - 1] == Shape(observers[i]);
        if observers[i].clientId != clientId {
          ShapesSnoc(kept, observers[i]);
          kept := kept + [observers[i]];
        }
      }
      assert observers[..|observers|] == observers;
      observers := kept;
    }
  }
}
