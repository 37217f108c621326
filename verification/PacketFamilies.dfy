/**
 * All the packet objects of one frame on the heap: whatever is done with them is a run of the chain of
 * holders, so the connection ends where the frame ends.
 */
module PacketFamilies {
  import opened Connections
  import opened Packets
  import opened PacketChains
  import Frames

  /** Different packets of one connection, on which the frame's body begins at `begin`. */
  ghost predicate Family(connection: Connection, begin: nat, packets: seq<Packet>)
    reads connection`position
  {
    && connection.Valid() && begin <= connection.position
    && (forall i :: 0 <= i < |packets| ==> packets[i].connection == connection)
    && forall i, j :: 0 <= i < j < |packets| ==> packets[i] != packets[j]
  }

  ghost function Holders(packets: seq<Packet>): (holders: seq<Holder>)
    reads packets
    ensures |holders| == |packets|
    ensures forall i :: 0 <= i < |packets| ==> holders[i] == packets[i].AsHolder()
  {
    seq(|packets|, i requires 0 <= i < |packets| reads packets => packets[i].AsHolder())
  }

  /** What has been taken off the connection since the body began, and what the packets own. */
  ghost function ChainOf(connection: Connection, begin: nat, packets: seq<Packet>): Chain
    requires begin <= connection.position
    reads connection`position, packets
  {
    Chain(connection.position - begin, Holders(packets))
  }

  /** Consumed plus owned is the size of the body, all of which is there, and at most one packet owns bytes. */
  ghost predicate Balanced(connection: Connection, begin: nat, size: nat, packets: seq<Packet>)
    reads connection`position, connection`open, packets
  {
    && Family(connection, begin, packets)
    && connection.open && begin + size <= |connection.input|
    && connection.position - begin + Total(Holders(packets)) == size
    && OneOwner(Holders(packets))
  }

  lemma {:induction false} TotalCovers(holders: seq<Holder>, i: nat)
    requires i < |holders|
    ensures Live(holders[i]) <= Total(holders)
  {
    if i < |holders| - 1 {
      TotalCovers(holders[..|holders| - 1], i);
    }
  }

  /** One deed, and the packet that a move makes. */
  method Perform(packet: Packet, deed: Deed) returns (made: seq<Packet>)
    requires packet.Sound() && Permitted(packet.AsHolder(), deed)
    modifies packet`bytesRemaining, packet`alive, packet.connection`position
    ensures packet.connection.Valid() && old(packet.connection.position) <= packet.connection.position
    ensures Effect(packet.connection.position - old(packet.connection.position), packet.AsHolder())
            == Do(old(packet.AsHolder()), deed)
    ensures fresh(made) && |made| == if deed.Move? then 1 else 0
    ensures deed.Move? ==> made[0].connection == packet.connection && made[0].AsHolder() == old(packet.AsHolder())
  {
    made := [];
    if deed.Read? {
      var ok, data := packet.Read(deed.size);
    } else if deed.Drain? {
      var ok := packet.Drain(deed.size);
    } else if deed.Move? {
      var moved := new Packet.Move(packet);
      made := [moved];
    } else {
      packet.Destroy();
    }
  }

  /** The packet of a balanced family that a deed is permitted on has its bytes ahead. */
  lemma SoundMember(connection: Connection, begin: nat, size: nat, packets: seq<Packet>, i: nat)
    requires Balanced(connection, begin, size, packets) && i < |packets| && packets[i].alive
    ensures packets[i].Sound()
  {
    TotalCovers(Holders(packets), i);
  }

  /** Only the one holder changed, and a move made one more. */
  lemma OneChanged(packets: seq<Packet>, made: seq<Packet>, holders: seq<Holder>, op: Op)
    requires |packets| == |holders| && op.i < |holders| && Permitted(holders[op.i], op.deed)
    requires forall i :: 0 <= i < |packets| && i != op.i ==> packets[i].AsHolder() == holders[i]
    requires packets[op.i].AsHolder() == Do(holders[op.i], op.deed).left
    requires |made| == if op.deed.Move? then 1 else 0
    requires op.deed.Move? ==> made[0].AsHolder() == holders[op.i]
    ensures Holders(packets + made)
            == holders[op.i := Do(holders[op.i], op.deed).left] + (if op.deed.Move? then [holders[op.i]] else [])
  {
  }

  /** A step of the chain keeps the balance. */
  lemma StaysBalanced(connection: Connection, begin: nat, size: nat, after: seq<Packet>, before: Chain, op: Op)
    requires Family(connection, begin, after) && connection.open && begin + size <= |connection.input|
    requires before.consumed + Total(before.holders) == size && OneOwner(before.holders)
    requires Allowed(before, op) && ChainOf(connection, begin, after) == Apply(before, op)
    ensures Balanced(connection, begin, size, after)
  {
    ApplyKeepsTotal(before, op);
    ApplyKeepsOneOwner(before, op);
  }

  /** A deed on one of the packets is a step of the chain. */
  method PerformOne(connection: Connection, ghost begin: nat, ghost size: nat, packets: seq<Packet>, op: Op)
    returns (after: seq<Packet>)
    requires Balanced(connection, begin, size, packets)
    requires Allowed(ChainOf(connection, begin, packets), op)
    modifies packets[op.i], connection`position
    ensures Balanced(connection, begin, size, after)
    ensures forall p :: p in after ==> p in packets || fresh(p)
    ensures ChainOf(connection, begin, after) == Apply(old(ChainOf(connection, begin, packets)), op)
  {
    ghost var before := ChainOf(connection, begin, packets);
    SoundMember(connection, begin, size, packets, op.i);
    var made := Perform(packets[op.i], op.deed);
    OneChanged(packets, made, before.holders, op);
    after := packets + made;
    StaysBalanced(connection, begin, size, after, before, op);
  }

  /** The deeds that are left lead from here to the end. */
  ghost predicate Leads(c: Chain, ops: seq<Op>, i: nat, end: Chain)
    requires i <= |ops|
  {
    match c
    case Chain(_, _) => AllAllowed(c, ops[i..]) && Run(c, ops[i..]) == end
  }

  lemma LeadsOn(c: Chain, ops: seq<Op>, i: nat, end: Chain)
    requires i < |ops| && Leads(c, ops, i, end)
    ensures Allowed(c, ops[i]) && Leads(Apply(c, ops[i]), ops, i + 1, end)
  {
    assert ops[i..][0] == ops[i] && ops[i..][1..] == ops[i + 1..];
  }

  /** Any deeds, one after another, are a run of the chain. */
  method PerformAll(connection: Connection, ghost begin: nat, ghost size: nat, packets: seq<Packet>, ops: seq<Op>)
    returns (after: seq<Packet>)
    requires Balanced(connection, begin, size, packets)
    requires AllAllowed(ChainOf(connection, begin, packets), ops)
    modifies packets, connection`position
    ensures Balanced(connection, begin, size, after)
    ensures ChainOf(connection, begin, after) == Run(old(ChainOf(connection, begin, packets)), ops)
  {
    ghost var end := Run(ChainOf(connection, begin, packets), ops);
    after := packets;
    assert ops[0..] == ops;
    for i := 0 to |ops|
      invariant Balanced(connection, begin, size, after)
      invariant forall p :: p in after ==> p in packets || fresh(p)
      invariant Leads(ChainOf(connection, begin, after), ops, i, end)
    {
      LeadsOn(ChainOf(connection, begin, after), ops, i, end);
      assert after[ops[i].i] in after;
      after := PerformOne(connection, begin, size, after, ops[i]);
    }
  }

  /** The only packet of a frame whose body is all there. */
  lemma OneIsBalanced(connection: Connection, begin: nat, size: nat, packet: Packet)
    requires packet.connection == connection && packet.AsHolder() == Holder(size, true)
    requires connection.Valid() && connection.position == begin
    requires connection.open && begin + size <= |connection.input|
    ensures Balanced(connection, begin, size, [packet]) && ChainOf(connection, begin, [packet]) == Fresh(size)
  {
    var holders := [Holder(size, true)];
    assert Total(holders) == size by {
      assert holders[..0] == [];
    }
    assert Holders([packet]) == holders;
  }

  /**
   * Reads a header, makes the frame's first packet, and does whatever is asked with it and the packets
   * that come from it: consumed plus owned is the declared size all along, and once all packets are
   * destroyed the connection stands at the end of the frame.
   */
  method Handle(connection: Connection, ops: seq<Op>) returns (packets: seq<Packet>)
    requires connection.Valid() && connection.open && Frames.ReadHeader(connection.Unread()).Some?
    requires var header := Frames.ReadHeader(connection.Unread()).value;
             header.used + header.size <= |connection.Unread()| && AllAllowed(Fresh(header.size), ops)
    modifies connection`position
    ensures
      var header := Frames.ReadHeader(old(connection.Unread())).value;
      var begin := old(connection.position) + header.used;
      && Balanced(connection, begin, header.size, packets)
      && ChainOf(connection, begin, packets) == Run(Fresh(header.size), ops)
      && ((forall i :: 0 <= i < |packets| ==> !packets[i].alive) ==> connection.position == begin + header.size)
  {
    ghost var header := Frames.ReadHeader(connection.Unread()).value;
    ghost var begin := connection.position + header.used;
    var first := Packet.ReadNext(connection);
    OneIsBalanced(connection, begin, header.size, first.value);
    packets := PerformAll(connection, begin, header.size, [first.value], ops);
    if forall i :: 0 <= i < |packets| ==> !packets[i].alive {
      NothingOwned(Holders(packets));
    }
  }
}
