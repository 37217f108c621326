/** The connection that the broker's templates expect: a shared socket with two directions. */
module Connections {
  import opened Bytes
  import opened Links

  /**
   * Heap copies of a connection share the socket, so a copy is the same object here. `handle` tells
   * sockets apart; `client` is the answer of `id()`, which several sockets may share.
   */
  class Connection {
    ghost const handle: nat
    const client: nat
    /** Everything the peer will ever send, and how much of it has been consumed. */
    const input: seq<byte>
    var position: nat
    var open: bool
    var output: seq<byte>
    var room: nat
    var lost: bool
    var kind: ConnectionType

    constructor (ghost handle: nat, client: nat, input: seq<byte>, room: nat)
      ensures Valid() && open && this.handle == handle
      ensures Unread() == input
      ensures AsLink() == Link(client, [], room, false, UNKNOWN)
    {
      this.handle, this.client, this.input, this.room := handle, client, input, room;
      position, open, output, lost, kind := 0, true, [], false, UNKNOWN;
    }

    ghost predicate Valid()
      reads `position
    {
      position <= |input|
    }

    ghost function AsLink(): Link
      reads `output, `room, `lost, `kind
    {
      Link(client, output, room, lost, kind)
    }

    ghost function Unread(): seq<byte>
      requires Valid()
      reads `position
    {
      input[position..]
    }

    /** Reads `size` bytes; when the peer is gone before that many arrive, what did arrive is gone too. */
    method Read(size: nat) returns (ok: bool, data: seq<byte>)
      requires Valid()
      modifies `position
      ensures Valid()
      ensures ok <==> size == 0 || (open && size <= |old(Unread())|)
      ensures ok ==> data == old(Unread())[..size] && Unread() == old(Unread())[size..]
      ensures !ok ==> data == [] && position == (if open then |input| else old(position))
    {
      if size == 0 {
        return true, [];
      } else if !open {
        return false, [];
      } else if position + size > |input| {
        position := |input|;
        return false, [];
      }
      data := input[position..position + size];
      position := position + size;
      ok := true;
    }

    /** Reads and forgets. */
    method Drain(size: nat) returns (ok: bool)
      requires Valid()
      modifies `position
      ensures Valid()
      ensures ok <==> size == 0 || (open && size <= |old(Unread())|)
      ensures ok ==> Unread() == old(Unread())[size..]
      ensures !ok ==> position == (if open then |input| else old(position))
    {
      var data;
      ok, data := Read(size);
    }

    method Write(data: seq<byte>) returns (ok: bool)
      modifies `output, `room, `lost
      ensures AsLink() == Send(old(AsLink()), data)
      ensures ok <==> |data| <= old(room)
    {
      if |data| <= room {
        output, room := output + data, room - |data|;
        ok := true;
      } else {
        output, room, lost := output + data[..room], 0, true;
        ok := false;
      }
    }

    method SetConnectionType(kind: ConnectionType)
      modifies `kind
      ensures this.kind == kind
    {
      this.kind := kind;
    }

    /** Stops the socket: nothing more goes out and nothing more comes in. */
    method Shut()
      modifies `open, `room
      ensures !open && AsLink() == Close(old(AsLink()))
    {
      open, room := false, 0;
    }
  }
}
