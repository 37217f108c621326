/** The framing layer: fixed headers, and packets that own the unread rest of a frame. */
module Packets {
  import opened Wrappers
  import opened Bytes
  import opened Connections
  import Frames
  import PacketChains
  import RemainingLength

  type int32 = n: int | -0x8000_0000 <= n < 0x8000_0000
  type uint32 = n: int | 0 <= n < 0x1_0000_0000

  /** The bytes ahead hold a header whose size field is not longer than the standard allows. */
  predicate HeaderReadable(s: seq<byte>) {
    s == [] || !RemainingLength.Overlong(s[1..])
  }

  /** After `k` bytes, `out` and what the other bytes decode to make up the whole number. */
  ghost predicate Partial(s: seq<byte>, k: nat, out: nat, multiplier: nat)
    requires k <= |s|
  {
    match RemainingLength.Decode(s[k..])
    case None => RemainingLength.Decode(s).None?
    case Some(rest) => RemainingLength.Decode(s) == Some(RemainingLength.Decoded(out + multiplier * rest.value, k + rest.used))
  }

  /** One byte of the encoding: its seven digit bits, and the rest above them. */
  lemma DecodeNext(s: seq<byte>, k: nat, digit: nat)
    requires k < |s| && digit == s[k] % 128
    ensures s[k] < 128 ==> RemainingLength.Decode(s[k..]) == Some(RemainingLength.Decoded(digit, 1))
    ensures s[k] >= 128 ==>
              match RemainingLength.Decode(s[k + 1..])
              case None => RemainingLength.Decode(s[k..]).None?
              case Some(rest) => RemainingLength.Decode(s[k..])
                                 == Some(RemainingLength.Decoded(digit + 128 * rest.value, 1 + rest.used))
  {
    assert s[k..][1..] == s[k + 1..];
  }

  lemma {:induction false} NextDigit(s: seq<byte>, k: nat, out: nat, multiplier: nat, digit: nat)
    requires k < |s| && digit == s[k] % 128 && Partial(s, k, out, multiplier)
    ensures s[k] < 128 ==> RemainingLength.Decode(s) == Some(RemainingLength.Decoded(out + digit * multiplier, k + 1))
    ensures s[k] >= 128 ==> Partial(s, k + 1, out + digit * multiplier, multiplier * 128)
  {
    DecodeNext(s, k, digit);
    match RemainingLength.Decode(s[k + 1..])
    case None => Regroup(multiplier, digit, 0);
    case Some(rest) =>
      Regroup(multiplier, digit, 0);
      Regroup(multiplier, digit, rest.value);
  }

  lemma Regroup(multiplier: int, digit: int, rest: int)
    ensures multiplier * (digit + 128 * rest) == digit * multiplier + (multiplier * 128) * rest
    ensures multiplier * digit == digit * multiplier
  {
  }

  /** One more digit keeps the number below the next power, and the powers within 32 bits. */
  lemma InRange(k: nat, out: nat, multiplier: nat, digit: nat)
    requires k <= 3 && multiplier == RemainingLength.Pow128(k) && out < multiplier && digit < 128
    ensures out + digit * multiplier < multiplier * 128 == RemainingLength.Pow128(k + 1) <= 0x1000_0000
  {
    RemainingLength.Pow128Values();
    assert digit * multiplier <= 127 * multiplier;
  }

  /**
   * Decodes the integer at the front of the input and consumes its bytes only. `multiplier` stays an
   * `int32` and `out` a `uint32` throughout.
   */
  method ReadVariableByteInteger(connection: Connection) returns (ok: bool, out: uint32)
    requires connection.Valid() && (connection.open ==> !RemainingLength.Overlong(connection.Unread()))
    modifies connection`position
    ensures connection.Valid()
    ensures ok <==> connection.open && RemainingLength.Decode(old(connection.Unread())).Some?
    ensures ok ==>
              var d := RemainingLength.Decode(old(connection.Unread())).value;
              out == d.value && connection.Unread() == old(connection.Unread())[d.used..]
    ensures !ok && connection.open ==> connection.position == |connection.input|
    ensures !ok && !connection.open ==> connection.position == old(connection.position)
  {
    ghost var s := connection.Unread();
    ghost var k: nat := 0;
    RemainingLength.Pow128Values();
    var multiplier: int32 := 1;
    out := 0;
    assert s[0..] == s;
    while true
      invariant connection.Valid() && k <= |s| && (connection.open ==> k <= 3)
      invariant connection.Unread() == s[k..] && connection.position == old(connection.position) + k
      invariant k > 0 ==> connection.open
      invariant forall j :: 0 <= j < k ==> s[j] >= 128
      invariant multiplier == RemainingLength.Pow128(k) && out < multiplier
      invariant Partial(s, k, out, multiplier)
      decreases |s| - k
    {
      var got, data := connection.Read(1);
      if !got {
        return false, 0;
      }
      var next := data[0];
      assert next == s[k];
      ghost var digit := next % 128;
      NextDigit(s, k, out, multiplier, digit);
      InRange(k, out, multiplier, digit);
      out := out + (next % 128) * multiplier;
      multiplier := multiplier * 128;
      k := k + 1;
      if next < 128 {
        return true, out;
      }
    }
  }

  datatype FixedHeader = FixedHeader(control: byte, remainingSize: uint32)

  /** The header at the front of the input; a failed read of the control byte alone goes unnoticed. */
  method ReadFixedHeader(connection: Connection) returns (h: Option<FixedHeader>)
    requires connection.Valid() && HeaderReadable(connection.Unread())
    modifies connection`position
    ensures connection.Valid()
    ensures h.Some? <==> connection.open && Frames.ReadHeader(old(connection.Unread())).Some?
    ensures h.Some? ==>
              var header := Frames.ReadHeader(old(connection.Unread())).value;
              && h.value.control == header.control && h.value.remainingSize == header.size
              && connection.position == old(connection.position) + header.used
    ensures h.None? && connection.open ==> connection.position == |connection.input|
  {
    var control: byte := 0;
    var ok, data := connection.Read(1);
    if ok {
      control := data[0];
    }
    var size;
    ok, size := ReadVariableByteInteger(connection);
    h := if ok then Some(FixedHeader(control, size)) else None;
  }

  datatype Standing = Gone | Loose | Whole

  class Packet {
    const control: byte
    var bytesRemaining: nat
    const connection: Connection
    /** Where in the connection's input the frame ends. */
    ghost const end: nat
    ghost var alive: bool

    /** Whether the packet exists, and whether it owns the rest of its frame and can read all of it. */
    ghost function Standing(): Standing
      reads this, connection`position, connection`open
    {
      if !alive || !connection.Valid() then Gone
      else if !connection.open || connection.position + bytesRemaining != end || end > |connection.input| then Loose
      else Whole
    }

    /** The packet exists; it may have been moved from, or its connection may be shut. */
    ghost predicate Valid()
      reads this, connection`position, connection`open
    {
      Standing() != Gone
    }

    /** The packet's bytes, if it has any, are there to be read. */
    ghost predicate Sound()
      reads this, connection`position, connection`open
    {
      && Valid()
      && (bytesRemaining == 0 || (connection.open && connection.position + bytesRemaining <= |connection.input|))
    }

    /** The packet owns the frame's unread bytes: the next ones on the connection, and all there. */
    ghost predicate Complete()
      reads this, connection`position, connection`open
    {
      Standing() == Whole
    }

    ghost function Unread(): (s: seq<byte>)
      requires Complete()
      reads this, connection`position, connection`open
      ensures |s| == bytesRemaining
    {
      connection.input[connection.position..end]
    }

    ghost function AsHolder(): PacketChains.Holder
      reads this
    {
      PacketChains.Holder(bytesRemaining, alive)
    }

    constructor (control: byte, size: nat, connection: Connection)
      requires connection.Valid()
      ensures Valid() && this.connection == connection
      ensures this.control == control && bytesRemaining == size && end == connection.position + size
    {
      this.control, this.connection := control, connection;
      bytesRemaining, end, alive := size, connection.position + size, true;
    }

    /** Takes over the unread bytes of another packet and leaves it with none. */
    constructor Move(from: Packet)
      requires from.Valid()
      modifies from`bytesRemaining
      ensures Valid() && connection == from.connection && control == from.control && end == from.end
      ensures AsHolder() == old(from.AsHolder())
      ensures PacketChains.Effect(0, from.AsHolder()) == PacketChains.Do(old(from.AsHolder()), PacketChains.Move)
    {
      control, connection, end, alive := from.control, from.connection, from.end, true;
      bytesRemaining := from.bytesRemaining;
      new;
      from.bytesRemaining := 0;
    }

    /** Reads a header and makes the packet that owns the bytes behind it. */
    static method ReadNext(connection: Connection) returns (p: Option<Packet>)
      requires connection.Valid() && HeaderReadable(connection.Unread())
      modifies connection`position
      ensures connection.Valid()
      ensures p.Some? <==> connection.open && Frames.ReadHeader(old(connection.Unread())).Some?
      ensures p.Some? ==>
                var header := Frames.ReadHeader(old(connection.Unread())).value;
                && fresh(p.value) && p.value.Valid() && p.value.connection == connection
                && p.value.end == connection.position + header.size
                && p.value.control == header.control && p.value.bytesRemaining == header.size
                && connection.position == old(connection.position) + header.used
      ensures p.None? && connection.open ==> connection.position == |connection.input|
    {
      var header := ReadFixedHeader(connection);
      if header.None? {
        return None;
      }
      var made := new Packet(header.value.control, header.value.remainingSize, connection);
      var moved := new Packet.Move(made);
      made.Destroy();
      p := Some(moved);
    }

    method Read(size: nat) returns (ok: bool, data: seq<byte>)
      requires Valid() && size <= bytesRemaining
      modifies `bytesRemaining, connection`position
      ensures ok <==> size == 0 || (connection.open && size <= |old(connection.Unread())|)
      ensures ok ==> bytesRemaining == old(bytesRemaining) - size && data == old(connection.Unread())[..size]
      ensures !ok ==> bytesRemaining == old(bytesRemaining)
      ensures Valid() && old(connection.position) <= connection.position
      ensures old(Complete()) ==>
                ok && Complete() && data == old(Unread())[..size] && Unread() == old(Unread())[size..]
      ensures old(Sound()) ==>
                Sound() && PacketChains.Effect(connection.position - old(connection.position), AsHolder())
                == PacketChains.Do(old(AsHolder()), PacketChains.Read(size))
    {
      ok, data := connection.Read(size);
      if ok {
        bytesRemaining := bytesRemaining - size;
      }
    }

    method Drain(size: nat) returns (ok: bool)
      requires Valid()
      modifies `bytesRemaining, connection`position
      ensures size > old(bytesRemaining) ==>
                !ok && bytesRemaining == old(bytesRemaining) && connection.position == old(connection.position)
      ensures ok ==> bytesRemaining == old(bytesRemaining) - size
      ensures Valid() && old(connection.position) <= connection.position
      ensures old(Complete()) && size <= old(bytesRemaining) ==>
                ok && Complete() && Unread() == old(Unread())[size..]
      ensures old(Sound()) ==>
                Sound() && PacketChains.Effect(connection.position - old(connection.position), AsHolder())
                == PacketChains.Do(old(AsHolder()), PacketChains.Drain(size))
    {
      if size > bytesRemaining {
        return false;
      }
      ok := connection.Drain(size);
      if ok {
        bytesRemaining := bytesRemaining - size;
      }
    }

    /** The destructor: whatever the packet still owns is skipped, so the next header comes next. */
    method Destroy()
      requires Valid()
      modifies `alive, connection`position
      ensures !alive && connection.Valid() && old(connection.position) <= connection.position
      ensures old(Complete()) ==> connection.position == end
      ensures old(bytesRemaining) == 0 ==> connection.position == old(connection.position)
      ensures old(Sound()) ==>
                PacketChains.Effect(connection.position - old(connection.position), AsHolder())
                == PacketChains.Do(old(AsHolder()), PacketChains.Destroy)
    {
      if bytesRemaining > 0 {
        var drained := connection.Drain(bytesRemaining);
      }
      alive := false;
    }
  }
}
