/**
 * Who owns a frame's unread bytes while packets are read, drained, moved and destroyed, and why the
 * next header is always where the reader looks for it.
 */
module PacketChains {
  import opened Wrappers
  import opened Bytes
  import Frames

  /** One packet object of a frame: the unread bytes it owns, and whether it still exists. */
  datatype Holder = Holder(owned: nat, alive: bool)

  /** The packets made for one frame so far, in order of creation, and the bytes taken off the input. */
  datatype Chain = Chain(consumed: nat, holders: seq<Holder>)

  datatype Deed = Read(size: nat) | Drain(size: nat) | Move | Destroy

  /** Something done to one of the packets. */
  datatype Op = Op(i: nat, deed: Deed)

  /** What a deed takes off the input and what it leaves of the packet. */
  datatype Effect = Effect(taken: nat, left: Holder)

  /** The object exists, and a read stays within its bytes; a drain need not. */
  predicate Permitted(h: Holder, deed: Deed) {
    h.alive && (deed.Read? ==> deed.size <= h.owned)
  }

  /** The class `Packet` is proved to do exactly this as long as the bytes it owns are there to be read. */
  function Do(h: Holder, deed: Deed): Effect
    requires Permitted(h, deed)
  {
    match deed
    case Read(size) => Effect(size, h.(owned := h.owned - size))
    case Drain(size) => if size > h.owned then Effect(0, h) else Effect(size, h.(owned := h.owned - size))
    case Move => Effect(0, h.(owned := 0))
    case Destroy => Effect(h.owned, h.(alive := false))
  }

  function Fresh(size: nat): Chain {
    Chain(0, [Holder(size, true)])
  }

  predicate Allowed(c: Chain, op: Op) {
    op.i < |c.holders| && Permitted(c.holders[op.i], op.deed)
  }

  /** A move makes one more packet, which has what the other had. */
  function Apply(c: Chain, op: Op): Chain
    requires Allowed(c, op)
  {
    var h := c.holders[op.i];
    var e := Do(h, op.deed);
    Chain(c.consumed + e.taken, c.holders[op.i := e.left] + (if op.deed.Move? then [h] else []))
  }

  predicate AllAllowed(c: Chain, ops: seq<Op>)
    decreases |ops|
  {
    ops == [] || (Allowed(c, ops[0]) && AllAllowed(Apply(c, ops[0]), ops[1..]))
  }

  function Run(c: Chain, ops: seq<Op>): Chain
    requires AllAllowed(c, ops)
    decreases |ops|
  {
    if ops == [] then c else Run(Apply(c, ops[0]), ops[1..])
  }

  /** The bytes that a packet would still drain. */
  function Live(h: Holder): nat {
    if h.alive then h.owned else 0
  }

  function Total(holders: seq<Holder>): nat {
    if holders == [] then 0 else Total(holders[..|holders| - 1]) + Live(holders[|holders| - 1])
  }

  lemma {:induction false} TotalUpdate(holders: seq<Holder>, i: nat, h: Holder)
    requires i < |holders|
    ensures Total(holders[i := h]) + Live(holders[i]) == Total(holders) + Live(h)
  {
    var front := holders[..|holders| - 1];
    if i < |front| {
      TotalUpdate(front, i, h);
      assert holders[i := h][..|holders| - 1] == front[i := h];
    } else {
      assert holders[i := h][..|holders| - 1] == front;
    }
  }

  lemma {:induction false} TotalSnoc(holders: seq<Holder>, h: Holder)
    ensures Total(holders + [h]) == Total(holders) + Live(h)
  {
    assert (holders + [h])[..|holders|] == holders;
  }

  /** At most one packet has bytes left to read or drain. */
  ghost predicate OneOwner(holders: seq<Holder>) {
    forall i, j :: 0 <= i < j < |holders| ==> Live(holders[i]) == 0 || Live(holders[j]) == 0
  }

  lemma ApplyKeepsTotal(c: Chain, op: Op)
    requires Allowed(c, op)
    ensures Apply(c, op).consumed + Total(Apply(c, op).holders) == c.consumed + Total(c.holders)
  {
    var h := c.holders[op.i];
    var e := Do(h, op.deed);
    TotalUpdate(c.holders, op.i, e.left);
    if op.deed.Move? {
      TotalSnoc(c.holders[op.i := e.left], h);
    } else {
      assert c.holders[op.i := e.left] + [] == c.holders[op.i := e.left];
    }
  }

  lemma ApplyKeepsOneOwner(c: Chain, op: Op)
    requires Allowed(c, op) && OneOwner(c.holders)
    ensures OneOwner(Apply(c, op).holders)
  {
  }

  /** Consumed plus owned is the declared size, and nobody shares, whatever is done to the packets. */
  lemma {:induction false} RunConserves(c: Chain, ops: seq<Op>)
    requires AllAllowed(c, ops) && OneOwner(c.holders)
    ensures OneOwner(Run(c, ops).holders)
    ensures Run(c, ops).consumed + Total(Run(c, ops).holders) == c.consumed + Total(c.holders)
    decreases |ops|
  {
    if ops != [] {
      ApplyKeepsTotal(c, ops[0]);
      ApplyKeepsOneOwner(c, ops[0]);
      RunConserves(Apply(c, ops[0]), ops[1..]);
    }
  }

  ghost predicate AllDestroyed(c: Chain) {
    forall i :: 0 <= i < |c.holders| ==> !c.holders[i].alive
  }

  lemma {:induction false} NothingOwned(holders: seq<Holder>)
    requires forall i :: 0 <= i < |holders| ==> !holders[i].alive
    ensures Total(holders) == 0
  {
    if holders != [] {
      NothingOwned(holders[..|holders| - 1]);
    }
  }

  /** Once all packets of a frame are destroyed, exactly its declared size has been taken. */
  lemma {:induction false} FrameIsConsumedOnce(size: nat, ops: seq<Op>)
    requires AllAllowed(Fresh(size), ops) && AllDestroyed(Run(Fresh(size), ops))
    ensures Run(Fresh(size), ops).consumed == size
  {
    RunConserves(Fresh(size), ops);
    NothingOwned(Run(Fresh(size), ops).holders);
    TotalSnoc([], Holder(size, true));
    assert [] + [Holder(size, true)] == Fresh(size).holders;
  }

  // ---------- many frames on one connection ----------

  /** What is done to the packets of one frame, until none of them is left. */
  ghost predicate Session(size: nat, ops: seq<Op>) {
    AllAllowed(Fresh(size), ops) && AllDestroyed(Run(Fresh(size), ops))
  }

  /** Where the reader stands after one session, if there is a header and the deeds are a session of its frame. */
  ghost function AfterOne(input: seq<byte>, pos: nat, ops: seq<Op>): Option<nat> {
    if pos > |input| then None
    else
      match Frames.ReadHeader(input[pos..])
      case None => None
      case Some(h) => if Session(h.size, ops) then Some(pos + h.used + Run(Fresh(h.size), ops).consumed) else None
  }

  /** Where it stands after the sessions, if each in turn finds a header where the one before it stopped. */
  ghost function Position(input: seq<byte>, pos: nat, sessions: seq<seq<Op>>): Option<nat>
    decreases |sessions|
  {
    if sessions == [] then Some(pos)
    else
      match AfterOne(input, pos, sessions[0])
      case None => None
      case Some(next) => Position(input, next, sessions[1..])
  }

  /** A session of a frame ends where the frame ends. */
  lemma {:induction false} FirstSession(input: seq<byte>, pos: nat, next: nat, f: Frames.Frame, tail: seq<byte>, ops: seq<Op>)
    requires Frames.Legal(f) && Session(|f.body|, ops)
    requires pos <= |input| && input[pos..] == Frames.Wire(f) + tail && next == pos + |Frames.Wire(f)|
    ensures AfterOne(input, pos, ops) == Some(next)
  {
    Frames.HeaderRoundTrip(f, tail);
    FrameIsConsumedOnce(|f.body|, ops);
  }

  lemma {:induction false} FrameAt(fs: seq<Frames.Frame>, k: nat, rest: seq<byte>)
    requires k < |fs|
    ensures
      var input, start := Frames.Flatten(fs) + rest, |Frames.Flatten(fs[..k])|;
      && start <= |input|
      && input[start..] == Frames.Wire(fs[k]) + (Frames.Flatten(fs[k + 1..]) + rest)
  {
    var behind := fs[k..];
    assert behind[0] == fs[k] && behind[1..] == fs[k + 1..];
    assert fs == fs[..k] + behind;
    Frames.FlattenConcat(fs[..k], behind);
    assert Frames.Flatten(behind) == Frames.Wire(fs[k]) + Frames.Flatten(fs[k + 1..]);
  }

  /** Sessions that end where the next begins. */
  lemma {:induction false} Chained(input: seq<byte>, starts: seq<nat>, sessions: seq<seq<Op>>)
    requires |starts| == |sessions| + 1
    requires forall i :: 0 <= i < |sessions| ==> AfterOne(input, starts[i], sessions[i]) == Some(starts[i + 1])
    ensures Position(input, starts[0], sessions) == Some(starts[|sessions|])
    decreases |sessions|
  {
    if sessions != [] {
      Chained(input, starts[1..], sessions[1..]);
    }
  }

  /** Where the first frames begin, and the one after them. */
  function Starts(begin: nat, fs: seq<Frames.Frame>, n: nat): (starts: seq<nat>)
    requires n <= |fs|
    ensures |starts| == n + 1 && starts[0] == begin
    ensures forall i :: 0 <= i <= n ==> starts[i] == begin + |Frames.Flatten(fs[..i])|
  {
    assert fs[..0] == [];
    seq(n + 1, i requires 0 <= i <= n => begin + |Frames.Flatten(fs[..i])|)
  }

  lemma DropBehind(before: seq<byte>, s: seq<byte>, start: nat)
    requires start <= |s|
    ensures (before + s)[|before| + start..] == s[start..]
  {
  }

  /** Where a frame is in the input, and where the one behind it is. */
  lemma {:induction false} FrameBehind(before: seq<byte>, fs: seq<Frames.Frame>, rest: seq<byte>, i: nat)
    requires i < |fs|
    ensures
      var input, pos := before + (Frames.Flatten(fs) + rest), |before| + |Frames.Flatten(fs[..i])|;
      && pos <= |input| && input[pos..] == Frames.Wire(fs[i]) + (Frames.Flatten(fs[i + 1..]) + rest)
      && |before| + |Frames.Flatten(fs[..i + 1])| == pos + |Frames.Wire(fs[i])|
  {
    FrameAt(fs, i, rest);
    DropBehind(before, Frames.Flatten(fs) + rest, |Frames.Flatten(fs[..i])|);
    OneMoreFrame(fs, i);
  }

  lemma {:induction false} AfterAll(before: seq<byte>, fs: seq<Frames.Frame>, rest: seq<byte>, sessions: seq<seq<Op>>)
    requires Frames.AllLegal(fs) && |sessions| <= |fs|
    requires forall i :: 0 <= i < |sessions| ==> Session(|fs[i].body|, sessions[i])
    ensures
      var input, starts := before + (Frames.Flatten(fs) + rest), Starts(|before|, fs, |sessions|);
      forall i :: 0 <= i < |sessions| ==> AfterOne(input, starts[i], sessions[i]) == Some(starts[i + 1])
  {
    var input, starts := before + (Frames.Flatten(fs) + rest), Starts(|before|, fs, |sessions|);
    forall i | 0 <= i < |sessions| ensures AfterOne(input, starts[i], sessions[i]) == Some(starts[i + 1]) {
      FrameBehind(before, fs, rest, i);
      FirstSession(input, starts[i], starts[i + 1], fs[i], Frames.Flatten(fs[i + 1..]) + rest, sessions[i]);
    }
  }

  lemma {:induction false} OneMoreFrame(fs: seq<Frames.Frame>, i: nat)
    requires i < |fs|
    ensures Frames.Flatten(fs[..i + 1]) == Frames.Flatten(fs[..i]) + Frames.Wire(fs[i])
  {
    assert fs[..i + 1] == fs[..i] + [fs[i]];
    Frames.FlattenConcat(fs[..i], [fs[i]]);
    Frames.FlattenOne(fs[i]);
  }

  /**
   * Whatever is done with the packets of the first frames, in-bounds reads, drains and moves in any
   * mix, the reader then stands at the first byte of the next frame.
   */
  lemma {:induction false} Resynchronises(input: seq<byte>, before: seq<byte>, fs: seq<Frames.Frame>, rest: seq<byte>, sessions: seq<seq<Op>>)
    requires Frames.AllLegal(fs) && |sessions| <= |fs|
    requires forall i :: 0 <= i < |sessions| ==> Session(|fs[i].body|, sessions[i])
    requires input == before + (Frames.Flatten(fs) + rest)
    ensures Position(input, |before|, sessions) == Some(|before| + |Frames.Flatten(fs[..|sessions|])|)
  {
    AfterAll(before, fs, rest, sessions);
    Chained(input, Starts(|before|, fs, |sessions|), sessions);
  }

  lemma {:induction false} HeaderAt(fs: seq<Frames.Frame>, k: nat, rest: seq<byte>)
    requires Frames.AllLegal(fs) && k < |fs|
    ensures
      var input, start, f := Frames.Flatten(fs) + rest, |Frames.Flatten(fs[..k])|, fs[k];
      && start <= |input|
      && Frames.ReadHeader(input[start..]) == Some(Frames.Header(f.control, |f.body|, Frames.HeaderSize(f)))
  {
    FrameAt(fs, k, rest);
    Frames.HeaderRoundTrip(fs[k], Frames.Flatten(fs[k + 1..]) + rest);
  }

  lemma NothingBefore(s: seq<byte>)
    ensures [] + s == s
  {
  }

  /** So the k-th header that is read is the k-th frame's. */
  lemma {:induction false} KthHeaderIsKthFrames(fs: seq<Frames.Frame>, rest: seq<byte>, sessions: seq<seq<Op>>)
    requires Frames.AllLegal(fs) && |sessions| < |fs|
    requires forall i :: 0 <= i < |sessions| ==> Session(|fs[i].body|, sessions[i])
    ensures
      var input, f := Frames.Flatten(fs) + rest, fs[|sessions|];
      && Position(input, 0, sessions).Some?
      && var pos := Position(input, 0, sessions).value;
      && pos <= |input|
      && Frames.ReadHeader(input[pos..]) == Some(Frames.Header(f.control, |f.body|, Frames.HeaderSize(f)))
  {
    NothingBefore(Frames.Flatten(fs) + rest);
    Resynchronises(Frames.Flatten(fs) + rest, [], fs, rest, sessions);
    HeaderAt(fs, |sessions|, rest);
  }
}
