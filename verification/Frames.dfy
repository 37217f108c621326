/** Whole control packets on the wire: a control byte, the remaining length, and that many bytes. */
module Frames {
  import opened Wrappers
  import opened Bytes
  import RemainingLength

  datatype Frame = Frame(control: byte, body: seq<byte>)

  /** The remaining length fits the four bytes that section 2.2.3 of MQTT 3.1.1 allows. */
  predicate Legal(f: Frame) {
    |f.body| <= RemainingLength.MAX
  }

  ghost predicate AllLegal(fs: seq<Frame>) {
    forall i :: 0 <= i < |fs| ==> Legal(fs[i])
  }

  function Wire(f: Frame): (s: seq<byte>)
    ensures |s| > 0
  {
    [f.control] + RemainingLength.Encode(|f.body|) + f.body
  }

  /** The bytes of consecutive frames. */
  function Flatten(fs: seq<Frame>): seq<byte> {
    if fs == [] then [] else Wire(fs[0]) + Flatten(fs[1..])
  }

  datatype Header = Header(control: byte, size: nat, used: nat)

  /** The fixed header at the front of `s`, if `s` holds all of it in at most five bytes. */
  function ReadHeader(s: seq<byte>): (h: Option<Header>)
    ensures h.Some? ==> 0 < h.value.used <= |s|
  {
    if s == [] || RemainingLength.Overlong(s[1..]) then None
    else
      var length := RemainingLength.Decode(s[1..]);
      if length.None? then None else Some(Header(s[0], length.value.value, 1 + length.value.used))
  }

  /** Cuts a byte stream into frames; nothing when the last frame is not whole. */
  function Split(s: seq<byte>): Option<seq<Frame>>
    decreases |s|
  {
    if s == [] then Some([])
    else
      var h := ReadHeader(s);
      if h.None? || |s| < h.value.used + h.value.size then None
      else
        var end := h.value.used + h.value.size;
        var rest := Split(s[end..]);
        if rest.None? then None
        else Some([Frame(h.value.control, s[h.value.used..end])] + rest.value)
  }

  function HeaderSize(f: Frame): nat {
    1 + |RemainingLength.Encode(|f.body|)|
  }

  /** The header reader recovers control byte and size from any legal frame, whatever follows it. */
  lemma HeaderRoundTrip(f: Frame, rest: seq<byte>)
    requires Legal(f)
    ensures ReadHeader(Wire(f) + rest) == Some(Header(f.control, |f.body|, HeaderSize(f)))
    ensures !RemainingLength.Overlong((Wire(f) + rest)[1..])
    ensures |Wire(f)| == HeaderSize(f) + |f.body|
  {
    var s := Wire(f) + rest;
    assert s[1..] == RemainingLength.Encode(|f.body|) + (f.body + rest);
    RemainingLength.RoundTrip(|f.body|, f.body + rest);
    RemainingLength.EncodedIsNotOverlong(|f.body|, f.body + rest);
  }

  lemma {:induction false} SplitFirst(f: Frame, rest: seq<byte>)
    requires Legal(f)
    ensures Split(Wire(f) + rest) ==
            if Split(rest).None? then None else Some([f] + Split(rest).value)
  {
    HeaderRoundTrip(f, rest);
    var s := Wire(f) + rest;
    var end := |Wire(f)|;
    assert s[end..] == rest;
    assert s[HeaderSize(f)..end] == f.body;
  }

  /** A concatenation of legal frames splits into exactly those frames with nothing left over. */
  lemma {:induction false} SplitFlatten(fs: seq<Frame>)
    requires AllLegal(fs)
    ensures Split(Flatten(fs)) == Some(fs)
  {
    if fs != [] {
      SplitFlatten(fs[1..]);
      SplitFirst(fs[0], Flatten(fs[1..]));
      assert fs == [fs[0]] + fs[1..];
    }
  }

  lemma {:induction false} FlattenConcat(a: seq<Frame>, b: seq<Frame>)
    ensures Flatten(a + b) == Flatten(a) + Flatten(b)
  {
    if a == [] {
      assert a + b == b;
    } else {
      FlattenConcat(a[1..], b);
      assert (a + b)[1..] == a[1..] + b;
      Associates(Wire(a[0]), Flatten(a[1..]), Flatten(b));
    }
  }

  lemma Associates<T>(a: seq<T>, b: seq<T>, c: seq<T>)
    ensures a + (b + c) == (a + b) + c
  {
  }

  lemma FlattenOne(f: Frame)
    ensures Flatten([f]) == Wire(f)
  {
    assert [f][1..] == [];
  }
}
