/** Bytes, integers on the wire, and length-prefixed strings (sections 1.5.2 and 1.5.3 of MQTT 3.1.1). */
module Bytes {

  type byte = b: int | 0 <= b < 256

  type uint16 = n: int | 0 <= n < 0x1_0000

  /** The number that `s` denotes on the wire, most significant byte first. */
  function BigEndian(s: seq<byte>): nat {
    if s == [] then 0 else BigEndian(s[..|s| - 1]) * 256 + s[|s| - 1]
  }

  /** The number that `s` denotes in the memory of a little-endian target. */
  function LittleEndian(s: seq<byte>): nat {
    if s == [] then 0 else s[0] + 256 * LittleEndian(s[1..])
  }

  function Reversed(s: seq<byte>): (r: seq<byte>)
    ensures |r| == |s|
  {
    if s == [] then [] else [s[|s| - 1]] + Reversed(s[..|s| - 1])
  }

  lemma {:induction false} ReversedAt(s: seq<byte>, i: nat)
    requires i < |s|
    ensures Reversed(s)[i] == s[|s| - 1 - i]
  {
    if i > 0 {
      ReversedAt(s[..|s| - 1], i - 1);
    }
  }

  /** Filling memory from the highest address down turns wire order into memory order. */
  lemma {:induction false} ReversedBytesKeepTheNumber(s: seq<byte>)
    ensures LittleEndian(Reversed(s)) == BigEndian(s)
  {
    if s != [] {
      ReversedBytesKeepTheNumber(s[..|s| - 1]);
      assert Reversed(s)[1..] == Reversed(s[..|s| - 1]);
    }
  }

  /** The two bytes of a 16-bit integer, high byte first. */
  function Be16(n: uint16): (s: seq<byte>)
    ensures |s| == 2
  {
    [n / 256, n % 256]
  }

  lemma Be16RoundTrip(n: uint16)
    ensures BigEndian(Be16(n)) == n
  {
    var s := Be16(n);
    assert s[..1] == [n / 256] && s[..1][..0] == [];
    assert BigEndian(s[..1]) == n / 256;
  }

  lemma {:induction false} BigEndianOfTwo(s: seq<byte>)
    requires |s| == 2
    ensures BigEndian(s) == (s[0] as int) * 256 + s[1]
  {
    assert s[..1] == [s[0]] && s[..1][..0] == [];
    assert BigEndian(s[..1]) == s[0];
  }

  lemma {:induction false} BigEndianOfOne(s: seq<byte>)
    requires |s| == 1
    ensures BigEndian(s) == s[0]
  {
    assert s[..0] == [];
  }

  /** A string as the wire carries it: its length in a 16-bit field, then the characters. */
  function Str(s: seq<byte>): (r: seq<byte>)
    ensures |r| == |s| + 2
  {
    Be16(|s| % 0x1_0000) + s
  }

  /** The length field at the front of `s`. */
  function StrLength(s: seq<byte>): nat
    requires |s| >= 2
  {
    BigEndian(s[..2])
  }

  /** What a reader with room for `capacity` characters needs in order not to read past `s`. */
  predicate StrReadable(s: seq<byte>, capacity: nat) {
    |s| >= 2 && (StrLength(s) <= capacity ==> StrLength(s) + 2 <= |s|)
  }

  lemma StrRoundTrip(t: seq<byte>, rest: seq<byte>)
    requires |t| < 0x1_0000
    ensures StrLength(Str(t) + rest) == |t|
    ensures (Str(t) + rest)[2..2 + |t|] == t
    ensures (Str(t) + rest)[2 + |t|..] == rest
  {
    Be16RoundTrip(|t|);
    assert (Str(t) + rest)[..2] == Be16(|t|);
  }

  lemma HighAndLow(high: byte, low: byte)
    ensures var n := (high as int) * 256 + low;
            n < 0x1_0000 && n / 256 == high && n % 256 == low
  {
  }

  /** Printing the characters behind a length field gives the field and the characters back. */
  lemma StrOfField(s: seq<byte>)
    requires |s| >= 2 && StrLength(s) + 2 <= |s|
    ensures Str(s[2..StrLength(s) + 2]) == s[..StrLength(s) + 2]
  {
    BigEndianOfTwo(s[..2]);
    HighAndLow(s[0], s[1]);
    assert Be16(StrLength(s)) == s[..2];
  }
}
