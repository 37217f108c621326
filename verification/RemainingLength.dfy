/** The variable-length "Remaining Length" integer of section 2.2.3 of MQTT 3.1.1. */
module RemainingLength {
  import opened Wrappers
  import opened Bytes

  const MAX: nat := 268_435_455

  /** Seven bits a byte, lowest first, the high bit meaning that more bytes follow. */
  function Encode(n: nat): (s: seq<byte>)
    ensures |s| > 0
  {
    if n < 128 then [n] else [n % 128 + 128] + Encode(n / 128)
  }

  datatype Decoded = Decoded(value: nat, used: nat)

  /** The integer at the front of `s` and the number of bytes it takes, if it ends within `s`. */
  function Decode(s: seq<byte>): (r: Option<Decoded>)
    ensures r.Some? ==> 0 < r.value.used <= |s|
  {
    if s == [] then None
    else if s[0] < 128 then Some(Decoded(s[0], 1))
    else
      var rest := Decode(s[1..]);
      if rest.None? then None
      else Some(Decoded(s[0] - 128 + 128 * rest.value.value, 1 + rest.value.used))
  }

  /** More than four bytes of continuation, which the decoder's `int multiplier` cannot follow. */
  predicate Overlong(s: seq<byte>) {
    |s| >= 4 && s[0] >= 128 && s[1] >= 128 && s[2] >= 128 && s[3] >= 128
  }

  /** Decoding returns the encoded number and consumes its bytes only, whatever follows them. */
  lemma {:induction false} RoundTrip(n: nat, rest: seq<byte>)
    ensures Decode(Encode(n) + rest) == Some(Decoded(n, |Encode(n)|))
  {
    var s := Encode(n) + rest;
    if n >= 128 {
      RoundTrip(n / 128, rest);
      assert s[1..] == Encode(n / 128) + rest;
    }
  }

  /** No other encoding of the number, padded or not, takes fewer bytes. */
  lemma {:induction false} EncodeIsShortest(s: seq<byte>)
    requires Decode(s).Some?
    ensures |Encode(Decode(s).value.value)| <= Decode(s).value.used
  {
    if s[0] >= 128 {
      EncodeIsShortest(s[1..]);
    }
  }

  function Pow128(k: nat): nat {
    if k == 0 then 1 else 128 * Pow128(k - 1)
  }

  /** `k` bytes suffice exactly for the numbers below 128 to the power `k`. */
  lemma {:induction false} EncodedSize(n: nat, k: nat)
    requires k > 0
    ensures |Encode(n)| <= k <==> n < Pow128(k)
  {
    if k > 1 && n >= 128 {
      EncodedSize(n / 128, k - 1);
    } else if k == 1 {
      assert Pow128(1) == 128 by {
        assert Pow128(0) == 1;
      }
    } else {
      Pow128Grows(k);
    }
  }

  lemma {:induction false} Pow128Grows(k: nat)
    requires k > 0
    ensures Pow128(k) >= 128
  {
    if k > 1 {
      Pow128Grows(k - 1);
    }
  }

  lemma Pow128Values()
    ensures Pow128(0) == 1 && Pow128(1) == 128 && Pow128(2) == 16_384
    ensures Pow128(3) == 2_097_152 && Pow128(4) == MAX + 1
  {
    assert Pow128(1) == 128 * Pow128(0);
    assert Pow128(2) == 128 * Pow128(1);
    assert Pow128(3) == 128 * Pow128(2);
    assert Pow128(4) == 128 * Pow128(3);
  }

  /** Four bytes suffice exactly for the legal lengths, those up to 268435455. */
  lemma {:induction false} FourBytesSuffice(n: nat)
    ensures |Encode(n)| <= 4 <==> n <= MAX
  {
    EncodedSize(n, 4);
    Pow128Values();
  }

  lemma {:induction false} DecodeBound(s: seq<byte>, k: nat)
    requires Decode(s).Some? && Decode(s).value.used <= k
    ensures Decode(s).value.value < Pow128(k)
  {
    if s[0] < 128 {
      Pow128Grows(k);
    } else {
      DecodeBound(s[1..], k - 1);
    }
  }

  /** A byte below 128 ends the encoding there or before. */
  lemma {:induction false} EndsAt(s: seq<byte>, k: nat)
    requires k < |s| && s[k] < 128
    ensures Decode(s).Some? && Decode(s).value.used <= k + 1
  {
    if s[0] >= 128 {
      EndsAt(s[1..], k - 1);
    }
  }

  /** Within four bytes the decoder never sees a number that is too large. */
  lemma {:induction false} NotOverlong(s: seq<byte>)
    requires !Overlong(s) && Decode(s).Some?
    ensures Decode(s).value.used <= 4 && Decode(s).value.value <= MAX
  {
    if |s| >= 4 {
      var k := if s[0] < 128 then 0 else if s[1] < 128 then 1 else if s[2] < 128 then 2 else 3;
      EndsAt(s, k);
    }
    DecodeBound(s, 4);
    Pow128Values();
  }

  /** A legal length is never overlong, whatever follows it. */
  lemma {:induction false} EncodedIsNotOverlong(n: nat, rest: seq<byte>)
    requires n <= MAX
    ensures !Overlong(Encode(n) + rest)
  {
    FourBytesSuffice(n);
    LastByteEnds(n);
    var e := Encode(n);
    assert (e + rest)[|e| - 1] == e[|e| - 1] < 128;
  }

  lemma {:induction false} LastByteEnds(n: nat)
    ensures Encode(n)[|Encode(n)| - 1] < 128
  {
    if n >= 128 {
      LastByteEnds(n / 128);
    }
  }
}
