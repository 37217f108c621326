/** Topics of up to eight characters packed into one 64-bit word, first character lowest. */
module Keys {
  import opened Bytes
  import opened Bits

  const NUL: byte := 0

  /** Short enough for a word, and free of the sign bit that a `char` would spread upwards. */
  predicate Short(s: seq<byte>) {
    |s| <= 8 && forall i :: 0 <= i < |s| ==> s[i] < 128
  }

  /** The topics whose packing is exact. */
  predicate Packable(s: seq<byte>) {
    Short(s) && NUL !in s
  }

  function GetChar(decoded: seq<byte>, index: nat): Word
    requires index < |decoded|
  {
    ShiftLeft(Digits(decoded[index], 64), 8 * index)
  }

  /** All characters of `s` in one word. */
  function Pack(s: seq<byte>): Word {
    if s == [] then Zero() else Or(Pack(s[..|s| - 1]), GetChar(s, |s| - 1))
  }

  /** `strlen` on the word's bytes, going no further than the word. */
  function Length(w: Word, from: nat): (n: nat)
    requires from <= 8
    ensures from <= n <= 8
    ensures forall i :: from <= i < n ==> ByteAt(w, i) != 0
    ensures n < 8 ==> ByteAt(w, n) == 0
    decreases 8 - from
  {
    if from == 8 || ByteAt(w, from) == 0 then from else Length(w, from + 1)
  }

  function Unpack(w: Word): (s: seq<byte>)
    ensures NUL !in s && |s| <= 8
  {
    seq(Length(w, 0), i requires 0 <= i < Length(w, 0) => ByteAt(w, i))
  }

  /** Packing one more character of a string. */
  lemma PackNext(s: seq<byte>, i: nat)
    requires i < |s| && i < 8
    ensures Pack(s[..i + 1]) == Or(Pack(s[..i]), GetChar(s, i))
  {
    assert s[..i + 1][..i] == s[..i];
    assert GetChar(s[..i + 1], i) == GetChar(s, i);
  }

  method EncodeString(decoded: seq<byte>) returns (encoded: Word)
    requires Short(decoded)
    ensures encoded == Pack(decoded)
  {
    encoded := Zero();
    for i := 0 to |decoded|
      invariant encoded == Pack(decoded[..i])
    {
      PackNext(decoded, i);
      encoded := Or(encoded, GetChar(decoded, i));
    }
    assert decoded[..|decoded|] == decoded;
  }

  /** The compile-time packing of a literal; `literal` includes the terminating NUL. */
  method Encode(literal: seq<byte>) returns (encoded: Word)
    requires 0 < |literal| < 10 && literal[|literal| - 1] == NUL && Short(literal[..|literal| - 1])
    ensures encoded == Pack(literal[..|literal| - 1])
  {
    encoded := Zero();
    var n := if |literal| < 8 then |literal| else 8;
    for i := 0 to n
      invariant encoded == Pack(literal[..i])
    {
      PackNext(literal, i);
      encoded := Or(encoded, GetChar(literal, i));
    }
    if n == |literal| {
      assert literal[..n] == literal[..n - 1] + [NUL];
      PackNul(literal[..n - 1]);
    }
  }

  method DecodeString(encoded: Word, decodeTo: array<byte>) returns (size: nat)
    requires decodeTo.Length >= 8
    modifies decodeTo
    ensures size <= 8 && decodeTo[..size] == Unpack(encoded)
    ensures decodeTo[size..] == old(decodeTo[size..])
  {
    size := Length(encoded, 0);
    forall i | 0 <= i < size {
      decodeTo[i] := ByteAt(encoded, i);
    }
  }

  lemma CharBit(s: seq<byte>, index: nat, k: nat)
    requires index < |s| && k < 64
    ensures GetChar(s, index)[k] == (k / 8 == index && Digits(s[index], 8)[k % 8])
  {
    Pow2Of8();
    if k >= 8 * index {
      WideDigits(s[index], 8, 64, k - 8 * index);
    }
  }

  lemma {:induction false} PackBit(s: seq<byte>, k: nat)
    requires |s| <= 8 && k < 64
    ensures Pack(s)[k] == (k / 8 < |s| && Digits(s[k / 8], 8)[k % 8])
  {
    if s != [] {
      PackBit(s[..|s| - 1], k);
      CharBit(s, |s| - 1, k);
    }
  }

  /** The character at index `i`, or the zero byte behind the topic. */
  function CharAt(s: seq<byte>, i: nat): byte {
    if i < |s| then s[i] else NUL
  }

  ghost predicate Holds(w: Word, s: seq<byte>) {
    forall i :: 0 <= i < 8 ==> ByteAt(w, i) == CharAt(s, i)
  }

  lemma {:induction false} PackRunBit(s: seq<byte>, i: nat, j: nat)
    requires |s| <= 8 && i < 8 && j < 8
    ensures Pack(s)[8 * i + j] == Digits(CharAt(s, i), 8)[j]
  {
    var k := 8 * i + j;
    assert k / 8 == i && k % 8 == j;
    PackBit(s, k);
    ZeroDigits(8, j);
  }

  lemma {:induction false} PackRun(s: seq<byte>, i: nat)
    requires |s| <= 8 && i < 8
    ensures Pack(s)[8 * i..8 * i + 8] == Digits(CharAt(s, i), 8)
  {
    var run, digits := Pack(s)[8 * i..8 * i + 8], Digits(CharAt(s, i), 8);
    forall j | 0 <= j < 8 ensures run[j] == digits[j] {
      PackRunBit(s, i, j);
    }
  }

  /** Each character lands in its own byte, and the bytes behind the topic are zero. */
  lemma {:induction false} PackBytes(s: seq<byte>)
    requires |s| <= 8
    ensures Holds(Pack(s), s)
  {
    Pow2Of8();
    forall i | 0 <= i < 8 ensures ByteAt(Pack(s), i) == CharAt(s, i) {
      PackRun(s, i);
      NumberOfDigits(CharAt(s, i), 8);
    }
  }

  lemma {:induction false} PackNul(s: seq<byte>)
    requires |s| <= 7
    ensures Pack(s + [NUL]) == Pack(s)
  {
    PackBytes(s);
    PackBytes(s + [NUL]);
    forall i | 0 <= i < 8 ensures ByteAt(Pack(s + [NUL]), i) == ByteAt(Pack(s), i) {
      assert CharAt(s + [NUL], i) == CharAt(s, i);
    }
    SameBytes(Pack(s + [NUL]), Pack(s));
  }

  lemma {:induction false} LengthOf(w: Word, s: seq<byte>)
    requires |s| <= 8 && Holds(w, s) && NUL !in s
    ensures Length(w, 0) == |s| && Unpack(w) == s
  {
    var n := Length(w, 0);
    if |s| < 8 {
      assert ByteAt(w, |s|) == CharAt(s, |s|) == NUL;
    }
    if n < 8 {
      assert CharAt(s, n) == NUL;
    }
  }

  /** Unpacking undoes packing exactly for the topics without NUL. */
  lemma {:induction false} RoundTrip(s: seq<byte>)
    requires Short(s)
    ensures Unpack(Pack(s)) == s <==> NUL !in s
  {
    if NUL !in s {
      PackBytes(s);
      LengthOf(Pack(s), s);
    }
  }

  lemma {:induction false} Injective(s: seq<byte>, t: seq<byte>)
    requires Packable(s) && Packable(t) && Pack(s) == Pack(t)
    ensures s == t
  {
    RoundTrip(s);
    RoundTrip(t);
  }

  predicate SevenBit(w: Word) {
    forall i :: 0 <= i < 8 ==> ByteAt(w, i) < 128
  }

  /** No character follows a zero byte. */
  predicate ZeroTail(w: Word) {
    forall i, j :: 0 <= i < j < 8 && ByteAt(w, i) == 0 ==> ByteAt(w, j) == 0
  }

  /** The words that pack some topic are the seven-bit ones without a byte behind a zero byte. */
  lemma Image(w: Word)
    ensures (exists s :: Packable(s) && Pack(s) == w) <==> SevenBit(w) && ZeroTail(w)
  {
    if SevenBit(w) && ZeroTail(w) {
      var s := Unpack(w);
      PackBytes(s);
      forall i | 0 <= i < 8 ensures ByteAt(Pack(s), i) == ByteAt(w, i) {
        assert ByteAt(Pack(s), i) == CharAt(s, i);
      }
      SameBytes(Pack(s), w);
      assert Packable(s);
    }
    if exists s :: Packable(s) && Pack(s) == w {
      var s :| Packable(s) && Pack(s) == w;
      PackBytes(s);
    }
  }

  lemma NothingInNul(c: byte)
    requires BitContained(c, NUL)
    ensures c == NUL
  {
    forall j | 0 <= j < 8 ensures Digits(c, 8)[j] == Digits(NUL, 8)[j] {
      ZeroDigits(8, j);
    }
    assert Digits(c, 8) == Digits(NUL, 8);
    Pow2Of8();
    NumberOfDigits(c, 8);
    NumberOfDigits(NUL, 8);
  }

  lemma NulIsEverywhere(c: byte)
    ensures BitContained(NUL, c)
  {
    forall j | 0 <= j < 8 ensures !Digits(NUL, 8)[j] {
      ZeroDigits(8, j);
    }
  }

  /** The packed prefix test, over the characters of the topics themselves. */
  ghost predicate BitPrefix(prefix: seq<byte>, topic: seq<byte>) {
    |prefix| <= |topic| && forall i :: 0 <= i < |prefix| ==> BitContained(prefix[i], topic[i])
  }

  lemma BytewisePrefix(p: Word, t: Word, prefix: seq<byte>, topic: seq<byte>)
    requires |prefix| <= 8 && NUL !in prefix && |topic| <= 8 && Holds(p, prefix) && Holds(t, topic)
    ensures (forall i :: 0 <= i < 8 ==> BitContained(ByteAt(p, i), ByteAt(t, i))) <==> BitPrefix(prefix, topic)
  {
    if forall i :: 0 <= i < 8 ==> BitContained(ByteAt(p, i), ByteAt(t, i)) {
      if |prefix| > |topic| {
        assert BitContained(ByteAt(p, |topic|), ByteAt(t, |topic|));
        NothingInNul(prefix[|topic|]);
        assert false;
      }
      forall i | 0 <= i < |prefix| ensures BitContained(prefix[i], topic[i]) {
        assert BitContained(ByteAt(p, i), ByteAt(t, i));
      }
    }
    if BitPrefix(prefix, topic) {
      forall i | 0 <= i < 8 ensures BitContained(ByteAt(p, i), ByteAt(t, i)) {
        NulIsEverywhere(CharAt(topic, i));
      }
    }
  }

  /** The mask admits a topic exactly when it is long enough and contains the prefix bit for bit. */
  lemma {:induction false} MaskOfTopics(prefix: seq<byte>, topic: seq<byte>)
    requires Packable(prefix) && Packable(topic)
    ensures And(Pack(prefix), Pack(topic)) == Pack(prefix) <==> BitPrefix(prefix, topic)
  {
    PackBytes(prefix);
    PackBytes(topic);
    MaskIsBytewise(Pack(prefix), Pack(topic));
    BytewisePrefix(Pack(prefix), Pack(topic), prefix, topic);
  }

  /** A topic that starts with the prefix is never missed. */
  lemma {:induction false} PrefixIsMatched(prefix: seq<byte>, topic: seq<byte>)
    requires Packable(prefix) && Packable(topic) && prefix <= topic
    ensures And(Pack(prefix), Pack(topic)) == Pack(prefix)
  {
    MaskOfTopics(prefix, topic);
  }

  predicate Under(a: seq<bool>, b: seq<bool>) {
    |a| == |b| && forall j :: 0 <= j < |a| ==> a[j] ==> b[j]
  }

  /** The bits of one number are among those of another if the lowest is and the others are. */
  lemma LowestFirst(n: nat, m: nat, k: nat)
    requires k > 0 && (n % 2 == 1 ==> m % 2 == 1) && Under(Digits(n / 2, k - 1), Digits(m / 2, k - 1))
    ensures Under(Digits(n, k), Digits(m, k))
  {
  }

  lemma AIsInC()
    ensures BitContained(65, 67)
  {
    LowestFirst(32, 33, 7);
    LowestFirst(65, 67, 8);
  }

  /** But the mask also admits topics that do not start with it: "A" (65) admits "C" (67). */
  lemma MaskAdmitsMore()
    ensures Packable([65]) && Packable([67]) && !([65] <= [67])
    ensures And(Pack([65]), Pack([67])) == Pack([65])
  {
    AIsInC();
    MaskOfTopics([65], [67]);
  }
}
