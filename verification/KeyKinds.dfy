/** The store's key types: plain strings, and topics packed into words. */
module KeyKinds {
  import opened Bytes
  import opened Messages
  import Bits
  import Keys

  /**
   * What the store's template is specialised with. `fits` says for which topics `encode` is defined
   * by the language and exact; `hasPrefix(target, other)` is the prefix matcher.
   */
  datatype KeyKind<!K> = KeyKind(
    fits: Text -> bool,
    encode: Text -> K,
    decode: K -> Text,
    hasPrefix: (K, K) -> bool)

  /** Decoding undoes encoding on the topics that fit. */
  ghost predicate Lawful<K>(kind: KeyKind<K>) {
    forall t: Text :: kind.fits(t) ==> kind.decode(kind.encode(t)) == t
  }

  /** `std::equal` over the length of the shorter key. */
  predicate SameStart(target: Text, other: Text) {
    var n := if |target| < |other| then |target| else |other|;
    target[..n] == other[..n]
  }

  function StringKeys(): KeyKind<Text> {
    KeyKind((t: Text) => true, (t: Text) => t, (k: Text) => k, (target: Text, other: Text) => SameStart(target, other))
  }

  function PackedKeys(): KeyKind<Bits.Word> {
    KeyKind(
      (t: Text) => Keys.Packable(t),
      (t: Text) => Keys.Pack(t),
      (w: Bits.Word) => Keys.Unpack(w),
      (target: Bits.Word, other: Bits.Word) => Bits.And(target, other) == target)
  }

  lemma StringKeysAreLawful()
    ensures Lawful(StringKeys())
  {
  }

  lemma PackedKeysAreLawful()
    ensures Lawful(PackedKeys())
  {
    forall t: Text | Keys.Packable(t) ensures Keys.Unpack(Keys.Pack(t)) == t {
      Keys.RoundTrip(t);
    }
  }

  /** A string key at least as long as the filter matches exactly when it starts with it. */
  lemma StringPrefixIsExact(target: Text, other: Text)
    ensures StringKeys().hasPrefix(target, other) <==> target <= other || other <= target
    ensures |target| <= |other| ==> (StringKeys().hasPrefix(target, other) <==> target <= other)
  {
    if target <= other {
      assert other[..|target|] == target;
    }
    if other <= target {
      assert target[..|other|] == other;
    }
  }
}
