/** 64-bit words as their bits, lowest first, and the numbers that short runs of bits denote. */
module Bits {
  import opened Bytes

  type Word = w: seq<bool> | |w| == 64 witness seq(64, i => false)

  function Zero(): Word {
    seq(64, i => false)
  }

  function Or(a: Word, b: Word): Word {
    seq(64, i requires 0 <= i < 64 => a[i] || b[i])
  }

  function And(a: Word, b: Word): Word {
    seq(64, i requires 0 <= i < 64 => a[i] && b[i])
  }

  function ShiftLeft(w: Word, n: nat): Word {
    seq(64, i requires 0 <= i < 64 => i >= n && w[i - n])
  }

  /** The lowest `k` bits of `n`. */
  function Digits(n: nat, k: nat): (s: seq<bool>)
    ensures |s| == k
  {
    if k == 0 then [] else [n % 2 == 1] + Digits(n / 2, k - 1)
  }

  function Number(s: seq<bool>): nat {
    if s == [] then 0 else (if s[0] then 1 else 0) + 2 * Number(s[1..])
  }

  function Pow2(k: nat): (p: nat)
    ensures p > 0
  {
    if k == 0 then 1 else 2 * Pow2(k - 1)
  }

  lemma Pow2Of8()
    ensures Pow2(8) == 256
  {
    assert Pow2(2) == 4;
    assert Pow2(4) == 16;
    assert Pow2(6) == 64;
  }

  lemma {:induction false} NumberOfDigits(n: nat, k: nat)
    requires n < Pow2(k)
    ensures Number(Digits(n, k)) == n
  {
    if k > 0 {
      NumberOfDigits(n / 2, k - 1);
    }
  }

  lemma {:induction false} DigitsOfNumber(s: seq<bool>)
    ensures Number(s) < Pow2(|s|)
    ensures Digits(Number(s), |s|) == s
  {
    if s != [] {
      DigitsOfNumber(s[1..]);
    }
  }

  /** Widening a number adds zero bits above. */
  lemma {:induction false} WideDigits(n: nat, j: nat, k: nat, i: nat)
    requires n < Pow2(j) && j <= k && i < k
    ensures Digits(n, k)[i] == (i < j && Digits(n, j)[i])
  {
    if j == 0 {
      ZeroDigits(k, i);
    } else if i > 0 {
      WideDigits(n / 2, j - 1, k - 1, i - 1);
    }
  }

  lemma {:induction false} ZeroDigits(k: nat, i: nat)
    requires i < k
    ensures !Digits(0, k)[i]
  {
    if i > 0 {
      ZeroDigits(k - 1, i - 1);
    }
  }

  /** The word's byte at index `i`, as the memory of a little-endian target shows it. */
  function ByteAt(w: Word, i: nat): byte
    requires i < 8
  {
    DigitsOfNumber(w[8 * i..8 * i + 8]);
    Pow2Of8();
    Number(w[8 * i..8 * i + 8])
  }

  lemma ByteBits(w: Word, i: nat)
    requires i < 8
    ensures Digits(ByteAt(w, i), 8) == w[8 * i..8 * i + 8]
  {
    DigitsOfNumber(w[8 * i..8 * i + 8]);
  }

  lemma BitOfByte(w: Word, k: nat)
    requires k < 64
    ensures w[k] == Digits(ByteAt(w, k / 8), 8)[k % 8]
  {
    ByteBits(w, k / 8);
    assert w[8 * (k / 8)..8 * (k / 8) + 8][k % 8] == w[8 * (k / 8) + k % 8];
  }

  /** A word is determined by its eight bytes. */
  lemma SameBytes(a: Word, b: Word)
    requires forall i :: 0 <= i < 8 ==> ByteAt(a, i) == ByteAt(b, i)
    ensures a == b
  {
    forall k | 0 <= k < 64 ensures a[k] == b[k] {
      BitOfByte(a, k);
      BitOfByte(b, k);
    }
  }

  /** Every bit of `a` is also in `b`. */
  predicate BitContained(a: byte, b: byte) {
    forall j :: 0 <= j < 8 ==> Digits(a, 8)[j] ==> Digits(b, 8)[j]
  }

  /** Masking `other` with `target` gives `target` exactly when that holds byte by byte. */
  lemma MaskIsBytewise(target: Word, other: Word)
    ensures And(target, other) == target
            <==> forall i :: 0 <= i < 8 ==> BitContained(ByteAt(target, i), ByteAt(other, i))
  {
    if And(target, other) == target {
      forall i | 0 <= i < 8 ensures BitContained(ByteAt(target, i), ByteAt(other, i)) {
        forall j | 0 <= j < 8 && Digits(ByteAt(target, i), 8)[j] ensures Digits(ByteAt(other, i), 8)[j] {
          ByteBits(target, i);
          ByteBits(other, i);
          assert And(target, other)[8 * i + j];
        }
      }
    }
    if forall i :: 0 <= i < 8 ==> BitContained(ByteAt(target, i), ByteAt(other, i)) {
      forall k | 0 <= k < 64 ensures And(target, other)[k] == target[k] {
        BitOfByte(target, k);
        BitOfByte(other, k);
        assert BitContained(ByteAt(target, k / 8), ByteAt(other, k / 8));
      }
    }
  }
}
