/** Unsigned machine words as natural numbers, read and combined bit by bit,
    least significant bit first.  `Low` is both `n & BIT_ONES(w)` and the truncating
    conversion to a w-bit type, so every width in the program is written out. */
module Bits {

  type Byte = b: nat | b < 256

  function Min(a: nat, b: nat): (r: nat)
    ensures r <= a && r <= b && (r == a || r == b)
  {
    if a < b then a else b
  }

  function Pow2(k: nat): (r: nat)
    ensures 1 <= r
  {
    if k == 0 then 1 else 2 * Pow2(k - 1)
  }

  predicate Bit(n: nat, i: nat) {
    if i == 0 then n % 2 == 1 else Bit(n / 2, i - 1)
  }

  function Shr(n: nat, k: nat): nat {
    if k == 0 then n else Shr(n / 2, k - 1)
  }

  function Shl(n: nat, k: nat): nat
    decreases k
  {
    if k == 0 then n else Shl(2 * n, k - 1)
  }

  function Or(a: nat, b: nat): nat {
    if a == 0 then b else if b == 0 then a else
    (if a % 2 == 1 || b % 2 == 1 then 1 else 0) + 2 * Or(a / 2, b / 2)
  }

  function Low(n: nat, w: nat): (r: nat)
    ensures r < Pow2(w)
  {
    if w == 0 then 0 else n % 2 + 2 * Low(n / 2, w - 1)
  }

  /** Conversion to `uint8_t`. */
  function U8(n: nat): Byte {
    assert Pow2(8) == 256 by { Pow2Eight(); }
    Low(n, 8)
  }

  lemma Pow2Eight()
    ensures Pow2(8) == 256
  {
    assert Pow2(4) == 16;
  }

  lemma {:induction false} Pow2Grows(a: nat, b: nat)
    requires a <= b
    ensures Pow2(a) <= Pow2(b)
    decreases b
  {
    if a < b { Pow2Grows(a, b - 1); }
  }

  lemma {:induction false} BitZero(i: nat)
    ensures !Bit(0, i)
  {
    if i > 0 { BitZero(i - 1); }
  }

  lemma {:induction false} BitShr(n: nat, k: nat, i: nat)
    ensures Bit(Shr(n, k), i) == Bit(n, k + i)
    decreases k
  {
    if k > 0 { BitShr(n / 2, k - 1, i); }
  }

  lemma {:induction false} BitShl(n: nat, k: nat, i: nat)
    ensures Bit(Shl(n, k), i) == (k <= i && Bit(n, i - k))
    decreases k
  {
    if k > 0 { BitShl(2 * n, k - 1, i); }
  }

  lemma {:induction false} BitOr(a: nat, b: nat, i: nat)
    ensures Bit(Or(a, b), i) == (Bit(a, i) || Bit(b, i))
    decreases i
  {
    BitZero(i);
    if i > 0 && a != 0 && b != 0 {
      assert Or(a, b) / 2 == Or(a / 2, b / 2);
      BitOr(a / 2, b / 2, i - 1);
    }
  }

  lemma {:induction false} BitLow(n: nat, w: nat, i: nat)
    ensures Bit(Low(n, w), i) == (i < w && Bit(n, i))
    decreases w
  {
    if w == 0 {
      BitZero(i);
    } else if i > 0 {
      assert Low(n, w) / 2 == Low(n / 2, w - 1);
      BitLow(n / 2, w - 1, i - 1);
    }
  }

  /** A word fits in w bits exactly when truncation to w bits keeps it. */
  lemma {:induction false} BoundedByBits(n: nat, w: nat)
    ensures n < Pow2(w) <==> Low(n, w) == n
    decreases w
  {
    if w > 0 { BoundedByBits(n / 2, w - 1); }
  }

  /** The w low bits of a word, least significant first. */
  function BitsOf(n: nat, w: nat): (s: seq<bool>)
    ensures |s| == w
  {
    seq(w, i requires 0 <= i < w => Bit(n, i))
  }

  /** The number a bit string spells, least significant bit first. */
  function FromBits(s: seq<bool>): (r: nat)
    ensures r < Pow2(|s|)
  {
    if |s| == 0 then 0 else (if s[0] then 1 else 0) + 2 * FromBits(s[1..])
  }

  lemma {:induction false} BitFromBits(s: seq<bool>, i: nat)
    ensures Bit(FromBits(s), i) == (i < |s| && s[i])
    decreases |s|
  {
    if |s| == 0 {
      BitZero(i);
    } else if i > 0 {
      assert FromBits(s) / 2 == FromBits(s[1..]);
      BitFromBits(s[1..], i - 1);
    }
  }

  /** Reading the bits of a number and spelling them back keeps the low bits. */
  lemma {:induction false} FromBitsOfWord(n: nat, w: nat)
    ensures FromBits(BitsOf(n, w)) == Low(n, w)
    decreases w
  {
    if w > 0 {
      assert BitsOf(n, w)[1..] == BitsOf(n / 2, w - 1);
      FromBitsOfWord(n / 2, w - 1);
    }
  }

  lemma BitsOfFromBits(s: seq<bool>)
    ensures BitsOf(FromBits(s), |s|) == s
  {
    forall i | 0 <= i < |s| ensures BitsOf(FromBits(s), |s|)[i] == s[i] {
      BitFromBits(s, i);
    }
  }

  /** Bit k of a byte array, counted from bit 0 of byte 0. */
  predicate BitAt(a: seq<Byte>, k: nat)
    requires k < 8 * |a|
  {
    Bit(a[k / 8], k % 8)
  }

  /** `count` bits of a byte array from bit `from`. */
  function Slice(a: seq<Byte>, from: nat, count: nat): (s: seq<bool>)
    requires from + count <= 8 * |a|
    ensures |s| == count
  {
    seq(count, i requires 0 <= i < count => BitAt(a, from + i))
  }

  /** The w-bit word stored at the start of memory on a little-endian machine. */
  function WordBytes(n: nat, bytes: nat): (s: seq<Byte>)
    ensures |s| == bytes
  {
    seq(bytes, j requires 0 <= j < bytes => U8(Shr(n, 8 * j)))
  }

  lemma WordBytesBits(n: nat, bytes: nat, w: nat)
    requires w <= 8 * bytes
    ensures Slice(WordBytes(n, bytes), 0, w) == BitsOf(n, w)
  {
    forall i | 0 <= i < w ensures BitAt(WordBytes(n, bytes), i) == Bit(n, i) {
      var j := i / 8;
      BitLow(Shr(n, 8 * j), 8, i % 8);
      BitShr(n, 8 * j, i % 8);
    }
  }
}
