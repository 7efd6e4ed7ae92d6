/** `bitwise_copy` (bitstream.c): copies bits between two byte arrays at arbitrary
    offsets, a source-byte remainder and a destination-byte remainder at a time.
    The reference stores one bit at a time; `StoredBits` and `StoredBytes` say what it means. */
module BitCopy {
  import opened Bits

  const E2BIG: int := 7

  /** The byte the inner loop stores: fresh bits above the pos bits already there. */
  function Merge(added: nat, kept: Byte, pos: nat): Byte {
    U8(Or(Shl(added, pos), Low(kept, pos)))
  }

  /** Memory after storing one bit; the higher bits of its byte become zero. */
  function StoreBit(m: seq<Byte>, at: nat, b: bool): (r: seq<Byte>)
    requires at < 8 * |m|
    ensures |r| == |m|
  {
    m[at / 8 := Merge(if b then 1 else 0, m[at / 8], at % 8)]
  }

  /** The reference: a bit string stored one bit after the other from bit `at`. */
  function StoreBits(m: seq<Byte>, at: nat, s: seq<bool>): (r: seq<Byte>)
    requires at + |s| <= 8 * |m|
    ensures |r| == |m|
    decreases |s|
  {
    if s == [] then m
    else StoreBit(StoreBits(m, at, s[..|s| - 1]), at + |s| - 1, s[|s| - 1])
  }

  lemma {:induction false} SameBits(a: nat, b: nat, w: nat)
    requires a < Pow2(w) && b < Pow2(w)
    requires forall i: nat | i < w :: Bit(a, i) == Bit(b, i)
    ensures a == b
    decreases w
  {
    if w > 0 {
      assert Bit(a, 0) == Bit(b, 0);
      forall i: nat | i < w - 1 ensures Bit(a / 2, i) == Bit(b / 2, i) { assert Bit(a, i + 1) == Bit(b, i + 1); }
      SameBits(a / 2, b / 2, w - 1);
    }
  }

  lemma MergedBit(added: nat, kept: Byte, pos: nat, i: nat)
    requires i < 8
    ensures Bit(Merge(added, kept, pos), i) == if i < pos then Bit(kept, i) else Bit(added, i - pos)
  {
    hide Bit, Low, Or, Shl, Shr, FromBits;
    BitLow(Or(Shl(added, pos), Low(kept, pos)), 8, i);
    BitOr(Shl(added, pos), Low(kept, pos), i);
    BitShl(added, pos, i);
    BitLow(kept, pos, i);
  }

  /** Merging writes the new bits just above the pos bits kept, and zeros above those. */
  lemma MergeValue(s: seq<bool>, kept: Byte, pos: nat)
    requires pos + |s| <= 8
    ensures Merge(FromBits(s), kept, pos) == FromBits(BitsOf(kept, pos) + s)
  {
    hide Bit, Low, Or, Shl, Shr, FromBits, Merge, Pow2;
    var all := BitsOf(kept, pos) + s;
    var m, f := Merge(FromBits(s), kept, pos), FromBits(all);
    forall i: nat | i < 8 ensures Bit(m, i) == Bit(f, i) {
      MergedBit(FromBits(s), kept, pos, i);
      BitFromBits(all, i);
      if pos <= i { BitFromBits(s, i - pos); }
    }
    Pow2Eight();
    Pow2Grows(|all|, 8);
    SameBits(m, f, 8);
  }

  lemma FromOneBit(b: bool)
    ensures FromBits([b]) == if b then 1 else 0
  {
    assert [b][1..] == [];
  }

  /** Merging n bits and then one more is merging n + 1 bits. */
  lemma MergeTwice(s: seq<bool>, kept: Byte, pos: nat, first: Byte)
    requires 0 < |s| && pos + |s| <= 8
    requires first == Merge(FromBits(s[..|s| - 1]), kept, pos)
    ensures Merge(if s[|s| - 1] then 1 else 0, first, pos + |s| - 1) == Merge(FromBits(s), kept, pos)
  {
    hide *;
    var n := |s| - 1;
    var base := BitsOf(kept, pos);
    MergeValue(s[..n], kept, pos);
    LastMerged(base + s[..n], s[n], first);
    MergeValue(s, kept, pos);
    Regrouped(base, s, n);
  }

  /** Merging one bit above the bits of a byte. */
  lemma LastMerged(low: seq<bool>, b: bool, first: Byte)
    requires |low| < 8 && first == FromBits(low)
    ensures Merge(if b then 1 else 0, first, |low|) == FromBits(low + [b])
  {
    hide *;
    BitsOfFromBits(low);
    FromOneBit(b);
    MergeValue([b], first, |low|);
  }

  lemma Regrouped(a: seq<bool>, s: seq<bool>, n: nat)
    requires |s| == n + 1
    ensures a + s[..n] + [s[n]] == a + s
  {
  }

  lemma {:induction false} StoreBitsSplit(m: seq<Byte>, at: nat, a: seq<bool>, b: seq<bool>)
    requires at + |a| + |b| <= 8 * |m|
    ensures StoreBits(m, at, a + b) == StoreBits(StoreBits(m, at, a), at + |a|, b)
    decreases |b|
  {
    if b == [] {
      assert a + b == a;
    } else {
      StoreBitsSplit(m, at, a, b[..|b| - 1]);
      assert (a + b)[..|a + b| - 1] == a + b[..|b| - 1];
    }
  }

  /** One store of the inner loop is |s| steps of the reference. */
  lemma {:induction false} StoreChunk(m: seq<Byte>, at: nat, s: seq<bool>)
    requires at + |s| <= 8 * |m|
    requires 0 < |s| <= 8 - at % 8
    ensures StoreBits(m, at, s) == m[at / 8 := Merge(FromBits(s), m[at / 8], at % 8)]
    decreases |s|
  {
    hide Bit, Low, Or, Shl, Shr, FromBits, Merge;
    var n := |s| - 1;
    var j, pos := at / 8, at % 8;
    var before := StoreBits(m, at, s[..n]);
    assert (at + n) / 8 == j && (at + n) % 8 == pos + n;
    FromOneBit(s[n]);
    if n == 0 {
      assert s == [s[0]] && s[..n] == [];
    } else {
      StoreChunk(m, at, s[..n]);
      MergeTwice(s, m[j], pos, before[j]);
    }
  }

  lemma EmptyRegister(n: nat)
    ensures Or(0, Shl(n, 0)) == n
  {
  }

  /** Taking n bits out of a source byte into the empty 16-bit register. */
  lemma LoadRegister(src: seq<Byte>, at: nat, n: nat)
    requires n <= 8 - at % 8 && at + n <= 8 * |src| && at < 8 * |src|
    ensures Low(Or(0, Shl(Low(Shr(src[at / 8], at % 8), n), 0)), 16) == FromBits(Slice(src, at, n))
  {
    hide Bit, Low, Or, Shl, Shr, FromBits, Pow2;
    var bits := Low(Shr(src[at / 8], at % 8), n);
    EmptyRegister(bits);
    var s := Slice(src, at, n);
    forall i: nat | i < 16 ensures Bit(Low(bits, 16), i) == Bit(FromBits(s), i) {
      BitLow(bits, 16, i);
      BitLow(Shr(src[at / 8], at % 8), n, i);
      BitShr(src[at / 8], at % 8, i);
      BitFromBits(s, i);
      if i < n {
        assert (at + i) / 8 == at / 8 && (at + i) % 8 == at % 8 + i;
        assert s[i] == BitAt(src, at + i) == Bit(src[at / 8], at % 8 + i);
      }
    }
    Pow2Grows(n, 16);
    SameBits(Low(bits, 16), FromBits(s), 16);
  }

  lemma Halves(s: seq<bool>)
    requires 0 < |s|
    ensures FromBits(s) / 2 == FromBits(s[1..]) && FromBits(s) % 2 == if s[0] then 1 else 0
  {
    hide Pow2;
  }

  lemma {:induction false} ShiftRegister(s: seq<bool>, k: nat)
    requires k <= |s|
    ensures Shr(FromBits(s), k) == FromBits(s[k..])
    decreases k
  {
    hide Bit, Pow2, FromBits;
    if k == 0 {
      assert s[k..] == s;
    } else {
      Halves(s);
      assert s[1..][k - 1..] == s[k..];
      ShiftRegister(s[1..], k - 1);
    }
  }

  lemma {:induction false} MaskRegister(s: seq<bool>, k: nat)
    requires k <= |s|
    ensures Low(FromBits(s), k) == FromBits(s[..k])
    decreases k
  {
    hide Bit, Pow2, FromBits;
    if k == 0 {
      FromNoBits(s[..k]);
    } else {
      Halves(s);
      Halves(s[..k]);
      assert s[..k][1..] == s[1..][..k - 1];
      MaskRegister(s[1..], k - 1);
    }
  }

  /** The low bits of the register are the first bits loaded; shifting them out leaves the rest. */
  lemma SplitRegister(s: seq<bool>, k: nat)
    requires k <= |s|
    ensures Low(FromBits(s), k) == FromBits(s[..k])
    ensures Shr(FromBits(s), k) == FromBits(s[k..])
  {
    hide *;
    MaskRegister(s, k);
    ShiftRegister(s, k);
  }

  /** One pass of the inner loop: n of the m bits in the register go to memory. */
  lemma MoveChunk(was: seq<Byte>, at: nat, d: nat, src: seq<Byte>, from: nat, c: nat, m: nat, n: nat)
    requires d == at + c && d + n <= 8 * |was| && from + c + m <= 8 * |src|
    requires 0 < n <= m && n <= 8 - d % 8
    ensures var memory := StoreBits(was, at, Slice(src, from, c));
            var reg := FromBits(Slice(src, from + c, m));
            && StoreBits(was, at, Slice(src, from, c + n)) ==
               memory[d / 8 := Merge(Low(reg, n), memory[d / 8], d % 8)]
            && Shr(reg, n) == FromBits(Slice(src, from + c + n, m - n))
  {
    hide Bit, Low, Or, Shl, Shr, FromBits, Merge, StoreBits;
    var done, held := Slice(src, from, c), Slice(src, from + c, m);
    SplitRegister(held, n);
    assert held[..n] == Slice(src, from + c, n) && held[n..] == Slice(src, from + c + n, m - n);
    assert Slice(src, from, c + n) == done + held[..n];
    StoreBitsSplit(was, at, done, held[..n]);
    StoreChunk(StoreBits(was, at, done), d, held[..n]);
  }

  /** Copies min(count, srcCap - srcOffset0) bits, or refuses when the destination has no
      room for `count`. */
  method BitwiseCopy(src: array<Byte>, srcOffset0: nat, srcCap: nat,
                     dst: array<Byte>, dstOffset0: nat, dstCap: nat, count: nat) returns (r: int)
    requires src != dst
    requires srcOffset0 <= srcCap <= 8 * src.Length
    requires dstOffset0 <= dstCap <= 8 * dst.Length
    modifies dst
    ensures dstCap - dstOffset0 < count ==> r == -E2BIG && dst[..] == old(dst[..])
    ensures count <= dstCap - dstOffset0 ==>
              r == Min(count, srcCap - srcOffset0) &&
              dst[..] == StoreBits(old(dst[..]), dstOffset0, Slice(src[..], srcOffset0, r))
  {
    hide *;
    var srcRemaining: nat := Min(count, srcCap - srcOffset0);
    var copied: nat := 0;
    if dstCap - dstOffset0 < count { return -E2BIG; }
    ghost var was, s, total := dst[..], src[..], srcRemaining;
    StoreNothing(was, dstOffset0, Slice(s, srcOffset0, 0));
    var srcOffset: nat, dstOffset: nat := srcOffset0, dstOffset0;
    var reg: nat, regLen: nat := 0, 0;
    while srcRemaining > 0
      invariant copied + srcRemaining == total
      invariant srcOffset == srcOffset0 + copied && dstOffset == dstOffset0 + copied
      invariant reg == 0 && regLen == 0
      invariant dst[..] == StoreBits(was, dstOffset0, Slice(s, srcOffset0, copied))
    {
      var produced := Min(srcRemaining, 8 - srcOffset % 8);
      var bitsProduced := Low(Shr(src[srcOffset / 8], srcOffset % 8), produced);
      LoadRegister(s, srcOffset, produced);
      srcOffset := srcOffset + produced;
      srcRemaining := srcRemaining - produced;
      reg := Low(Or(reg, Shl(bitsProduced, regLen)), 16);
      regLen := regLen + produced;
      while regLen > 0
        invariant copied + regLen + srcRemaining == total
        invariant srcOffset == srcOffset0 + copied + regLen && dstOffset == dstOffset0 + copied
        invariant reg == FromBits(Slice(s, srcOffset0 + copied, regLen))
        invariant dst[..] == StoreBits(was, dstOffset0, Slice(s, srcOffset0, copied))
      {
        var consumed := Min(regLen, 8 - dstOffset % 8);
        var bitsConsumed := Low(reg, consumed);
        var dstByte, dstBit := dstOffset / 8, dstOffset % 8;
        MoveChunk(was, dstOffset0, dstOffset, s, srcOffset0, copied, regLen, consumed);
        dst[dstByte] := Merge(bitsConsumed, dst[dstByte], dstBit);
        dstOffset := dstOffset + consumed;
        reg := Shr(reg, consumed);
        regLen := regLen - consumed;
        copied := copied + consumed;
      }
      FromNoBits(Slice(s, srcOffset0 + copied, 0));
    }
    return copied;
  }

  lemma StoreNothing(m: seq<Byte>, at: nat, s: seq<bool>)
    requires at <= 8 * |m| && |s| == 0
    ensures StoreBits(m, at, s) == m
  {
  }

  lemma FromNoBits(s: seq<bool>)
    requires |s| == 0
    ensures FromBits(s) == 0
  {
  }

  lemma BitOfOne(b: bool, i: nat)
    ensures Bit(if b then 1 else 0, i) == (i == 0 && b)
  {
    BitZero(i);
    if i > 0 { BitZero(i - 1); }
  }

  /** What one stored bit does to every bit of memory. */
  lemma StoredBit(m: seq<Byte>, at: nat, b: bool, k: nat)
    requires at < 8 * |m| && k < 8 * |m|
    ensures BitAt(StoreBit(m, at, b), k) ==
            if k / 8 != at / 8 || k < at then BitAt(m, k) else k == at && b
  {
    hide Bit, Low, Or, Shl, Shr, FromBits, Merge;
    if k / 8 == at / 8 {
      MergedBit(if b then 1 else 0, m[at / 8], at % 8, k % 8);
      if at <= k { BitOfOne(b, k % 8 - at % 8); }
    }
  }

  /** What the copy leaves in memory: bits below `at` kept, the next ones the string's, the
      rest of the last byte touched zero. */
  lemma {:induction false} StoredBits(m: seq<Byte>, at: nat, s: seq<bool>, k: nat)
    requires at + |s| <= 8 * |m| && k < 8 * |m|
    ensures k < at ==> BitAt(StoreBits(m, at, s), k) == BitAt(m, k)
    ensures at <= k < at + |s| ==> BitAt(StoreBits(m, at, s), k) == s[k - at]
    ensures 0 < |s| && at + |s| <= k && k / 8 == (at + |s| - 1) / 8 ==> !BitAt(StoreBits(m, at, s), k)
    decreases |s|
  {
    hide Bit, Merge;
    if s != [] {
      var n := |s| - 1;
      StoredBits(m, at, s[..n], k);
      StoredBit(StoreBits(m, at, s[..n]), at + n, s[n], k);
    }
  }

  /** Bytes past the last bit stored are untouched. */
  lemma {:induction false} StoredBytes(m: seq<Byte>, at: nat, s: seq<bool>, j: nat)
    requires at + |s| <= 8 * |m| && j < |m| && (s == [] || at + |s| <= 8 * j)
    ensures StoreBits(m, at, s)[j] == m[j]
    decreases |s|
  {
    if s != [] { StoredBytes(m, at, s[..|s| - 1], j); }
  }
}
