/** fsk.c: cutting a bit stream into m-bit symbols, and sending them. */
module Fsk {
  import opened Bits
  import opened BitCopy
  import opened BitStreams

  // --- Symbolization -------------------------------------------------------------------

  function Symbols(s: seq<bool>, m: nat): seq<nat>
    requires 0 < m
    decreases |s|
  {
    if s == [] then [] else [FromBits(s[..Min(m, |s|)])] + Symbols(s[Min(m, |s|)..], m)
  }

  function Zeros(n: nat): seq<bool> {
    seq(n, _ => false)
  }

  /** The bits an ideal receiver sees: every symbol spelled on m bits. */
  function Spell(symbols: seq<nat>, m: nat): (s: seq<bool>)
    ensures |s| == |symbols| * m
    decreases |symbols|
  {
    if symbols == [] then [] else BitsOf(symbols[0], m) + Spell(symbols[1..], m)
  }

  lemma {:induction false} PadWithZeros(s: seq<bool>, n: nat)
    ensures FromBits(s + Zeros(n)) == FromBits(s)
    decreases |s| + n
  {
    var t := s + Zeros(n);
    if s != [] {
      assert t[1..] == s[1..] + Zeros(n);
      PadWithZeros(s[1..], n);
    } else if n > 0 {
      assert t[1..] == [] + Zeros(n - 1);
      PadWithZeros([], n - 1);
    }
  }

  /** The padding of the last symbol. */
  function Padding(len: nat, m: nat): (k: nat)
    requires 0 < m
    ensures k < m
    decreases len
  {
    if len == 0 then 0 else if len < m then m - len else Padding(len - m, m)
  }

  /** Nothing is lost or invented: the symbols spell the stream, then less than one symbol of
      zeros, and every symbol names one of the 2^m tones. */
  lemma {:induction false} SymbolsSpellStream(s: seq<bool>, m: nat)
    requires 0 < m
    ensures Spell(Symbols(s, m), m) == s + Zeros(Padding(|s|, m))
    ensures |Symbols(s, m)| * m == |s| + Padding(|s|, m)
    ensures forall i | 0 <= i < |Symbols(s, m)| :: Symbols(s, m)[i] < Pow2(m)
    decreases |s|
  {
    hide Bit;
    if s != [] {
      var n := Min(m, |s|);
      var head, rest := s[..n], s[n..];
      SymbolsSpellStream(rest, m);
      Pow2Grows(n, m);
      PadWithZeros(head, m - n);
      BitsOfFromBits(head + Zeros(m - n));
      assert Symbols(s, m)[1..] == Symbols(rest, m);
      assert BitsOf(FromBits(head), m) == head + Zeros(m - n);
      assert (head + Zeros(m - n)) + (rest + Zeros(Padding(|rest|, m))) == s + Zeros(Padding(|s|, m));
    }
  }

  /** ceil(|s| / m) symbols. */
  lemma SymbolCount(s: seq<bool>, m: nat)
    requires 0 < m
    ensures var n := |Symbols(s, m)|; (n - 1) * m < |s| <= n * m || (n == 0 && s == [])
  {
    SymbolsSpellStream(s, m);
    var n := |Symbols(s, m)|;
    assert (n - 1) * m == n * m - m;
    if n == 0 { assert s == []; }
  }

  /** A transmitter.  `sent` is the sequence of tones it has switched to. */
  class Transmitter {
    const mExp: nat
    var sent: seq<nat>

    constructor (mExp: nat)
      ensures this.mExp == mExp && sent == []
    {
      this.mExp := mExp;
      sent := [];
    }

    /** The call to the tone generator, which ignores a symbol outside its table
        (multi_tone_gen.c:36).  What then sounds is OnAir.SymbolsSound. */
    method SendSymbol(symbol: nat)
      modifies this`sent
      ensures sent == if symbol < Pow2(mExp) then old(sent) + [symbol] else old(sent)
    {
      if symbol < Pow2(mExp) { sent := sent + [symbol]; }
    }

    /** The loop's read into a zeroed `unsigned int`. */
    method ReadSymbol(s: BitStream) returns (bitsRead: nat, symbol: nat)
      requires s.Valid() && mExp <= 30
      modifies s`posRead
      ensures s.Valid() && s.data[..] == old(s.data[..])
      ensures s.Abs() == old(s.Abs()).Advanced(mExp)
      ensures bitsRead == |old(s.Abs()).Ahead(mExp)|
      ensures symbol == FromBits(old(s.Abs()).Ahead(mExp)) < Pow2(bitsRead)
    {
      hide Bit, Pow2, StoreBits, FromBits;
      var memory := new Byte[4](_ => 0);
      assert memory[..] == [0, 0, 0, 0];
      bitsRead := s.Read(memory, mExp);
      LoadSymbol(memory[..], old(s.Abs()).Ahead(mExp));
      symbol := LoadWord(memory[..]);
    }

    /** `fsk_send_sequence`: sends everything ahead of the cursor and returns how many bits that
        was; with one-tone tables (mExp = 0) it sends nothing.  The test for a negative count,
        fsk.c:39, is on an unsigned value and never holds. */
    method SendSequence(s: BitStream) returns (total: nat)
      requires s.Valid() && mExp <= 30
      modifies this`sent, s`posRead
      ensures s.Valid() && s.data[..] == old(s.data[..])
      ensures var l := old(s.Abs());
              if mExp == 0 then total == 0 && sent == old(sent) && s.Abs() == l
              else total == |l.bits| - l.pos && s.Abs() == l.Sought(|l.bits|) &&
                   sent == old(sent) + Symbols(l.bits[l.pos..], mExp)
    {
      hide Bit, Pow2, StoreBits, FromBits, Symbols, Slice;
      total := 0;
      ghost var l := s.Abs();
      ghost var ahead := l.bits[l.pos..];
      while true
        invariant s.Valid() && s.data[..] == old(s.data[..])
        invariant total <= |ahead| && s.Abs() == BitList(l.bits, l.cap, l.pos + total)
        invariant mExp == 0 ==> total == 0 && sent == old(sent)
        invariant 0 < mExp ==> sent + Symbols(ahead[total..], mExp) == old(sent) + Symbols(ahead, mExp)
        decreases |ahead| - total
      {
        var bitsRead, symbol := ReadSymbol(s);
        if bitsRead == 0 { break; }
        NextChunk(l, total, mExp);
        Pow2Grows(bitsRead, mExp);
        ghost var before := sent;
        total := total + bitsRead;
        SendSymbol(symbol);
        assert sent + Symbols(ahead[total..], mExp) == before + ([symbol] + Symbols(ahead[total..], mExp));
      }
      if 0 < mExp { NoSymbols(ahead[total..], mExp); }
    }
  }

  lemma NoSymbols(s: seq<bool>, m: nat)
    requires 0 < m && |s| == 0
    ensures Symbols(s, m) == []
  {
  }

  /** One turn of the loop, on the specification. */
  lemma NextChunk(l: BitList, total: nat, m: nat)
    requires l.Ok() && 0 < m && total < |l.bits| - l.pos
    ensures var ahead, here := l.bits[l.pos..], BitList(l.bits, l.cap, l.pos + total);
      Symbols(ahead[total..], m) == [FromBits(here.Ahead(m))] + Symbols(ahead[total + |here.Ahead(m)|..], m)
  {
    hide FromBits;
    var ahead, here := l.bits[l.pos..], BitList(l.bits, l.cap, l.pos + total);
    assert ahead[total..][..|here.Ahead(m)|] == here.Ahead(m);
    assert ahead[total..][|here.Ahead(m)|..] == ahead[total + |here.Ahead(m)|..];
  }

  /** The unsigned integer a little-endian machine reads from memory. */
  function LoadWord(memory: seq<Byte>): nat {
    FromBits(Slice(memory, 0, 8 * |memory|))
  }

  lemma LoadSymbol(memory: seq<Byte>, chunk: seq<bool>)
    requires |memory| == 4 && |chunk| <= 32 && memory == StoreBits([0, 0, 0, 0], 0, chunk)
    ensures LoadWord(memory) == FromBits(chunk) < Pow2(|chunk|)
  {
    hide StoreBits, Bit, FromBits, Pow2;
    ReadIntoZeros([0, 0, 0, 0], chunk);
    PadWithZeros(chunk, 32 - |chunk|);
    assert seq(32 - |chunk|, _ => false) == Zeros(32 - |chunk|);
  }
}
