/** The whole transmit path against an ideal receiver: one comma in a frame, the preamble on
    the air, and recovery of header and payload from the symbols sent. */
module Receiver {
  import opened Bits
  import opened BitStreams
  import opened X8b10b
  import opened Runs
  import opened LineCode
  import opened Framers
  import opened Fsk
  import opened Wrappers

  // --- One comma per frame -------------------------------------------------------------

  predicate NoPair(s: seq<bool>) {
    forall i | 0 <= i < |s| - 1 :: !(s[i] && s[i + 1])
  }

  lemma {:induction false} PowerBit(m: nat, i: nat)
    ensures Bit(Pow2(m), i) <==> i == m
    decreases m
  {
    if m == 0 {
      if i > 0 { BitZero(i - 1); }
    } else if i > 0 {
      PowerBit(m - 1, i - 1);
    }
  }

  /** A preamble unit: m zeros, a one, m - 1 zeros. */
  lemma UnitBits(m: nat, i: nat)
    requires i < 2 * m
    ensures BitsOf(Pow2(m), 2 * m)[i] <==> i == m
  {
    PowerBit(m, i);
  }

  lemma {:induction false} PreambleNoPair(c: Config, n: nat)
    requires 1 <= c.mExp <= 32
    ensures NoPair(c.Preamble(n))
    decreases n
  {
    hide Bit, Pow2;
    if n > 0 {
      PreambleNoPair(c, n - 1);
      var unit := BitsOf(Pow2(c.mExp), 2 * c.mExp);
      forall i | 0 <= i < |unit| ensures unit[i] <==> i == c.mExp { UnitBits(c.mExp, i); }
      assert !unit[0];
    }
  }

  /** Before the delimiter no comma starts, even across the boundary. */
  lemma NoCommaBefore(p: seq<bool>, s: seq<bool>, at: nat)
    requires NoPair(p) && |s| >= 10 && s[..10] == Delimiter10(true) && at < |p|
    ensures !CommaAt(p + s, at)
  {
    var t := p + s;
    var n := |p|;
    assert t[n] == s[..10][0] && t[n + 1] == s[..10][1];
    assert !t[n] && !t[n + 1];
    if t[at] {
      assert !t[at + 1];
    } else {
      assert !(t[at + 2] && t[at + 3]);
    }
  }

  /** In a frame with a header and a line-coded payload the comma occurs exactly once, at the
      start of the delimiter. */
  lemma FrameComma(c: Config, header: seq<Byte>, payload: seq<Byte>, at: nat)
    requires 1 <= c.mExp <= 32 && !c.noHeader && !c.rawPayload
    ensures CommaAt(c.FrameBits(header, payload), at) <==> at == |c.Preamble(c.preambleLength)|
  {
    hide Group, RdAfter, EncodeBits, NoPair, Bit, Pow2;
    var p, s := c.Preamble(c.preambleLength), Delimited(header + payload, -1);
    FrameContents(c, header, payload);
    PreambleNoPair(c, c.preambleLength);
    DelimiterBits(-1);
    assert s[..10] == Delimiter10(true);
    if at < |p| {
      NoCommaBefore(p, s, at);
    } else {
      CommaOnce(header + payload, -1, at - |p|);
      CommaShift(p, s, at - |p|);
    }
  }

  lemma CommaShift(p: seq<bool>, s: seq<bool>, at: nat)
    ensures CommaAt(p + s, |p| + at) <==> CommaAt(s, at)
  {
    var t := p + s;
    var n := |p|;
    if at + 7 <= |s| {
      forall k | n + at <= k < n + at + 7 ensures t[k] == s[k - n] {}
      if CommaAt(s, at) {
        forall k | n + at + 2 <= k < n + at + 7 ensures t[k] != t[n + at] { assert t[k] == s[k - n]; }
      }
      if CommaAt(t, n + at) {
        forall k | at + 2 <= k < at + 7 ensures s[k] != s[at] { assert t[n + k] == s[n + k - n]; }
      }
    }
  }

  // --- The preamble on the air ---------------------------------------------------------

  function Alternating(n: nat): seq<nat> {
    if n == 0 then [] else [0, 1] + Alternating(n - 1)
  }

  function Units(n: nat, m: nat): seq<bool> {
    if n == 0 then [] else BitsOf(Pow2(m), 2 * m) + Units(n - 1, m)
  }

  lemma {:induction false} UnitsAppend(n: nat, m: nat)
    ensures Units(n + 1, m) == Units(n, m) + BitsOf(Pow2(m), 2 * m)
    decreases n
  {
    if n > 0 { UnitsAppend(n - 1, m); }
  }

  lemma {:induction false} PreambleIsUnits(c: Config, n: nat)
    requires c.mExp <= 32
    ensures c.Preamble(n) == Units(n, c.mExp)
    decreases n
  {
    if n > 0 {
      PreambleIsUnits(c, n - 1);
      UnitsAppend(n - 1, c.mExp);
    }
  }

  lemma UnitSymbols(m: nat)
    requires 0 < m
    ensures var u := BitsOf(Pow2(m), 2 * m); FromBits(u[..m]) == 0 && FromBits(u[m..]) == 1
  {
    hide Bit, Pow2, FromBits;
    var u := BitsOf(Pow2(m), 2 * m);
    forall i: nat | i < 2 * m ensures u[i] <==> i == m { UnitBits(m, i); }
    assert u[..m] == [] + Zeros(m) && u[m..] == [true] + Zeros(m - 1);
    PadWithZeros([], m);
    PadWithZeros([true], m - 1);
    SmallNumbers();
  }

  lemma SmallNumbers()
    ensures FromBits([]) == 0 && FromBits([true]) == 1
  {
    assert [true][1..] == [];
  }

  lemma OneSymbol(a: seq<bool>, rest: seq<bool>, m: nat)
    requires 0 < m == |a|
    ensures Symbols(a + rest, m) == [FromBits(a)] + Symbols(rest, m)
  {
    hide FromBits;
    assert (a + rest)[..m] == a && (a + rest)[m..] == rest;
  }

  /** A preamble is sent as the symbols 0, 1, 0, 1, ... whatever the symbol size, and what
      follows is cut from a symbol boundary. */
  lemma {:induction false} PreambleSymbols(n: nat, m: nat, rest: seq<bool>)
    requires 0 < m
    ensures Symbols(Units(n, m) + rest, m) == Alternating(n) + Symbols(rest, m)
    decreases n
  {
    hide Bit, Pow2, FromBits, Symbols;
    if n == 0 {
      assert Units(n, m) + rest == rest;
    } else {
      var u := BitsOf(Pow2(m), 2 * m);
      var tail := Units(n - 1, m) + rest;
      PreambleSymbols(n - 1, m, rest);
      UnitSymbols(m);
      Regroup(u, m, Units(n - 1, m), rest);
      OneSymbol(u[..m], u[m..] + tail, m);
      OneSymbol(u[m..], tail, m);
      assert [0, 1] + Alternating(n - 1) + Symbols(rest, m) == [0] + ([1] + (Alternating(n - 1) + Symbols(rest, m)));
    }
  }

  lemma Regroup(u: seq<bool>, k: nat, v: seq<bool>, rest: seq<bool>)
    requires k <= |u|
    ensures (u + v) + rest == u[..k] + (u[k..] + (v + rest))
  {
  }

  // --- Receiving -----------------------------------------------------------------------

  datatype Packet = Packet(header: seq<Byte>, payload: seq<Byte>)

  /** The first comma at or after `from`. */
  function FindComma(s: seq<bool>, from: nat): (r: Option<nat>)
    ensures r.Some? ==> from <= r.value && CommaAt(s, r.value)
    decreases |s| - from
  {
    if |s| < from + 7 then None else if CommaAt(s, from) then Some(from) else FindComma(s, from + 1)
  }

  /** An ideal receiver: spell the symbols, find the first comma, skip the delimiter, decode
      three header bytes and then bytes until the code runs out. */
  function Receive(symbols: seq<nat>, m: nat): Option<Packet> {
    var s := Spell(symbols, m);
    match FindComma(s, 0)
    case None => None
    case Some(at) =>
      if |s| < at + 40 then None
      else Some(Packet(DecodeBits(s[at + 10..at + 40]), DecodeBits(s[at + 40..])))
  }

  lemma {:induction false} FindFirst(s: seq<bool>, from: nat, at: nat)
    requires from <= at && CommaAt(s, at) && forall k: nat | from <= k < at :: !CommaAt(s, k)
    ensures FindComma(s, from) == Some(at)
    decreases at - from
  {
    if from < at { FindFirst(s, from + 1, at); }
  }

  lemma CommaInPrefix(s: seq<bool>, z: seq<bool>, at: nat)
    requires at + 7 <= |s|
    ensures CommaAt(s + z, at) <==> CommaAt(s, at)
  {
    assert forall k | 0 <= k < at + 7 :: (s + z)[k] == s[k];
  }

  /** The receiver recovers exactly the encoded header and payload from the symbols of any
      frame, whatever the preamble length, the symbol size and the contents. */
  lemma EndToEnd(c: Config, header: seq<Byte>, payload: seq<Byte>)
    requires 1 <= c.mExp <= 32 && !c.noHeader && !c.rawPayload && |header| == 3
    ensures Receive(Symbols(c.FrameBits(header, payload), c.mExp), c.mExp) == Some(Packet(header, payload))
  {
    hide Group, RdAfter, RdAll, Bit, Pow2, Spell, Symbols, CommaAt, FindComma, EncodeBits, DecodeBits;
    var m, frame := c.mExp, c.FrameBits(header, payload);
    var pre := c.Preamble(c.preambleLength);
    var z := Zeros(Padding(|frame|, m));
    var s := frame + z;
    SymbolsSpellStream(frame, m);
    FrameContents(c, header, payload);
    var at := |pre|;
    assert |frame| >= at + 40;
    forall k: nat | k <= at ensures CommaAt(s, k) <==> k == at {
      FrameComma(c, header, payload, k);
      CommaInPrefix(frame, z, k);
    }
    FindFirst(s, 0, at);
    var after := RdAfter(SFD, true, -1);
    var h, p := EncodeBits(header, after), EncodeBits(payload, RdAll(header, after));
    assert frame == pre + Group(SFD, true, -1) + h + p;
    assert s[at + 10..at + 40] == h + [] && s[at + 40..] == p + z;
    DecodeEncoded(header, after, []);
    DecodeEncoded(payload, RdAll(header, after), z);
  }

  /** The message path of psplay.c: a fresh stream, one frame, rewind, send.  If the frame was
      accepted then what was sent starts with the alternating preamble and is received as the
      header and payload encoded, and every bit of the frame was sent. */
  method Transmit(c: Config, cap: nat, input: seq<Byte>, parity: nat, rs: (seq<Byte>, nat) -> seq<Byte>)
      returns (o: Outcome, sent: seq<nat>, bits: nat)
    requires 1 <= c.mExp <= 30 && !c.noHeader && !c.rawPayload
    requires |rs([U8(|input|)], HEADER_PARITY)| == 1 + HEADER_PARITY
    requires |rs(input, parity)| == |input| + parity
    ensures o.Framed? <==> |input| + parity <= 255 && c.Promised(|input| + parity) + 10 <= cap
    ensures o.Framed? ==>
              && Receive(sent, c.mExp) == Some(Packet(rs([U8(|input|)], HEADER_PARITY), rs(input, parity)))
              && bits == c.Promised(|input| + parity) + 10
              && Alternating(c.preambleLength) <= sent
  {
    hide Group, RdAfter, RdAll, Bit, Pow2, Receive, Symbols, EncodeBits, Slice, Spell;
    var s := new BitStream(cap);
    var framer := new Framer(c);
    o := framer.Frame(input, parity, rs, s);
    sent, bits := [], 0;
    ghost var header, payload := rs([U8(|input|)], HEADER_PARITY), rs(input, parity);
    ghost var frame := c.FrameBits(header, payload);
    FrameLength(c, header, payload);
    if o.Framed? {
      var fsk := new Transmitter(c.mExp);
      var pos := s.Seek(0);
      assert s.Abs().bits == frame && s.Abs().bits[0..] == frame;
      bits := fsk.SendSequence(s);
      sent := fsk.sent;
      assert [] + Symbols(frame, c.mExp) == Symbols(frame, c.mExp);
      assert sent == Symbols(frame, c.mExp);
      EndToEnd(c, header, payload);
      PreambleFirst(c, header, payload);
    }
  }

  lemma PreambleFirst(c: Config, header: seq<Byte>, payload: seq<Byte>)
    requires 1 <= c.mExp <= 32
    ensures Alternating(c.preambleLength) <= Symbols(c.FrameBits(header, payload), c.mExp)
  {
    hide Symbols, Bit, Pow2, Group, RdAfter, RdAll, EncodeBits, Slice, Units;
    PreambleIsUnits(c, c.preambleLength);
    var rest := c.HeaderBits(header) + c.PayloadBits(header, payload);
    assert c.FrameBits(header, payload) == Units(c.preambleLength, c.mExp) + rest;
    PreambleSymbols(c.preambleLength, c.mExp, rest);
  }
}
