/** framer.c: preamble, K28.1 delimiter, line-coded header and payload on one bit stream.
    Reed-Solomon encoding is a parameter of known output length. */
module Framers {
  import opened Bits
  import opened BitCopy
  import opened BitStreams
  import opened X8b10b
  import opened LineCode

  const SFD: Byte := 0x3c
  const EMSGSIZE: int := 90
  const MAX_PAYLOAD: nat := 255
  const HEADER_PARITY: nat := 2

  // --- Symbols into the stream ---------------------------------------------------------

  /** The bit-reversal table of `rev10b`. */
  function Lut(v: nat): Byte {
    match v
    case 0 => 0 case 1 => 16 case 2 => 8 case 3 => 24 case 4 => 4 case 5 => 20 case 6 => 12 case 7 => 28
    case 8 => 2 case 9 => 18 case 10 => 10 case 11 => 26 case 12 => 6 case 13 => 22 case 14 => 14 case 15 => 30
    case 16 => 1 case 17 => 17 case 18 => 9 case 19 => 25 case 20 => 5 case 21 => 21 case 22 => 13 case 23 => 29
    case 24 => 3 case 25 => 19 case 26 => 11 case 27 => 27 case 28 => 7 case 29 => 23 case 30 => 15 case _ => 31
  }

  function Rev10(t: nat): nat {
    Or(Shl(Lut(Low(t, 5)), 5), Lut(Shr(t, 5)))
  }

  lemma LutCompared(v: nat)
    requires v < 32
    ensures var w := Lut(v);
      w < 32 && Peel(Peel(v, 128), 64) == v && Peel(Peel(w, 128), 64) == w &&
      var b := Peel(v, 32); var c := Peel(b, 16); var d := Peel(c, 8); var e := Peel(d, 4); var i := Peel(e, 2);
      var b', c', d', e' := Peel(w, 32), Peel(Peel(w, 32), 16), Peel(Peel(Peel(w, 32), 16), 8),
                            Peel(Peel(Peel(Peel(w, 32), 16), 8), 4);
      var i' := Peel(e', 2);
      (16 <= b' <==> 1 <= i) && (8 <= c' <==> 2 <= e) && (4 <= d' <==> 4 <= d) && (2 <= e' <==> 8 <= c) &&
      (1 <= i' <==> 16 <= b)
  {
  }

  lemma LutReverses(v: nat, i: nat)
    requires v < 32 && i < 5
    ensures Bit(Lut(v), i) == Bit(v, 4 - i)
  {
    hide Bit, Lut, Peel;
    LutCompared(v);
    Compared(v);
    Compared(Lut(v));
  }

  lemma HighBitsClear(u: nat, w: nat, i: nat)
    requires u < Pow2(w) && w <= i
    ensures !Bit(u, i)
  {
    BoundedByBits(u, w);
    BitLow(u, w, i);
  }

  lemma {:induction false} ShrFits(n: nat, k: nat, w: nat)
    requires n < Pow2(k + w)
    ensures Shr(n, k) < Pow2(w)
    decreases k
  {
    if k > 0 { ShrFits(n / 2, k - 1, w); }
  }

  lemma FiveOfTen(t: nat)
    requires t < 1024
    ensures Shr(t, 5) < 32 == Pow2(5) && Low(t, 5) < 32
  {
    hide Bit, Shr, Low;
    Weights();
    assert Pow2(10) == 8 * Pow2(7);
    ShrFits(t, 5, 5);
  }

  lemma Rev10Bit(t: nat, i: nat)
    requires t < 1024 && i < 10
    ensures Bit(Rev10(t), i) == Bit(t, 9 - i)
  {
    hide Bit, Lut, Low, Shr, Shl, Or, Pow2;
    var h, l := Shr(t, 5), Low(t, 5);
    FiveOfTen(t);
    BitOr(Shl(Lut(l), 5), Lut(h), i);
    BitShl(Lut(l), 5, i);
    LutCompared(h);
    if i < 5 {
      LutReverses(h, i);
      BitShr(t, 5, 4 - i);
    } else {
      HighBitsClear(Lut(h), 5, i);
      LutReverses(l, i - 5);
      BitLow(t, 5, 9 - i);
    }
  }

  /** The word handed to the stream, least significant bit first, is the symbol with a first. */
  lemma Rev10SpellsGroup(u8b: Byte, ctrl: bool, rd: int)
    requires Encode(u8b, ctrl, rd).Symbol?
    ensures BitsOf(Rev10(Encode(u8b, ctrl, rd).code), 10) == Group(u8b, ctrl, rd)
  {
    hide Bit, Encode, Rev10, Group;
    var code := Encode(u8b, ctrl, rd).code;
    forall i: nat | i < 10 ensures BitsOf(Rev10(code), 10)[i] == Group(u8b, ctrl, rd)[i] {
      CodeSpellsGroup(u8b, ctrl, rd, i);
      Rev10Bit(code, i);
    }
  }

  /** `bitstream_write_8b10b`.  The result of the encoder is ignored, so only bytes it accepts
      may be sent; the disparity advances even when the stream is full. */
  method Write8b10b(s: BitStream, data: Byte, rdIn: int, ctrl: bool) returns (r: int, rd: int)
    requires s.Valid() && Encode(data, ctrl, rdIn).Symbol?
    modifies s`posWrite, s`len, s.data
    ensures s.Valid() && s.cap == old(s.cap) && s.data == old(s.data)
    ensures s.Abs() == old(s.Abs()).Written(Group(data, ctrl, rdIn)) && rd == RdAfter(data, ctrl, rdIn)
    ensures r == if old(s.Abs()).Fits(Group(data, ctrl, rdIn)) then 10 else -E2BIG
  {
    hide Bit, Rev10, Encode, Group, RdAfter;
    var ok, t;
    ok, t, rd := Enc(data, 0, ctrl, rdIn);
    CodeSpellsGroup(data, ctrl, rdIn, 0);
    Rev10SpellsGroup(data, ctrl, rdIn);
    t := Rev10(t);
    var word := new Byte[2](j requires 0 <= j < 2 => WordBytes(t, 2)[j]);
    assert word[..] == WordBytes(t, 2);
    WordBytesBits(t, 2, 10);
    r := s.Write(word, 10);
  }

  /** `bitstream_write_8b10b_chunk`: the whole chunk or, when it does not fit, nothing.  The
      early return of framer.c:44 never fires. */
  method Write8b10bChunk(s: BitStream, data: seq<Byte>, rdIn: int) returns (r: int, rd: int)
    requires s.Valid()
    modifies s`posWrite, s`len, s.data
    ensures s.Valid() && s.cap == old(s.cap) && s.data == old(s.data)
    ensures s.Abs() == old(s.Abs()).Written(EncodeBits(data, rdIn))
    ensures if old(s.Abs()).Fits(EncodeBits(data, rdIn))
            then r == 10 * |data| && rd == RdAll(data, rdIn)
            else r == -E2BIG && rd == rdIn
  {
    hide Encode, Group, RdAfter, EncodeBits, RdAll;
    rd := rdIn;
    if s.RemainingCap() < 10 * |data| { return -E2BIG, rd; }
    ghost var before := s.Abs();
    var bitsWritten := 0;
    EncodeNone(rdIn);
    for i := 0 to |data|
      invariant s.Valid() && s.cap == before.cap && s.data == old(s.data)
      invariant bitsWritten == 10 * i && rd == RdAll(data[..i], rdIn)
      invariant s.Abs() == BitList(before.bits + EncodeBits(data[..i], rdIn), before.cap, before.pos)
    {
      AcceptedBytes(data[i], false, rd);
      EncodeOne(data[i], rd);
      EncodeJoin(data[..i], [data[i]], rdIn);
      assert data[..i + 1] == data[..i] + [data[i]];
      var ret;
      ret, rd := Write8b10b(s, data[i], rd, false);
      assert 0 <= ret;
      bitsWritten := bitsWritten + ret;
    }
    assert data[..|data|] == data;
    return bitsWritten, rd;
  }

  lemma EncodeNone(rd: int)
    ensures EncodeBits([], rd) == [] && RdAll([], rd) == rd
  {
  }

  // --- The frame -----------------------------------------------------------------------

  /** What becomes of a call: the length returned, an error code returned, or `abort()` inside
      CHECK_ERROR_LT0. */
  datatype Outcome = Framed(len: nat) | Refused(error: int) | Aborted

  datatype Config = Config(rawPayload: bool, noHeader: bool, preambleLength: nat, mExp: nat) {

    /** n preamble units: the bits of 2^mExp in a field of 2 * mExp bits. */
    function Preamble(n: nat): (p: seq<bool>)
      requires mExp <= 32
      ensures |p| == n * (2 * mExp)
    {
      if n == 0 then [] else Preamble(n - 1) + BitsOf(Pow2(mExp), 2 * mExp)
    }

    function HeaderBits(header: seq<Byte>): seq<bool> {
      if noHeader then [] else Group(SFD, true, -1) + EncodeBits(header, RdAfter(SFD, true, -1))
    }

    /** The running disparity the payload starts from. */
    function HeaderRd(header: seq<Byte>): int {
      if noHeader then -1 else RdAll(header, RdAfter(SFD, true, -1))
    }

    function PayloadBits(header: seq<Byte>, payload: seq<Byte>): seq<bool> {
      if rawPayload then Slice(payload, 0, 8 * |payload|) else EncodeBits(payload, HeaderRd(header))
    }

    /** The whole frame for an encoded header and payload. */
    function FrameBits(header: seq<Byte>, payload: seq<Byte>): seq<bool>
      requires mExp <= 32
    {
      Preamble(preambleLength) + HeaderBits(header) + PayloadBits(header, payload)
    }

    /** The length computed before anything is written, and returned. */
    function Promised(payloadLen: nat): nat {
      preambleLength * (mExp * 2) + (if noHeader then 0 else 30) + payloadLen * (if rawPayload then 8 else 10)
    }
  }

  /** The promised length leaves the ten bits of the delimiter out. */
  lemma FrameLength(c: Config, header: seq<Byte>, payload: seq<Byte>)
    requires c.mExp <= 32 && |header| == 3
    ensures |c.FrameBits(header, payload)| == c.Promised(|payload|) + if c.noHeader then 0 else 10
  {
    hide Group, RdAfter, EncodeBits, RdAll;
    assert c.mExp * 2 == 2 * c.mExp;
  }

  /** What each kind of frame contains.  The header follows its delimiter, and a line-coded payload
      the header, with the disparity threaded through; without a header a line-coded payload starts
      from negative disparity.  A raw payload is its own bits. */
  lemma FrameContents(c: Config, header: seq<Byte>, payload: seq<Byte>)
    requires c.mExp <= 32
    ensures c.FrameBits(header, payload) ==
            c.Preamble(c.preambleLength) +
            if c.noHeader
            then (if c.rawPayload then Slice(payload, 0, 8 * |payload|) else EncodeBits(payload, -1))
            else if c.rawPayload then Delimited(header, -1) + Slice(payload, 0, 8 * |payload|)
            else Delimited(header + payload, -1)
  {
    hide Group, RdAfter, EncodeBits, RdAll, Slice, Pow2, Bit;
    var after := RdAfter(SFD, true, -1);
    var pre, h, p := c.Preamble(c.preambleLength), c.HeaderBits(header), c.PayloadBits(header, payload);
    assert pre + h + p == pre + (h + p);
    if c.noHeader {
      assert h + p == p;
    } else if !c.rawPayload {
      EncodeJoin(header, payload, after);
      assert h + p == Group(SFD, true, -1) + (EncodeBits(header, after) + EncodeBits(payload, RdAll(header, after)));
    }
  }

  /** The capacity test before writing is not enough.  With the program's own stream of 2620 bits,
      its default preamble and 16 tones, a message of 255 encoded bytes passes the test, and the
      call aborts half way. */
  lemma PreCheckTooWeak(header: seq<Byte>, payload: seq<Byte>)
    requires |header| == 3 && |payload| == 255
    ensures var c := Config(false, false, 5, 4);
            c.Promised(255) == 2620 && !BitList([], 2620, 0).Fits(c.FrameBits(header, payload))
  {
    FrameLength(Config(false, false, 5, 4), header, payload);
  }

  class Framer {
    const config: Config

    constructor (config: Config)
      ensures this.config == config
    {
      this.config := config;
    }

    /** `framer_frame`.  `parity` is ceil(ratio * in_len); `rs(message, n)` is the Reed-Solomon
        encoding of a message with n parity bytes.  The frame is written exactly when the sizes
        are allowed and all of it fits; too little room by up to ten bits aborts, and only with
        a header. */
    method Frame(input: seq<Byte>, parity: nat, rs: (seq<Byte>, nat) -> seq<Byte>, s: BitStream) returns (o: Outcome)
      requires s.Valid() && config.mExp <= 30
      requires |rs([U8(|input|)], HEADER_PARITY)| == 1 + HEADER_PARITY
      requires |rs(input, parity)| == |input| + parity
      modifies s`posWrite, s`len, s.data
      ensures s.Valid() && s.cap == old(s.cap) && s.data == old(s.data)
      ensures var l, frame := old(s.Abs()), config.FrameBits(rs([U8(|input|)], HEADER_PARITY), rs(input, parity));
              var len := config.Promised(|input| + parity);
              if |input| > MAX_PAYLOAD || |input| + parity > 255 then o == Refused(-EMSGSIZE) && s.Abs() == l
              else if l.cap < |l.bits| + len then o == Refused(-E2BIG) && s.Abs() == l
              else if l.Fits(frame) then o == Framed(len) && s.Abs() == l.Written(frame)
              else o == Aborted && !config.noHeader && l.cap < |l.bits| + len + 10
    {
      hide Group, RdAfter, EncodeBits, RdAll, Bit, Pow2, Slice;
      var rd := -1;
      var header := [U8(|input|)];
      var len := config.preambleLength * (config.mExp * 2);
      if !config.noHeader { len := len + 30; }
      if config.rawPayload { len := len + (|input| + parity) * 8; } else { len := len + (|input| + parity) * 10; }
      if |input| > MAX_PAYLOAD { return Refused(-EMSGSIZE); }
      if |input| + parity > 255 { return Refused(-EMSGSIZE); }
      if s.RemainingCap() < len { return Refused(-E2BIG); }

      ghost var before := s.Abs();
      ghost var headerEncoded, payload := rs(header, HEADER_PARITY), rs(input, parity);
      FrameLength(config, headerEncoded, payload);
      WritePreamble(s);
      var r;
      if !config.noHeader {
        r, rd := WriteHeader(s, rs(header, HEADER_PARITY), rd);
        if r < 0 { return Aborted; }
      }
      r := WritePayload(s, rs(input, parity), rd);
      if r < 0 { return Aborted; }
      ThreeParts(before.bits, config.Preamble(config.preambleLength), config.HeaderBits(headerEncoded),
                 config.PayloadBits(headerEncoded, payload));
      return Framed(len);
    }

    method WritePreamble(s: BitStream)
      requires s.Valid() && config.mExp <= 30
      requires |s.Abs().bits| + config.preambleLength * (2 * config.mExp) <= s.cap
      modifies s`posWrite, s`len, s.data
      ensures s.Valid() && s.cap == old(s.cap) && s.data == old(s.data)
      ensures s.Abs() == old(s.Abs()).Written(config.Preamble(config.preambleLength))
    {
      hide Bit, Pow2;
      ghost var before := s.Abs();
      for i := 0 to config.preambleLength
        invariant s.Valid() && s.cap == before.cap && s.data == old(s.data)
        invariant s.Abs() == BitList(before.bits + config.Preamble(i), before.cap, before.pos)
      {
        UnitsFit(i, config.preambleLength, 2 * config.mExp);
        SmallPower(config.mExp);
        var r := s.WriteN(Pow2(config.mExp), 2 * config.mExp);
        assert 0 <= r;
        assert config.Preamble(i + 1) == config.Preamble(i) + BitsOf(Pow2(config.mExp), 2 * config.mExp);
      }
    }

    /** The delimiter and the header; there is always room for the delimiter. */
    method WriteHeader(s: BitStream, header: seq<Byte>, rdIn: int) returns (r: int, rd: int)
      requires s.Valid() && !config.noHeader && rdIn == -1 && |header| == 3
      requires |s.Abs().bits| + 10 <= s.cap
      modifies s`posWrite, s`len, s.data
      ensures s.Valid() && s.cap == old(s.cap) && s.data == old(s.data)
      ensures 0 <= r <==> old(s.Abs()).Fits(config.HeaderBits(header))
      ensures 0 <= r ==> s.Abs() == old(s.Abs()).Written(config.HeaderBits(header)) && rd == config.HeaderRd(header)
    {
      hide Group, RdAfter, EncodeBits, RdAll, Bit;
      ghost var before := s.Abs();
      r, rd := Write8b10b(s, SFD, rdIn, true);
      assert 0 <= r;
      r, rd := Write8b10bChunk(s, header, rd);
      assert config.HeaderBits(header) == Group(SFD, true, -1) + EncodeBits(header, RdAfter(SFD, true, -1));
      assert before.bits + config.HeaderBits(header)
          == before.bits + Group(SFD, true, -1) + EncodeBits(header, RdAfter(SFD, true, -1));
    }

    method WritePayload(s: BitStream, payload: seq<Byte>, rd: int) returns (r: int)
      requires s.Valid()
      modifies s`posWrite, s`len, s.data
      ensures s.Valid() && s.cap == old(s.cap) && s.data == old(s.data)
      ensures var bits := if config.rawPayload then Slice(payload, 0, 8 * |payload|) else EncodeBits(payload, rd);
              s.Abs() == old(s.Abs()).Written(bits) && (0 <= r <==> old(s.Abs()).Fits(bits))
    {
      hide EncodeBits, RdAll, Bit;
      if config.rawPayload {
        var memory := new Byte[|payload|](j requires 0 <= j < |payload| => payload[j]);
        assert memory[..] == payload;
        r := s.Write(memory, 8 * |payload|);
      } else {
        var after;
        r, after := Write8b10bChunk(s, payload, rd);
      }
    }
  }

  lemma ThreeParts(s: seq<bool>, a: seq<bool>, b: seq<bool>, c: seq<bool>)
    ensures s + a + b + c == s + (a + b + c)
    ensures b == [] ==> s + a + c == s + (a + b + c)
  {
  }

  lemma UnitsFit(i: nat, n: nat, unit: nat)
    requires i < n
    ensures i * unit + unit <= n * unit
  {
    assert (i + 1) * unit <= n * unit;
  }

  lemma SmallPower(k: nat)
    requires k < 64
    ensures Pow2(k) < Pow2(64)
  {
    Pow2Grows(k, 63);
    assert Pow2(64) == 2 * Pow2(63);
  }
}
