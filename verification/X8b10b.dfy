/** x8b10b.c: the 8b/10b encoder with its running disparity, and a decoder for it. */
module X8b10b {
  import opened Bits
  import opened Tables
  import opened Wrappers

  datatype Encoded = Symbol(code: nat, rd: int) | Rejected(rd: int)

  function Six(x: nat, rd: int): Byte {
    if rd < 0 then B5B6Neg(x) else B5B6Pos(x)
  }

  function Four(y: nat, rd: int): Byte {
    if rd < 0 then B3B4Neg(y) else B3B4Pos(y)
  }

  /** The running disparity after a sub-block whose table entry is v. */
  function After(v: Byte, rd: int): int {
    if Bit(v, 6) then (if rd < 0 then rd + 2 else rd - 2) else rd
  }

  /** The 3b/4b index: D.x.7 becomes D.x.A7 where D.x.P7 would make a run of five. */
  function Alternate(x: nat, y: nat, ctrl: bool, rd: int): nat {
    var special := if rd < 0 then x == 17 || x == 18 || x == 20 else x == 11 || x == 13 || x == 14;
    if y == 7 && !ctrl && special then 8 else y
  }

  function Index5(u8b: Byte, ctrl: bool): nat { u8b % 32 + (if ctrl then 32 else 0) }

  function Index3(u8b: Byte, ctrl: bool): nat { u8b / 32 + (if ctrl then 16 else 0) }

  function Encode(u8b: Byte, ctrl: bool, rd: int): Encoded {
    var x := Index5(u8b, ctrl);
    var v := Six(x, rd);
    if v == NOTM then Rejected(rd) else
    var mid := After(v, rd);
    var w := Four(Alternate(x, Index3(u8b, ctrl), ctrl, mid), mid);
    if w == NOTM then Rejected(mid) else
    Symbol(16 * Low(v, 6) + Low(w, 4), After(w, mid))
  }

  /** `x8b10b_enc`.  The caller's variables behind the two pointers come in and go out.  The
      second table look-up of x8b10b.c:70-71 never rejects. */
  method Enc(u8b: Byte, p10bIn: nat, ctrl: bool, rdIn: int) returns (ok: bool, p10b: nat, rd: int)
    ensures match Encode(u8b, ctrl, rdIn)
            case Symbol(code, after) => ok && p10b == code && rd == after
            case Rejected(after) => !ok && p10b == p10bIn && rd == after == rdIn
  {
    p10b, rd := p10bIn, rdIn;
    var x := u8b % 32 + (if ctrl then 32 else 0);
    var y := u8b / 32 + (if ctrl then 16 else 0);
    var abcdei := if rd < 0 then B5B6Neg(x) else B5B6Pos(x);
    if abcdei == NOTM { return false, p10b, rd; }
    if Bit(abcdei, 6) {
      if rd < 0 { rd := rd + 2; } else { rd := rd - 2; }
    }
    var high := Low(abcdei, 6);
    if y == 7 && !ctrl {
      if rd < 0 {
        if x == 17 || x == 18 || x == 20 { y := 8; }
      } else {
        if x == 11 || x == 13 || x == 14 { y := 8; }
      }
    }
    var fghj := if rd < 0 then B3B4Neg(y) else B3B4Pos(y);
    assert fghj != NOTM;
    if Bit(fghj, 6) {
      if rd < 0 { rd := rd + 2; } else { rd := rd - 2; }
    }
    p10b := 16 * high + Low(fghj, 4);
    ok := true;
  }

  /** Every data byte is accepted, and exactly the control bytes K23.y, K27.y, K28.y, K29.y
      and K30.y. */
  lemma AcceptedBytes(u8b: Byte, ctrl: bool, rd: int)
    ensures Encode(u8b, ctrl, rd).Symbol? <==> !ctrl || u8b % 32 in {23, 27, 28, 29, 30}
  {
  }

  // --- Symbols as bits, in transmission order ------------------------------------------

  function SixBits(v: Byte): (s: seq<bool>)
    ensures |s| == 6
  {
    seq(6, j requires 0 <= j < 6 => Bit(v, 5 - j))
  }

  function FourBits(v: Byte): (s: seq<bool>)
    ensures |s| == 4
  {
    seq(4, j requires 0 <= j < 4 => Bit(v, 3 - j))
  }

  /** abcdei of an accepted byte. */
  function Block6(u8b: Byte, ctrl: bool, rd: int): (s: seq<bool>)
    ensures |s| == 6
  {
    SixBits(Six(Index5(u8b, ctrl), rd))
  }

  function Middle(u8b: Byte, ctrl: bool, rd: int): int {
    After(Six(Index5(u8b, ctrl), rd), rd)
  }

  function FourEntry(u8b: Byte, ctrl: bool, rd: int): Byte {
    var mid := Middle(u8b, ctrl, rd);
    Four(Alternate(Index5(u8b, ctrl), Index3(u8b, ctrl), ctrl, mid), mid)
  }

  /** fghj of an accepted byte. */
  function Block4(u8b: Byte, ctrl: bool, rd: int): (s: seq<bool>)
    ensures |s| == 4
  {
    FourBits(FourEntry(u8b, ctrl, rd))
  }

  /** The ten bits of a symbol, a first. */
  function Group(u8b: Byte, ctrl: bool, rd: int): (s: seq<bool>)
    ensures |s| == 10
  {
    Block6(u8b, ctrl, rd) + Block4(u8b, ctrl, rd)
  }

  function RdAfter(u8b: Byte, ctrl: bool, rd: int): int {
    After(FourEntry(u8b, ctrl, rd), Middle(u8b, ctrl, rd))
  }

  /** `(a << 4) | f`, bit by bit. */
  lemma JoinedBit(a: nat, f: nat, i: nat)
    requires f < 16
    ensures Bit(16 * a + f, i) == if i < 4 then Bit(f, i) else Bit(a, i - 4)
  {
    var g, h := 8 * a + f / 2, 4 * a + f / 2 / 2;
    var l := 2 * a + f / 2 / 2 / 2;
    assert (16 * a + f) / 2 == g && g / 2 == h && h / 2 == l && l / 2 == a;
    assert (16 * a + f) % 2 == f % 2 && g % 2 == f / 2 % 2 && h % 2 == f / 2 / 2 % 2 && l % 2 == f / 2 / 2 / 2 % 2;
    if i > 0 { assert Bit(16 * a + f, i) == Bit(g, i - 1) && Bit(f, i) == Bit(f / 2, i - 1); }
    if i > 1 { assert Bit(g, i - 1) == Bit(h, i - 2) && Bit(f / 2, i - 1) == Bit(f / 2 / 2, i - 2); }
    if i > 2 { assert Bit(h, i - 2) == Bit(l, i - 3) && Bit(f / 2 / 2, i - 2) == Bit(f / 2 / 2 / 2, i - 3); }
    if i > 3 { assert Bit(l, i - 3) == Bit(a, i - 4); }
  }

  /** The code word of `Encode` spells the group, most significant bit first. */
  lemma CodeSpellsGroup(u8b: Byte, ctrl: bool, rd: int, j: nat)
    requires Encode(u8b, ctrl, rd).Symbol? && j < 10
    ensures var e := Encode(u8b, ctrl, rd);
      e.code < 1024 && e.rd == RdAfter(u8b, ctrl, rd) && Group(u8b, ctrl, rd)[j] == Bit(e.code, 9 - j)
  {
    var v, w := Six(Index5(u8b, ctrl), rd), FourEntry(u8b, ctrl, rd);
    SplitCode(v, w, j);
  }

  lemma SplitCode(v: Byte, w: Byte, j: nat)
    requires j < 10
    ensures 16 * Low(v, 6) + Low(w, 4) < 1024
    ensures (SixBits(v) + FourBits(w))[j] == Bit(16 * Low(v, 6) + Low(w, 4), 9 - j)
  {
    hide Bit, Low, Pow2;
    Weights();
    JoinedBit(Low(v, 6), Low(w, 4), 9 - j);
    BitLow(w, 4, 9 - j);
    if j < 6 { BitLow(v, 6, 5 - j); }
  }

  // --- Reading table entries -------------------------------------------------------------

  /** v without its bit of weight p. */
  function Peel(v: nat, p: nat): nat { if p <= v then v - p else v }

  lemma {:induction false} PeelStep(v: nat, k: nat, p: nat)
    requires p == Pow2(k) && v < 2 * p
    ensures Bit(v, k) <==> p <= v
    ensures Peel(v, p) < p && forall i: nat | i < k :: Bit(Peel(v, p), i) == Bit(v, i)
    decreases k
  {
    if k > 0 {
      var rest := Peel(v, p);
      assert rest / 2 == Peel(v / 2, Pow2(k - 1));
      PeelStep(v / 2, k - 1, Pow2(k - 1));
      forall i: nat | i < k ensures Bit(rest, i) == Bit(v, i) {
        if i > 0 { assert Bit(rest / 2, i - 1) == Bit(v / 2, i - 1); }
      }
    }
  }

  /** The bits of a byte by comparing off one weight at a time, so that a table entry is read
      without division. */
  lemma Compared(v: Byte)
    ensures var f := Peel(v, 128); var a := Peel(f, 64); var b := Peel(a, 32); var c := Peel(b, 16);
      var d := Peel(c, 8); var e := Peel(d, 4); var i := Peel(e, 2);
      && (Bit(v, 6) <==> 64 <= f) && (Bit(v, 5) <==> 32 <= a) && (Bit(v, 4) <==> 16 <= b)
      && (Bit(v, 3) <==> 8 <= c) && (Bit(v, 2) <==> 4 <= d) && (Bit(v, 1) <==> 2 <= e) && (Bit(v, 0) <==> 1 <= i)
  {
    hide Bit, Pow2, Peel;
    var f := Peel(v, 128); var a := Peel(f, 64); var b := Peel(a, 32); var c := Peel(b, 16);
    var d := Peel(c, 8); var e := Peel(d, 4); var i := Peel(e, 2);
    Weights();
    PeelStep(v, 7, 128);
    PeelStep(f, 6, 64);
    PeelStep(a, 5, 32);
    PeelStep(b, 4, 16);
    PeelStep(c, 3, 8);
    PeelStep(d, 2, 4);
    PeelStep(e, 1, 2);
    LastBit(i);
  }

  lemma LastBit(i: nat)
    requires i < 2
    ensures Bit(i, 0) <==> 1 <= i
  {
  }

  lemma Weights()
    ensures Pow2(1) == 2 && Pow2(2) == 4 && Pow2(3) == 8 && Pow2(4) == 16
    ensures Pow2(5) == 32 && Pow2(6) == 64 && Pow2(7) == 128
  {
    assert Pow2(3) == 8;
    assert Pow2(5) == 32;
  }

  // --- Running disparity ---------------------------------------------------------------

  function Sign(b: bool): int { if b then 1 else -1 }

  /** Ones minus zeros. */
  function Balance(s: seq<bool>): int {
    if s == [] then 0 else Sign(s[0]) + Balance(s[1..])
  }

  lemma {:induction false} BalanceJoin(a: seq<bool>, b: seq<bool>)
    ensures Balance(a + b) == Balance(a) + Balance(b)
    decreases |a|
  {
    if a == [] {
      assert a + b == b;
    } else {
      assert (a + b)[1..] == a[1..] + b;
      BalanceJoin(a[1..], b);
    }
  }

  /** Every prefix sum, counted from `level`, stays within three of zero. */
  predicate Level3(level: int, s: seq<bool>)
    decreases |s|
  {
    s == [] || (-3 <= level + Sign(s[0]) <= 3 && Level3(level + Sign(s[0]), s[1..]))
  }

  lemma Unroll2(level: int, a: bool, b: bool, s: seq<bool>)
    ensures Balance([a, b] + s) == Sign(a) + Sign(b) + Balance(s)
    ensures Level3(level, [a, b] + s) <==>
      -3 <= level + Sign(a) <= 3 && -3 <= level + Sign(a) + Sign(b) <= 3 &&
      Level3(level + Sign(a) + Sign(b), s)
  {
    assert ([a, b] + s)[1..] == [b] + s && ([b] + s)[1..] == s;
  }

  lemma Unroll4(level: int, s: seq<bool>)
    requires |s| == 4
    ensures var p := level + Sign(s[0]); var q := p + Sign(s[1]); var r := q + Sign(s[2]); var t := r + Sign(s[3]);
      level + Balance(s) == t &&
      (Level3(level, s) <==> -3 <= p <= 3 && -3 <= q <= 3 && -3 <= r <= 3 && -3 <= t <= 3)
  {
    assert s == [s[0], s[1]] + s[2..] && s[2..] == [s[2], s[3]] + [];
    Unroll2(level, s[0], s[1], s[2..]);
    Unroll2(level + Sign(s[0]) + Sign(s[1]), s[2], s[3], []);
  }

  /** The table facts: prefix sums of a 5b/6b code, and its disparity flag. */
  lemma SixSigns(x: nat, rd: int)
    requires (x < 32 || x == 60) && rd in {-1, 1}
    ensures var v := Six(x, rd); var f := Peel(v, 128); var a := Peel(f, 64); var b := Peel(a, 32);
      var c := Peel(b, 16); var d := Peel(c, 8); var e := Peel(d, 4); var i := Peel(e, 2);
      var p := rd + Sign(32 <= a); var q := p + Sign(16 <= b); var r := q + Sign(8 <= c);
      var t := r + Sign(4 <= d); var u := t + Sign(2 <= e); var w := u + Sign(1 <= i);
      -3 <= p <= 3 && -3 <= q <= 3 && -3 <= r <= 3 && -3 <= t <= 3 && -3 <= u <= 3 && w == if 64 <= f then -rd else rd
  {
    hide Bit, Pow2;
  }

  lemma SixDisparity(x: nat, rd: int)
    requires (x < 32 || x == 60) && rd in {-1, 1}
    ensures var v := Six(x, rd);
            After(v, rd) == rd + Balance(SixBits(v)) && After(v, rd) in {-1, 1} && Level3(rd, SixBits(v))
  {
    hide Bit, Six, Balance, Level3, Peel;
    var v := Six(x, rd);
    var s := SixBits(v);
    SixSigns(x, rd);
    Compared(v);
    Unroll4(rd + Sign(s[0]) + Sign(s[1]), s[2..]);
    Unroll2(rd, s[0], s[1], s[2..]);
    assert s == [s[0], s[1]] + s[2..];
  }

  lemma FourSigns(y: nat, rd: int)
    requires (y <= 8 || y == 17) && rd in {-1, 1}
    ensures var v := Four(y, rd); var f := Peel(v, 128); var a := Peel(f, 64); var b := Peel(a, 32);
      var c := Peel(b, 16); var d := Peel(c, 8); var e := Peel(d, 4); var i := Peel(e, 2);
      var r := rd + Sign(8 <= c); var t := r + Sign(4 <= d); var u := t + Sign(2 <= e); var w := u + Sign(1 <= i);
      -3 <= r <= 3 && -3 <= t <= 3 && -3 <= u <= 3 && w == if 64 <= f then -rd else rd
  {
    hide Bit, Pow2;
  }

  lemma FourDisparity(y: nat, rd: int)
    requires (y <= 8 || y == 17) && rd in {-1, 1}
    ensures var v := Four(y, rd);
            After(v, rd) == rd + Balance(FourBits(v)) && After(v, rd) in {-1, 1} && Level3(rd, FourBits(v))
  {
    hide Bit, Four, Balance, Level3, Peel;
    var v := Four(y, rd);
    var s := FourBits(v);
    FourSigns(y, rd);
    Compared(v);
    Unroll4(rd, s);
  }

  predicate Sent(u8b: Byte, ctrl: bool) { ctrl ==> u8b == 0x3c }

  lemma {:induction false} Level3Join(level: int, a: seq<bool>, b: seq<bool>)
    ensures Level3(level, a + b) <==> Level3(level, a) && Level3(level + Balance(a), b)
    decreases |a|
  {
    if a == [] {
      assert a + b == b;
    } else {
      assert (a + b)[1..] == a[1..] + b;
      Level3Join(level + Sign(a[0]), a[1..], b);
    }
  }

  /** Every symbol the framer sends moves the running disparity by its own imbalance, keeps it
      at plus or minus one, and keeps every bit-by-bit sum within three. */
  lemma GroupDisparity(u8b: Byte, ctrl: bool, rd: int)
    requires Sent(u8b, ctrl) && rd in {-1, 1}
    ensures RdAfter(u8b, ctrl, rd) == rd + Balance(Group(u8b, ctrl, rd))
    ensures RdAfter(u8b, ctrl, rd) in {-1, 1} && Level3(rd, Group(u8b, ctrl, rd))
  {
    hide Balance, Level3, Six, Four, After;
    var mid := Middle(u8b, ctrl, rd);
    SixDisparity(Index5(u8b, ctrl), rd);
    FourDisparity(Alternate(Index5(u8b, ctrl), Index3(u8b, ctrl), ctrl, mid), mid);
    BalanceJoin(Block6(u8b, ctrl, rd), Block4(u8b, ctrl, rd));
    Level3Join(rd, Block6(u8b, ctrl, rd), Block4(u8b, ctrl, rd));
  }

  // --- The code chosen -----------------------------------------------------------------

  /** The table facts behind the choice between D.x.P7 and D.x.A7. */
  lemma SevenTable(x: nat, rd: int)
    requires x < 32 && rd in {-1, 1}
    ensures var v := Six(x, rd); var f := Peel(v, 128); var d := Peel(Peel(Peel(Peel(f, 64), 32), 16), 8);
      var e := Peel(d, 4); var i := Peel(e, 2); var mid := if 64 <= f then -rd else rd;
      var entry := Four(Alternate(x, 7, false, mid), mid);
      var c' := Peel(Peel(Peel(Peel(entry, 128), 64), 32), 16); var d' := Peel(c', 8);
      var e' := Peel(d', 4); var i' := Peel(e', 2); var q := mid < 0;
      if (2 <= e <==> q) && (1 <= i <==> q)
      then (8 <= c' <==> !q) && (4 <= d' <==> q) && (2 <= e' <==> q) && (1 <= i' <==> q)
      else (8 <= c' <==> q) && (4 <= d' <==> q) && (2 <= e' <==> q) && (1 <= i' <==> !q)
  {
    hide Bit, Pow2;
  }

  /** D.x.7 gets its alternate code 0111 or 1000 exactly when the primary one, 1110 or 0001, would
      follow two bits equal to its first, and make a run of five. */
  lemma AlternateSeven(u8b: Byte, rd: int)
    requires u8b / 32 == 7 && rd in {-1, 1}
    ensures var s := Block6(u8b, false, rd); var q := rd + Balance(s) < 0;
      Block4(u8b, false, rd) == if s[4] == q && s[5] == q then [!q, q, q, q] else [q, q, q, !q]
  {
    hide Bit, Six, Four, Alternate, Balance, Level3, Peel;
    var x := u8b % 32;
    SevenTable(x, rd);
    SixDisparity(x, rd);
    Compared(Six(x, rd));
    AfterFlips(Six(x, rd), rd);
    Compared(FourEntry(u8b, false, rd));
  }

  lemma AfterFlips(v: Byte, rd: int)
    requires rd in {-1, 1}
    ensures After(v, rd) == if 64 <= Peel(v, 128) then -rd else rd
  {
    hide Bit, Peel;
    Compared(v);
  }

  lemma NeutralTable(x: nat, y: nat, rd: int)
    requires x < 32 && y < 9 && rd in {-1, 1}
    ensures Peel(Peel(Six(x, rd), 128), 64) == 7 ==> rd > 0
    ensures Peel(Peel(Six(x, rd), 128), 64) == 56 ==> rd < 0
    ensures Peel(Peel(Peel(Peel(Four(y, rd), 128), 64), 32), 16) == 3 ==> rd > 0
    ensures Peel(Peel(Peel(Peel(Four(y, rd), 128), 64), 32), 16) == 12 ==> rd < 0
  {
  }

  /** The balanced sub-blocks that have two forms: 000111 and 0011 are sent only at positive
      disparity, 111000 and 1100 only at negative. */
  lemma NeutralBlocks(u8b: Byte, rd: int)
    requires rd in {-1, 1}
    ensures var s, f := Block6(u8b, false, rd), Block4(u8b, false, rd); var mid := rd + Balance(s);
      && (s == [false, false, false, true, true, true] ==> rd > 0)
      && (s == [true, true, true, false, false, false] ==> rd < 0)
      && (f == [false, false, true, true] ==> mid > 0)
      && (f == [true, true, false, false] ==> mid < 0)
  {
    hide Bit, Six, Four, Balance, Level3, Peel, Alternate;
    var x := u8b % 32;
    SixDisparity(x, rd);
    AlternateFits(x, u8b / 32, Middle(u8b, false, rd));
    NeutralTable(x, 0, rd);
    NeutralTable(0, Alternate(x, u8b / 32, false, Middle(u8b, false, rd)), Middle(u8b, false, rd));
    ValueOfEntry(Six(x, rd));
    ValueOfEntry(FourEntry(u8b, false, rd));
  }

  lemma AlternateFits(x: nat, y: nat, mid: int)
    requires y < 8
    ensures Alternate(x, y, false, mid) < 9
  {
  }

  // --- Decoding ------------------------------------------------------------------------

  datatype Received = Data(b: Byte) | Delimiter | Invalid

  function Weigh(b: bool, w: nat): nat { if b then w else 0 }

  function Value6(s: seq<bool>): nat
    requires |s| == 6
  {
    Weigh(s[0], 32) + Weigh(s[1], 16) + Weigh(s[2], 8) + Weigh(s[3], 4) + Weigh(s[4], 2) + Weigh(s[5], 1)
  }

  function Value4(s: seq<bool>): nat
    requires |s| == 4
  {
    Weigh(s[0], 8) + Weigh(s[1], 4) + Weigh(s[2], 2) + Weigh(s[3], 1)
  }

  /** The receiver's 6b/5b table: no column for the disparity. */
  function Decode6(w: nat): (r: Option<nat>)
    ensures r.Some? ==> r.value < 32
  {
    match w
    case 5 => Some(23) case 6 => Some(8) case 7 => Some(7) case 9 => Some(27) case 10 => Some(4)
    case 11 => Some(20) case 12 => Some(24) case 13 => Some(12) case 14 => Some(28) case 17 => Some(29)
    case 18 => Some(2) case 19 => Some(18) case 20 => Some(31) case 21 => Some(10) case 22 => Some(26)
    case 23 => Some(15) case 24 => Some(0) case 25 => Some(6) case 26 => Some(22) case 27 => Some(16)
    case 28 => Some(14) case 29 => Some(1) case 30 => Some(30) case 33 => Some(30) case 34 => Some(1)
    case 35 => Some(17) case 36 => Some(16) case 37 => Some(9) case 38 => Some(25) case 39 => Some(0)
    case 40 => Some(15) case 41 => Some(5) case 42 => Some(21) case 43 => Some(31) case 44 => Some(13)
    case 45 => Some(2) case 46 => Some(29) case 49 => Some(3) case 50 => Some(19) case 51 => Some(24)
    case 52 => Some(11) case 53 => Some(4) case 54 => Some(27) case 56 => Some(7) case 57 => Some(8)
    case 58 => Some(23)
    case _ => None
  }

  /** The receiver's 4b/3b table. */
  function Decode4(w: nat): (r: Option<nat>)
    ensures r.Some? ==> r.value < 8
  {
    match w
    case 1 => Some(7) case 2 => Some(4) case 3 => Some(3) case 4 => Some(0) case 5 => Some(2) case 6 => Some(6)
    case 7 => Some(7) case 8 => Some(7) case 9 => Some(1) case 10 => Some(5) case 11 => Some(0) case 12 => Some(3)
    case 13 => Some(4) case 14 => Some(7)
    case _ => None
  }

  function Decode(g: seq<bool>): Received
    requires |g| == 10
  {
    var h, l := Value6(g[..6]), Value4(g[6..]);
    if (h == 15 && l == 9) || (h == 48 && l == 6) then Delimiter else
    match Decode6(h)
    case None => Invalid
    case Some(x) =>
      match Decode4(l)
      case None => Invalid
      case Some(y) => Data(32 * y + x)
  }

  lemma ValueOfEntry(v: Byte)
    ensures Value6(SixBits(v)) == Peel(Peel(v, 128), 64)
    ensures Value4(FourBits(v)) == Peel(Peel(Peel(Peel(v, 128), 64), 32), 16)
  {
    hide Bit;
    Compared(v);
  }

  lemma SixDecodes(x: nat, rd: int)
    requires x < 32
    ensures Decode6(Peel(Peel(Six(x, rd), 128), 64)) == Some(x)
  {
  }

  lemma FourDecodes(y: nat, rd: int)
    requires y <= 8
    ensures Decode4(Peel(Peel(Peel(Peel(Four(y, rd), 128), 64), 32), 16)) == Some(if y == 8 then 7 else y)
  {
  }

  /** A data byte decodes to itself whichever disparity chose its code, and never to the
      delimiter. */
  lemma DataDecodes(u8b: Byte, rd: int)
    ensures Decode(Group(u8b, false, rd)) == Data(u8b)
  {
    hide Six, Four, Decode6, Decode4, SixBits, FourBits, After, Peel, Value6, Value4;
    var x, y := Index5(u8b, false), Index3(u8b, false);
    var mid := Middle(u8b, false, rd);
    ValueOfEntry(Six(x, rd));
    ValueOfEntry(FourEntry(u8b, false, rd));
    SixDecodes(x, rd);
    FourDecodes(Alternate(x, y, false, mid), mid);
    assert Group(u8b, false, rd)[..6] == Block6(u8b, false, rd);
    assert Group(u8b, false, rd)[6..] == Block4(u8b, false, rd);
    NoDelimiter(Decode6(15), Decode6(48));
  }

  lemma NoDelimiter(a: Option<nat>, b: Option<nat>)
    requires a == Decode6(15) && b == Decode6(48)
    ensures a == None && b == None
  {
  }

  /** K28.1: the comma, then two bits against it and one with it. */
  function Delimiter10(p: bool): (s: seq<bool>) {
    [!p, !p, p, p, p, p, p, !p, !p, p]
  }

  lemma DelimiterBits(rd: int)
    requires rd in {-1, 1}
    ensures Group(0x3c, true, rd) == Delimiter10(rd < 0) && RdAfter(0x3c, true, rd) == -rd
  {
    hide Bit, Low, Pow2;
    Compared(Six(60, rd));
    Compared(FourEntry(0x3c, true, rd));
  }

  lemma DelimiterDecodes(rd: int)
    requires rd in {-1, 1}
    ensures Decode(Group(0x3c, true, rd)) == Delimiter
  {
    DelimiterBits(rd);
    assert Value6(Delimiter10(rd < 0)[..6]) == if rd < 0 then 15 else 48;
  }

  lemma ControlSix(x: nat, rd: int)
    requires x in {23, 27, 28, 29, 30} && rd in {-1, 1}
    ensures var v := Six(32 + x, rd);
      && After(v, rd) == -rd
      && Peel(Peel(v, 128), 64) == if x == 28 then (if rd < 0 then 15 else 48) else Peel(Peel(Six(x, rd), 128), 64)
  {
    hide Bit, Peel;
    ControlSixTable(x, rd);
    Compared(Six(32 + x, rd));
  }

  lemma ControlSixTable(x: nat, rd: int)
    requires x in {23, 27, 28, 29, 30} && rd in {-1, 1}
    ensures var v := Six(32 + x, rd); var f := Peel(v, 128);
      64 <= f && Peel(f, 64) == if x == 28 then (if rd < 0 then 15 else 48) else Peel(Peel(Six(x, rd), 128), 64)
  {
    hide Bit;
  }

  // --- Which symbols coincide ------------------------------------------------------------

  /** The code bits of a 5b/6b table entry. */
  function Code6(v: Byte): nat { Peel(Peel(v, 128), 64) }

  /** The code bits of a 3b/4b table entry. */
  function Code4(v: Byte): nat { Peel(Peel(Peel(Peel(v, 128), 64), 32), 16) }

  lemma GroupValues(u8b: Byte, ctrl: bool, rd: int)
    ensures var g := Group(u8b, ctrl, rd);
      Value6(g[..6]) == Code6(Six(Index5(u8b, ctrl), rd)) && Value4(g[6..]) == Code4(FourEntry(u8b, ctrl, rd))
  {
    hide Six, FourEntry, SixBits, FourBits, Peel, Value6, Value4;
    ValueOfEntry(Six(Index5(u8b, ctrl), rd));
    ValueOfEntry(FourEntry(u8b, ctrl, rd));
    var g := Group(u8b, ctrl, rd);
    assert g[..6] == Block6(u8b, ctrl, rd) && g[6..] == Block4(u8b, ctrl, rd);
  }

  lemma SameCode(v: Byte, w: Byte)
    ensures Code6(v) == Code6(w) ==> SixBits(v) == SixBits(w)
    ensures Code4(v) == Code4(w) ==> FourBits(v) == FourBits(w)
  {
    hide Bit, Peel;
    Compared(v);
    Compared(w);
  }

  /** Two symbols are the same bits exactly when their table entries agree on the code bits. */
  lemma SameGroup(a: Byte, ca: bool, ra: int, b: Byte, cb: bool, rb: int)
    ensures Group(a, ca, ra) == Group(b, cb, rb) <==>
      && Code6(Six(Index5(a, ca), ra)) == Code6(Six(Index5(b, cb), rb))
      && Code4(FourEntry(a, ca, ra)) == Code4(FourEntry(b, cb, rb))
  {
    hide Six, FourEntry, SixBits, FourBits, Code6, Code4, Value6, Value4, Index5;
    GroupValues(a, ca, ra);
    GroupValues(b, cb, rb);
    SameCode(Six(Index5(a, ca), ra), Six(Index5(b, cb), rb));
    SameCode(FourEntry(a, ca, ra), FourEntry(b, cb, rb));
  }

  lemma ControlFours(y: nat, z: nat, mid: int)
    requires y < 8 && z < 8 && mid in {-1, 1}
    ensures Code4(Four(16 + y, mid)) == Code4(Four(16 + z, mid)) <==> y == z || (mid > 0 && y in {2, 5} && z in {2, 5})
  {
  }

  lemma ControlSixes(x: nat, w: nat, rd: int)
    requires x in {23, 27, 28, 29, 30} && w in {23, 27, 28, 29, 30} && rd in {-1, 1}
    ensures Code6(Six(32 + x, rd)) == Code6(Six(32 + w, rd)) <==> x == w
  {
  }

  lemma ControlEntry(u8b: Byte, rd: int)
    requires u8b % 32 in {23, 27, 28, 29, 30} && rd in {-1, 1}
    ensures FourEntry(u8b, true, rd) == Four(16 + u8b / 32, -rd)
  {
    hide Six, Four, After;
    ControlSix(u8b % 32, rd);
  }

  /** Two accepted control bytes share a symbol exactly when they are K.x.2 and K.x.5 of the same
      x, at negative disparity. */
  lemma ControlsCoincide(a: Byte, b: Byte, rd: int)
    requires rd in {-1, 1} && Encode(a, true, rd).Symbol? && Encode(b, true, rd).Symbol?
    ensures Group(a, true, rd) == Group(b, true, rd) <==>
              a == b || (rd < 0 && a % 32 == b % 32 && a / 32 in {2, 5} && b / 32 in {2, 5})
  {
    hide Encode, Six, Four, FourEntry, Code6, Code4, Group;
    AcceptedBytes(a, true, rd);
    AcceptedBytes(b, true, rd);
    SameGroup(a, true, rd, b, true, rd);
    ControlEntry(a, rd);
    ControlEntry(b, rd);
    ControlSixes(a % 32, b % 32, rd);
    ControlFours(a / 32, b / 32, -rd);
  }

  /** The y of the data byte whose 3b/4b code is that of K.x.y. */
  function DataTwin(y: nat, mid: int): nat {
    if y == 2 then 5 else if mid < 0 then (if y == 1 then 6 else if y == 5 then 2 else if y == 6 then 1 else y) else y
  }

  lemma ControlFourTwin(x: nat, y: nat, z: nat, mid: int)
    requires x in {23, 27, 29, 30} && y < 8 && z < 8 && mid in {-1, 1}
    ensures Code4(Four(16 + y, mid)) == Code4(Four(Alternate(x, z, false, mid), mid)) <==>
              y != 7 && z == DataTwin(y, mid)
  {
  }

  lemma DataSix(x: nat, rd: int, other: int)
    requires x in {23, 27, 29, 30} && rd in {-1, 1} && other in {-1, 1}
    ensures After(Six(x, rd), rd) == -rd
    ensures Code6(Six(x, rd)) == Code6(Six(x, other)) <==> rd == other
  {
    hide Bit, Peel;
    DataSixTable(x);
    Compared(Six(x, rd));
  }

  lemma DataSixTable(x: nat)
    requires x in {23, 27, 29, 30}
    ensures 64 <= Peel(Six(x, -1), 128) && 64 <= Peel(Six(x, 1), 128) && Code6(Six(x, -1)) != Code6(Six(x, 1))
  {
    hide Bit;
  }

  lemma DataEntry(d: Byte, rd: int)
    requires d % 32 in {23, 27, 29, 30} && rd in {-1, 1}
    ensures FourEntry(d, false, rd) == Four(Alternate(d % 32, d / 32, false, -rd), -rd)
  {
    hide Six, Four, After;
    DataSix(d % 32, rd, rd);
  }

  /** A control symbol and a data symbol, at any two disparities. */
  lemma ControlAgainstData(a: Byte, rd: int, d: Byte, other: int)
    requires rd in {-1, 1} && other in {-1, 1} && a % 32 in {23, 27, 28, 29, 30}
    ensures Group(a, true, rd) == Group(d, false, other) <==>
              a % 32 != 28 && a / 32 != 7 && rd == other && d == 32 * DataTwin(a / 32, -rd) + a % 32
  {
    hide Six, Four, FourEntry, Code6, Code4, Group, Alternate, DataTwin, Decode6;
    SameGroup(a, true, rd, d, false, other);
    ControlSixCode(a % 32, rd);
    SixDecodesCode(d % 32, other);
    NoDelimiter(Decode6(15), Decode6(48));
    if a % 32 != 28 {
      SixDecodesCode(a % 32, rd);
      DataSix(a % 32, rd, other);
      if d % 32 == a % 32 && rd == other {
        ControlEntry(a, rd);
        DataEntry(d, rd);
        ControlFourTwin(a % 32, a / 32, d / 32, -rd);
      }
    }
  }

  lemma SixDecodesCode(x: nat, rd: int)
    requires x < 32
    ensures Decode6(Code6(Six(x, rd))) == Some(x)
  {
    hide Six, Decode6, Peel;
    SixDecodes(x, rd);
  }

  lemma ControlSixCode(x: nat, rd: int)
    requires x in {23, 27, 28, 29, 30} && rd in {-1, 1}
    ensures Code6(Six(32 + x, rd)) == if x == 28 then (if rd < 0 then 15 else 48) else Code6(Six(x, rd))
  {
    hide Six, Peel;
    ControlSix(x, rd);
  }

  /** An accepted control byte shares its symbol with some data byte, at whatever disparity, exactly
      when it is not a K28.y and not a K.x.7. */
  lemma ControlReadsAsData(a: Byte, rd: int)
    requires rd in {-1, 1} && Encode(a, true, rd).Symbol?
    ensures (exists d: Byte, other :: other in {-1, 1} && Group(a, true, rd) == Group(d, false, other)) <==>
              a % 32 != 28 && a / 32 != 7
  {
    hide Encode, Group, DataTwin;
    AcceptedBytes(a, true, rd);
    forall d: Byte, other | other in {-1, 1} && Group(a, true, rd) == Group(d, false, other)
      ensures a % 32 != 28 && a / 32 != 7
    {
      ControlAgainstData(a, rd, d, other);
    }
    if a % 32 != 28 && a / 32 != 7 {
      TwinFits(a / 32, -rd);
      var d: Byte := 32 * DataTwin(a / 32, -rd) + a % 32;
      ControlAgainstData(a, rd, d, rd);
      assert Group(a, true, rd) == Group(d, false, rd);
    }
  }

  lemma TwinFits(y: nat, mid: int)
    requires y < 8
    ensures DataTwin(y, mid) < 8
  {
  }

  /** Something else that the encoder accepts has the same symbol at the same disparity. */
  ghost predicate Ambiguous(a: Byte, ctrl: bool, rd: int) {
    exists b: Byte, c: bool :: (b, c) != (a, ctrl) && Encode(b, c, rd).Symbol? && Group(a, ctrl, rd) == Group(b, c, rd)
  }

  /** Exactly which control symbols can be told apart from everything else the encoder accepts: of
      the K28.y all but K28.2 and K28.5 at negative disparity, and of the others K.x.7. */
  lemma ControlToldApart(a: Byte, rd: int)
    requires rd in {-1, 1} && Encode(a, true, rd).Symbol?
    ensures !Ambiguous(a, true, rd) <==> if a % 32 == 28 then rd > 0 || a / 32 !in {2, 5} else a / 32 == 7
  {
    hide Encode, Group;
    AcceptedBytes(a, true, rd);
    ControlReadsAsData(a, rd);
    if Ambiguous(a, true, rd) {
      var b: Byte, c: bool :| (b, c) != (a, true) && Encode(b, c, rd).Symbol? && Group(a, true, rd) == Group(b, c, rd);
      if c { ControlsCoincide(a, b, rd); }
    }
    if a % 32 == 28 && rd < 0 && a / 32 in {2, 5} {
      var b: Byte := 32 * (7 - a / 32) + 28;
      AcceptedBytes(b, true, rd);
      ControlsCoincide(a, b, rd);
      assert Encode(b, true, rd).Symbol? && Group(a, true, rd) == Group(b, true, rd);
    }
    if a % 32 != 28 && a / 32 != 7 {
      TwinFits(a / 32, -rd);
      var d: Byte := 32 * DataTwin(a / 32, -rd) + a % 32;
      AcceptedBytes(d, false, rd);
      ControlAgainstData(a, rd, d, rd);
      assert Encode(d, false, rd).Symbol? && Group(a, true, rd) == Group(d, false, rd);
    }
  }

  /** A concrete collision: K28.2 and K28.5 at negative disparity. */
  lemma ControlsCollide()
    ensures Encode(0x5c, true, -1).Symbol? && Encode(0x5c, true, -1) == Encode(0xbc, true, -1)
  {
    hide Bit, Low, Pow2;
    Compared(Six(60, -1));
  }

  lemma ZerosInvalid(g: seq<bool>)
    requires |g| == 10 && forall i | 0 <= i < 10 :: !g[i]
    ensures Decode(g) == Invalid
  {
  }
}
