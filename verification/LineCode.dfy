/** Whole line-coded streams: running disparity, run length, comma and decodability over every
    sequence of bytes (framer.c:32-48 over x8b10b.c). */
module LineCode {
  import opened Bits
  import opened X8b10b
  import opened Runs

  /** The bits of a chunk of data bytes encoded from running disparity rd. */
  function EncodeBits(data: seq<Byte>, rd: int): (s: seq<bool>)
    ensures |s| == 10 * |data|
    decreases |data|
  {
    if data == [] then [] else Group(data[0], false, rd) + EncodeBits(data[1..], RdAfter(data[0], false, rd))
  }

  function RdAll(data: seq<Byte>, rd: int): int
    decreases |data|
  {
    if data == [] then rd else RdAll(data[1..], RdAfter(data[0], false, rd))
  }

  /** The disparity threads from one chunk to the next. */
  lemma {:induction false} EncodeJoin(a: seq<Byte>, b: seq<Byte>, rd: int)
    ensures EncodeBits(a + b, rd) == EncodeBits(a, rd) + EncodeBits(b, RdAll(a, rd))
    ensures RdAll(a + b, rd) == RdAll(b, RdAll(a, rd))
    decreases |a|
  {
    hide Group, RdAfter;
    if a == [] {
      assert a + b == b;
    } else {
      assert (a + b)[1..] == a[1..] + b;
      EncodeJoin(a[1..], b, RdAfter(a[0], false, rd));
    }
  }

  lemma EncodeOne(b: Byte, rd: int)
    ensures EncodeBits([b], rd) == Group(b, false, rd) && RdAll([b], rd) == RdAfter(b, false, rd)
  {
    hide Group, RdAfter;
    assert [b][1..] == [];
  }

  /** After any chunk the running disparity is its start value plus the imbalance of every bit
      emitted, and is plus or minus one. */
  lemma {:induction false} ChunkDisparity(data: seq<Byte>, rd: int)
    requires rd in {-1, 1}
    ensures RdAll(data, rd) == rd + Balance(EncodeBits(data, rd)) && RdAll(data, rd) in {-1, 1}
    ensures Level3(rd, EncodeBits(data, rd))
    decreases |data|
  {
    hide Group, RdAfter;
    if data != [] {
      var g, after := Group(data[0], false, rd), RdAfter(data[0], false, rd);
      GroupDisparity(data[0], false, rd);
      ChunkDisparity(data[1..], after);
      BalanceJoin(g, EncodeBits(data[1..], after));
      Level3Join(rd, g, EncodeBits(data[1..], after));
    }
  }

  lemma {:induction false} Level3Prefix(level: int, s: seq<bool>, k: nat)
    requires Level3(level, s) && -3 <= level <= 3 && k <= |s|
    ensures -3 <= level + Balance(s[..k]) <= 3
    decreases |s|
  {
    if k > 0 {
      assert s[..k][1..] == s[1..][..k - 1];
      Level3Prefix(level + Sign(s[0]), s[1..], k - 1);
    }
  }

  /** The delimiter followed by data, as the framer sends them. */
  function Delimited(data: seq<Byte>, rd: int): (s: seq<bool>) {
    Group(0x3c, true, rd) + EncodeBits(data, RdAfter(0x3c, true, rd))
  }

  /** After every single bit of a delimited stream the sum of ones minus zeros, counted from the
      starting disparity, is within three of zero; at the end it is exactly the running
      disparity. */
  lemma StreamBalance(data: seq<Byte>, rd: int, k: nat)
    requires rd in {-1, 1} && k <= |Delimited(data, rd)|
    ensures -3 <= rd + Balance(Delimited(data, rd)[..k]) <= 3
    ensures rd + Balance(Delimited(data, rd)) == RdAll(data, RdAfter(0x3c, true, rd))
  {
    hide Group, RdAfter, Level3, Balance, EncodeBits, RdAll;
    var after := RdAfter(0x3c, true, rd);
    GroupDisparity(0x3c, true, rd);
    ChunkDisparity(data, after);
    BalanceJoin(Group(0x3c, true, rd), EncodeBits(data, after));
    Level3Join(rd, Group(0x3c, true, rd), EncodeBits(data, after));
    Level3Prefix(rd, Delimited(data, rd), k);
  }

  /** A chunk that starts at a symbol boundary has no run of six and no comma. */
  lemma {:induction false} ChunkRuns(data: seq<Byte>, rd: int, t: Tail)
    requires rd in {-1, 1} && Boundary(rd, t)
    ensures CleanScan(t, EncodeBits(data, rd))
    decreases |data|
  {
    hide Group, RdAfter, Boundary;
    if data != [] {
      var g, after := Group(data[0], false, rd), RdAfter(data[0], false, rd);
      GroupDisparity(data[0], false, rd);
      SymbolRuns(data[0], rd, t);
      ChunkRuns(data[1..], after, Scan(t, g));
      ScanJoin(t, g, EncodeBits(data[1..], after));
    }
  }

  /** The delimiter ends at a symbol boundary. */
  lemma DelimiterTail(p: bool)
    ensures Scan(START, Delimiter10(p)) == Tail(p, 1, true)
  {
    hide Feed, Scan;
    var s := Delimiter10(p);
    var t2, t4 := Feed(Feed(START, !p), !p), Feed(Feed(Feed(Feed(START, !p), !p), p), p);
    var t6, t8 := Feed(Feed(t4, p), p), Feed(Feed(Feed(Feed(t4, p), p), p), !p);
    Scan2(START, !p, !p, s[2..]);
    Scan2(t2, p, p, s[4..]);
    Scan2(t4, p, p, s[6..]);
    Scan2(t6, p, !p, s[8..]);
    Scan2(t8, !p, p, []);
    assert s == [!p, !p] + s[2..] && s[2..] == [p, p] + s[4..] && s[4..] == [p, p] + s[6..];
    assert s[6..] == [p, !p] + s[8..] && s[8..] == [!p, p] + [];
    NoBitsScan(Feed(Feed(t8, !p), p));
    TenFeeds(p);
  }

  lemma NoBitsScan(t: Tail)
    ensures Scan(t, []) == t
  {
  }

  lemma TenFeeds(p: bool)
    ensures var t4 := Feed(Feed(Feed(Feed(START, !p), !p), p), p);
            var t8 := Feed(Feed(Feed(Feed(t4, p), p), p), !p);
            Feed(Feed(t8, !p), p) == Tail(p, 1, true)
  {
  }

  /** Past the delimiter every prefix of a delimited stream scans clean. */
  lemma CleanPastDelimiter(data: seq<Byte>, rd: int, k: nat)
    requires rd in {-1, 1} && 10 < k <= |Delimited(data, rd)|
    ensures Clean(Scan(START, Delimited(data, rd)[..k]))
  {
    hide Scan, Clean, Group, RdAfter, CleanScan;
    var d, after := Group(0x3c, true, rd), RdAfter(0x3c, true, rd);
    var e := EncodeBits(data, after);
    DelimiterBits(rd);
    DelimiterTail(rd < 0);
    var t := Scan(START, d);
    ChunkRuns(data, after, t);
    CleanPrefix(t, e, k - 10);
    assert Delimited(data, rd)[..k] == d + e[..k - 10];
    ScanJoin(START, d, e[..k - 10]);
  }

  /** No six consecutive bits of a delimited stream are equal. */
  lemma RunLength(data: seq<Byte>, rd: int, p: nat)
    requires rd in {-1, 1}
    ensures !SixEqualAt(Delimited(data, rd), p)
  {
    hide Scan, Group, RdAfter, EncodeBits;
    var s := Delimited(data, rd);
    if p + 6 <= |s| {
      if 10 < p + 6 {
        CleanPastDelimiter(data, rd, p + 6);
        SixEqualScan(s, p);
      } else {
        DelimiterBits(rd);
        assert forall k | 0 <= k < 10 :: s[k] == Delimiter10(rd < 0)[k];
        assert s[p] != s[if p <= 1 then 2 else 7];
      }
    }
  }

  /** The comma occurs in a delimited stream exactly once, at its start. */
  lemma CommaOnce(data: seq<Byte>, rd: int, p: nat)
    requires rd in {-1, 1}
    ensures CommaAt(Delimited(data, rd), p) <==> p == 0
  {
    hide Scan, Group, RdAfter, EncodeBits;
    var s := Delimited(data, rd);
    DelimiterBits(rd);
    var d := Delimiter10(rd < 0);
    assert forall k | 0 <= k < 10 :: s[k] == d[k];
    if p + 7 <= |s| {
      if 10 < p + 7 {
        CleanPastDelimiter(data, rd, p + 7);
        CommaScan(s, p);
      } else if p > 0 {
        assert s[p + 1] != s[p] || s[p + 2] == s[p] by {
          assert p == 1 || p == 2 || p == 3;
        }
      }
    }
  }

  // --- Decoding ------------------------------------------------------------------------

  /** The receiver's chunk decoder: ten bits at a time, until a group is not a data code. */
  function DecodeBits(s: seq<bool>): (r: seq<Byte>)
    ensures 10 * |r| <= |s|
    decreases |s|
  {
    if |s| < 10 then []
    else match Decode(s[..10])
      case Data(b) => [b] + DecodeBits(s[10..])
      case _ => []
  }

  /** Every chunk decodes to its bytes, whatever disparity it started from and however many zero
      bits pad it. */
  lemma {:induction false} DecodeEncoded(data: seq<Byte>, rd: int, pad: seq<bool>)
    requires forall i | 0 <= i < |pad| :: !pad[i]
    ensures DecodeBits(EncodeBits(data, rd) + pad) == data
    decreases |data|
  {
    hide Group, RdAfter, Decode;
    var s := EncodeBits(data, rd) + pad;
    if data == [] {
      assert s == pad;
      if 10 <= |pad| { ZerosInvalid(pad[..10]); }
    } else {
      var rest := EncodeBits(data[1..], RdAfter(data[0], false, rd)) + pad;
      DataDecodes(data[0], rd);
      assert s[..10] == Group(data[0], false, rd) && s[10..] == rest;
      DecodeEncoded(data[1..], RdAfter(data[0], false, rd), pad);
    }
  }
}
