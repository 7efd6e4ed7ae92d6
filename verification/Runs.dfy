/** Scanning a bit stream for long runs and for the comma, and what the scanner sees in a
    stream of 8b/10b symbols. */
module Runs {
  import opened Bits
  import opened Tables
  import opened X8b10b

  /** The last bit seen, how many times in a row, and whether the run before it was longer
      than one bit. */
  datatype Tail = Tail(last: bool, run: nat, wide: bool)

  const START := Tail(false, 0, false)

  function Feed(t: Tail, b: bool): Tail {
    if 0 < t.run && t.last == b then Tail(b, t.run + 1, t.wide) else Tail(b, 1, 2 <= t.run)
  }

  /** No run of six, and no comma just completed. */
  predicate Clean(t: Tail) {
    t.run <= 4 || (t.run == 5 && !t.wide)
  }

  function Scan(t: Tail, s: seq<bool>): Tail
    decreases |s|
  {
    if s == [] then t else Scan(Feed(t, s[0]), s[1..])
  }

  predicate CleanScan(t: Tail, s: seq<bool>)
    decreases |s|
  {
    s == [] || (Clean(Feed(t, s[0])) && CleanScan(Feed(t, s[0]), s[1..]))
  }

  lemma {:induction false} ScanJoin(t: Tail, a: seq<bool>, b: seq<bool>)
    ensures Scan(t, a + b) == Scan(Scan(t, a), b)
    ensures CleanScan(t, a + b) <==> CleanScan(t, a) && CleanScan(Scan(t, a), b)
    decreases |a|
  {
    if a == [] {
      assert a + b == b;
    } else {
      assert (a + b)[1..] == a[1..] + b;
      ScanJoin(Feed(t, a[0]), a[1..], b);
    }
  }

  lemma Scan2(t: Tail, a: bool, b: bool, s: seq<bool>)
    ensures Scan(t, [a, b] + s) == Scan(Feed(Feed(t, a), b), s)
    ensures CleanScan(t, [a, b] + s) <==>
            Clean(Feed(t, a)) && Clean(Feed(Feed(t, a), b)) && CleanScan(Feed(Feed(t, a), b), s)
  {
    assert ([a, b] + s)[1..] == [b] + s && ([b] + s)[1..] == s;
  }

  /** What can end a symbol that leaves the disparity at rd. */
  predicate Boundary(rd: int, t: Tail) {
    if t.last == (rd > 0) then 1 <= t.run <= 2 || (t.run == 3 && !t.wide) else t.run == 1
  }

  /** What can end the six-bit block of D.x: just before a D.x.A7 the tail is short and of the
      polarity that keeps 0111 apart from a comma, otherwise it leaves room for 1110. */
  predicate AfterSix(mid: int, x: nat, t: Tail) {
    if Alternate(x, 7, false, mid) == 8 then t.last == (mid < 0) && 1 <= t.run <= 2
    else 1 <= t.run <= if t.last == (mid < 0) then 1 else 3
  }

  /** Scanning the six bits of table entry v from t: nothing long, no comma, and a tail fit for
      any second block of D.x. */
  predicate SixClean(v: Byte, x: nat, rd: int, t: Tail) {
    var f := Peel(v, 128); var a := Peel(f, 64); var b := Peel(a, 32);
    var c := Peel(b, 16); var d := Peel(c, 8); var e := Peel(d, 4); var i := Peel(e, 2);
    var p := Feed(t, 32 <= a); var q := Feed(p, 16 <= b); var r := Feed(q, 8 <= c);
    var u := Feed(r, 4 <= d); var w := Feed(u, 2 <= e); var z := Feed(w, 1 <= i);
    Clean(p) && Clean(q) && Clean(r) && Clean(u) && Clean(w) && Clean(z) &&
    AfterSix(if 64 <= f then -rd else rd, x, z)
  }

  function Longer(same: bool, run: int): int { if same then run + 1 else 1 }

  predicate Wider(same: bool, run: int, wide: bool) { if same then wide else 2 <= run }

  predicate CleanRun(run: int, wide: bool) { run <= 4 || (run == 5 && !wide) }

  /** `SixClean` on the components of the tail, the form the table is checked in. */
  predicate SixTable(v: Byte, x: nat, rd: int, last: bool, run: int, wide: bool) {
    var f := Peel(v, 128); var a := Peel(f, 64); var b := Peel(a, 32);
    var c := Peel(b, 16); var d := Peel(c, 8); var e := Peel(d, 4); var i := Peel(e, 2);
    var p, q, r, s, u, z := 32 <= a, 16 <= b, 8 <= c, 4 <= d, 2 <= e, 1 <= i;
    var r1, w1 := Longer(p == last, run), Wider(p == last, run, wide);
    var r2, w2 := Longer(q == p, r1), Wider(q == p, r1, w1);
    var r3, w3 := Longer(r == q, r2), Wider(r == q, r2, w2);
    var r4, w4 := Longer(s == r, r3), Wider(s == r, r3, w3);
    var r5, w5 := Longer(u == s, r4), Wider(u == s, r4, w4);
    var r6, w6 := Longer(z == u, r5), Wider(z == u, r5, w5);
    CleanRun(r1, w1) && CleanRun(r2, w2) && CleanRun(r3, w3) && CleanRun(r4, w4) && CleanRun(r5, w5) &&
    CleanRun(r6, w6) &&
    var mid := if 64 <= f then -rd else rd;
    if Alternate(x, 7, false, mid) == 8 then z == (mid < 0) && 1 <= r6 <= 2
    else 1 <= r6 <= if z == (mid < 0) then 1 else 3
  }

  lemma NegTable(x: nat, last: bool, run: int, wide: bool)
    requires x < 32 && if last then run == 1 else 1 <= run <= 2 || (run == 3 && !wide)
    ensures SixTable(B5B6Neg(x), x, -1, last, run, wide)
  {
    hide Bit, Pow2;
  }

  lemma PosTable(x: nat, last: bool, run: int, wide: bool)
    requires x < 32 && if last then 1 <= run <= 2 || (run == 3 && !wide) else run == 1
    ensures SixTable(B5B6Pos(x), x, 1, last, run, wide)
  {
    hide Bit, Pow2;
  }

  lemma FeedParts(t: Tail, b: bool)
    requires 1 <= t.run
    ensures Feed(t, b) == Tail(b, Longer(b == t.last, t.run), Wider(b == t.last, t.run, t.wide))
    ensures 1 <= Feed(t, b).run && (Clean(Feed(t, b)) <==> CleanRun(Feed(t, b).run, Feed(t, b).wide))
  {
  }

  lemma AnyTable(x: nat, rd: int, t: Tail)
    requires x < 32 && rd in {-1, 1} && Boundary(rd, t)
    ensures 1 <= t.run && SixTable(Six(x, rd), x, rd, t.last, t.run, t.wide)
  {
    hide SixTable, B5B6Neg, B5B6Pos;
    if rd < 0 { NegTable(x, t.last, t.run, t.wide); } else { PosTable(x, t.last, t.run, t.wide); }
  }

  /** Two feeds, component by component. */
  lemma TwoFeeds(t: Tail, p: bool, q: bool)
    requires 1 <= t.run
    ensures var r1, w1 := Longer(p == t.last, t.run), Wider(p == t.last, t.run, t.wide);
      var r2, w2 := Longer(q == p, r1), Wider(q == p, r1, w1);
      var t1 := Feed(t, p); var t2 := Feed(t1, q);
      && (Clean(t1) <==> CleanRun(r1, w1)) && (Clean(t2) <==> CleanRun(r2, w2))
      && 1 <= r2 && t2 == Tail(q, r2, w2)
  {
    hide *;
    FeedParts(t, p);
    FeedParts(Feed(t, p), q);
  }

  /** Six feeds, component by component. */
  lemma SixFeeds(t: Tail, p: bool, q: bool, r: bool, s: bool, u: bool, z: bool)
    requires 1 <= t.run
    ensures var r1, w1 := Longer(p == t.last, t.run), Wider(p == t.last, t.run, t.wide);
      var r2, w2 := Longer(q == p, r1), Wider(q == p, r1, w1);
      var r3, w3 := Longer(r == q, r2), Wider(r == q, r2, w2);
      var r4, w4 := Longer(s == r, r3), Wider(s == r, r3, w3);
      var r5, w5 := Longer(u == s, r4), Wider(u == s, r4, w4);
      var r6, w6 := Longer(z == u, r5), Wider(z == u, r5, w5);
      var t1 := Feed(t, p); var t2 := Feed(t1, q); var t3 := Feed(t2, r); var t4 := Feed(t3, s);
      var t5 := Feed(t4, u); var t6 := Feed(t5, z);
      && (Clean(t1) <==> CleanRun(r1, w1)) && (Clean(t2) <==> CleanRun(r2, w2)) && (Clean(t3) <==> CleanRun(r3, w3))
      && (Clean(t4) <==> CleanRun(r4, w4)) && (Clean(t5) <==> CleanRun(r5, w5)) && (Clean(t6) <==> CleanRun(r6, w6))
      && 1 <= r6 && t6 == Tail(z, r6, w6)
  {
    hide *;
    TwoFeeds(t, p, q);
    var t2 := Feed(Feed(t, p), q);
    TwoFeeds(t2, r, s);
    TwoFeeds(Feed(Feed(t2, r), s), u, z);
  }

  lemma SixRuns(x: nat, rd: int, t: Tail)
    requires x < 32 && rd in {-1, 1} && Boundary(rd, t)
    ensures SixClean(Six(x, rd), x, rd, t)
  {
    hide Six, Bit, Pow2, Peel, Longer, Wider, Feed, Clean, CleanRun, Boundary, Alternate;
    AnyTable(x, rd, t);
    var v := Six(x, rd);
    var f := Peel(v, 128); var a := Peel(f, 64); var b := Peel(a, 32);
    var c := Peel(b, 16); var d := Peel(c, 8); var e := Peel(d, 4); var i := Peel(e, 2);
    SixFeeds(t, 32 <= a, 16 <= b, 8 <= c, 4 <= d, 2 <= e, 1 <= i);
  }

  lemma FourRuns(x: nat, y: nat, mid: int, t: Tail)
    requires x < 32 && y < 8 && mid in {-1, 1} && AfterSix(mid, x, t)
    ensures var v := Four(Alternate(x, y, false, mid), mid); var f := Peel(v, 128); var a := Peel(f, 64);
      var b := Peel(a, 32); var c := Peel(b, 16); var d := Peel(c, 8); var e := Peel(d, 4); var i := Peel(e, 2);
      var r := Feed(t, 8 <= c); var u := Feed(r, 4 <= d); var v := Feed(u, 2 <= e); var w := Feed(v, 1 <= i);
      Clean(r) && Clean(u) && Clean(v) && Clean(w) && Boundary(if 64 <= f then -mid else mid, w)
  {
  }

  /** A data symbol started at a symbol boundary contains no run of six and no comma, across its
      boundaries included, and ends at a symbol boundary. */
  lemma SymbolRuns(u8b: Byte, rd: int, t: Tail)
    requires rd in {-1, 1} && Boundary(rd, t)
    ensures CleanScan(t, Group(u8b, false, rd))
    ensures Boundary(RdAfter(u8b, false, rd), Scan(t, Group(u8b, false, rd)))
  {
    hide Bit, Six, Four, Clean, Feed, Boundary, AfterSix, Scan, CleanScan, Peel;
    var x := Index5(u8b, false);
    var v := Six(x, rd);
    SixRuns(x, rd, t);
    SixScan(v, t);
    SixDisparity(x, rd);
    var mid, tm := Middle(u8b, false, rd), Scan(t, SixBits(v));
    AfterFlips(v, rd);
    FourRuns(x, Index3(u8b, false), mid, tm);
    var w := FourEntry(u8b, false, rd);
    FourScan(w, tm);
    AfterFlips(w, mid);
    ScanJoin(t, SixBits(v), FourBits(w));
  }

  lemma FourScan(v: Byte, t: Tail)
    ensures var f := Peel(v, 128); var a := Peel(f, 64); var b := Peel(a, 32);
      var c := Peel(b, 16); var d := Peel(c, 8); var e := Peel(d, 4); var i := Peel(e, 2);
      var r := Feed(t, 8 <= c); var u := Feed(r, 4 <= d); var w := Feed(u, 2 <= e); var z := Feed(w, 1 <= i);
      Scan(t, FourBits(v)) == z &&
      (CleanScan(t, FourBits(v)) <==> Clean(r) && Clean(u) && Clean(w) && Clean(z))
  {
    hide Bit, Peel, Clean, Feed;
    Compared(v);
    var s := FourBits(v);
    assert s == [s[0], s[1]] + [s[2], s[3]] && [s[2], s[3]] == [s[2], s[3]] + [];
    Scan2(t, s[0], s[1], [s[2], s[3]]);
    Scan2(Feed(Feed(t, s[0]), s[1]), s[2], s[3], []);
  }

  lemma SixScan(v: Byte, t: Tail)
    ensures var f := Peel(v, 128); var a := Peel(f, 64); var b := Peel(a, 32);
      var c := Peel(b, 16); var d := Peel(c, 8); var e := Peel(d, 4); var i := Peel(e, 2);
      var p := Feed(t, 32 <= a); var q := Feed(p, 16 <= b); var r := Feed(q, 8 <= c);
      var u := Feed(r, 4 <= d); var w := Feed(u, 2 <= e); var z := Feed(w, 1 <= i);
      Scan(t, SixBits(v)) == z &&
      (CleanScan(t, SixBits(v)) <==> Clean(p) && Clean(q) && Clean(r) && Clean(u) && Clean(w) && Clean(z))
  {
    hide Bit, Peel, Clean, Feed, Scan, CleanScan;
    Compared(v);
    var s := SixBits(v);
    assert s == [s[0], s[1]] + FourBits(v);
    Scan2(t, s[0], s[1], FourBits(v));
    FourScan(v, Feed(Feed(t, s[0]), s[1]));
  }

  // --- What the scanner's state says about the bits ------------------------------------

  lemma {:induction false} ScanMeaning(s: seq<bool>)
    requires s != []
    ensures var t, n := Scan(START, s), |s|;
      && 1 <= t.run <= n
      && (forall k | n - t.run <= k < n :: s[k] == t.last)
      && (t.run < n ==> s[n - t.run - 1] != t.last)
      && (t.wide <==> t.run + 2 <= n && s[n - t.run - 1] == s[n - t.run - 2])
    decreases |s|
  {
    var n := |s| - 1;
    var t := Scan(START, s[..n]);
    ScanJoin(START, s[..n], [s[n]]);
    assert s[..n] + [s[n]] == s;
    assert Scan(t, [s[n]]) == Feed(t, s[n]);
    if n > 0 {
      ScanMeaning(s[..n]);
    }
  }

  /** Six equal bits start at p. */
  predicate SixEqualAt(s: seq<bool>, p: nat) {
    p + 6 <= |s| && forall k | p < k < p + 6 :: s[k] == s[p]
  }

  /** 0011111 or 1100000 starts at p. */
  predicate CommaAt(s: seq<bool>, p: nat) {
    p + 7 <= |s| && s[p + 1] == s[p] && forall k | p + 2 <= k < p + 7 :: s[k] != s[p]
  }

  lemma SixEqualScan(s: seq<bool>, p: nat)
    requires p + 6 <= |s|
    ensures SixEqualAt(s, p) <==> 6 <= Scan(START, s[..p + 6]).run
  {
    hide Scan;
    var q := s[..p + 6];
    ScanMeaning(q);
    var t := Scan(START, q);
    if t.run < 6 {
      assert q[p + 5 - t.run] != q[p + 5];
    } else {
      assert s[p] == q[p] == t.last;
      forall k | p < k < p + 6 ensures s[k] == s[p] { assert q[k] == t.last; }
    }
  }

  lemma CommaScan(s: seq<bool>, p: nat)
    requires p + 7 <= |s|
    ensures CommaAt(s, p) <==> Scan(START, s[..p + 7]).run == 5 && Scan(START, s[..p + 7]).wide
  {
    hide Scan;
    var q := s[..p + 7];
    ScanMeaning(q);
    var t := Scan(START, q);
    if t.run < 5 {
      assert q[p + 6 - t.run] != q[p + 6];
    } else if 5 < t.run {
      assert q[p + 1] == q[p + 6];
    } else {
      assert q[p + 1] != t.last && (t.wide <==> q[p] == q[p + 1]);
      assert forall k | p + 2 <= k < p + 7 :: q[k] == t.last && s[k] == q[k];
    }
  }

  /** Every non-empty prefix of a clean scan ends clean. */
  lemma {:induction false} CleanPrefix(t: Tail, s: seq<bool>, k: nat)
    requires CleanScan(t, s) && 1 <= k <= |s|
    ensures Clean(Scan(t, s[..k]))
    decreases |s|
  {
    assert s[..k][1..] == s[1..][..k - 1];
    if k > 1 {
      CleanPrefix(Feed(t, s[0]), s[1..], k - 1);
    } else {
      assert Scan(t, s[..1]) == Feed(t, s[0]);
    }
  }
}
