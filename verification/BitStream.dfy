/** bitstream.c: a capacity-bounded bit string with a read cursor, packed into bytes.
    `BitList` is the specification; the class refines it operation by operation. */
module BitStreams {
  import opened Bits
  import opened BitCopy

  /** The stream as its callers see it: the bits written so far, the capacity and the read
      cursor. */
  datatype BitList = BitList(bits: seq<bool>, cap: nat, pos: nat) {

    predicate Ok() {
      pos <= |bits| <= cap
    }

    /** A write is accepted whole or refused. */
    predicate Fits(s: seq<bool>) {
      |bits| + |s| <= cap
    }

    function Written(s: seq<bool>): BitList {
      if Fits(s) then BitList(bits + s, cap, pos) else this
    }

    /** The bits a read of `count` delivers. */
    function Ahead(count: nat): seq<bool>
      requires Ok()
    {
      bits[pos..pos + Min(count, |bits| - pos)]
    }

    function Advanced(count: nat): (r: BitList)
      requires Ok()
      ensures r.Ok()
    {
      BitList(bits, cap, pos + |Ahead(count)|)
    }

    function Sought(p: nat): BitList {
      BitList(bits, cap, Min(p, |bits|))
    }
  }

  class BitStream {
    var data: array<Byte>
    var cap: nat
    var len: nat
    var posRead: nat
    var posWrite: nat

    ghost predicate Valid()
      reads this, data
    {
      && posRead <= len
      && len == posWrite <= cap
      && data.Length == (cap + 7) / 8
    }

    ghost function Abs(): (l: BitList)
      reads this, data
      requires Valid()
      ensures l.Ok()
    {
      BitList(Slice(data[..], 0, len), cap, posRead)
    }

    constructor (cap: nat)
      ensures Valid() && fresh(data)
      ensures Abs() == BitList([], cap, 0)
    {
      this.cap := cap;
      data := new Byte[(cap + 7) / 8](_ => 0);
      len := 0;
      posRead := 0;
      posWrite := 0;
    }

    function RemainingCap(): nat
      reads this, data
      requires Valid()
    {
      cap - posWrite
    }

    /** Appends the first n bits of the memory at `src`.  The second capacity test of
        bitstream.c:69 never fires. */
    method Write(src: array<Byte>, n: nat) returns (r: int)
      requires Valid() && src != data && n <= 8 * src.Length
      modifies this`posWrite, this`len, data
      ensures Valid() && cap == old(cap)
      ensures var s := Slice(src[..], 0, n);
              && Abs() == old(Abs()).Written(s)
              && r == (if old(Abs()).Fits(s) then n else -E2BIG)
              && (!old(Abs()).Fits(s) ==> data[..] == old(data[..]))
    {
      ghost var was := data[..];
      ghost var s := Slice(src[..], 0, n);
      var bitsWritten := BitwiseCopy(src, 0, n, data, posWrite, cap, n);
      if bitsWritten < 0 { return bitsWritten; }
      assert len + bitsWritten <= cap;
      Appended(was, len, s);
      posWrite := posWrite + bitsWritten;
      len := len + bitsWritten;
      return bitsWritten;
    }

    /** Appends the low min(64, n) bits of a 64-bit number. */
    method WriteN(v: nat, n: nat) returns (r: int)
      requires Valid() && v < Pow2(64)
      modifies this`posWrite, this`len, data
      ensures Valid() && cap == old(cap)
      ensures Abs() == old(Abs()).Written(BitsOf(v, Min(64, n)))
      ensures r == if old(Abs()).Fits(BitsOf(v, Min(64, n))) then Min(64, n) else -E2BIG
    {
      var width := Min(64, n);
      var word := new Byte[8](j requires 0 <= j < 8 => WordBytes(v, 8)[j]);
      assert word[..] == WordBytes(v, 8);
      WordBytesBits(v, 8, width);
      r := Write(word, width);
    }

    /** Reads up to `count` bits into the memory at `buf`. */
    method Read(buf: array<Byte>, count: nat) returns (r: int)
      requires Valid() && buf != data && count <= 8 * buf.Length
      modifies this`posRead, buf
      ensures Valid() && cap == old(cap) && data[..] == old(data[..])
      ensures var s := old(Abs()).Ahead(count);
              && r == |s|
              && buf[..] == StoreBits(old(buf[..]), 0, s)
              && Abs() == old(Abs()).Advanced(count)
    {
      hide StoreBits, Bit;
      var bitsRead := BitwiseCopy(data, posRead, len, buf, 0, count, count);
      assert Slice(data[..], posRead, bitsRead) == Abs().Ahead(count);
      posRead := posRead + bitsRead;
      return bitsRead;
    }

    method Seek(pos: nat) returns (r: nat)
      requires Valid()
      modifies this`posRead
      ensures Valid() && cap == old(cap) && data[..] == old(data[..])
      ensures Abs() == old(Abs()).Sought(pos) && r == Abs().pos
    {
      posRead := pos;
      if posRead > len { posRead := len; }
      return posRead;
    }

    /** Appends one bit per character, '0' being zero and anything else one; stops at the
        first refusal. */
    method WriteStr(str: string) returns (r: int)
      requires Valid()
      modifies this`posWrite, this`len, data
      ensures Valid() && cap == old(cap)
      ensures var s := CharBits(str)[..Min(|str|, old(cap - len))];
              && Abs() == old(Abs()).Written(s)
              && r == if old(Abs()).Fits(CharBits(str)) then |str| else -E2BIG
    {
      var total := 0;
      ghost var before := Abs();
      for i := 0 to |str|
        invariant Valid() && cap == before.cap && data == old(data)
        invariant before.Fits(CharBits(str)[..i]) && Abs() == before.Written(CharBits(str)[..i])
        invariant total == i
      {
        var bit := new Byte[1](_ => if str[i] != '0' then 1 else 0);
        assert bit[..] == [if str[i] != '0' then 1 else 0];
        OneBit(str[i] != '0');
        var bitsWritten := Write(bit, 1);
        assert CharBits(str)[..i + 1] == CharBits(str)[..i] + [str[i] != '0'];
        if bitsWritten < 0 { return bitsWritten; }
        total := total + bitsWritten;
      }
      assert CharBits(str)[..|str|] == CharBits(str);
      return total;
    }
  }

  function CharBits(str: string): (s: seq<bool>)
    ensures |s| == |str|
  {
    seq(|str|, i requires 0 <= i < |str| => str[i] != '0')
  }

  /** A bit string as text. */
  function Spelling(bits: seq<bool>): (str: string)
    ensures |str| == |bits|
  {
    seq(|bits|, i requires 0 <= i < |bits| => if bits[i] then '1' else '0')
  }

  /** Writing the text of a bit string appends that bit string, and of any other text a zero for
      each '0' and a one for every other character. */
  lemma TextBits(bits: seq<bool>, str: string)
    ensures CharBits(Spelling(bits)) == bits
    ensures forall i | 0 <= i < |str| :: CharBits(str)[i] <==> str[i] != '0'
  {
  }

  lemma OneBit(b: bool)
    ensures Slice([if b then 1 else 0], 0, 1) == [b]
  {
    assert BitAt([if b then 1 else 0], 0) == b;
  }

  /** Copying s in at the write position appends it to the first n bits. */
  lemma Appended(was: seq<Byte>, n: nat, s: seq<bool>)
    requires n + |s| <= 8 * |was|
    ensures Slice(StoreBits(was, n, s), 0, n + |s|) == Slice(was, 0, n) + s
  {
    hide StoreBits, Bit;
    var now := StoreBits(was, n, s);
    forall k: nat | k < n + |s| ensures Slice(now, 0, n + |s|)[k] == (Slice(was, 0, n) + s)[k] {
      StoredBits(was, n, s, k);
    }
  }

  /** A read into fresh zeroed memory leaves exactly the bits delivered, then zeros. */
  lemma ReadIntoZeros(m: seq<Byte>, s: seq<bool>)
    requires |s| <= 8 * |m| && forall j | 0 <= j < |m| :: m[j] == 0
    ensures Slice(StoreBits(m, 0, s), 0, 8 * |m|) == s + seq(8 * |m| - |s|, _ => false)
  {
    hide StoreBits, Bit, BitAt;
    var now := StoreBits(m, 0, s);
    forall k: nat | k < 8 * |m| ensures BitAt(now, k) == (k < |s| && s[k]) {
      if k < |s| { StoredBits(m, 0, s, k); } else { BitAfter(m, s, k); }
    }
  }

  lemma BitAfter(m: seq<Byte>, s: seq<bool>, k: nat)
    requires |s| <= k < 8 * |m| && forall j | 0 <= j < |m| :: m[j] == 0
    ensures !BitAt(StoreBits(m, 0, s), k)
  {
    hide StoreBits, Bit;
    if s != [] && k / 8 == (|s| - 1) / 8 {
      StoredBits(m, 0, s, k);
    } else {
      StoredBytes(m, 0, s, k / 8);
      BitZero(k % 8);
    }
  }

  // --- Runs of the stream ------------------------------------------------------------

  datatype Op = WriteOp(s: seq<bool>) | ReadOp(count: nat) | SeekOp(pos: nat)

  function Next(l: BitList, op: Op): BitList
    requires l.Ok()
  {
    match op
    case WriteOp(s) => l.Written(s)
    case ReadOp(n) => l.Advanced(n)
    case SeekOp(p) => l.Sought(p)
  }

  function Run(l: BitList, ops: seq<Op>): (r: BitList)
    requires l.Ok()
    ensures r.Ok()
    decreases |ops|
  {
    if ops == [] then l else Run(Next(l, ops[0]), ops[1..])
  }

  /** The bits a sequence of reads delivers, in order. */
  function ReadAll(l: BitList, counts: seq<nat>): seq<bool>
    requires l.Ok()
    decreases |counts|
  {
    if counts == [] then [] else l.Ahead(counts[0]) + ReadAll(l.Advanced(counts[0]), counts[1..])
  }

  function Total(counts: seq<nat>): nat {
    if counts == [] then 0 else counts[0] + Total(counts[1..])
  }

  /** The writes a run accepts, in order. */
  function Accepted(l: BitList, ops: seq<Op>): seq<bool>
    requires l.Ok()
    decreases |ops|
  {
    if ops == [] then [] else
    (if ops[0].WriteOp? && l.Fits(ops[0].s) then ops[0].s else []) + Accepted(Next(l, ops[0]), ops[1..])
  }

  /** Whatever is read, sought or refused in between, the stream holds the accepted writes in
      order. */
  lemma {:induction false} RunKeepsWrites(l: BitList, ops: seq<Op>)
    requires l.Ok()
    ensures Run(l, ops).bits == l.bits + Accepted(l, ops) && Run(l, ops).cap == l.cap
    decreases |ops|
  {
    if ops != [] {
      RunKeepsWrites(Next(l, ops[0]), ops[1..]);
      var a := if ops[0].WriteOp? && l.Fits(ops[0].s) then ops[0].s else [];
      assert Next(l, ops[0]).bits == l.bits + a;
    } else {
      assert l.bits + [] == l.bits;
    }
  }

  /** Reads of any sizes deliver the bits ahead of the cursor in order, and stop exactly at
      the end. */
  lemma {:induction false} ReadsInOrder(l: BitList, counts: seq<nat>)
    requires l.Ok()
    ensures ReadAll(l, counts) == l.bits[l.pos..l.pos + Min(Total(counts), |l.bits| - l.pos)]
    decreases |counts|
  {
    if counts != [] { ReadsInOrder(l.Advanced(counts[0]), counts[1..]); }
  }

  /** Reads after a seek deliver the bits from that position on, and nothing from beyond the end. */
  lemma SeekThenRead(l: BitList, p: nat, counts: seq<nat>)
    requires l.Ok()
    ensures ReadAll(l.Sought(p), counts) ==
            if p <= |l.bits| then l.bits[p..Min(p + Total(counts), |l.bits|)] else []
  {
    ReadsInOrder(l.Sought(p), counts);
  }

  /** The round trip: after any run, rewinding and reading in chunks of any sizes returns the
      accepted writes of the run. */
  lemma WriteSeekRead(cap: nat, ops: seq<Op>, counts: seq<nat>)
    ensures var empty := BitList([], cap, 0);
            var w := Accepted(empty, ops);
            |w| <= cap &&
            ReadAll(Run(empty, ops).Sought(0), counts) == w[..Min(Total(counts), |w|)]
  {
    var empty := BitList([], cap, 0);
    RunKeepsWrites(empty, ops);
    assert Run(empty, ops).bits == Accepted(empty, ops);
    ReadsInOrder(Run(empty, ops).Sought(0), counts);
  }
}
