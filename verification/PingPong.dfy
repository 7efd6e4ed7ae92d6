/** ping_pong_buf.c: two slots handed back and forth between one writer and one reader under one
    mutex and one condition variable.  The state machine has a step per statement, so a thread
    can be stopped between setting a slot's state and flipping its index; waiting threads may
    wake spuriously. */
module PingPong {

  import opened Wrappers

  datatype Role = Writer | Reader

  function Other(p: Role): Role {
    if p == Writer then Reader else Writer
  }

  /** Where a thread stands.  The line comments are those of ping_pong_buf.c. */
  datatype Pc =
    | Idle                      // outside, owning nothing
    | Own                       // begin has returned the slot, done not called yet
    | AskLock(owning: bool)     // 51: available()
    | AskRead(owning: bool)     // 52
    | AskUnlock(owning: bool)   // 53
    | BeginLock                 // 36
    | BeginTest                 // 37
    | Waiting                   // 38, in the wait set
    | Relock                    // 38, woken, wants the mutex back
    | BeginUnlock               // 40
    | DoneLock                  // 44
    | DoneSet                   // 45
    | DoneSignal                // 46
    | DoneUnlock                // 47
    | DoneFlip                  // 64, 74

  /** `answer`: the last available() said yes and the slot has not been given away since. */
  datatype Thread = Thread(pc: Pc, idx: nat, answer: bool)

  /** `active0`, `active1`: the slot states; `buf0`, `buf1`: their contents; `copy`: what the reader has taken out
      of its slot; `handed`, `taken`: every block passed to set_state so far, in order. */
  datatype State<T> = State(
    active0: bool, active1: bool, buf0: T, buf1: T, mutex: Option<Role>, w: Thread, r: Thread,
    copy: Option<T>, handed: seq<T>, taken: seq<T>)
  {
    function Of(p: Role): Thread { if p == Writer then w else r }

    function With(p: Role, t: Thread): State<T> { if p == Writer then this.(w := t) else this.(r := t) }

    function At(p: Role, pc: Pc): State<T> { With(p, Of(p).(pc := pc)) }

    function Active(i: nat): bool { if i == 0 then active0 else active1 }

    function Buf(i: nat): T { if i == 0 then buf0 else buf1 }

    function SetActive(i: nat, b: bool): State<T> { if i == 0 then this.(active0 := b) else this.(active1 := b) }

    /** The condition p waits for on its slot. */
    predicate Ready(p: Role) { Active(Of(p).idx) == (p == Reader) }
  }

  /** Go: the next statement of p.  The others are p's choices between calls, the accesses to the
      block, and a spurious wake-up. */
  datatype Action<T> = Go(p: Role) | StartBegin(p: Role) | StartAsk(p: Role) | StartDone(p: Role)
                     | Fill(v: T) | Copy | Spurious(p: Role)

  predicate WantsMutex(pc: Pc) {
    pc.AskLock? || pc.BeginLock? || pc.Relock? || pc.DoneLock?
  }

  predicate HoldsMutex(pc: Pc) {
    pc.AskRead? || pc.AskUnlock? || pc.BeginTest? || pc.BeginUnlock? || pc.DoneSet? || pc.DoneSignal? || pc.DoneUnlock?
  }

  predicate Shape<T>(s: State<T>) {
    s.w.idx < 2 && s.r.idx < 2
  }

  predicate Enabled<T>(s: State<T>, a: Action<T>)
    requires Shape(s)
  {
    match a
    case Go(p) =>
      var pc := s.Of(p).pc;
      !pc.Idle? && !pc.Own? && !pc.Waiting? && (WantsMutex(pc) ==> s.mutex == None)
    case StartBegin(p) => s.Of(p).pc.Idle?
    case StartAsk(p) => s.Of(p).pc.Idle? || s.Of(p).pc.Own?
    case StartDone(p) => s.Of(p).pc.Own? && (p == Reader ==> s.copy.Some?)
    case Fill(_) => s.w.pc.Own?
    case Copy => s.r.pc.Own?
    case Spurious(p) => s.Of(p).pc.Waiting?
  }

  /** The thread after its next statement; `ready` is what it reads of the slot state. */
  function Advance(t: Thread, ready: bool): Thread {
    match t.pc
    case AskLock(o) => t.(pc := AskRead(o))
    case AskRead(o) => t.(pc := AskUnlock(o), answer := ready)
    case AskUnlock(o) => t.(pc := if o then Own else Idle)
    case BeginLock => t.(pc := BeginTest)
    case BeginTest => t.(pc := if ready then BeginUnlock else Waiting)
    case Relock => t.(pc := BeginTest)
    case BeginUnlock => t.(pc := Own)
    case DoneLock => t.(pc := DoneSet)
    case DoneSet => t.(pc := DoneSignal)
    case DoneSignal => t.(pc := DoneUnlock)
    case DoneUnlock => t.(pc := DoneFlip)
    case DoneFlip => Thread(Idle, if t.idx == 0 then 1 else 0, false)
    case _ => t
  }

  /** Going to sleep releases the mutex in the same step. */
  function MutexAfter(m: Option<Role>, p: Role, pc: Pc, ready: bool): Option<Role> {
    if WantsMutex(pc) then Some(p)
    else if pc.AskUnlock? || pc.BeginUnlock? || pc.DoneUnlock? || (pc.BeginTest? && !ready) then None
    else m
  }

  /** The next statement of p: its own move, the mutex, and the effect of set_state, of the
      signal and of taking a slot. */
  function Statement<T>(s: State<T>, p: Role): (n: State<T>)
    requires Shape(s) && Enabled(s, Go(p))
  {
    var t := s.Of(p);
    var moved := s.With(p, Advance(t, s.Ready(p))).(mutex := MutexAfter(s.mutex, p, t.pc, s.Ready(p)));
    match t.pc
    case DoneSet =>
      if p == Writer then moved.SetActive(t.idx, true).(handed := s.handed + [s.Buf(t.idx)])
      else moved.SetActive(t.idx, false).(taken := s.taken + if s.copy.Some? then [s.copy.value] else [])
    case DoneSignal => if s.Of(Other(p)).pc.Waiting? then moved.At(Other(p), Relock) else moved
    case BeginUnlock => if p == Reader then moved.(copy := None) else moved
    case _ => moved
  }

  function Apply<T>(s: State<T>, a: Action<T>): (n: State<T>)
    requires Shape(s) && Enabled(s, a)
  {
    match a
    case Go(p) => Statement(s, p)
    case StartBegin(p) => s.At(p, BeginLock)
    case StartAsk(p) => s.At(p, AskLock(s.Of(p).pc.Own?))
    case StartDone(p) => s.At(p, DoneLock)
    case Fill(v) => if s.w.idx == 0 then s.(buf0 := v) else s.(buf1 := v)
    case Copy => s.(copy := Some(s.Buf(s.r.idx)))
    case Spurious(p) => s.At(p, Relock)
  }

  function Init<T>(a: T, b: T): State<T> {
    State(false, false, a, b, None, Thread(Idle, 0, false), Thread(Idle, 0, false), None, [], [])
  }

  // --- Invariant -----------------------------------------------------------------------

  /** Between set_state and the flip of its index a thread is already done with its slot. */
  predicate FlipPending(pc: Pc) {
    pc.DoneSignal? || pc.DoneUnlock? || pc.DoneFlip?
  }

  function Place(t: Thread): nat
    requires t.idx < 2
  {
    if FlipPending(t.pc) then (if t.idx == 0 then 1 else 0) else t.idx
  }

  /** From the test that succeeds to the store that gives the slot away. */
  predicate Owns(pc: Pc) {
    pc.BeginUnlock? || pc.Own? || pc.DoneLock? || pc.DoneSet? ||
    ((pc.AskLock? || pc.AskRead? || pc.AskUnlock?) && pc.owning)
  }

  /** The blocks in transit, oldest first. */
  function Queue<T>(s: State<T>): seq<T>
    requires Shape(s)
  {
    var i := Place(s.r);
    if !s.Active(i) then [] else if Place(s.w) != i then [s.Buf(i)] else [s.Buf(i), s.Buf(if i == 0 then 1 else 0)]
  }

  /** The mutex is held by exactly the thread inside a critical section. */
  predicate Locking<T>(s: State<T>) {
    && (s.mutex == Some(Writer) <==> HoldsMutex(s.w.pc))
    && (s.mutex == Some(Reader) <==> HoldsMutex(s.r.pc))
  }

  /** The slots from the reader's place round to the writer's are the active ones. */
  predicate Ring<T>(s: State<T>)
    requires Shape(s)
  {
    && (s.Active(Place(s.r)) <==> s.active0 || s.active1)
    && (Place(s.w) == Place(s.r) <==> s.active0 == s.active1)
  }

  /** An owner's slot, and one found available, stays in the state it was waited for; a sleeper
      whose slot is ready has its signal on the way. */
  predicate Waits<T>(s: State<T>, p: Role) {
    && (Owns(s.Of(p).pc) ==> s.Ready(p))
    && (s.Of(p).answer && !FlipPending(s.Of(p).pc) ==> s.Ready(p) && !s.Of(p).pc.Waiting?)
    && (s.Of(p).pc.Waiting? && s.Ready(p) ==> s.Of(Other(p)).pc.DoneSignal?)
  }

  /** What the reader holds is the block at the head; every block handed over is taken or in
      transit. */
  ghost predicate Contents<T>(s: State<T>)
    requires Shape(s)
  {
    && (Owns(s.r.pc) && !s.r.pc.BeginUnlock? && s.copy.Some? ==> s.copy.value == s.Buf(s.r.idx))
    && (s.r.pc.DoneLock? || s.r.pc.DoneSet? ==> s.copy.Some?)
    && s.handed == s.taken + Queue(s)
  }

  ghost predicate Inv<T>(s: State<T>) {
    Shape(s) && Locking(s) && Ring(s) && Waits(s, Writer) && Waits(s, Reader) && Contents(s)
  }

  lemma InvInit<T>(a: T, b: T)
    ensures Inv(Init(a, b))
  {
  }

  lemma LockingGo<T>(s: State<T>, p: Role)
    requires Shape(s) && Locking(s) && Enabled(s, Go(p))
    ensures Locking(Statement(s, p))
  {
  }

  lemma LockingStep<T>(s: State<T>, a: Action<T>)
    requires Shape(s) && Locking(s) && Enabled(s, a)
    ensures Locking(Apply(s, a))
  {
    hide Statement, MutexAfter, Advance;
    if a.Go? { LockingGo(s, a.p); }
  }

  /** What a statement of p does to the two threads and the block contents. */
  lemma Effects<T>(s: State<T>, p: Role)
    requires Shape(s) && Enabled(s, Go(p))
    ensures var n := Statement(s, p); var o := s.Of(Other(p));
      && n.Of(p) == Advance(s.Of(p), s.Ready(p))
      && n.Of(Other(p)) == (if s.Of(p).pc.DoneSignal? && o.pc.Waiting? then o.(pc := Relock) else o)
      && n.buf0 == s.buf0 && n.buf1 == s.buf1
      && n.copy == (if s.Of(p).pc.BeginUnlock? && p == Reader then None else s.copy)
  {
    hide Advance, MutexAfter;
  }

  /** Only set_state changes the slots and what has been handed over and taken. */
  lemma SlotsKept<T>(s: State<T>, p: Role)
    requires Shape(s) && Enabled(s, Go(p)) && !s.Of(p).pc.DoneSet?
    ensures var n := Statement(s, p);
      n.active0 == s.active0 && n.active1 == s.active1 && n.handed == s.handed && n.taken == s.taken
  {
    hide Advance, MutexAfter;
  }

  lemma AdvanceKeepsPlace(t: Thread, ready: bool)
    requires t.idx < 2
    ensures Advance(t, ready).idx < 2
    ensures !t.pc.DoneSet? ==> Place(Advance(t, ready)) == Place(t)
    ensures t.pc.DoneSet? ==> Place(Advance(t, ready)) == (if Place(t) == 0 then 1 else 0) && Place(t) == t.idx
  {
  }

  lemma ShapeStep<T>(s: State<T>, a: Action<T>)
    requires Shape(s) && Enabled(s, a)
    ensures Shape(Apply(s, a))
  {
    hide Statement, Advance, MutexAfter, Place;
    if a.Go? {
      Effects(s, a.p);
      AdvanceKeepsPlace(s.Of(a.p), s.Ready(a.p));
    }
  }

  lemma RingGo<T>(s: State<T>, p: Role)
    requires Inv(s) && Enabled(s, Go(p))
    ensures Shape(Statement(s, p)) && Ring(Statement(s, p))
  {
    hide Advance, MutexAfter, Contents, Locking;
    AdvanceKeepsPlace(s.Of(p), s.Ready(p));
  }

  lemma RingStep<T>(s: State<T>, a: Action<T>)
    requires Inv(s) && Enabled(s, a)
    ensures Shape(Apply(s, a)) && Ring(Apply(s, a))
  {
    hide Statement, Contents, Locking, Waits;
    if a.Go? { RingGo(s, a.p); }
  }

  lemma AdvanceOwns(t: Thread, ready: bool)
    requires t.idx < 2
    ensures Owns(Advance(t, ready).pc) ==> (Owns(t.pc) || (t.pc.BeginTest? && ready)) && Advance(t, ready).idx == t.idx
    ensures Advance(t, ready).pc.Waiting? <==> (t.pc.BeginTest? && !ready) || t.pc.Waiting?
    ensures t.pc.BeginTest? ==> Advance(t, ready).idx == t.idx
    ensures Advance(t, ready).pc.DoneSignal? <==> t.pc.DoneSet?
    ensures t.pc.DoneSet? ==> !Owns(Advance(t, ready).pc)
    ensures Advance(t, ready).answer && !FlipPending(Advance(t, ready).pc) ==>
              Advance(t, ready).idx == t.idx && (if t.pc.AskRead? then ready else t.answer && !FlipPending(t.pc))
  {
  }

  lemma WaitsSelf<T>(s: State<T>, p: Role)
    requires Shape(s) && Waits(s, p) && Enabled(s, Go(p))
    ensures Waits(Statement(s, p), p)
  {
    hide Advance, MutexAfter, Statement, Owns;
    Effects(s, p);
    AdvanceOwns(s.Of(p), s.Ready(p));
    if !s.Of(p).pc.DoneSet? { SlotsKept(s, p); }
  }

  /** A statement of p that changes a slot changes p's own, which the other does not own. */
  lemma WaitsOther<T>(s: State<T>, p: Role)
    requires Inv(s) && Enabled(s, Go(p))
    ensures Waits(Statement(s, p), Other(p))
  {
    if s.Of(p).pc.DoneSet? {
      hide Advance, MutexAfter, Contents, Locking, Ring;
      AdvanceOwns(s.Of(p), s.Ready(p));
    } else {
      hide Advance, MutexAfter, Statement, Contents, Locking, Ring, Owns;
      Effects(s, p);
      SlotsKept(s, p);
    }
  }

  lemma WaitsStep<T>(s: State<T>, a: Action<T>)
    requires Inv(s) && Enabled(s, a)
    ensures Waits(Apply(s, a), Writer) && Waits(Apply(s, a), Reader)
  {
    hide Statement, Contents, Locking, Ring;
    if a.Go? {
      WaitsSelf(s, a.p);
      WaitsOther(s, a.p);
    }
  }

  /** What the statements other than set_state leave alone. */
  lemma QuietGo<T>(s: State<T>, p: Role)
    requires Shape(s) && Enabled(s, Go(p)) && !s.Of(p).pc.DoneSet?
    ensures var n := Statement(s, p);
      && Shape(n) && Queue(n) == Queue(s) && n.handed == s.handed && n.taken == s.taken
      && n.buf0 == s.buf0 && n.buf1 == s.buf1
  {
    hide Advance, MutexAfter, Statement, Queue;
    Effects(s, p);
    SlotsKept(s, p);
    AdvanceKeepsPlace(s.Of(p), s.Ready(p));
    SameQueue(s, Statement(s, p));
  }

  lemma HandOver<T>(s: State<T>)
    requires Shape(s) && Ring(s) && Waits(s, Writer) && s.w.pc.DoneSet?
    ensures var n := Statement(s, Writer);
      && Shape(n) && |Queue(s)| < 2 && Queue(n) == Queue(s) + [s.Buf(s.w.idx)]
      && n.handed == s.handed + [s.Buf(s.w.idx)] && n.taken == s.taken
  {
    hide Advance, MutexAfter;
    AdvanceKeepsPlace(s.w, s.Ready(Writer));
  }

  lemma GiveBack<T>(s: State<T>)
    requires Shape(s) && Ring(s) && Waits(s, Reader) && s.r.pc.DoneSet? && s.copy.Some?
    ensures var n := Statement(s, Reader);
      && Shape(n) && Queue(s) == [s.Buf(s.r.idx)] + Queue(n)
      && n.handed == s.handed && n.taken == s.taken + [s.copy.value]
  {
    hide Advance, MutexAfter;
    AdvanceKeepsPlace(s.r, s.Ready(Reader));
  }

  /** The writer fills a slot that holds no block in transit, and not the reader's. */
  lemma FillElsewhere<T>(s: State<T>, v: T)
    requires Inv(s) && s.w.pc.Own?
    ensures var n := Apply(s, Fill(v));
      Queue(n) == Queue(s) && (Owns(s.r.pc) ==> n.Buf(s.r.idx) == s.Buf(s.r.idx))
  {
  }

  lemma CopyGo<T>(s: State<T>, p: Role)
    requires Shape(s) && Contents(s) && Enabled(s, Go(p))
    ensures var n := Statement(s, p);
      && (Owns(n.r.pc) && !n.r.pc.BeginUnlock? && n.copy.Some? ==> n.copy.value == n.Buf(n.r.idx))
      && (n.r.pc.DoneLock? || n.r.pc.DoneSet? ==> n.copy.Some?)
  {
    hide MutexAfter, Queue, Statement;
    Effects(s, p);
  }

  lemma ContentsGo<T>(s: State<T>, p: Role)
    requires Inv(s) && Enabled(s, Go(p))
    ensures Shape(Statement(s, p)) && Contents(Statement(s, p))
  {
    hide Statement, Locking, Ring, Waits, Queue, Owns;
    CopyGo(s, p);
    if !s.Of(p).pc.DoneSet? {
      QuietGo(s, p);
    } else if p == Writer {
      HandOver(s);
    } else {
      GiveBack(s);
      HeadIsCopied(s);
    }
  }

  lemma HeadIsCopied<T>(s: State<T>)
    requires Inv(s) && s.r.pc.DoneSet?
    ensures s.copy == Some(s.Buf(s.r.idx))
  {
  }

  lemma ContentsChoice<T>(s: State<T>, a: Action<T>)
    requires Inv(s) && Enabled(s, a) && (a.Fill? || a.Copy?)
    requires Queue(Apply(s, a)) == Queue(s)
    requires Owns(s.r.pc) && a.Fill? ==> Apply(s, a).Buf(s.r.idx) == s.Buf(s.r.idx)
    ensures Shape(Apply(s, a)) && Contents(Apply(s, a))
  {
    hide Queue, Locking, Ring, Waits;
  }

  lemma ContentsCall<T>(s: State<T>, a: Action<T>, p: Role)
    requires Inv(s) && Enabled(s, a) && a in {StartBegin(p), StartAsk(p), StartDone(p), Spurious(p)}
    ensures Shape(Apply(s, a)) && Contents(Apply(s, a))
  {
    hide Locking, Ring, Waits;
    assert Place(Apply(s, a).w) == Place(s.w) && Place(Apply(s, a).r) == Place(s.r);
  }

  lemma ContentsStep<T>(s: State<T>, a: Action<T>)
    requires Inv(s) && Enabled(s, a)
    ensures Shape(Apply(s, a)) && Contents(Apply(s, a))
  {
    hide Statement, Locking, Ring, Waits, Queue, Contents;
    ShapeStep(s, a);
    match a
    case Go(p) => ContentsGo(s, p);
    case Fill(v) => FillElsewhere(s, v); ContentsChoice(s, a);
    case Copy => SameQueue(s, Apply(s, a)); ContentsChoice(s, a);
    case StartBegin(p) => ContentsCall(s, a, p);
    case StartAsk(p) => ContentsCall(s, a, p);
    case StartDone(p) => ContentsCall(s, a, p);
    case Spurious(p) => ContentsCall(s, a, p);
  }

  lemma InvStep<T>(s: State<T>, a: Action<T>)
    requires Inv(s) && Enabled(s, a)
    ensures Inv(Apply(s, a))
  {
    hide Apply, Shape, Locking, Ring, Waits, Contents;
    ShapeStep(s, a);
    LockingStep(s, a);
    RingStep(s, a);
    WaitsStep(s, a);
    ContentsStep(s, a);
  }

  // --- Results -------------------------------------------------------------------------

  predicate Legal<T>(s: State<T>, acts: seq<Action<T>>)
    requires Shape(s)
    decreases |acts|
  {
    acts == [] || (Enabled(s, acts[0]) && Shape(Apply(s, acts[0])) && Legal(Apply(s, acts[0]), acts[1..]))
  }

  /** The state after a run; runs are every interleaving of the two threads. */
  function Run<T>(s: State<T>, acts: seq<Action<T>>): (r: State<T>)
    requires Shape(s) && Legal(s, acts)
    ensures Shape(r)
    decreases |acts|
  {
    if acts == [] then s else Run(Apply(s, acts[0]), acts[1..])
  }

  lemma {:induction false} InvRun<T>(s: State<T>, acts: seq<Action<T>>)
    requires Inv(s) && Legal(s, acts)
    ensures Inv(Run(s, acts))
    decreases |acts|
  {
    hide Apply, Locking, Ring, Waits, Contents, Enabled;
    if acts != [] {
      InvStep(s, acts[0]);
      InvRun(Apply(s, acts[0]), acts[1..]);
    }
  }

  /** The specification: a queue of at most two blocks. */
  datatype Fifo<T> = Fifo(queue: seq<T>, handed: seq<T>, taken: seq<T>)

  function Abs<T>(s: State<T>): Fifo<T>
    requires Shape(s)
  {
    Fifo(Queue(s), s.handed, s.taken)
  }

  ghost predicate FifoStep<T>(f: Fifo<T>, g: Fifo<T>) {
    || g == f
    || (|f.queue| < 2 && |g.handed| > 0 &&
        var v := g.handed[|g.handed| - 1];
        g == Fifo(f.queue + [v], f.handed + [v], f.taken))
    || (|f.queue| > 0 && g == Fifo(f.queue[1..], f.handed, f.taken + [f.queue[0]]))
  }

  /** Refinement: every step of either thread is no step of the queue, a put or a get. */
  lemma StepRefines<T>(s: State<T>, a: Action<T>)
    requires Inv(s) && Enabled(s, a)
    ensures Shape(Apply(s, a)) && FifoStep(Abs(s), Abs(Apply(s, a)))
  {
    hide Statement, Locking, Ring, Waits, Queue;
    InvStep(s, a);
    match a
    case Go(p) =>
      if !s.Of(p).pc.DoneSet? {
        QuietGo(s, p);
      } else if p == Writer {
        HandOver(s);
      } else {
        HeadIsCopied(s);
        GiveBack(s);
      }
    case Fill(v) => FillElsewhere(s, v);
    case Copy => SameQueue(s, Apply(s, a));
    case StartBegin(p) => SameQueue(s, Apply(s, a));
    case StartAsk(p) => SameQueue(s, Apply(s, a));
    case StartDone(p) => SameQueue(s, Apply(s, a));
    case Spurious(p) => SameQueue(s, Apply(s, a));
  }

  lemma SameQueue<T>(s: State<T>, n: State<T>)
    requires Shape(s) && Shape(n) && Place(s.w) == Place(n.w) && Place(s.r) == Place(n.r)
    requires s.active0 == n.active0 && s.active1 == n.active1 && s.buf0 == n.buf0 && s.buf1 == n.buf1
    ensures Queue(s) == Queue(n)
  {
  }

  /** What the two tests mean for the queue: a thread at its place finds its slot ready exactly
      when there is room to put, or a block to get. */
  lemma ReadyMeansRoom<T>(s: State<T>)
    requires Inv(s)
    ensures !FlipPending(s.w.pc) ==> (s.Ready(Writer) <==> |Queue(s)| < 2)
    ensures !FlipPending(s.r.pc) ==> (s.Ready(Reader) <==> |Queue(s)| > 0)
  {
    hide Locking, Waits, Contents;
  }

  /** What the writer has stored in its slot since its last begin, after one more step. */
  function Storing<T>(a: Action<T>, held: Option<T>): Option<T> {
    match a
    case Fill(v) => Some(v)
    case StartBegin(p) => if p == Writer then None else held
    case _ => held
  }

  /** The step gives the writer's slot away. */
  predicate HandsOver<T>(s: State<T>, a: Action<T>) { a == Go(Writer) && s.w.pc.DoneSet? }

  /** The blocks stored by the writer, one for each time it gives its slot away: the last block
      stored since the begin, or none. */
  function Stored<T>(s: State<T>, acts: seq<Action<T>>, held: Option<T>): (r: seq<Option<T>>)
    requires Shape(s) && Legal(s, acts)
    decreases |acts|
  {
    if acts == [] then [] else
    (if HandsOver(s, acts[0]) then [held] else []) + Stored(Apply(s, acts[0]), acts[1..], Storing(acts[0], held))
  }

  predicate Matches<T(==)>(blocks: seq<T>, stored: seq<Option<T>>) {
    && |blocks| == |stored|
    && forall k | 0 <= k < |stored| :: stored[k].Some? ==> blocks[k] == stored[k].value
  }

  /** The slot holds what the writer has stored. */
  ghost predicate Holds<T>(s: State<T>, held: Option<T>)
    requires Shape(s)
  {
    held.Some? ==>
      && !s.w.pc.BeginLock? && !s.w.pc.BeginTest? && !s.w.pc.Waiting? && !s.w.pc.Relock? && !s.w.pc.BeginUnlock?
      && (Owns(s.w.pc) ==> s.Buf(s.w.idx) == held.value)
  }

  lemma HoldsGo<T>(s: State<T>, p: Role, held: Option<T>)
    requires Shape(s) && Enabled(s, Go(p)) && Holds(s, held)
    ensures Shape(Statement(s, p)) && Holds(Statement(s, p), held)
    ensures Statement(s, p).handed == s.handed + if HandsOver(s, Go(p)) then [s.Buf(s.w.idx)] else []
  {
    hide Statement, MutexAfter, Ring;
    Effects(s, p);
    ShapeStep(s, Go(p));
    HandedGrows(s, p);
  }

  lemma HandedGrows<T>(s: State<T>, p: Role)
    requires Shape(s) && Enabled(s, Go(p))
    ensures Statement(s, p).handed == s.handed + if HandsOver(s, Go(p)) then [s.Buf(s.w.idx)] else []
  {
    hide Advance, MutexAfter;
  }

  lemma HoldsStep<T>(s: State<T>, a: Action<T>, held: Option<T>)
    requires Shape(s) && Enabled(s, a) && Holds(s, held)
    ensures Shape(Apply(s, a)) && Holds(Apply(s, a), Storing(a, held))
    ensures Apply(s, a).handed == s.handed + if HandsOver(s, a) then [s.Buf(s.w.idx)] else []
  {
    hide Statement;
    if a.Go? { HoldsGo(s, a.p, held); }
  }

  lemma {:induction false} StoredRun<T>(s: State<T>, acts: seq<Action<T>>, held: Option<T>)
    requires Shape(s) && Legal(s, acts) && Holds(s, held)
    ensures s.handed <= Run(s, acts).handed
    ensures Matches(Run(s, acts).handed[|s.handed|..], Stored(s, acts, held))
    decreases |acts|
  {
    hide Apply, Enabled, Holds;
    if acts != [] {
      HoldsStep(s, acts[0], held);
      if HandsOver(s, acts[0]) { HeldHandsOver(s, acts[0], held); }
      StoredRun(Apply(s, acts[0]), acts[1..], Storing(acts[0], held));
    }
  }

  lemma HeldHandsOver<T>(s: State<T>, a: Action<T>, held: Option<T>)
    requires Shape(s) && Holds(s, held) && HandsOver(s, a)
    ensures held.Some? ==> s.Buf(s.w.idx) == held.value
  {
  }

  /** In every reachable state the blocks handed over are those the writer stored, the blocks taken
      are the blocks handed over, in order and each once, at most two fewer; the two threads never
      own the same slot; and the reader's copy is the oldest block in transit. */
  lemma Exchange<T>(a: T, b: T, acts: seq<Action<T>>)
    requires Legal(Init(a, b), acts)
    ensures var s := Run(Init(a, b), acts); var stored := Stored(Init(a, b), acts, None);
      && Matches(s.handed, stored)
      && s.taken <= s.handed && |s.handed| <= |s.taken| + 2
      && (Owns(s.w.pc) && Owns(s.r.pc) ==> s.w.idx != s.r.idx)
      && (s.r.pc.DoneSet? && s.copy.Some? ==> |s.taken| < |s.handed| && s.copy.value == s.handed[|s.taken|])
  {
    hide Apply, Statement, Enabled;
    InvInit(a, b);
    InvRun(Init(a, b), acts);
    StoredRun(Init(a, b), acts, None);
  }

  /** available() tells the truth about the queue, and a yes stays true until the thread that
      asked gives a slot away itself: the begin that follows does not sleep. */
  lemma Available<T>(a: T, b: T, acts: seq<Action<T>>, p: Role)
    requires Legal(Init(a, b), acts)
    ensures var s := Run(Init(a, b), acts);
      && (s.Of(p).pc.AskRead? ==>
            Enabled(s, Go(p)) &&
            (Statement(s, p).Of(p).answer <==> if p == Reader then |Queue(s)| > 0 else |Queue(s)| < 2))
      && (s.Of(p).answer && !FlipPending(s.Of(p).pc) ==>
            !s.Of(p).pc.Waiting? && if p == Reader then |Queue(s)| > 0 else |Queue(s)| < 2)
  {
    hide Apply, Contents, Locking, Ring, Queue;
    InvInit(a, b);
    InvRun(Init(a, b), acts);
    ReadyMeansRoom(Run(Init(a, b), acts));
  }

  /** A thread inside a call that is not asleep waiting for a slot that is not ready. */
  predicate Busy<T>(s: State<T>, p: Role) {
    var pc := s.Of(p).pc;
    !pc.Idle? && !pc.Own? && !(pc.Waiting? && !s.Ready(p))
  }

  /** No lost wake-up and no deadlock, with one condition variable and a single signal: the two
      threads are never both in the wait set; a sleeper whose slot is ready has the signal that
      wakes it still to come from the other thread, which holds the mutex; and a busy thread can
      take its next statement, or the other holds the mutex and can. */
  lemma Progress<T>(a: T, b: T, acts: seq<Action<T>>, p: Role)
    requires Legal(Init(a, b), acts)
    ensures var s := Run(Init(a, b), acts);
      && !(s.w.pc.Waiting? && s.r.pc.Waiting?)
      && (s.Of(p).pc.Waiting? && s.Ready(p) ==>
            s.Of(Other(p)).pc.DoneSignal? && s.mutex == Some(Other(p)) &&
            Statement(s, Other(p)).Of(p).pc.Relock?)
      && (Busy(s, p) ==> Enabled(s, Go(p)) || (s.mutex == Some(Other(p)) && Enabled(s, Go(Other(p)))))
  {
    hide Apply, Contents;
    InvInit(a, b);
    InvRun(Init(a, b), acts);
    var s := Run(Init(a, b), acts);
    match s.mutex
    case None =>
    case Some(q) =>
      match q {
        case Writer =>
        case Reader =>
      }
  }

  /** One statement of p on the way through a begin. */
  lemma BeginMoves<T>(s: State<T>, p: Role)
    requires Shape(s) && (s.Of(p).pc.BeginLock? || s.Of(p).pc.BeginTest? || s.Of(p).pc.BeginUnlock?)
    requires if s.Of(p).pc.BeginLock? then s.mutex == None else s.mutex == Some(p)
    ensures Enabled(s, Go(p))
    ensures var n := Apply(s, Go(p)); var pc := n.Of(p).pc;
      && Shape(n) && n.Ready(p) == s.Ready(p)
      && (s.Of(p).pc.BeginLock? ==> pc.BeginTest? && n.mutex == Some(p))
      && (s.Of(p).pc.BeginTest? ==>
            if s.Ready(p) then pc.BeginUnlock? && n.mutex == Some(p) else pc.Waiting? && n.mutex == None)
      && (s.Of(p).pc.BeginUnlock? ==> pc.Own? && n.mutex == None)
  {
  }

  lemma Goes<T>(s: State<T>, a: Action<T>, more: seq<Action<T>>)
    requires Shape(s) && Enabled(s, a) && Shape(Apply(s, a)) && Legal(Apply(s, a), more)
    ensures Legal(s, [a] + more) && Run(s, [a] + more) == Run(Apply(s, a), more)
  {
    hide Apply, Enabled;
    var acts := [a] + more;
    assert acts[0] == a && acts[1..] == more;
  }

  lemma Stays<T>(s: State<T>)
    requires Shape(s)
    ensures var none: seq<Action<T>> := []; Legal(s, none) && Run(s, none) == s
  {
  }

  /** A begin on a slot that is not ready sleeps: with the mutex free the thread goes straight from
      the call into the wait set, and leaves the mutex free; on a slot that is ready it returns
      owning the slot. */
  lemma BeginSleepsOrReturns<T>(s: State<T>, p: Role) returns (more: seq<Action<T>>)
    requires Shape(s) && s.mutex == None && s.Of(p).pc.BeginLock?
    ensures Legal(s, more) && forall k | 0 <= k < |more| :: more[k] == Go(p)
    ensures var n := Run(s, more); n.mutex == None && if s.Ready(p) then n.Of(p).pc.Own? else n.Of(p).pc.Waiting?
  {
    hide Apply, Enabled, Legal, Run;
    BeginMoves(s, p);
    var t := Apply(s, Go(p));
    BeginMoves(t, p);
    var u := Apply(t, Go(p));
    var rest: seq<Action<T>> := [];
    Stays(u);
    if s.Ready(p) {
      BeginMoves(u, p);
      Stays(Apply(u, Go(p)));
      Goes(u, Go(p), rest);
      rest := [Go(p)] + rest;
    }
    Goes(t, Go(p), rest);
    Goes(s, Go(p), [Go(p)] + rest);
    more := [Go(p)] + ([Go(p)] + rest);
  }
}
