/** bitbang_player.c running on ping_pong_buf.c.  The tick and the feeding thread are those of
    Player, but every call into the ping-pong buffer is carried out statement by statement and
    the samples are read from the slot itself.  Such a run is shown to be a run of Player over a
    queue of two blocks. */
module Playback {
  import opened Wrappers
  import B = PingPong
  import P = Player

  datatype State<T> = State(
    mode: P.Mode, mutex: Option<P.Who>, main: P.Main, tick: P.Tick,
    buf: bool, pos: nat, size: nat, spun: seq<T>, pp: B.State<seq<T>>)

  /** Feed: a statement or a choice of the writer; Wake: a spurious wake-up of the reader. */
  datatype Action<T> = Feed(a: B.Action<seq<T>>) | Wake | CallStop | MainStep | TickStart | TickStep

  predicate Shape<T>(c: State<T>) { B.Shape(c.pp) }

  predicate OfWriter<T>(c: State<T>, a: B.Action<seq<T>>) {
    match a
    case Copy => false
    case Fill(v) => |v| == c.size
    case Go(p) => p == B.Writer
    case StartBegin(p) => p == B.Writer
    case StartAsk(p) => p == B.Writer
    case StartDone(p) => p == B.Writer
    case Spurious(p) => p == B.Writer
  }

  predicate Between(pc: B.Pc) { pc.Idle? || pc.Own? }

  /** The player's variables, with the slot that `buf` points to for a queue. */
  function Local<T>(c: State<T>): P.State<T>
    requires Shape(c)
  {
    P.State(c.mode, c.mutex, c.main, c.tick, c.buf, c.pos, c.size, [c.pp.Buf(c.pp.r.idx)], [], [], c.spun)
  }

  function With<T>(c: State<T>, n: P.State<T>): State<T> {
    State(n.mode, n.mutex, n.main, n.tick, n.buf, n.pos, c.size, n.spun, c.pp)
  }

  predicate Enabled<T>(c: State<T>, a: Action<T>)
    requires Shape(c)
  {
    match a
    case Feed(w) => c.main.Feeding? && OfWriter(c, w) && B.Enabled(c.pp, w)
    case Wake => B.Enabled(c.pp, B.Spurious(B.Reader))
    case CallStop => c.main.Feeding? && Between(c.pp.w.pc)
    case MainStep => P.Enabled(Local(c), P.MainStep)
    case TickStart => c.tick.Resting?
    case TickStep =>
      if !Between(c.pp.r.pc) then B.Enabled(c.pp, B.Go(B.Reader))
      else if c.tick.Release? then B.Enabled(c.pp, B.StartDone(B.Reader))
      else c.tick.Available? || c.tick.ReadBegin? || P.Enabled(Local(c), P.TickStep)
  }

  /** The tick inside a call into the buffer goes on with the call; otherwise its next statement
      starts a call or is one of its own. */
  function TickNext<T>(c: State<T>): State<T>
    requires Shape(c) && Enabled(c, TickStep)
  {
    if !Between(c.pp.r.pc) then
      var m := c.(pp := B.Apply(c.pp, B.Go(B.Reader)));
      match c.pp.r.pc
      case DoneFlip => m.(tick := P.ClearBuf)
      case AskUnlock(_) => m.(tick := if c.pp.r.answer then P.ReadBegin else P.Starve)
      case _ => m
    else
      match c.tick
      case Release => c.(pp := B.Apply(c.pp, B.StartDone(B.Reader)))
      case Available => c.(pp := B.Apply(c.pp, B.StartAsk(B.Reader)))
      case ReadBegin =>
        if c.pp.r.pc.Idle? then c.(pp := B.Apply(c.pp, B.StartBegin(B.Reader)))
        else c.(pp := B.Apply(c.pp, B.Copy), tick := P.ResetPos, buf := true)
      case _ => With(c, P.TickNext(Local(c)))
  }

  function Apply<T>(c: State<T>, a: Action<T>): State<T>
    requires Shape(c) && Enabled(c, a)
  {
    match a
    case Feed(w) => c.(pp := B.Apply(c.pp, w))
    case Wake => c.(pp := B.Apply(c.pp, B.Spurious(B.Reader)))
    case CallStop => c.(main := P.TestStalled)
    case MainStep => With(c, P.MainNext(Local(c)))
    case TickStart => c.(tick := P.TestEnd)
    case TickStep => TickNext(c)
  }

  /** A first play on a fresh buffer whose slots hold a and b. */
  function Init<T>(a: seq<T>, b: seq<T>): State<T>
    requires |a| == |b|
  {
    State(P.Stalled, None, P.Feeding, P.Resting, false, |a|, |a|, [], B.Init(a, b))
  }

  // --- Refinement ----------------------------------------------------------------------

  /** Where Player's tick stands: a call takes effect in the middle. */
  function AbsTick<T>(c: State<T>): P.Tick {
    if c.tick.Release? && B.FlipPending(c.pp.r.pc) then P.ClearBuf
    else if c.tick.Available? && c.pp.r.pc.AskUnlock? then (if c.pp.r.answer then P.ReadBegin else P.Starve)
    else c.tick
  }

  function Abs<T>(c: State<T>): P.State<T>
    requires Shape(c)
  {
    P.State(c.mode, c.mutex, c.main, AbsTick(c), c.buf, c.pos, c.size,
            B.Queue(c.pp), c.pp.handed, c.pp.taken, c.spun)
  }

  /** The reader is inside the call that the tick is making, and owns a slot exactly while the
      tick has a block. */
  predicate Coupled<T>(c: State<T>) {
    && (match c.tick
        case Release =>
          c.pp.copy.Some? &&
          (c.pp.r.pc.Own? || c.pp.r.pc.DoneLock? || c.pp.r.pc.DoneSet? || B.FlipPending(c.pp.r.pc))
        case Available => c.pp.r.pc.Idle? || c.pp.r.pc in {B.AskLock(false), B.AskRead(false), B.AskUnlock(false)}
        case ReadBegin =>
          c.pp.r.answer &&
          (Between(c.pp.r.pc) || c.pp.r.pc.BeginLock? || c.pp.r.pc.BeginTest? || c.pp.r.pc.BeginUnlock?)
        case ClearBuf => c.pp.r.pc.Idle?
        case _ => if c.buf then c.pp.r.pc.Own? && c.pp.copy.Some? else c.pp.r.pc.Idle?)
    && (!c.main.Feeding? ==> Between(c.pp.w.pc))
    && |c.pp.buf0| == c.size == |c.pp.buf1|
  }

  ghost predicate Inv<T>(c: State<T>) {
    Shape(c) && B.Inv(c.pp) && P.Inv(Abs(c)) && Coupled(c)
  }

  lemma InvInit<T>(a: seq<T>, b: seq<T>)
    requires |a| == |b|
    ensures Inv(Init(a, b))
  {
    hide P.Inv, B.Inv;
    B.InvInit(a, b);
    P.InvInit(Abs(Init(a, b)));
  }

  /** The step of Player that a step of the composed program is, if it is one. */
  function Image<T>(c: State<T>, a: Action<T>): Option<P.Action<T>>
    requires Shape(c)
  {
    match a
    case Feed(w) => if w == B.Go(B.Writer) && c.pp.w.pc.DoneSet? then Some(P.Put(c.pp.Buf(c.pp.w.idx))) else None
    case Wake => None
    case CallStop => Some(P.CallStop)
    case MainStep => Some(P.MainStep)
    case TickStart => Some(P.TickStart)
    case TickStep =>
      if !Between(c.pp.r.pc) then (if c.pp.r.pc.DoneSet? || c.pp.r.pc.AskRead? then Some(P.TickStep) else None)
      else if c.tick.Release? || c.tick.Available? || (c.tick.ReadBegin? && c.pp.r.pc.Idle?) then None
      else Some(P.TickStep)
  }

  ghost predicate Simulated<T>(c: State<T>, a: Action<T>)
    requires Shape(c) && Enabled(c, a)
  {
    && Shape(Apply(c, a))
    && match Image(c, a)
       case None => Abs(Apply(c, a)) == Abs(c)
       case Some(x) => P.Enabled(Abs(c), x) && Abs(Apply(c, a)) == P.Apply(Abs(c), x)
  }

  /** Nothing of the buffer's queue changes, nor does the reader. */
  lemma WriterQuiet<T>(c: State<T>, w: B.Action<seq<T>>)
    requires Inv(c) && Enabled(c, Feed(w)) && Image(c, Feed(w)) == None
    ensures var n := B.Apply(c.pp, w);
      B.Shape(n) && B.Queue(n) == B.Queue(c.pp) && n.handed == c.pp.handed && n.taken == c.pp.taken
  {
    hide P.Inv, B.Queue, B.Statement, Coupled, Abs;
    match w
    case Go(p) => B.QuietGo(c.pp, p);
    case Fill(v) => B.FillElsewhere(c.pp, v);
    case StartBegin(p) => B.SameQueue(c.pp, B.Apply(c.pp, w));
    case StartAsk(p) => B.SameQueue(c.pp, B.Apply(c.pp, w));
    case StartDone(p) => B.SameQueue(c.pp, B.Apply(c.pp, w));
    case Spurious(p) => B.SameQueue(c.pp, B.Apply(c.pp, w));
  }

  /** A writer's step leaves the reader where it is, unless it wakes it. */
  lemma ReaderKept<T>(c: State<T>, w: B.Action<seq<T>>)
    requires Shape(c) && Enabled(c, Feed(w)) && !c.pp.r.pc.Waiting?
    ensures B.Apply(c.pp, w).r == c.pp.r && B.Apply(c.pp, w).copy == c.pp.copy
  {
    hide B.Advance, B.MutexAfter;
  }

  lemma ReaderAwake<T>(c: State<T>)
    requires Coupled(c)
    ensures !c.pp.r.pc.Waiting?
  {
  }

  lemma FeedSimulated<T>(c: State<T>, w: B.Action<seq<T>>)
    requires Inv(c) && Enabled(c, Feed(w))
    ensures Simulated(c, Feed(w))
  {
    hide P.Inv, B.Inv, B.Queue, B.Apply, B.Enabled, Coupled;
    ReaderAwake(c);
    ReaderKept(c, w);
    if Image(c, Feed(w)) == None {
      WriterQuiet(c, w);
    } else {
      WriterHands(c);
    }
  }

  lemma WriterHands<T>(c: State<T>)
    requires Inv(c) && c.pp.w.pc.DoneSet?
    ensures var n := B.Apply(c.pp, B.Go(B.Writer)); var v := c.pp.Buf(c.pp.w.idx);
      && B.Shape(n) && |B.Queue(c.pp)| < 2 && B.Queue(n) == B.Queue(c.pp) + [v] && |v| == c.size
      && n.handed == c.pp.handed + [v] && n.taken == c.pp.taken
  {
    hide P.Inv, B.Queue, B.Statement, Abs;
    B.HandOver(c.pp);
  }

  /** The block that the tick reads is the oldest in the queue. */
  lemma SlotIsHead<T>(c: State<T>)
    requires Inv(c) && c.pp.r.pc.Own?
    ensures var q := B.Queue(c.pp); q != [] && q[0] == c.pp.Buf(c.pp.r.idx)
  {
    hide P.Inv, Abs, Coupled;
  }

  /** Statements of the player itself do the same to the whole player. */
  lemma OwnStatement<T>(c: State<T>, n: P.State<T>)
    requires Shape(c) && n == Abs(c) && AbsTick(c) == c.tick
    requires !c.tick.Release? && !c.tick.Available? && !c.tick.ReadBegin?
    requires c.tick.Spin? ==> n.queue != [] && n.queue[0] == c.pp.Buf(c.pp.r.idx)
    requires P.Enabled(Local(c), P.TickStep)
    ensures P.Enabled(n, P.TickStep)
    ensures P.TickNext(n) == P.TickNext(Local(c)).(queue := n.queue, handed := n.handed, released := n.released)
    ensures P.TickNext(Local(c)).size == c.size
  {
    hide B.Queue;
  }

  lemma OwnTick<T>(c: State<T>)
    requires Inv(c) && Enabled(c, TickStep) && Between(c.pp.r.pc)
    requires !c.tick.Release? && !c.tick.Available? && !c.tick.ReadBegin?
    ensures Simulated(c, TickStep)
  {
    hide B.Inv, B.Queue, P.TickNext, P.Control, P.Output, P.Labels;
    if c.tick.Spin? { SlotIsHead(c); }
    OwnStatement(c, Abs(c));
  }

  /** The reader's statements between the start of a call and its return. */
  lemma CallTick<T>(c: State<T>)
    requires Inv(c) && Enabled(c, TickStep) && !Between(c.pp.r.pc)
    ensures Simulated(c, TickStep)
  {
    hide P.Inv, B.Inv, B.Queue, B.Statement;
    if c.pp.r.pc.DoneSet? { CallReleases(c); } else { CallKeeps(c); }
  }

  lemma CallKeeps<T>(c: State<T>)
    requires Inv(c) && Enabled(c, TickStep) && !Between(c.pp.r.pc) && !c.pp.r.pc.DoneSet?
    ensures var n := B.Apply(c.pp, B.Go(B.Reader)); var ready := c.pp.Ready(B.Reader);
      && B.Shape(n) && B.Queue(n) == B.Queue(c.pp) && n.handed == c.pp.handed && n.taken == c.pp.taken
      && n.r == B.Advance(c.pp.r, ready)
      && (c.pp.r.pc.AskRead? || c.pp.r.pc.BeginTest? ==> (ready <==> |B.Queue(c.pp)| > 0))
  {
    hide P.Inv, Abs, Coupled, B.Advance, B.MutexAfter, B.Queue;
    B.QuietGo(c.pp, B.Reader);
    B.ReadyMeansRoom(c.pp);
  }

  lemma CallReleases<T>(c: State<T>)
    requires Inv(c) && Enabled(c, TickStep) && c.pp.r.pc.DoneSet?
    ensures var n := B.Apply(c.pp, B.Go(B.Reader)); var q := B.Queue(c.pp);
      && B.Shape(n) && q != [] && B.Queue(n) == q[1..] && n.handed == c.pp.handed && n.taken == c.pp.taken + [q[0]]
      && n.r == B.Advance(c.pp.r, c.pp.Ready(B.Reader))
  {
    hide P.Inv, Abs, Coupled, B.Advance, B.MutexAfter, B.Queue;
    B.HeadIsCopied(c.pp);
    B.GiveBack(c.pp);
  }

  lemma StartCall<T>(c: State<T>)
    requires Inv(c) && Enabled(c, TickStep) && Between(c.pp.r.pc)
    requires c.tick.Release? || c.tick.Available? || (c.tick.ReadBegin? && c.pp.r.pc.Idle?)
    ensures Simulated(c, TickStep)
  {
    hide P.Inv, B.Inv, B.Queue, P.TickNext, P.Enabled;
    B.SameQueue(c.pp, TickNext(c).pp);
  }

  /** The pointer that read_begin has returned is stored. */
  lemma StorePointer<T>(c: State<T>)
    requires Inv(c) && Enabled(c, TickStep) && c.pp.r.pc.Own? && c.tick.ReadBegin?
    ensures Simulated(c, TickStep)
  {
    hide P.Inv, B.Inv, B.Queue;
    B.SameQueue(c.pp, TickNext(c).pp);
    SlotIsHead(c);
  }

  /** Refinement: every step of the composed program is a step of Player or changes nothing that
      Player sees. */
  lemma Refines<T>(c: State<T>, a: Action<T>)
    requires Inv(c) && Enabled(c, a)
    ensures Simulated(c, a)
  {
    hide P.Inv, B.Inv, B.Queue, B.Statement, P.TickNext, Coupled;
    match a
    case Feed(w) => FeedSimulated(c, w);
    case Wake => ReaderAwake(c);
    case CallStop =>
    case MainStep =>
    case TickStart =>
    case TickStep =>
      if !Between(c.pp.r.pc) {
        CallTick(c);
      } else if c.tick.Release? || c.tick.Available? || c.tick.ReadBegin? {
        if c.tick.ReadBegin? && c.pp.r.pc.Own? { StorePointer(c); } else { StartCall(c); }
      } else {
        OwnTick(c);
      }
  }

  // --- Invariant -----------------------------------------------------------------------

  lemma CoupledFeed<T>(c: State<T>, w: B.Action<seq<T>>)
    requires Inv(c) && Enabled(c, Feed(w))
    ensures Coupled(Apply(c, Feed(w)))
  {
    hide P.Inv, B.Inv, B.Apply, B.Enabled, Abs;
    ReaderAwake(c);
    ReaderKept(c, w);
    BlocksKept(c, w);
  }

  lemma BlocksKept<T>(c: State<T>, w: B.Action<seq<T>>)
    requires Shape(c) && Enabled(c, Feed(w)) && |c.pp.buf0| == c.size == |c.pp.buf1|
    ensures var n := B.Apply(c.pp, w); |n.buf0| == c.size == |n.buf1|
  {
    hide B.Advance, B.MutexAfter;
  }

  /** What a statement of the reader does to what couples the two. */
  lemma ReaderMoves<T>(s: B.State<seq<T>>)
    requires B.Shape(s) && B.Enabled(s, B.Go(B.Reader))
    ensures var n := B.Apply(s, B.Go(B.Reader));
      && n.r == B.Advance(s.r, s.Ready(B.Reader))
      && n.copy == (if s.r.pc.BeginUnlock? then None else s.copy)
      && n.buf0 == s.buf0 && n.buf1 == s.buf1
      && (Between(s.w.pc) ==> n.w.pc == s.w.pc)
  {
    hide B.Advance, B.MutexAfter;
  }

  lemma CoupledCall<T>(c: State<T>)
    requires Inv(c) && Enabled(c, TickStep) && !Between(c.pp.r.pc)
    ensures Coupled(TickNext(c))
  {
    hide B.Apply, B.Enabled, B.Locking, B.Ring, B.Contents, P.Control, P.Output, P.Labels;
    ReaderMoves(c.pp);
  }

  lemma CoupledStart<T>(c: State<T>)
    requires Inv(c) && Enabled(c, TickStep) && Between(c.pp.r.pc)
    requires c.tick.Release? || c.tick.Available? || c.tick.ReadBegin?
    ensures Coupled(TickNext(c))
  {
    hide B.Inv, P.Control, P.Output, P.Labels;
  }

  lemma CoupledOwn<T>(c: State<T>)
    requires Inv(c) && Enabled(c, TickStep) && Between(c.pp.r.pc)
    requires !c.tick.Release? && !c.tick.Available? && !c.tick.ReadBegin?
    ensures Coupled(TickNext(c))
  {
    hide B.Inv, P.Output, P.Labels, B.Queue;
  }

  lemma CoupledStep<T>(c: State<T>, a: Action<T>)
    requires Inv(c) && Enabled(c, a)
    ensures Coupled(Apply(c, a))
  {
    hide P.Inv, B.Inv, TickNext;
    match a
    case Feed(w) => CoupledFeed(c, w);
    case Wake =>
    case CallStop =>
    case MainStep =>
    case TickStart =>
    case TickStep =>
      if !Between(c.pp.r.pc) {
        CoupledCall(c);
      } else if c.tick.Release? || c.tick.Available? || c.tick.ReadBegin? {
        CoupledStart(c);
      } else {
        CoupledOwn(c);
      }
  }

  lemma InvStep<T>(c: State<T>, a: Action<T>)
    requires Inv(c) && Enabled(c, a)
    ensures Inv(Apply(c, a))
  {
    hide P.Inv, B.Inv, Coupled, Image, P.Enabled, P.Apply, Abs;
    CoupledStep(c, a);
    Refines(c, a);
    match Image(c, a) {
      case None =>
      case Some(x) => P.InvStep(Abs(c), x);
    }
    BufferStep(c, a);
  }

  /** Every step of the composed program does at most one step of the buffer. */
  lemma BufferStep<T>(c: State<T>, a: Action<T>)
    requires Shape(c) && B.Inv(c.pp) && Enabled(c, a)
    ensures B.Inv(Apply(c, a).pp)
  {
    hide B.Inv, B.Apply, P.Enabled, P.MainNext, P.TickNext;
    match a
    case Feed(w) => B.InvStep(c.pp, w);
    case Wake => B.InvStep(c.pp, B.Spurious(B.Reader));
    case CallStop =>
    case MainStep =>
    case TickStart =>
    case TickStep =>
      if !Between(c.pp.r.pc) {
        B.InvStep(c.pp, B.Go(B.Reader));
      } else if c.tick.Release? {
        B.InvStep(c.pp, B.StartDone(B.Reader));
      } else if c.tick.Available? {
        B.InvStep(c.pp, B.StartAsk(B.Reader));
      } else if c.tick.ReadBegin? {
        if c.pp.r.pc.Idle? { B.InvStep(c.pp, B.StartBegin(B.Reader)); } else { B.InvStep(c.pp, B.Copy); }
      }
  }

  // --- Results -------------------------------------------------------------------------

  predicate Legal<T>(c: State<T>, acts: seq<Action<T>>)
    requires Shape(c)
    decreases |acts|
  {
    acts == [] || (Enabled(c, acts[0]) && Shape(Apply(c, acts[0])) && Legal(Apply(c, acts[0]), acts[1..]))
  }

  /** The state after a run; runs are every interleaving of the two threads. */
  function Run<T>(c: State<T>, acts: seq<Action<T>>): (r: State<T>)
    requires Shape(c) && Legal(c, acts)
    ensures Shape(r)
    decreases |acts|
  {
    if acts == [] then c else Run(Apply(c, acts[0]), acts[1..])
  }

  lemma {:induction false} RunJoin<T>(c: State<T>, p: seq<Action<T>>, q: seq<Action<T>>)
    requires Shape(c) && Legal(c, p) && Legal(Run(c, p), q)
    ensures Legal(c, p + q) && Run(c, p + q) == Run(Run(c, p), q)
    decreases |p|
  {
    hide Apply, Enabled;
    if p == [] {
      assert p + q == q;
    } else {
      assert (p + q)[1..] == p[1..] + q;
      RunJoin(Apply(c, p[0]), p[1..], q);
    }
  }

  lemma {:induction false} InvRun<T>(c: State<T>, acts: seq<Action<T>>)
    requires Inv(c) && Legal(c, acts)
    ensures Inv(Run(c, acts))
    decreases |acts|
  {
    hide Apply, Enabled, P.Inv, B.Inv, Coupled;
    if acts != [] {
      InvStep(c, acts[0]);
      InvRun(Apply(c, acts[0]), acts[1..]);
    }
  }

  /** The blocks that the feeding thread stored, one for each time it gave its slot away. */
  function Stored<T>(c: State<T>, acts: seq<Action<T>>, held: Option<seq<T>>): (r: seq<Option<seq<T>>>)
    requires Shape(c) && Legal(c, acts)
    decreases |acts|
  {
    if acts == [] then [] else
    (if acts[0].Feed? && B.HandsOver(c.pp, acts[0].a) then [held] else []) +
    Stored(Apply(c, acts[0]), acts[1..], if acts[0].Feed? then B.Storing(acts[0].a, held) else held)
  }

  /** The tick stores nothing and hands nothing over. */
  lemma TickHolds<T>(c: State<T>, a: Action<T>, held: Option<seq<T>>)
    requires Shape(c) && Enabled(c, a) && !a.Feed? && B.Holds(c.pp, held)
    ensures Shape(Apply(c, a)) && B.Holds(Apply(c, a).pp, held) && Apply(c, a).pp.handed == c.pp.handed
  {
    hide B.Apply, B.Enabled, B.Holds, P.Enabled, P.MainNext, P.TickNext;
    match a
    case Wake => B.HoldsStep(c.pp, B.Spurious(B.Reader), held);
    case CallStop =>
    case MainStep =>
    case TickStart =>
    case TickStep =>
      if !Between(c.pp.r.pc) {
        B.HoldsStep(c.pp, B.Go(B.Reader), held);
      } else if c.tick.Release? {
        B.HoldsStep(c.pp, B.StartDone(B.Reader), held);
      } else if c.tick.Available? {
        AskEnabled(c);
        B.HoldsStep(c.pp, B.StartAsk(B.Reader), held);
      } else if c.tick.ReadBegin? {
        AskEnabled(c);
        if c.pp.r.pc.Idle? {
          B.HoldsStep(c.pp, B.StartBegin(B.Reader), held);
        } else {
          B.HoldsStep(c.pp, B.Copy, held);
        }
      }
  }

  lemma AskEnabled<T>(c: State<T>)
    requires Shape(c) && Between(c.pp.r.pc)
    ensures B.Enabled(c.pp, B.StartAsk(B.Reader))
    ensures c.pp.r.pc.Idle? ==> B.Enabled(c.pp, B.StartBegin(B.Reader))
    ensures c.pp.r.pc.Own? ==> B.Enabled(c.pp, B.Copy)
  {
  }

  lemma {:induction false} StoredRun<T>(c: State<T>, acts: seq<Action<T>>, held: Option<seq<T>>)
    requires Shape(c) && Legal(c, acts) && B.Holds(c.pp, held)
    ensures c.pp.handed <= Run(c, acts).pp.handed
    ensures B.Matches(Run(c, acts).pp.handed[|c.pp.handed|..], Stored(c, acts, held))
    decreases |acts|
  {
    hide Apply, Enabled, B.Apply, B.Enabled, B.Holds, B.Storing, B.HandsOver;
    if acts != [] {
      var a := acts[0];
      FeedEnabled(c, a);
      if a.Feed? {
        B.HoldsStep(c.pp, a.a, held);
        if B.HandsOver(c.pp, a.a) { B.HeldHandsOver(c.pp, a.a, held); }
        StoredRun(Apply(c, a), acts[1..], B.Storing(a.a, held));
      } else {
        TickHolds(c, a, held);
        StoredRun(Apply(c, a), acts[1..], held);
      }
    }
  }

  lemma FeedEnabled<T>(c: State<T>, a: Action<T>)
    requires Shape(c) && Enabled(c, a)
    ensures a.Feed? ==> B.Enabled(c.pp, a.a) && Apply(c, a).pp == B.Apply(c.pp, a.a)
  {
    hide B.Apply, B.Enabled;
  }

  function Somes<T>(blocks: seq<T>): seq<Option<T>> {
    seq(|blocks|, i requires 0 <= i < |blocks| => Some(blocks[i]))
  }

  /** In every interleaving of the two threads' statements, what has been played is a prefix of
      the blocks handed over, joined in order; and these are the blocks that the feeding thread
      stored. */
  lemma PlaybackIsPrefix<T>(a: seq<T>, b: seq<T>, acts: seq<Action<T>>, blocks: seq<seq<T>>)
    requires |a| == |b| && Legal(Init(a, b), acts)
    ensures var c := Run(Init(a, b), acts); var stored := Stored(Init(a, b), acts, None);
      && c.spun <= P.Join(c.pp.handed) && B.Matches(c.pp.handed, stored)
      && (stored == Somes(blocks) ==> c.spun <= P.Join(blocks))
  {
    hide Apply, Enabled, P.Inv, B.Inv, Coupled, P.Join;
    InvInit(a, b);
    InvRun(Init(a, b), acts);
    var c := Run(Init(a, b), acts);
    P.PlayedIsPrefix(Abs(c));
    StoredRun(Init(a, b), acts, None);
    if Stored(Init(a, b), acts, None) == Somes(blocks) {
      forall k | 0 <= k < |blocks| ensures c.pp.handed[k] == blocks[k] { assert Somes(blocks)[k] == Some(blocks[k]); }
      assert c.pp.handed == blocks;
    }
  }

  /** The tick never sleeps in read_begin; it waits for nothing but a mutex that the feeding
      thread holds, whose next statement is not blocked. */
  lemma TickNeverSleeps<T>(a: seq<T>, b: seq<T>, acts: seq<Action<T>>)
    requires |a| == |b| && Legal(Init(a, b), acts)
    ensures var c := Run(Init(a, b), acts);
      && !c.pp.r.pc.Waiting?
      && (!c.tick.Resting? && !Enabled(c, TickStep) ==>
            (c.pp.mutex == Some(B.Writer) && B.Enabled(c.pp, B.Go(B.Writer))) ||
            (c.mutex == Some(P.MainThread) && Enabled(c, MainStep)))
  {
    hide Apply, Enabled, P.Inv, B.Inv;
    InvInit(a, b);
    InvRun(Init(a, b), acts);
    var c := Run(Init(a, b), acts);
    ReaderAwake(c);
    if !Between(c.pp.r.pc) { InsideMoves(c); } else if !c.tick.Resting? { BetweenMoves(c); }
  }

  lemma InsideMoves<T>(c: State<T>)
    requires Inv(c) && !Between(c.pp.r.pc)
    ensures !Enabled(c, TickStep) ==> c.pp.mutex == Some(B.Writer) && B.Enabled(c.pp, B.Go(B.Writer))
  {
    hide P.Inv, Abs, B.Contents, B.Ring, B.Waits;
    ReaderAwake(c);
    match c.pp.mutex
    case None =>
    case Some(q) =>
      match q {
        case Writer =>
        case Reader =>
      }
  }

  lemma BetweenMoves<T>(c: State<T>)
    requires Inv(c) && Between(c.pp.r.pc) && !c.tick.Resting?
    ensures !Enabled(c, TickStep) ==> c.mutex == Some(P.MainThread) && Enabled(c, MainStep)
  {
    hide B.Inv, P.Output, P.Labels;
    if c.tick.Spin? { HeadSize(c); }
    match c.mutex
    case None =>
    case Some(q) =>
      match q {
        case MainThread =>
        case TickThread =>
      }
  }

  lemma HeadSize<T>(c: State<T>)
    requires Inv(c)
    ensures |c.pp.Buf(c.pp.r.idx)| == c.size
  {
    hide P.Inv, B.Inv;
  }

  /** The player's mode changes as designed, and becomes Stopped only when every block handed over
      has been played in full and given back. */
  lemma ModeChanges<T>(a: seq<T>, b: seq<T>, acts: seq<Action<T>>, x: Action<T>)
    requires |a| == |b| && Legal(Init(a, b), acts) && Enabled(Run(Init(a, b), acts), x)
    ensures var c := Run(Init(a, b), acts); var n := Apply(c, x);
      P.Allowed(c.mode, n.mode) && (n.mode == P.Stopped ==> n.pp.taken == n.pp.handed && n.spun == P.Join(n.pp.handed))
  {
    hide Apply, Enabled, P.Inv, B.Inv, Coupled, Image, P.Enabled, P.Apply;
    InvInit(a, b);
    InvRun(Init(a, b), acts);
    var c := Run(Init(a, b), acts);
    InvStep(c, x);
    Refines(c, x);
    match Image(c, x) {
      case None =>
      case Some(y) => P.ModeStep(Abs(c), y);
    }
    if Apply(c, x).mode == P.Stopped { P.StoppedIsDrained(Abs(Apply(c, x))); }
  }

  /** Between ticks the mode is right: Playing or Stopping with a block in hand, Stalled,
      Stopping or Stopped without one. */
  lemma ModeMeansPlaying<T>(a: seq<T>, b: seq<T>, acts: seq<Action<T>>)
    requires |a| == |b| && Legal(Init(a, b), acts)
    ensures var c := Run(Init(a, b), acts);
      c.tick.Resting? ==> c.mode in if c.buf then {P.Playing, P.Stopping} else {P.Stalled, P.Stopping, P.Stopped}
  {
    hide Apply, Enabled, B.Inv, P.Output, P.Control, P.Holding;
    InvInit(a, b);
    InvRun(Init(a, b), acts);
  }
}
