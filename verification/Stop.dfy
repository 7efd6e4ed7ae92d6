/** When `bitbang_player_stop` is known to stop the play, from what its caller can see. */
module Stop {
  import opened Wrappers
  import opened Playback

  /** Every way of going on from a call of `stop` that returns has stopped the play, or will once
      the buffer has drained. */
  ghost predicate StopWorks<T(!new)>(c: State<T>)
    requires Shape(c) && Enabled(c, CallStop)
  {
    forall more :: Legal(Apply(c, CallStop), more) && Run(Apply(c, CallStop), more).main.Returned? ==>
      Run(Apply(c, CallStop), more).mode in {P.Stopping, P.Stopped}
  }

  // --- Stalled with both slots free ----------------------------------------------------

  predicate Idle<T>(n: P.State<T>) {
    match n.main
    case StopUnlock => n.mode in {P.Stopping, P.Stopped}
    case Returned => n.mode in {P.Stopping, P.Stopped}
    case Feeding => false
    case TestPlaying => false
    case _ => n.mode == P.Stalled && n.queue == []
  }

  lemma IdleStep<T>(n: P.State<T>, a: P.Action<T>)
    requires P.Inv(n) && Idle(n) && P.Enabled(n, a)
    ensures Idle(P.Apply(n, a))
  {
    hide P.Output, P.Labels;
  }

  lemma {:induction false} IdleRun<T>(c: State<T>, more: seq<Action<T>>)
    requires Inv(c) && Idle(Abs(c)) && Legal(c, more)
    ensures Idle(Abs(Run(c, more)))
    decreases |more|
  {
    hide Apply, Enabled, P.Inv, B.Inv, Coupled, P.Enabled, P.Apply, Abs, Idle, Image;
    if more != [] {
      InvStep(c, more[0]);
      Refines(c, more[0]);
      match Image(c, more[0]) {
        case None =>
        case Some(x) => IdleStep(Abs(c), x);
      }
      IdleRun(Apply(c, more[0]), more[1..]);
    }
  }

  // --- The tick by itself --------------------------------------------------------------

  /** `stop` has been called and holds nothing. */
  predicate Testing(m: P.Main) { m.TestStalled? || m.TestPlaying? }

  function Next<T>(c: State<T>): Action<T> {
    if c.tick.Resting? then TickStart else TickStep
  }

  /** What the tick still has to play of its block; a block not yet taken counts for one more. */
  function Left<T>(n: P.State<T>): nat {
    if !n.buf || n.tick.ClearBuf? || n.size < n.pos then n.size + 1
    else if n.tick.ResetPos? then n.size else n.size - n.pos
  }

  /** How far the tick is from its next sample or block. */
  function Rank<T>(n: P.State<T>): nat {
    match n.tick
    case ResetPos => 18
    case Resume => 17
    case Starve => if n.mode == P.Playing then 5 else 16
    case StateUnlock => 15
    case TestPos => if n.pos < n.size then 3 else 14
    case Resting => 13
    case TestEnd => 12
    case TestBuf => 11
    case Release => 10
    case ClearBuf => 9
    case StateLock => 8
    case Available => 7
    case ReadBegin => 6
    case Spin => 2
    case StepPos => 1
  }

  /** How far the reader is from the end of its call, or the tick from the start of one. */
  function Rest(pc: B.Pc): nat {
    match pc
    case DoneSignal => 11
    case DoneUnlock => 10
    case DoneFlip => 9
    case AskUnlock(_) => 8
    case Idle => 7
    case AskLock(_) => 6
    case BeginLock => 6
    case AskRead(_) => 5
    case BeginTest => 5
    case BeginUnlock => 4
    case Own => 3
    case DoneLock => 2
    case DoneSet => 1
    case _ => 0
  }

  predicate Nearer<T>(m: P.State<T>, n: P.State<T>) {
    || |m.queue| < |n.queue|
    || (|m.queue| == |n.queue| && (Left(m) < Left(n) || (Left(m) == Left(n) && Rank(m) < Rank(n))))
  }

  /** There is something left to turn the mode: a block in hand, or one in the queue. */
  predicate Lively<T>(n: P.State<T>) {
    Testing(n.main) && (n.mode == P.Playing || (n.mode == P.Stalled && n.queue != []))
  }

  /** The part of the tick from the block it takes to its first sample. */
  predicate TakesBlock(t: P.Tick) {
    t.ReadBegin? || t.ResetPos? || t.Resume? || t.Starve? || t.StateUnlock? || t.TestPos?
  }

  ghost predicate Turned<T>(m: P.State<T>, n: P.State<T>) {
    && m.main == n.main && m.mode in {P.Playing, P.Stalled}
    && (m.mode == n.mode ==> Lively(m) && Nearer(m, n))
  }

  lemma TakingNears<T>(n: P.State<T>)
    requires P.Control(n) && P.Holding(n) && P.Labels(n) && Lively(n) && P.Enabled(n, P.TickStep)
    requires TakesBlock(n.tick)
    ensures Turned(P.TickNext(n), n)
  {
  }

  lemma PlayingNears<T>(n: P.State<T>)
    requires P.Control(n) && P.Holding(n) && P.Labels(n) && Lively(n) && P.Enabled(n, P.TickStep)
    requires !TakesBlock(n.tick)
    ensures Turned(P.TickNext(n), n)
  {
  }

  /** A step of the tick turns Playing into Stalled, Stalled into Playing, or comes nearer. */
  lemma TickNears<T>(n: P.State<T>, a: P.Action<T>)
    requires P.Inv(n) && Lively(n) && P.Enabled(n, a) && (a.TickStart? || a.TickStep?)
    ensures Turned(P.Apply(n, a), n)
  {
    hide P.TickNext, P.Output, P.Control, P.Holding, P.Labels;
    if a.TickStep? {
      hide Turned;
      if TakesBlock(n.tick) { TakingNears(n); } else { PlayingNears(n); }
    }
  }

  lemma TickCanMove<T>(c: State<T>)
    requires Inv(c) && Testing(c.main)
    ensures Enabled(c, Next(c))
  {
    hide P.Output, P.Labels, P.Holding, B.Contents, B.Ring, B.Waits;
    if !Between(c.pp.r.pc) {
      InsideMoves(c);
    } else if !c.tick.Resting? {
      BetweenMoves(c);
    }
  }

  /** A statement of a call that changes nothing in the queue brings the reader nearer its end. */
  lemma CallDrops<T>(s: B.State<seq<T>>)
    requires B.Shape(s) && B.Enabled(s, B.Go(B.Reader)) && !s.r.pc.DoneSet? && !s.r.pc.AskRead? && !s.r.pc.Relock?
    requires s.r.pc.BeginTest? ==> s.Ready(B.Reader)
    ensures Rest(B.Apply(s, B.Go(B.Reader)).r.pc) < Rest(s.r.pc)
  {
    hide B.Apply;
    ReaderMoves(s);
  }

  lemma RestDrops<T>(c: State<T>)
    requires Inv(c) && Enabled(c, TickStep) && Image(c, TickStep) == None && !c.tick.Resting?
    ensures Rest(TickNext(c).pp.r.pc) < Rest(c.pp.r.pc)
  {
    hide P.Inv, B.Contents, B.Ring, B.Locking, Abs, Rest;
    if Between(c.pp.r.pc) {
      StartDrops(c);
    } else {
      hide B.Apply, B.Enabled;
      CallDrops(c.pp);
    }
  }

  lemma StartDrops<T>(c: State<T>)
    requires Shape(c) && Coupled(c) && Enabled(c, TickStep) && Image(c, TickStep) == None
    requires Between(c.pp.r.pc)
    ensures Rest(TickNext(c).pp.r.pc) < Rest(c.pp.r.pc)
  {
    hide P.TickNext, P.Enabled, B.Statement, Local, With;
  }

  lemma Nears<T>(c: State<T>)
    requires Inv(c) && Lively(Abs(c)) && Enabled(c, Next(c))
    ensures var n := Apply(c, Next(c));
      && Inv(n) && n.main == c.main && n.mode in {P.Playing, P.Stalled}
      && (n.mode == c.mode ==> Lively(Abs(n)))
      && (n.mode == c.mode ==> Nearer(Abs(n), Abs(c)) || (Abs(n) == Abs(c) && Rest(n.pp.r.pc) < Rest(c.pp.r.pc)))
  {
    hide P.Inv, B.Inv, Coupled, P.Enabled, P.Apply, TickNext, Lively, Nearer, Rest;
    InvStep(c, Next(c));
    Refines(c, Next(c));
    match Image(c, Next(c))
    case None => RestDrops(c); LivelyMode(Abs(c));
    case Some(x) => TickNears(Abs(c), x);
  }

  lemma LivelyMode<T>(n: P.State<T>)
    requires Lively(n)
    ensures n.mode in {P.Playing, P.Stalled}
  {
  }

  /** While `stop` has not gone on, the tick by itself turns the mode. */
  lemma {:induction false} Turns<T>(c: State<T>) returns (acts: seq<Action<T>>)
    requires Inv(c) && Lively(Abs(c))
    ensures Legal(c, acts) && Inv(Run(c, acts)) && Run(c, acts).main == c.main
    ensures Run(c, acts).mode == if c.mode == P.Playing then P.Stalled else P.Playing
    decreases |B.Queue(c.pp)|, Left(Abs(c)), Rank(Abs(c)), Rest(c.pp.r.pc)
  {
    hide P.Inv, B.Inv, Coupled, Apply, Enabled, Lively, Left, Rank, Rest;
    LivelyTesting(c);
    TickCanMove(c);
    Nears(c);
    var n := Apply(c, Next(c));
    if n.mode == c.mode {
      acts := Turns(n);
      acts := [Next(c)] + acts;
    } else {
      acts := [Next(c)];
    }
  }

  lemma LivelyTesting<T>(c: State<T>)
    requires Shape(c) && Lively(Abs(c))
    ensures Testing(c.main) && c.mode in {P.Playing, P.Stalled}
  {
  }

  // --- Exactly when --------------------------------------------------------------------

  /** From every other state some way of going on makes `stop` miss: the tick has the player
      Playing at the first test and Stalled at the second. */
  lemma Misses<T>(c: State<T>) returns (more: seq<Action<T>>)
    requires Inv(c) && c.main.TestStalled? && Lively(Abs(c))
    ensures Legal(c, more) && Run(c, more).main.Returned? && Run(c, more).mode == P.Stalled
  {
    hide P.Inv, B.Inv, Coupled, Apply, Enabled, Lively, Abs;
    var p, n := [], c;
    if c.mode != P.Playing {
      LivelyTesting(c);
      p := Turns(c);
      n := Run(c, p);
    }
    var n' := FirstTest(n);
    var q := Turns(n');
    var r := [MainStep] + q + [MainStep];
    TestsJoin(n, n', q);
    RunJoin(c, p, r);
    more := p + r;
  }

  lemma FirstTest<T>(c: State<T>) returns (n: State<T>)
    requires Inv(c) && c.main.TestStalled? && c.mode == P.Playing
    ensures Enabled(c, MainStep) && n == Apply(c, MainStep) && Inv(n)
    ensures n.main.TestPlaying? && n.mode == P.Playing && Lively(Abs(n))
  {
    hide P.Inv, B.Inv, Coupled;
    InvStep(c, MainStep);
    n := Apply(c, MainStep);
  }

  lemma TestsJoin<T>(c: State<T>, n: State<T>, q: seq<Action<T>>)
    requires Shape(c) && Enabled(c, MainStep) && n == Apply(c, MainStep) && Shape(n)
    requires Legal(n, q) && Run(n, q).main.TestPlaying? && Run(n, q).mode == P.Stalled
    ensures var r := [MainStep] + q + [MainStep];
            Legal(c, r) && Run(c, r).main.Returned? && Run(c, r).mode == P.Stalled
  {
    hide Apply, Enabled;
    SecondTest(Run(n, q));
    var last: seq<Action<T>> := [MainStep];
    RunJoin(n, q, last);
    var r := [MainStep] + q + last;
    assert r[0] == MainStep && r[1..] == q + last;
  }

  lemma SecondTest<T>(c: State<T>)
    requires Shape(c) && c.main.TestPlaying? && c.mode == P.Stalled
    ensures var last: seq<Action<T>> := [MainStep];
            Legal(c, last) && Run(c, last).main.Returned? && Run(c, last).mode == P.Stalled
  {
    var last: seq<Action<T>> := [MainStep];
    assert last[1..] == [];
  }

  lemma SlotsMeanQueue<T>(c: State<T>)
    requires Inv(c)
    ensures B.Queue(c.pp) == [] <==> !c.pp.active0 && !c.pp.active1
  {
    hide P.Inv, B.Contents, B.Waits, B.Locking;
  }

  /** `stop` called in a reachable state stops the play, whatever follows, exactly when the player
      is STALLED and both slots of the buffer are free. */
  lemma StopExactly<T(!new)>(a: seq<T>, b: seq<T>, acts: seq<Action<T>>)
    requires |a| == |b| && Legal(Init(a, b), acts) && Enabled(Run(Init(a, b), acts), CallStop)
    ensures var c := Run(Init(a, b), acts);
            StopWorks(c) <==> c.mode == P.Stalled && !c.pp.active0 && !c.pp.active1
  {
    hide P.Inv, B.Inv, Coupled, Enabled;
    InvInit(a, b);
    InvRun(Init(a, b), acts);
    var c := Run(Init(a, b), acts);
    var n := Apply(c, CallStop);
    InvStep(c, CallStop);
    SlotsMeanQueue(c);
    CalledFrom(c);
    if Idle(Abs(n)) {
      forall more | Legal(n, more) && Run(n, more).main.Returned?
        ensures Run(n, more).mode in {P.Stopping, P.Stopped}
      {
        IdleRun(n, more);
      }
    } else {
      var more := Misses(n);
      assert Legal(n, more) && Run(n, more).main.Returned?;
    }
  }

  lemma CalledFrom<T>(c: State<T>)
    requires Inv(c) && Enabled(c, CallStop)
    ensures var n := Apply(c, CallStop);
      && n.main.TestStalled? && n.mode == c.mode && Shape(n) && n.pp == c.pp
      && (Idle(Abs(n)) <==> c.mode == P.Stalled && B.Queue(c.pp) == [])
      && (Idle(Abs(n)) || Lively(Abs(n)))
  {
    hide P.Output, P.Labels, P.Holding, B.Inv, Coupled, B.Queue;
  }

  // --- A run in which stop has no effect -------------------------------------------------

  /** Blocks of one sample. */
  function Fresh(): State<int> { Init([7], [7]) }

  ghost predicate Reaches(acts: seq<Action<int>>, c: State<int>) {
    Shape(Fresh()) && Legal(Fresh(), acts) && Run(Fresh(), acts) == c
  }

  lemma Do(acts: seq<Action<int>>, c: State<int>, a: Action<int>) returns (more: seq<Action<int>>, n: State<int>)
    requires Reaches(acts, c) && Shape(c) && Enabled(c, a) && Shape(Apply(c, a))
    ensures n == Apply(c, a) && Reaches(more, n)
  {
    hide Apply, Enabled, Fresh;
    var last: seq<Action<int>> := [a];
    assert last[1..] == [];
    RunJoin(Fresh(), acts, last);
    more, n := acts + last, Apply(c, a);
  }

  /** write_begin on a free slot. */
  lemma Begins(acts: seq<Action<int>>, c: State<int>) returns (acts': seq<Action<int>>, n: State<int>)
    requires Reaches(acts, c) && Shape(c)
    requires c.main.Feeding? && c.pp.w.pc.Idle? && c.pp.mutex == None && c.pp.Ready(B.Writer)
    ensures Reaches(acts', n) && Shape(n)
    ensures n == c.(pp := c.pp.(w := c.pp.w.(pc := B.Own)))
  {
    hide Reaches;
    acts', n := acts, c;
    acts', n := Do(acts', n, Feed(B.StartBegin(B.Writer)));
    acts', n := Do(acts', n, Feed(B.Go(B.Writer)));
    acts', n := Do(acts', n, Feed(B.Go(B.Writer)));
    acts', n := Do(acts', n, Feed(B.Go(B.Writer)));
  }

  /** The writer gives the first slot away. */
  lemma Hands(acts: seq<Action<int>>, c: State<int>) returns (acts': seq<Action<int>>, n: State<int>)
    requires Reaches(acts, c) && Shape(c)
    requires c.main.Feeding? && c.pp.w.pc.Own? && c.pp.w.idx == 0 && c.pp.mutex == None
    ensures Reaches(acts', n) && Shape(n)
    ensures n == c.(pp := c.pp.(mutex := Some(B.Writer), w := c.pp.w.(pc := B.DoneSignal),
                                   active0 := true, handed := c.pp.handed + [c.pp.buf0]))
  {
    hide Reaches;
    acts', n := acts, c;
    acts', n := Do(acts', n, Feed(B.StartDone(B.Writer)));
    acts', n := Do(acts', n, Feed(B.Go(B.Writer)));
    acts', n := Do(acts', n, Feed(B.Go(B.Writer)));
  }

  /** The rest of write_done. */
  lemma Flips(acts: seq<Action<int>>, c: State<int>) returns (acts': seq<Action<int>>, n: State<int>)
    requires Reaches(acts, c) && Shape(c)
    requires c.main.Feeding? && c.pp.w.pc.DoneSignal? && c.pp.w.idx == 0 && c.pp.r.pc.Idle?
    ensures Reaches(acts', n) && Shape(n)
    ensures n == c.(pp := c.pp.(mutex := None, w := B.Thread(B.Idle, 1, false)))
  {
    hide Reaches;
    acts', n := acts, c;
    acts', n := Do(acts', n, Feed(B.Go(B.Writer)));
    acts', n := Do(acts', n, Feed(B.Go(B.Writer)));
    acts', n := Do(acts', n, Feed(B.Go(B.Writer)));
  }

  /** After a first block, [9], has been stored and handed over. */
  function AllHanded(): State<int> {
    Fresh().(pp := B.State(true, false, [9], [7], None, B.Thread(B.Idle, 1, false), B.Thread(B.Idle, 0, false),
                           None, [[9]], []))
  }

  lemma HandFirst() returns (acts: seq<Action<int>>)
    ensures Reaches(acts, AllHanded())
  {
    var c := Fresh();
    acts := [];
    assert Reaches(acts, c);
    hide Reaches;
    acts, c := Begins(acts, c);
    acts, c := Do(acts, c, Feed(B.Fill([9])));
    acts, c := Hands(acts, c);
    acts, c := Flips(acts, c);
    assert c == AllHanded();
  }

  /** A concrete case: with one block handed over and not yet played, `stop` can return without
      stopping the play. */
  lemma StopCanMiss()
    ensures exists acts :: Legal(Fresh(), acts) &&
              Run(Fresh(), acts).main == P.Returned && Run(Fresh(), acts).mode == P.Stalled
  {
    hide P.Inv, B.Inv, Coupled, B.Queue;
    var acts := HandFirst();
    var c := AllHanded();
    InvInit([7], [7]);
    InvRun(Fresh(), acts);
    InvStep(c, CallStop);
    SlotsMeanQueue(c);
    CalledFrom(c);
    var more := Misses(Apply(c, CallStop));
    CalledThen(c, more);
    RunJoin(Fresh(), acts, [CallStop] + more);
  }

  lemma CalledThen(c: State<int>, more: seq<Action<int>>)
    requires Shape(c) && Enabled(c, CallStop) && Shape(Apply(c, CallStop)) && Legal(Apply(c, CallStop), more)
    ensures Legal(c, [CallStop] + more) && Run(c, [CallStop] + more) == Run(Apply(c, CallStop), more)
  {
    hide Apply, Enabled;
    var call: seq<Action<int>> := [CallStop] + more;
    assert call[0] == CallStop && call[1..] == more;
  }
}
