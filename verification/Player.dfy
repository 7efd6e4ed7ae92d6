/** bitbang_player.c over a queue of two blocks: the timer tick, statement by statement, against
    one thread that hands over blocks and then stops.  Playback runs it on the real buffer. */
module Player {
  import opened Wrappers

  datatype Mode = Stopped | Playing | Stopping | Stalled

  /** The feeding thread; the line comments are those of bitbang_player.c. */
  datatype Main =
    | Feeding      // handing blocks over
    | TestStalled  // 90
    | TestPlaying  // 93
    | StopLock     // 100
    | StopSet      // 101
    | StopUnlock   // 102
    | Returned     // 97 or 103

  datatype Tick =
    | Resting      // between callbacks
    | TestEnd      // 28
    | TestBuf      // 29
    | Release      // 30
    | ClearBuf     // 31
    | StateLock    // 34
    | Available    // 35
    | ReadBegin    // 36
    | ResetPos     // 37
    | Resume       // 39-43
    | Starve       // 46-62
    | StateUnlock  // 64
    | TestPos      // 67
    | Spin         // 68-73
    | StepPos      // 74

  datatype Who = MainThread | TickThread

  /** `buf`: the pointer is set, to the slot of the block at the head of the queue; `queue`: the
      blocks in the ping-pong buffer; `handed`, `released`: every block handed over and given back
      so far; `spun`: every sample passed to the spinner. */
  datatype State<T> = State(
    mode: Mode, mutex: Option<Who>, main: Main, tick: Tick,
    buf: bool, pos: nat, size: nat,
    queue: seq<seq<T>>, handed: seq<seq<T>>, released: seq<seq<T>>, spun: seq<T>)

  datatype Action<T> = Put(block: seq<T>) | CallStop | MainStep | TickStart | TickStep

  /** Blocking: the state mutex, and read_begin on an empty queue. */
  predicate Enabled<T>(s: State<T>, a: Action<T>) {
    match a
    case Put(b) => s.main.Feeding? && |s.queue| < 2 && |b| == s.size
    case CallStop => s.main.Feeding?
    case MainStep => !s.main.Feeding? && !s.main.Returned? && (s.main.StopLock? ==> s.mutex == None)
    case TickStart => s.tick.Resting?
    case TickStep =>
      && !s.tick.Resting?
      && (s.tick.StateLock? ==> s.mutex == None)
      && (s.tick.ReadBegin? ==> s.queue != [])
      && (s.tick.Release? ==> s.queue != [])
      && (s.tick.Spin? ==> s.buf && s.queue != [] && s.pos < |s.queue[0]|)
  }

  function MainNext<T>(s: State<T>): State<T>
    requires Enabled(s, MainStep)
  {
    match s.main
    case TestStalled => s.(main := if s.mode == Stalled then StopLock else TestPlaying)
    case TestPlaying => s.(main := if s.mode == Playing then StopLock else Returned)
    case StopLock => s.(main := StopSet, mutex := Some(MainThread))
    case StopSet => s.(main := StopUnlock, mode := Stopping)
    case StopUnlock => s.(main := Returned, mutex := None)
  }

  function TickNext<T>(s: State<T>): State<T>
    requires Enabled(s, TickStep)
  {
    match s.tick
    case TestEnd => s.(tick := if s.size == s.pos then TestBuf else TestPos)
    case TestBuf => s.(tick := if s.buf then Release else StateLock)
    case Release => s.(tick := ClearBuf, queue := s.queue[1..], released := s.released + [s.queue[0]])
    case ClearBuf => s.(tick := StateLock, buf := false)
    case StateLock => s.(tick := Available, mutex := Some(TickThread))
    case Available => s.(tick := if s.queue != [] then ReadBegin else Starve)
    case ReadBegin => s.(tick := ResetPos, buf := true)
    case ResetPos => s.(tick := Resume, pos := 0)
    case Resume => s.(tick := StateUnlock, mode := if s.mode == Stalled then Playing else s.mode)
    case Starve =>
      s.(tick := StateUnlock, mode := if s.mode == Stopping then Stopped
                                      else if s.mode == Playing then Stalled else s.mode)
    case StateUnlock => s.(tick := TestPos, mutex := None)
    case TestPos => s.(tick := if s.pos < s.size then Spin else Resting)
    case Spin => s.(tick := StepPos, spun := s.spun + [s.queue[0][s.pos]])
    case StepPos => s.(tick := Resting, pos := s.pos + 1)
  }

  function Apply<T>(s: State<T>, a: Action<T>): State<T>
    requires Enabled(s, a)
  {
    match a
    case Put(b) => s.(queue := s.queue + [b], handed := s.handed + [b])
    case CallStop => s.(main := TestStalled)
    case MainStep => MainNext(s)
    case TickStart => s.(tick := TestEnd)
    case TickStep => TickNext(s)
  }

  /** Just after `bitbang_player_play`, no block held from before. */
  ghost predicate Init<T>(s: State<T>) {
    && s.mode == Stalled && s.mutex == None && s.main == Feeding && s.tick == Resting
    && !s.buf && s.pos == s.size
    && |s.queue| <= 2 && (forall b | b in s.queue :: |b| == s.size)
    && s.handed == s.queue && s.released == [] && s.spun == []
  }

  function Join<T>(blocks: seq<seq<T>>): seq<T>
    decreases |blocks|
  {
    if blocks == [] then [] else Join(blocks[..|blocks| - 1]) + blocks[|blocks| - 1]
  }

  // --- Invariant -----------------------------------------------------------------------

  predicate MainHolds(m: Main) { m.StopSet? || m.StopUnlock? }

  predicate TickHolds(t: Tick) {
    t.Available? || t.ReadBegin? || t.ResetPos? || t.Resume? || t.Starve? || t.StateUnlock?
  }

  ghost predicate Control<T>(s: State<T>) {
    && (s.mutex == Some(MainThread) <==> MainHolds(s.main))
    && (s.mutex == Some(TickThread) <==> TickHolds(s.tick))
    // Only the stopping thread says Stopping, after which it hands nothing over.
    && (s.mode == Stopping || s.mode == Stopped ==> s.main.StopUnlock? || s.main.Returned?)
    && (s.tick.ReadBegin? ==> s.queue != [])
    && (s.tick.Starve? && s.mode == Stopping ==> s.queue == [])
    && (s.mode == Stopped ==> s.queue == [] && !s.tick.ReadBegin?)
  }

  /** The block being played is the head of the queue until it is released. */
  ghost predicate Holding<T>(s: State<T>) {
    && s.pos <= s.size
    && (forall b | b in s.queue :: |b| == s.size)
    && (s.buf && !s.tick.ClearBuf? ==> s.queue != [])
    && (!s.buf ==> s.pos == s.size && !s.tick.Release? && !s.tick.ResetPos? && !s.tick.Resume?)
    && (s.tick.TestBuf? || s.tick.Release? || s.tick.ClearBuf? ==> s.pos == s.size)
    && (s.tick.StateLock? || s.tick.Available? || s.tick.ReadBegin? || s.tick.Starve? ==> !s.buf)
    && (s.tick.ResetPos? ==> s.pos == s.size)
    && (s.tick.Resume? ==> s.pos == 0)
    && (s.tick.Spin? || s.tick.StepPos? ==> s.pos < s.size)
    && (s.mode == Stopped ==> !s.buf)
  }

  /** How much of the head block has been passed on. */
  function Played<T>(s: State<T>): nat {
    if !s.buf || s.tick.ClearBuf? || s.tick.ResetPos? then 0
    else if s.tick.StepPos? then s.pos + 1 else s.pos
  }

  ghost predicate Output<T>(s: State<T>) {
    && s.handed == s.released + s.queue
    && (Played(s) > 0 ==> s.queue != [] && Played(s) <= |s.queue[0]|)
    && s.spun == Join(s.released) + (if Played(s) > 0 then s.queue[0][..Played(s)] else [])
  }

  /** The mode says whether a block is being played. */
  ghost predicate Labels<T>(s: State<T>) {
    && (s.buf && !s.tick.ClearBuf? && !s.tick.ResetPos? && !s.tick.Resume? ==> s.mode in {Playing, Stopping})
    && (!s.buf && s.mode == Playing ==>
          s.tick.StateLock? || s.tick.Available? || s.tick.ReadBegin? || s.tick.Starve?)
    && (!s.buf && s.tick.StateUnlock? ==> s.mode in {Stalled, Stopped})
    && (s.main.StopUnlock? ==> s.mode == Stopping)
  }

  ghost predicate Inv<T>(s: State<T>) {
    Control(s) && Holding(s) && Output(s) && Labels(s)
  }

  lemma InvInit<T>(s: State<T>)
    requires Init(s)
    ensures Inv(s)
  {
  }

  /** The ticks that leave the mode and the mutex alone. */
  lemma QuietTick<T>(s: State<T>)
    requires Control(s) && Enabled(s, TickStep)
    requires !TickHolds(s.tick) && !s.tick.StateLock?
    ensures Control(TickNext(s))
  {
  }

  lemma ControlTick<T>(s: State<T>)
    requires Control(s) && Enabled(s, TickStep)
    ensures Control(TickNext(s))
  {
    if !TickHolds(s.tick) && !s.tick.StateLock? {
      hide Control, TickNext;
      QuietTick(s);
    }
  }

  lemma ControlStep<T>(s: State<T>, a: Action<T>)
    requires Inv(s) && Enabled(s, a)
    ensures Control(Apply(s, a))
  {
    hide Output, Holding, TickNext;
    if a.TickStep? { ControlTick(s); }
  }

  lemma HoldingTick<T>(s: State<T>)
    requires Holding(s) && Enabled(s, TickStep) && (s.mode == Stopped ==> s.queue == [])
    ensures Holding(TickNext(s))
  {
    if s.tick.Release? { assert forall b | b in s.queue[1..] :: b in s.queue; }
  }

  lemma HoldingStep<T>(s: State<T>, a: Action<T>)
    requires Inv(s) && Enabled(s, a)
    ensures Holding(Apply(s, a))
  {
    hide Output, TickNext;
    if a.TickStep? { HoldingTick(s); }
  }

  lemma LabelsTick<T>(s: State<T>)
    requires Control(s) && Holding(s) && Labels(s) && Enabled(s, TickStep)
    ensures Labels(TickNext(s))
  {
  }

  lemma LabelsStep<T>(s: State<T>, a: Action<T>)
    requires Inv(s) && Enabled(s, a)
    ensures Labels(Apply(s, a))
  {
    hide Output, TickNext, Holding;
    if a.TickStep? { LabelsTick(s); }
  }

  lemma JoinSnoc<T>(blocks: seq<seq<T>>, b: seq<T>)
    ensures Join(blocks + [b]) == Join(blocks) + b
  {
    assert (blocks + [b])[..|blocks|] == blocks;
  }

  lemma OutputRelease<T>(s: State<T>)
    requires Inv(s) && s.tick.Release?
    ensures Enabled(s, TickStep) && Output(TickNext(s))
  {
    hide Join;
    JoinSnoc(s.released, s.queue[0]);
    assert s.queue[0][..Played(s)] == s.queue[0][..s.size];
    if s.size > 0 {
      assert s.queue[0][..s.size] == s.queue[0];
    } else {
      assert Join(s.released) + s.queue[0] == Join(s.released);
    }
  }

  lemma OutputSpin<T>(s: State<T>)
    requires Inv(s) && s.tick.Spin?
    ensures Enabled(s, TickStep) && Output(TickNext(s))
  {
    hide Join;
    assert s.queue[0][..s.pos + 1] == s.queue[0][..s.pos] + [s.queue[0][s.pos]];
  }

  lemma OutputQuiet<T>(s: State<T>)
    requires Inv(s) && Enabled(s, TickStep) && !s.tick.Release? && !s.tick.Spin?
    ensures Output(TickNext(s))
  {
    hide Join, Played, TickNext, Holding, Control, Labels;
    QuietKeeps(s);
  }

  lemma QuietKeeps<T>(s: State<T>)
    requires Holding(s) && Enabled(s, TickStep) && !s.tick.Release? && !s.tick.Spin?
    ensures var n := TickNext(s);
      && Played(n) == Played(s) && n.queue == s.queue && n.handed == s.handed
      && n.released == s.released && n.spun == s.spun
  {
  }

  lemma OutputStep<T>(s: State<T>, a: Action<T>)
    requires Inv(s) && Enabled(s, a)
    ensures Output(Apply(s, a))
  {
    hide Join, TickNext, Control, Holding;
    if a.TickStep? {
      if s.tick.Release? { OutputRelease(s); } else if s.tick.Spin? { OutputSpin(s); } else { OutputQuiet(s); }
    }
  }

  lemma InvStep<T>(s: State<T>, a: Action<T>)
    requires Inv(s) && Enabled(s, a)
    ensures Inv(Apply(s, a))
  {
    hide Apply, Control, Holding, Output, Labels;
    LabelsStep(s, a);
    ControlStep(s, a);
    HoldingStep(s, a);
    OutputStep(s, a);
  }

  // --- What the invariant says -----------------------------------------------------------

  lemma {:induction false} JoinPrefix<T>(a: seq<seq<T>>, b: seq<seq<T>>)
    ensures Join(a) <= Join(a + b)
    decreases |b|
  {
    if b == [] {
      assert a + b == a;
    } else {
      assert (a + b)[..|a + b| - 1] == a + b[..|b| - 1];
      JoinPrefix(a, b[..|b| - 1]);
    }
  }

  /** What has been played is a prefix of the blocks handed over, joined in order. */
  lemma PlayedIsPrefix<T>(n: State<T>)
    requires Inv(n)
    ensures n.spun <= Join(n.handed)
  {
    hide Join, Control, Holding, Labels;
    if Played(n) > 0 {
      JoinSnoc(n.released, n.queue[0]);
      JoinPrefix(n.released + [n.queue[0]], n.queue[1..]);
      assert n.released + [n.queue[0]] + n.queue[1..] == n.handed;
    } else {
      JoinPrefix(n.released, n.queue);
    }
  }

  /** The mode changes of the design. */
  predicate Allowed(m: Mode, n: Mode) {
    || m == n
    || (m == Stalled && n == Playing) || (m == Playing && n == Stalled)
    || ((m == Playing || m == Stalled) && n == Stopping)
    || (m == Stopping && n == Stopped)
  }

  lemma ModeStep<T>(n: State<T>, a: Action<T>)
    requires Inv(n) && Enabled(n, a)
    ensures Allowed(n.mode, Apply(n, a).mode)
  {
    hide Output, Holding;
  }

  lemma StoppedIsDrained<T>(m: State<T>)
    requires Inv(m) && m.mode == Stopped
    ensures m.released == m.handed && m.spun == Join(m.handed)
  {
    hide Join;
  }
}
