/** ftimer.c, Linux branch: the worker loop, the two-mutex pause handshake and the tick
    semaphore, for one controlling thread and one waiting thread.  A timer read is any positive
    count; waiting threads may wake spuriously; exiting is not modelled. */
module FTimer {
  import opened Wrappers

  /** Where the worker stands; the line comments are those of ftimer.c. */
  datatype Work =
    | LockControl    // 58
    | TestPausing    // 59
    | LockPaused     // 61
    | SetPaused      // 62
    | TellPaused     // 63
    | UnlockPaused   // 64
    | StillPausing   // 66
    | Asleep         // 68, in the wait set of control_cond
    | Woken          // 68, wants control_mutex back
    | RelockPaused   // 70
    | ClearPaused    // 71
    | ReleasePaused  // 72
    | TestExiting    // 75
    | UnlockControl  // 79
    | ReadTimer      // 82
    | TestCount      // 85
    | Callback       // 87, inside the callback
    | LockTicks      // 88
    | AddTick        // 89
    | TellTick       // 90
    | UnlockTicks    // 91
    | TestBreak      // 92

  /** The controlling thread. */
  datatype Control =
    | Free                       // outside
    | PauseLock(wait: bool)      // 123
    | PauseSet(wait: bool)       // 124
    | PauseUnlock(wait: bool)    // 125
    | ConfirmLock                // 130
    | ConfirmTest                // 131
    | ConfirmWait                // 133, in the wait set of paused_cond
    | ConfirmRelock              // 133
    | ConfirmUnlock              // 135
    | UnpauseLock                // 140
    | UnpauseSet                 // 141
    | UnpauseTell                // 142
    | UnpauseUnlock              // 143

  /** The thread in `ftimer_wait`. */
  datatype Wait =
    | Away         // outside
    | WaitLock     // 147
    | WaitTest     // 148
    | WaitSleep    // 149, in the wait set of outstanding_ticks_cond
    | WaitRelock   // 149
    | WaitTake     // 151
    | WaitUnlock   // 152

  datatype Who = Worker | Controller | Waiter

  /** So far: callbacks started, ticks added, waits served, timer reads and their sum. */
  datatype Counts = Counts(calls: nat, produced: nat, consumed: nat, rounds: nat, expired: nat)

  datatype Flags = Flags(hasCallback: bool, compensate: bool)

  /** `left`: iterations of the callback loop still to test; `confirmed`: a waiting pause has
      returned and no unpause has cleared `pausing` since. */
  datatype Timer = Timer(
    flags: Flags, pausing: bool, paused: bool,
    controlMutex: Option<Who>, pausedMutex: Option<Who>, ticksMutex: Option<Who>,
    work: Work, control: Control, wait: Wait,
    left: nat, ticks: int, confirmed: bool, counts: Counts)

  datatype Action = WorkStep(count: nat) | CallPause(wait: bool) | CallUnpause | ControlStep
                  | CallWait | WaitStep | Spurious(who: Who)

  predicate WorkEnabled(t: Timer, count: nat) {
    match t.work
    case LockControl => t.controlMutex == None
    case Woken => t.controlMutex == None
    case LockPaused => t.pausedMutex == None
    case RelockPaused => t.pausedMutex == None
    case LockTicks => t.ticksMutex == None
    case Asleep => false
    case ReadTimer => 0 < count
    case _ => true
  }

  predicate InLoop(w: Work) {
    w.TestCount? || w.Callback? || w.LockTicks? || w.AddTick? || w.TellTick? || w.UnlockTicks? || w.TestBreak?
  }

  function WorkNext(t: Timer, count: nat): Timer
    requires WorkEnabled(t, count)
  {
    if t.work.ReadTimer? || InLoop(t.work) then TickNext(t, count) else GateNext(t)
  }

  /** The part that looks at `pausing`. */
  function GateNext(t: Timer): Timer
    requires WorkEnabled(t, 1) && !t.work.ReadTimer? && !InLoop(t.work)
  {
    match t.work
    case LockControl => t.(work := TestPausing, controlMutex := Some(Worker))
    case TestPausing => t.(work := if t.pausing then LockPaused else TestExiting)
    case LockPaused => t.(work := SetPaused, pausedMutex := Some(Worker))
    case SetPaused => t.(work := TellPaused, paused := true)
    case TellPaused =>
      t.(work := UnlockPaused, control := if t.control == ConfirmWait then ConfirmRelock else t.control)
    case UnlockPaused => t.(work := StillPausing, pausedMutex := None)
    case StillPausing => if t.pausing then t.(work := Asleep, controlMutex := None) else t.(work := RelockPaused)
    case Woken => t.(work := StillPausing, controlMutex := Some(Worker))
    case RelockPaused => t.(work := ClearPaused, pausedMutex := Some(Worker))
    case ClearPaused => t.(work := ReleasePaused, paused := false)
    case ReleasePaused => t.(work := TestExiting, pausedMutex := None)
    case TestExiting => t.(work := UnlockControl)
    case UnlockControl => t.(work := ReadTimer, controlMutex := None)
  }

  /** The part that serves the expirations. */
  function TickNext(t: Timer, count: nat): Timer
    requires WorkEnabled(t, count) && (t.work.ReadTimer? || InLoop(t.work))
  {
    match t.work
    case ReadTimer => t.(work := TestCount, left := count,
                             counts := t.counts.(rounds := t.counts.rounds + 1, expired := t.counts.expired + count))
    case TestCount =>
      if t.left == 0 then t.(work := LockControl)
      else if t.flags.hasCallback then t.(work := Callback, counts := t.counts.(calls := t.counts.calls + 1))
      else t.(work := LockTicks)
    case Callback => t.(work := LockTicks)
    case LockTicks => t.(work := AddTick, ticksMutex := Some(Worker))
    case AddTick => t.(work := TellTick, ticks := t.ticks + 1, counts := t.counts.(produced := t.counts.produced + 1))
    case TellTick => t.(work := UnlockTicks, wait := if t.wait == WaitSleep then WaitRelock else t.wait)
    case UnlockTicks => t.(work := TestBreak, ticksMutex := None)
    case TestBreak =>
      if t.flags.compensate then t.(work := LockControl)
      else t.(work := TestCount, left := if t.left == 0 then 0 else t.left - 1)
  }

  predicate ControlEnabled(t: Timer) {
    match t.control
    case Free => false
    case PauseLock(_) => t.controlMutex == None
    case UnpauseLock => t.controlMutex == None
    case ConfirmLock => t.pausedMutex == None
    case ConfirmRelock => t.pausedMutex == None
    case ConfirmWait => false
    case _ => true
  }

  function ControlNext(t: Timer): Timer
    requires ControlEnabled(t)
  {
    match t.control
    case PauseLock(w) => t.(control := PauseSet(w), controlMutex := Some(Controller))
    case PauseSet(w) => t.(control := PauseUnlock(w), pausing := true)
    case PauseUnlock(w) => t.(control := if w then ConfirmLock else Free, controlMutex := None)
    case ConfirmLock => t.(control := ConfirmTest, pausedMutex := Some(Controller))
    case ConfirmTest =>
      if t.paused then t.(control := ConfirmUnlock) else t.(control := ConfirmWait, pausedMutex := None)
    case ConfirmRelock => t.(control := ConfirmTest, pausedMutex := Some(Controller))
    case ConfirmUnlock => t.(control := Free, pausedMutex := None, confirmed := true)
    case UnpauseLock => t.(control := UnpauseSet, controlMutex := Some(Controller))
    case UnpauseSet => t.(control := UnpauseTell, pausing := false, confirmed := false)
    case UnpauseTell => t.(control := UnpauseUnlock, work := if t.work == Asleep then Woken else t.work)
    case UnpauseUnlock => t.(control := Free, controlMutex := None)
  }

  predicate WaitEnabled(t: Timer) {
    match t.wait
    case Away => false
    case WaitLock => t.ticksMutex == None
    case WaitRelock => t.ticksMutex == None
    case WaitSleep => false
    case _ => true
  }

  function WaitNext(t: Timer): Timer
    requires WaitEnabled(t)
  {
    match t.wait
    case WaitLock => t.(wait := WaitTest, ticksMutex := Some(Waiter))
    case WaitTest => if t.ticks <= 0 then t.(wait := WaitSleep, ticksMutex := None) else t.(wait := WaitTake)
    case WaitRelock => t.(wait := WaitTest, ticksMutex := Some(Waiter))
    case WaitTake =>
      t.(wait := WaitUnlock, ticks := t.ticks - 1, counts := t.counts.(consumed := t.counts.consumed + 1))
    case WaitUnlock => t.(wait := Away, ticksMutex := None)
  }

  predicate Enabled(t: Timer, a: Action) {
    match a
    case WorkStep(n) => WorkEnabled(t, n)
    case CallPause(_) => t.control.Free?
    case CallUnpause => t.control.Free?
    case ControlStep => ControlEnabled(t)
    case CallWait => t.wait.Away?
    case WaitStep => WaitEnabled(t)
    case Spurious(w) =>
      match w
      case Worker => t.work == Asleep
      case Controller => t.control == ConfirmWait
      case Waiter => t.wait == WaitSleep
  }

  function Apply(t: Timer, a: Action): Timer
    requires Enabled(t, a)
  {
    match a
    case WorkStep(n) => WorkNext(t, n)
    case CallPause(w) => t.(control := PauseLock(w))
    case CallUnpause => t.(control := UnpauseLock)
    case ControlStep => ControlNext(t)
    case CallWait => t.(wait := WaitLock)
    case WaitStep => WaitNext(t)
    case Spurious(w) =>
      match w
      case Worker => t.(work := Woken)
      case Controller => t.(control := ConfirmRelock)
      case Waiter => t.(wait := WaitRelock)
  }

  /** After `ftimer_create`, before any other call. */
  function Created(flags: Flags, startPaused: bool): Timer {
    Timer(flags, startPaused, false, None, None, None, LockControl, Free, Away, 0, 0, false,
          Counts(0, 0, 0, 0, 0))
  }

  // --- Invariant -----------------------------------------------------------------------

  predicate WorkHoldsControl(w: Work) {
    w.TestPausing? || w.LockPaused? || w.SetPaused? || w.TellPaused? || w.UnlockPaused? || w.StillPausing? ||
    w.RelockPaused? || w.ClearPaused? || w.ReleasePaused? || w.TestExiting? || w.UnlockControl?
  }

  predicate WorkHoldsPaused(w: Work) {
    w.SetPaused? || w.TellPaused? || w.UnlockPaused? || w.ClearPaused? || w.ReleasePaused?
  }

  predicate WorkHoldsTicks(w: Work) {
    w.AddTick? || w.TellTick? || w.UnlockTicks?
  }

  predicate ControlHoldsControl(c: Control) {
    c.PauseSet? || c.PauseUnlock? || c.UnpauseSet? || c.UnpauseTell? || c.UnpauseUnlock?
  }

  predicate ControlHoldsPaused(c: Control) {
    c.ConfirmTest? || c.ConfirmUnlock?
  }

  predicate WaitHoldsTicks(w: Wait) {
    w.WaitTest? || w.WaitTake? || w.WaitUnlock?
  }

  /** Each mutex is held by exactly the thread inside its critical section. */
  predicate ControlMutex(t: Timer) {
    && (t.controlMutex == Some(Worker) <==> WorkHoldsControl(t.work))
    && (t.controlMutex == Some(Controller) <==> ControlHoldsControl(t.control))
    && t.controlMutex != Some(Waiter)
  }

  predicate PausedMutex(t: Timer) {
    && (t.pausedMutex == Some(Worker) <==> WorkHoldsPaused(t.work))
    && (t.pausedMutex == Some(Controller) <==> ControlHoldsPaused(t.control))
    && t.pausedMutex != Some(Waiter)
  }

  predicate TicksMutex(t: Timer) {
    && (t.ticksMutex == Some(Worker) <==> WorkHoldsTicks(t.work))
    && (t.ticksMutex == Some(Waiter) <==> WaitHoldsTicks(t.wait))
    && t.ticksMutex != Some(Controller)
  }

  /** The pause region: after `paused` is set and before the worker has seen `pausing` cleared. */
  predicate InRegion(w: Work) {
    w.TellPaused? || w.UnlockPaused? || w.StillPausing? || w.Asleep? || w.Woken?
  }

  predicate Leaving(w: Work) {
    w.RelockPaused? || w.ClearPaused?
  }

  predicate Confirming(c: Control) {
    c.PauseUnlock? || c.ConfirmLock? || c.ConfirmTest? || c.ConfirmWait? || c.ConfirmRelock? || c.ConfirmUnlock?
  }

  predicate Handshake(t: Timer) {
    && (t.paused <==> InRegion(t.work) || Leaving(t.work))
    // Leaving needs control_mutex from the test on, and so does a new pause.
    && (Leaving(t.work) || t.work.ReleasePaused? || t.work.TestExiting? || t.work.UnlockControl? ==> !t.pausing)
    && (t.work.LockPaused? || t.work.SetPaused? || t.work.TellPaused? || t.work.UnlockPaused? ==> t.pausing)
    && (Confirming(t.control) ==> t.pausing)
    && (t.control.UnpauseTell? || t.control.UnpauseUnlock? ==> !t.pausing)
    && (t.control.ConfirmUnlock? || t.confirmed ==> t.pausing && t.paused)
    // No lost wake-up.
    && (t.work.Asleep? && !t.pausing ==> t.control.UnpauseTell?)
    && (t.control.ConfirmWait? && t.paused ==> t.work.TellPaused?)
  }

  predicate Semaphore(t: Timer) {
    && t.ticks == t.counts.produced - t.counts.consumed
    && 0 <= t.ticks
    && (t.wait.WaitTake? || t.work.TellTick? ==> 0 < t.ticks)
    && (t.wait.WaitSleep? && 0 < t.ticks ==> t.work.TellTick?)
  }

  /** The pass of the loop that is under way has its tick counted. */
  predicate Counted(w: Work) {
    w.TellTick? || w.UnlockTicks? || w.TestBreak?
  }

  /** Ticks still to be added in the loop under way. */
  function Debt(w: Work, left: nat): int {
    if !InLoop(w) then 0 else if Counted(w) then left - 1 else left
  }

  /** Every expiration owes one tick, or with compensation every read owes one; every tick comes
      after its own callback. */
  predicate Owed(t: Timer) {
    && (InLoop(t.work) && !t.work.TestCount? ==> 0 < t.left)
    && (t.flags.compensate && t.work.TestCount? ==> 0 < t.left)
    && (if t.flags.compensate then t.counts.rounds == t.counts.produced + Debt(t.work, 1)
        else t.counts.expired == t.counts.produced + Debt(t.work, t.left))
  }

  predicate CallsMatch(t: Timer) {
    && t.counts.calls == (if t.flags.hasCallback
                   then t.counts.produced + if t.work.Callback? || t.work.LockTicks? || t.work.AddTick? then 1 else 0
                   else 0)
    && (t.work.Callback? ==> t.flags.hasCallback)
  }

  predicate Ledger(t: Timer) {
    Owed(t) && CallsMatch(t)
  }

  /** The pause handshake and the tick count share nothing but the worker. */
  predicate GateInv(t: Timer) {
    ControlMutex(t) && PausedMutex(t) && Handshake(t)
  }

  predicate TickInv(t: Timer) {
    TicksMutex(t) && Semaphore(t) && Ledger(t)
  }

  predicate Inv(t: Timer) {
    GateInv(t) && TickInv(t)
  }

  lemma InvCreated(flags: Flags, startPaused: bool)
    ensures Inv(Created(flags, startPaused))
  {
  }

  predicate Serving(w: Work) {
    w.ReadTimer? || InLoop(w)
  }

  /** Nothing of the handshake has changed. */
  predicate SameGate(t: Timer, m: Timer) {
    && m.pausing == t.pausing && m.paused == t.paused && m.control == t.control
    && m.controlMutex == t.controlMutex && m.pausedMutex == t.pausedMutex
    && m.confirmed == t.confirmed
    && (m.work == t.work || (Serving(t.work) && (Serving(m.work) || m.work.LockControl?)))
  }

  /** Nothing of the tick count has changed. */
  predicate SameTicks(t: Timer, m: Timer) {
    && m.flags == t.flags && m.left == t.left && m.counts == t.counts
    && m.ticks == t.ticks && m.ticksMutex == t.ticksMutex && m.wait == t.wait
    && (m.work == t.work || (!InLoop(t.work) && !InLoop(m.work)))
  }

  lemma GateKept(t: Timer, m: Timer)
    requires GateInv(t) && SameGate(t, m)
    ensures GateInv(m)
  {
  }

  lemma TicksKept(t: Timer, m: Timer)
    requires TickInv(t) && SameTicks(t, m)
    ensures TickInv(m)
  {
  }

  // Statements of the worker that look at `pausing`.

  lemma GateFrame(t: Timer)
    requires WorkEnabled(t, 1) && !Serving(t.work)
    ensures SameTicks(t, GateNext(t))
  {
  }

  lemma GateControl(t: Timer)
    requires WorkEnabled(t, 1) && !Serving(t.work) && ControlMutex(t)
    ensures ControlMutex(GateNext(t))
  {
  }

  lemma GatePaused(t: Timer)
    requires WorkEnabled(t, 1) && !Serving(t.work) && PausedMutex(t)
    ensures PausedMutex(GateNext(t))
  {
  }

  lemma GateHandshake(t: Timer)
    requires WorkEnabled(t, 1) && !Serving(t.work) && GateInv(t)
    ensures Handshake(GateNext(t))
  {
  }

  // Statements of the worker that serve expirations.

  lemma TickFrame(t: Timer, n: nat)
    requires WorkEnabled(t, n) && Serving(t.work)
    ensures SameGate(t, TickNext(t, n))
  {
  }

  lemma TickMutex(t: Timer, n: nat)
    requires WorkEnabled(t, n) && Serving(t.work) && TicksMutex(t)
    ensures TicksMutex(TickNext(t, n))
  {
  }

  lemma TickSemaphore(t: Timer, n: nat)
    requires WorkEnabled(t, n) && Serving(t.work) && TicksMutex(t) && Semaphore(t)
    ensures Semaphore(TickNext(t, n))
  {
  }

  /** The statements that add no tick and stay within their pass of the loop. */
  lemma DebtKept(t: Timer, n: nat)
    requires WorkEnabled(t, n) && Owed(t)
    requires t.work.Callback? || t.work.LockTicks? || t.work.TellTick? || t.work.UnlockTicks?
    ensures Owed(TickNext(t, n))
  {
  }

  lemma DebtPaid(t: Timer, n: nat)
    requires WorkEnabled(t, n) && Owed(t)
    requires t.work.ReadTimer? || t.work.TestCount? || t.work.AddTick? || t.work.TestBreak?
    ensures Owed(TickNext(t, n))
  {
  }

  lemma TickOwed(t: Timer, n: nat)
    requires WorkEnabled(t, n) && Serving(t.work) && Owed(t)
    ensures Owed(TickNext(t, n))
  {
    hide Owed, TickNext;
    if t.work.ReadTimer? || t.work.TestCount? || t.work.AddTick? || t.work.TestBreak? {
      DebtPaid(t, n);
    } else {
      DebtKept(t, n);
    }
  }

  lemma TickCalls(t: Timer, n: nat)
    requires WorkEnabled(t, n) && Serving(t.work) && CallsMatch(t)
    ensures CallsMatch(TickNext(t, n))
  {
  }

  lemma WorkStepKeeps(t: Timer, n: nat)
    requires Inv(t) && WorkEnabled(t, n)
    ensures Inv(WorkNext(t, n))
  {
    hide GateNext, TickNext, SameGate, SameTicks;
    if Serving(t.work) {
      hide Handshake, ControlMutex, PausedMutex, TicksMutex, Semaphore, Owed, CallsMatch;
      TickFrame(t, n);
      GateKept(t, TickNext(t, n));
      TickMutex(t, n);
      TickSemaphore(t, n);
      TickOwed(t, n);
      TickCalls(t, n);
    } else {
      hide Handshake, ControlMutex, PausedMutex, TicksMutex, Semaphore, Owed, CallsMatch;
      GateFrame(t);
      TicksKept(t, GateNext(t));
      GateControl(t);
      GatePaused(t);
      GateHandshake(t);
    }
  }

  // The controlling thread.

  lemma ControlFrame(t: Timer)
    requires ControlEnabled(t)
    ensures SameTicks(t, ControlNext(t))
  {
  }

  lemma ControlLocks(t: Timer)
    requires ControlEnabled(t) && ControlMutex(t) && PausedMutex(t)
    ensures ControlMutex(ControlNext(t)) && PausedMutex(ControlNext(t))
  {
  }

  lemma ControlHandshake(t: Timer)
    requires ControlEnabled(t) && GateInv(t)
    ensures Handshake(ControlNext(t))
  {
  }

  lemma ControlStepKeeps(t: Timer)
    requires Inv(t) && ControlEnabled(t)
    ensures Inv(ControlNext(t))
  {
    hide ControlNext, ControlEnabled, SameTicks, Handshake, ControlMutex, PausedMutex, TickInv;
    ControlFrame(t);
    TicksKept(t, ControlNext(t));
    ControlLocks(t);
    ControlHandshake(t);
  }

  // The waiting thread.

  lemma WaitFrame(t: Timer)
    requires WaitEnabled(t)
    ensures SameGate(t, WaitNext(t))
  {
  }

  lemma WaitLedger(t: Timer)
    requires WaitEnabled(t)
    ensures Ledger(t) ==> Ledger(WaitNext(t))
  {
    hide InLoop, Counted;
  }

  lemma WaitStepKeeps(t: Timer)
    requires Inv(t) && WaitEnabled(t)
    ensures Inv(WaitNext(t))
  {
    hide SameGate, GateInv, Ledger;
    WaitFrame(t);
    WaitLedger(t);
    GateKept(t, WaitNext(t));
  }

  // Calls and spurious wake-ups.

  lemma OtherGateStep(t: Timer, a: Action)
    requires Inv(t) && Enabled(t, a)
    requires a.CallPause? || a.CallUnpause? || a in {Spurious(Worker), Spurious(Controller)}
    ensures Inv(Apply(t, a))
  {
    hide TickInv;
    TicksKept(t, Apply(t, a));
  }

  lemma OtherTickStep(t: Timer, a: Action)
    requires Inv(t) && Enabled(t, a) && a in {CallWait, Spurious(Waiter)}
    ensures Inv(Apply(t, a))
  {
    hide GateInv;
    GateKept(t, Apply(t, a));
  }

  lemma InvStep(t: Timer, a: Action)
    requires Inv(t) && Enabled(t, a)
    ensures Inv(Apply(t, a))
  {
    hide Inv, WorkNext, WorkEnabled, ControlNext, ControlEnabled, WaitNext, WaitEnabled;
    match a
    case WorkStep(n) => WorkStepKeeps(t, n);
    case ControlStep => ControlStepKeeps(t);
    case WaitStep => WaitStepKeeps(t);
    case CallPause(w) => OtherGateStep(t, a);
    case CallUnpause => OtherGateStep(t, a);
    case CallWait => OtherTickStep(t, a);
    case Spurious(w) =>
      match w {
        case Worker => OtherGateStep(t, a);
        case Controller => OtherGateStep(t, a);
        case Waiter => OtherTickStep(t, a);
      }
  }

  // --- Results -------------------------------------------------------------------------

  predicate Legal(t: Timer, acts: seq<Action>)
    decreases |acts|
  {
    acts == [] || (Enabled(t, acts[0]) && Legal(Apply(t, acts[0]), acts[1..]))
  }

  /** The state after a run; runs are every interleaving of the three threads. */
  function Run(t: Timer, acts: seq<Action>): Timer
    requires Legal(t, acts)
    decreases |acts|
  {
    if acts == [] then t else Run(Apply(t, acts[0]), acts[1..])
  }

  lemma {:induction false} InvRun(t: Timer, acts: seq<Action>)
    requires Inv(t) && Legal(t, acts)
    ensures Inv(Run(t, acts))
    decreases |acts|
  {
    hide Apply, Enabled, Inv;
    if acts != [] {
      InvStep(t, acts[0]);
      InvRun(Apply(t, acts[0]), acts[1..]);
    }
  }

  /** The work done by one step of a run: a callback started, a tick added, a wait served, a timer
      read and the expirations it delivered. */
  function Tally(t: Timer, a: Action): Counts
    requires Enabled(t, a)
  {
    match a
    case WorkStep(n) =>
      Counts(if !t.work.Callback? && WorkNext(t, n).work.Callback? then 1 else 0, if t.work.AddTick? then 1 else 0, 0,
             if t.work.ReadTimer? then 1 else 0, if t.work.ReadTimer? then n else 0)
    case WaitStep => Counts(0, 0, if t.wait.WaitTake? then 1 else 0, 0, 0)
    case _ => Counts(0, 0, 0, 0, 0)
  }

  function Plus(x: Counts, y: Counts): Counts {
    Counts(x.calls + y.calls, x.produced + y.produced, x.consumed + y.consumed, x.rounds + y.rounds,
           x.expired + y.expired)
  }

  /** The work done by a run. */
  function Tallies(t: Timer, acts: seq<Action>): Counts
    requires Legal(t, acts)
    decreases |acts|
  {
    if acts == [] then Counts(0, 0, 0, 0, 0) else Plus(Tally(t, acts[0]), Tallies(Apply(t, acts[0]), acts[1..]))
  }

  lemma GateTally(t: Timer)
    requires WorkEnabled(t, 1) && !Serving(t.work)
    ensures GateNext(t).counts == t.counts && !GateNext(t).work.Callback?
  {
    hide GateNext;
    GateFrame(t);
  }

  lemma TickTally(t: Timer, n: nat)
    requires WorkEnabled(t, n) && Serving(t.work)
    ensures TickNext(t, n).counts == Plus(t.counts, Counts(
      if !t.work.Callback? && TickNext(t, n).work.Callback? then 1 else 0, if t.work.AddTick? then 1 else 0, 0,
      if t.work.ReadTimer? then 1 else 0, if t.work.ReadTimer? then n else 0))
  {
  }

  lemma CountsStep(t: Timer, a: Action)
    requires Enabled(t, a)
    ensures Apply(t, a).counts == Plus(t.counts, Tally(t, a))
  {
    hide GateNext, TickNext, ControlNext;
    if a.WorkStep? {
      if Serving(t.work) { TickTally(t, a.count); } else { GateAny(t, a.count); }
    }
    if a.ControlStep? { ControlFrame(t); }
  }

  lemma GateAny(t: Timer, n: nat)
    requires WorkEnabled(t, n) && !Serving(t.work)
    ensures WorkEnabled(t, 1) && GateNext(t).counts == t.counts && !GateNext(t).work.Callback?
  {
    hide GateNext;
    GateTally(t);
  }

  /** The counters count what the run does. */
  lemma {:induction false} CountsRun(t: Timer, acts: seq<Action>)
    requires Legal(t, acts)
    ensures Run(t, acts).counts == Plus(t.counts, Tallies(t, acts))
    decreases |acts|
  {
    hide Apply, Enabled, Tally;
    if acts != [] {
      CountsStep(t, acts[0]);
      CountsRun(Apply(t, acts[0]), acts[1..]);
    }
  }

  /** The handshake: from the return of a waiting pause until `pausing` is cleared again the
      worker is inside its pause region. */
  lemma PausedMeansPaused(flags: Flags, startPaused: bool, acts: seq<Action>)
    requires Legal(Created(flags, startPaused), acts)
    ensures var t := Run(Created(flags, startPaused), acts);
            t.confirmed ==> t.pausing && InRegion(t.work) && !t.work.Callback?
  {
    hide Apply, Enabled, TickInv, ControlMutex, PausedMutex;
    InvCreated(flags, startPaused);
    InvRun(Created(flags, startPaused), acts);
  }

  /** `pausing` stays set throughout. */
  predicate PausingThroughout(t: Timer, acts: seq<Action>)
    requires Legal(t, acts)
    decreases |acts|
  {
    t.pausing && (acts == [] || PausingThroughout(Apply(t, acts[0]), acts[1..]))
  }

  lemma ConfirmedStep(t: Timer, a: Action)
    requires Inv(t) && t.confirmed && Enabled(t, a) && Apply(t, a).pausing
    ensures Apply(t, a).confirmed && Tally(t, a).calls == 0 && Tally(t, a).produced == 0
  {
    hide TickInv;
  }

  lemma {:induction false} QuietStretch(t: Timer, acts: seq<Action>)
    requires Inv(t) && t.confirmed && Legal(t, acts) && PausingThroughout(t, acts)
    ensures Run(t, acts).confirmed && Inv(Run(t, acts))
    ensures Tallies(t, acts).calls == 0 && Tallies(t, acts).produced == 0
    decreases |acts|
  {
    hide Apply, Enabled, Inv, Tally;
    if acts != [] {
      InvStep(t, acts[0]);
      ConfirmedStep(t, acts[0]);
      QuietStretch(Apply(t, acts[0]), acts[1..]);
    }
  }

  /** A waiting pause that returns has paused the timer: as long after it as `pausing` stays set,
      however the threads interleave, the worker is inside its pause region, no callback starts
      and no tick is added. */
  lemma NoCallbackWhilePaused(flags: Flags, startPaused: bool, before: seq<Action>, acts: seq<Action>)
    requires Legal(Created(flags, startPaused), before)
    requires var t := Run(Created(flags, startPaused), before);
      t.control.ConfirmUnlock? && Legal(ControlNext(t), acts) && PausingThroughout(ControlNext(t), acts)
    ensures var n := ControlNext(Run(Created(flags, startPaused), before));
      InRegion(Run(n, acts).work) && Tallies(n, acts).calls == 0 && Tallies(n, acts).produced == 0
  {
    hide Apply, Enabled, TickInv, Legal, Run, PausingThroughout, Tallies;
    var t := Run(Created(flags, startPaused), before);
    InvCreated(flags, startPaused);
    InvRun(Created(flags, startPaused), before);
    ControlStepKeeps(t);
    QuietStretch(ControlNext(t), acts);
  }

  /** Ticks are conserved, and no wake-up is lost on any of the three condition variables: a
      sleeper whose condition holds has its wake-up still to come. */
  lemma TicksAndWakeUps(flags: Flags, startPaused: bool, acts: seq<Action>)
    requires Legal(Created(flags, startPaused), acts)
    ensures var t := Run(Created(flags, startPaused), acts); var k := Tallies(Created(flags, startPaused), acts);
      && k.consumed <= k.produced && t.ticks == k.produced - k.consumed
      && (t.work.Asleep? && !t.pausing ==> ControlEnabled(t) && ControlNext(t).work.Woken?)
      && (t.control.ConfirmWait? && t.paused ==> WorkEnabled(t, 1) && WorkNext(t, 1).control.ConfirmRelock?)
      && (t.wait.WaitSleep? && 0 < t.ticks ==> WorkEnabled(t, 1) && WorkNext(t, 1).wait.WaitRelock?)
  {
    hide Apply, Enabled, Inv, ControlEnabled, ControlNext, WorkEnabled, WorkNext, Tallies;
    InvCreated(flags, startPaused);
    InvRun(Created(flags, startPaused), acts);
    CountsRun(Created(flags, startPaused), acts);
    WakeUps(Run(Created(flags, startPaused), acts));
  }

  lemma WakeUps(t: Timer)
    requires Inv(t)
    ensures t.counts.consumed <= t.counts.produced && t.ticks == t.counts.produced - t.counts.consumed
    ensures t.work.Asleep? && !t.pausing ==> ControlEnabled(t) && ControlNext(t).work.Woken?
    ensures t.control.ConfirmWait? && t.paused ==> WorkEnabled(t, 1) && WorkNext(t, 1).control.ConfirmRelock?
    ensures t.wait.WaitSleep? && 0 < t.ticks ==> WorkEnabled(t, 1) && WorkNext(t, 1).wait.WaitRelock?
  {
    hide Ledger, ControlMutex, PausedMutex, TicksMutex;
  }

  /** Between two loops over a timer read nothing is owed: one tick was added for every expiration
      that the reads delivered, or with compensation for every read, however the pauses fell, and
      one callback started for every tick. */
  lemma TicksMatchExpirations(flags: Flags, startPaused: bool, acts: seq<Action>)
    requires Legal(Created(flags, startPaused), acts)
    ensures var t := Run(Created(flags, startPaused), acts); var k := Tallies(Created(flags, startPaused), acts);
      && k.produced <= k.expired
      && (!InLoop(t.work) ==> k.produced == (if flags.compensate then k.rounds else k.expired) &&
                              k.calls == if flags.hasCallback then k.produced else 0)
      && (flags.hasCallback ==> k.produced <= k.calls <= k.produced + 1)
  {
    hide Apply, Enabled, Inv, Tallies;
    InvCreated(flags, startPaused);
    InvRun(Created(flags, startPaused), acts);
    CountsRun(Created(flags, startPaused), acts);
    RoundsCount(Created(flags, startPaused), acts);
    Settled(Run(Created(flags, startPaused), acts));
  }

  lemma Settled(t: Timer)
    requires Inv(t) && t.counts.rounds <= t.counts.expired
    ensures t.counts.produced <= t.counts.expired
    ensures !InLoop(t.work) ==> t.counts.produced == if t.flags.compensate then t.counts.rounds else t.counts.expired
    ensures !InLoop(t.work) ==> t.counts.calls == if t.flags.hasCallback then t.counts.produced else 0
    ensures t.flags.hasCallback ==> t.counts.produced <= t.counts.calls <= t.counts.produced + 1
  {
    hide GateInv, TicksMutex, Semaphore;
  }

  /** A read delivers at least one expiration. */
  lemma {:induction false} RoundsCount(t: Timer, acts: seq<Action>)
    requires Legal(t, acts) && t.counts.rounds <= t.counts.expired
    ensures Run(t, acts).counts.rounds <= Run(t, acts).counts.expired && Run(t, acts).flags == t.flags
    decreases |acts|
  {
    hide Apply, Enabled;
    if acts != [] {
      RoundsStep(t, acts[0]);
      RoundsCount(Apply(t, acts[0]), acts[1..]);
    }
  }

  lemma RoundsStep(t: Timer, a: Action)
    requires Enabled(t, a) && t.counts.rounds <= t.counts.expired
    ensures Apply(t, a).counts.rounds <= Apply(t, a).counts.expired && Apply(t, a).flags == t.flags
  {
    hide GateNext, ControlNext, ControlEnabled;
    if a.WorkStep? && !Serving(t.work) { GateFrameAny(t, a.count); }
    if a.ControlStep? { ControlFrame(t); }
  }

  lemma GateFrameAny(t: Timer, n: nat)
    requires WorkEnabled(t, n) && !Serving(t.work)
    ensures WorkEnabled(t, 1) && SameTicks(t, GateNext(t))
  {
    hide GateNext, SameTicks;
    GateFrame(t);
  }

  lemma OwnerCases(m: Option<Who>)
    ensures m == None || m == Some(Worker) || m == Some(Controller) || m == Some(Waiter)
  {
    match m
    case None =>
    case Some(w) =>
      match w {
        case Worker =>
        case Controller =>
        case Waiter =>
      }
  }

  /** The worker waits for a mutex that the controlling thread holds, or for its broadcast. */
  predicate NeedsControl(t: Timer) {
    || ((t.work.LockControl? || t.work.Woken?) && t.controlMutex == Some(Controller))
    || ((t.work.LockPaused? || t.work.RelockPaused?) && t.pausedMutex == Some(Controller))
    || (t.work.Asleep? && t.control.UnpauseTell?)
  }

  /** Who can move when a thread cannot. */
  lemma CanMove(t: Timer)
    requires Inv(t)
    ensures !(t.work.Asleep? && t.pausing) ==>
              || WorkEnabled(t, 1)
              || (NeedsControl(t) && ControlEnabled(t))
              || (t.work.LockTicks? && t.ticksMutex == Some(Waiter) && WaitEnabled(t))
    ensures !t.control.Free? ==>
              || ControlEnabled(t)
              || WorkEnabled(t, 1)
              || (t.work.LockTicks? && t.ticksMutex == Some(Waiter) && WaitEnabled(t))
    ensures !t.wait.Away? && !(t.wait.WaitSleep? && t.ticks == 0) ==>
              || WaitEnabled(t)
              || (WorkHoldsTicks(t.work) && WorkEnabled(t, 1))
  {
    hide Ledger;
    OwnerCases(t.controlMutex);
    OwnerCases(t.pausedMutex);
    OwnerCases(t.ticksMutex);
  }

  /** No deadlock, and nobody is stuck while others move: unless it sleeps because it is paused,
      the worker can take its next statement or the thread that it waits for can; inside a call
      the controlling thread can, or the worker, or the waiting thread when the worker waits for
      its mutex; and the waiting thread can unless it sleeps for want of ticks, or else the worker
      that holds its mutex can.  No spurious wake-up is needed. */
  lemma NoDeadlock(flags: Flags, startPaused: bool, acts: seq<Action>)
    requires Legal(Created(flags, startPaused), acts)
    ensures var t := Run(Created(flags, startPaused), acts);
            var tickMutexFrees := t.work.LockTicks? && t.ticksMutex == Some(Waiter) && WaitEnabled(t);
      && (!(t.work.Asleep? && t.pausing) ==>
            WorkEnabled(t, 1) || (NeedsControl(t) && ControlEnabled(t)) || tickMutexFrees)
      && (!t.control.Free? ==> ControlEnabled(t) || WorkEnabled(t, 1) || tickMutexFrees)
      && (!t.wait.Away? && !(t.wait.WaitSleep? && t.ticks == 0) ==>
            WaitEnabled(t) || (WorkHoldsTicks(t.work) && WorkEnabled(t, 1)))
  {
    hide Apply, Enabled, Inv, NeedsControl, WorkEnabled, ControlEnabled, WaitEnabled;
    InvCreated(flags, startPaused);
    InvRun(Created(flags, startPaused), acts);
    CanMove(Run(Created(flags, startPaused), acts));
  }

  // --- Calls return --------------------------------------------------------------------

  /** Who should move for the control call to go on. */
  function Urge(t: Timer): Action {
    if ControlEnabled(t) then ControlStep else if WorkEnabled(t, 1) then WorkStep(1) else WaitStep
  }

  /** How far the call is from its return. */
  function ControlRank(t: Timer): nat {
    match t.control
    case PauseLock(_) => 12
    case PauseSet(_) => 11
    case PauseUnlock(_) => 10
    case ConfirmLock => 9
    case ConfirmRelock => if t.paused then 5 else 8
    case ConfirmTest => if t.paused then 4 else 7
    case ConfirmWait => 6
    case ConfirmUnlock => 3
    case UnpauseLock => 4
    case UnpauseSet => 3
    case UnpauseTell => 2
    case UnpauseUnlock => 1
    case Free => 0
  }

  /** How far the worker is from its next broadcast on `paused_cond`, or from leaving its critical
      section. */
  function WorkRank(t: Timer): nat {
    match t.work
    case ReadTimer => 23
    case TestCount => 15 + 7 * t.left
    case Callback => 14 + 7 * t.left
    case LockTicks => 13 + 7 * t.left
    case AddTick => 12 + 7 * t.left
    case TellTick => 11 + 7 * t.left
    case UnlockTicks => 10 + 7 * t.left
    case TestBreak => 9 + 7 * t.left
    case LockControl => 14
    case TestPausing => 13
    case LockPaused => 12
    case SetPaused => 11
    case TellPaused => 10
    case UnlockPaused => 9
    case Woken => 8
    case StillPausing => 7
    case RelockPaused => 6
    case ClearPaused => 5
    case ReleasePaused => 4
    case TestExiting => 3
    case UnlockControl => 2
    case Asleep => 0
  }

  /** How long the waiting thread still holds its mutex. */
  function WaitHold(t: Timer): nat {
    match t.wait
    case WaitTest => 3
    case WaitTake => 2
    case WaitUnlock => 1
    case _ => 0
  }

  predicate Closer(m: Timer, t: Timer) {
    || ControlRank(m) < ControlRank(t)
    || (ControlRank(m) == ControlRank(t) && !ControlEnabled(t) &&
        (ControlEnabled(m) || WorkRank(m) < WorkRank(t) || (WorkRank(m) == WorkRank(t) && WaitHold(m) < WaitHold(t))))
  }

  lemma ControlCloser(t: Timer)
    requires Inv(t) && ControlEnabled(t)
    ensures ControlRank(ControlNext(t)) < ControlRank(t)
  {
    hide TickInv, ControlMutex, PausedMutex;
  }

  lemma GateCloser(t: Timer)
    requires Inv(t) && !t.control.Free? && !ControlEnabled(t) && WorkEnabled(t, 1) && !Serving(t.work)
    ensures Closer(GateNext(t), t)
  {
    hide TickInv;
  }

  lemma TickRank(t: Timer)
    requires Owed(t) && WorkEnabled(t, 1) && Serving(t.work)
    ensures WorkRank(TickNext(t, 1)) < WorkRank(t)
  {
  }

  lemma TickCloser(t: Timer)
    requires Inv(t) && !ControlEnabled(t) && WorkEnabled(t, 1) && Serving(t.work)
    ensures Closer(TickNext(t, 1), t)
  {
    hide TickNext, WorkRank, WorkEnabled, GateInv, TicksMutex, Semaphore, CallsMatch;
    TickFrame(t, 1);
    TickRank(t);
  }

  lemma WaitCloser(t: Timer)
    requires t.work.LockTicks? && t.ticksMutex == Some(Waiter) && WaitEnabled(t) && TicksMutex(t) && !ControlEnabled(t)
    ensures Closer(WaitNext(t), t)
  {
  }

  lemma UrgeCloser(t: Timer)
    requires Inv(t) && !t.control.Free?
    ensures Enabled(t, Urge(t)) && Closer(Apply(t, Urge(t)), t)
  {
    hide GateNext, TickNext, ControlNext, WaitNext, ControlEnabled, WorkEnabled, WaitEnabled, ControlRank, WorkRank,
      WaitHold, Handshake, Ledger, Semaphore, TicksMutex;
    CanMove(t);
    if ControlEnabled(t) {
      ControlCloser(t);
    } else if WorkEnabled(t, 1) {
      if Serving(t.work) { TickCloser(t); } else { GateCloser(t); }
    } else {
      WaitCloser(t);
    }
  }

  predicate WaitingPause(c: Control) {
    || c in {PauseLock(true), PauseSet(true), PauseUnlock(true)}
    || c.ConfirmLock? || c.ConfirmTest? || c.ConfirmWait? || c.ConfirmRelock? || c.ConfirmUnlock?
  }

  lemma PauseGoesOn(t: Timer)
    requires WaitingPause(t.control) && Enabled(t, Urge(t))
    ensures var m := Apply(t, Urge(t)); WaitingPause(m.control) || (m.control.Free? && m.confirmed)
  {
  }

  lemma {:induction false} CallEnds(t: Timer) returns (more: seq<Action>)
    requires Inv(t)
    ensures Legal(t, more) && Run(t, more).control.Free?
    ensures t.control.Free? ==> more == []
    ensures WaitingPause(t.control) ==> Run(t, more).confirmed
    ensures forall i | 0 <= i < |more| :: more[i] in {ControlStep, WorkStep(1), WaitStep}
    decreases ControlRank(t), !ControlEnabled(t), WorkRank(t), WaitHold(t)
  {
    hide Inv, Apply, Enabled, ControlEnabled, WorkEnabled, ControlRank, WorkRank, WaitHold;
    if t.control.Free? {
      more := [];
    } else {
      UrgeCloser(t);
      InvStep(t, Urge(t));
      if WaitingPause(t.control) { PauseGoesOn(t); }
      var n := Apply(t, Urge(t));
      more := CallEnds(n);
      more := [Urge(t)] + more;
    }
  }

  /** From every reachable point of a control call the threads can finish it by themselves, in
      finitely many statements and without a spurious wake-up, and a waiting pause ends with the
      worker confirmed in its pause region; the waiting thread need only leave its mutex. */
  lemma CallReturns(flags: Flags, startPaused: bool, acts: seq<Action>) returns (more: seq<Action>)
    requires Legal(Created(flags, startPaused), acts)
    ensures var t := Run(Created(flags, startPaused), acts);
      && Legal(t, more) && Run(t, more).control.Free?
      && (WaitingPause(t.control) ==> Run(t, more).confirmed)
      && forall i | 0 <= i < |more| :: more[i] in {ControlStep, WorkStep(1), WaitStep}
  {
    hide Inv, Apply, Enabled, WaitingPause;
    InvCreated(flags, startPaused);
    InvRun(Created(flags, startPaused), acts);
    more := CallEnds(Run(Created(flags, startPaused), acts));
  }

  // --- A timer that is not paused fires --------------------------------------------------

  /** How far the worker is from starting a callback, when it is not told to pause. */
  function FireRank(t: Timer): nat {
    match t.work
    case Callback => 0
    case TestCount => if 0 < t.left then 1 else 7
    case ReadTimer => 2
    case UnlockControl => 3
    case TestExiting => 4
    case TestPausing => 5
    case LockControl => 6
    case TestBreak => 8
    case UnlockTicks => 9
    case TellTick => 10
    case AddTick => 11
    case LockTicks => 12
    case ReleasePaused => 13
    case ClearPaused => 14
    case RelockPaused => 15
    case StillPausing => 16
    case Woken => 17
    case _ => 18
  }

  /** A timer with a callback, outside control calls and not paused; nobody waits for its ticks. */
  predicate Firing(t: Timer) {
    t.flags.hasCallback && t.control.Free? && !t.pausing && t.wait.Away?
  }

  lemma FiringGate(t: Timer)
    requires GateInv(t) && Firing(t) && WorkEnabled(t, 1) && !Serving(t.work)
    ensures FireRank(GateNext(t)) < FireRank(t) && Firing(GateNext(t))
  {
  }

  lemma FiringTick(t: Timer)
    requires Firing(t) && WorkEnabled(t, 1) && Serving(t.work) && !t.work.Callback?
    ensures FireRank(TickNext(t, 1)) < FireRank(t) && Firing(TickNext(t, 1))
  {
  }

  lemma FiringMoves(t: Timer)
    requires Inv(t) && Firing(t)
    ensures WorkEnabled(t, 1)
  {
    hide Handshake, Semaphore, Ledger, ControlMutex, PausedMutex;
    CanMove(t);
    NotAsleep(t);
  }

  lemma NotAsleep(t: Timer)
    requires Inv(t) && Firing(t)
    ensures !t.work.Asleep? && t.ticksMutex != Some(Waiter) && !ControlEnabled(t)
  {
    hide Semaphore, Ledger, ControlMutex, PausedMutex;
  }

  lemma FiringCloser(t: Timer)
    requires Inv(t) && Firing(t) && !t.work.Callback?
    ensures WorkEnabled(t, 1) && FireRank(WorkNext(t, 1)) < FireRank(t) && Firing(WorkNext(t, 1))
  {
    hide GateNext, TickNext, WorkEnabled, FireRank, Firing, TickInv, ControlMutex, PausedMutex, Handshake;
    FiringMoves(t);
    if Serving(t.work) { FiringTick(t); } else { FiringGate(t); }
  }

  // --- What the calls wait for, and where a paused worker ends -----------------------------

  /** Inside a pause that does not wait, or an unpause, with `control_mutex` not in the way. */
  predicate AtOnce(t: Timer, unpause: bool) {
    match t.control
    case PauseLock(w) => !w && !unpause && t.controlMutex == None
    case PauseSet(w) => !w && !unpause
    case PauseUnlock(w) => !w && !unpause && t.pausing
    case UnpauseLock => unpause && t.controlMutex == None
    case UnpauseSet => unpause
    case UnpauseTell => unpause && !t.pausing
    case UnpauseUnlock => unpause && !t.pausing
    case Free => t.pausing == !unpause
    case _ => false
  }

  lemma AtOnceMoves(t: Timer, unpause: bool)
    requires AtOnce(t, unpause) && !t.control.Free?
    ensures ControlEnabled(t) && AtOnce(ControlNext(t), unpause) && ControlRank(ControlNext(t)) < ControlRank(t)
  {
  }

  lemma {:induction false} EndsAtOnce(t: Timer, unpause: bool) returns (more: seq<Action>)
    requires AtOnce(t, unpause)
    ensures Legal(t, more) && Run(t, more).control.Free? && Run(t, more).pausing == !unpause
    ensures forall k | 0 <= k < |more| :: more[k] == ControlStep
    decreases ControlRank(t)
  {
    hide ControlNext, ControlEnabled, ControlRank, WorkNext, WorkEnabled, WaitNext, WaitEnabled;
    if t.control.Free? {
      more := [];
    } else {
      AtOnceMoves(t, unpause);
      more := EndsAtOnce(ControlNext(t), unpause);
      more := [ControlStep] + more;
    }
  }

  /** A pause that is not told to wait, and an unpause, wait for nothing but `control_mutex`: with
      it free the controlling thread by itself returns, and has told the worker. */
  lemma ReturnsAtOnce(t: Timer, unpause: bool) returns (more: seq<Action>)
    requires t.control.Free? && t.controlMutex == None
    ensures var call := if unpause then CallUnpause else CallPause(false);
      && Enabled(t, call) && Legal(Apply(t, call), more)
      && Run(Apply(t, call), more).control.Free? && Run(Apply(t, call), more).pausing == !unpause
      && forall k | 0 <= k < |more| :: more[k] == ControlStep
  {
    hide ControlNext, ControlEnabled, WorkNext, WorkEnabled, WaitNext, WaitEnabled, Run, Legal;
    more := EndsAtOnce(Apply(t, if unpause then CallUnpause else CallPause(false)), unpause);
  }

  /** A timer told to pause, outside control calls; nobody waits for its ticks. */
  predicate Pausing(t: Timer) { t.control.Free? && t.pausing && t.wait.Away? }

  lemma PausingGate(t: Timer)
    requires GateInv(t) && Pausing(t) && WorkEnabled(t, 1) && !Serving(t.work)
    ensures WorkRank(GateNext(t)) < WorkRank(t) && Pausing(GateNext(t))
  {
  }

  lemma PausingTick(t: Timer)
    requires Owed(t) && Pausing(t) && WorkEnabled(t, 1) && Serving(t.work)
    ensures Pausing(TickNext(t, 1))
  {
  }

  lemma PausingMoves(t: Timer)
    requires Inv(t) && Pausing(t) && !t.work.Asleep?
    ensures WorkEnabled(t, 1)
  {
    hide Semaphore, Ledger, ControlMutex, PausedMutex, Handshake;
    CanMove(t);
  }

  /** A paused worker goes to sleep: by itself, in finitely many statements. */
  lemma {:induction false} PausedSleeps(t: Timer) returns (more: seq<Action>)
    requires Inv(t) && Pausing(t)
    ensures Legal(t, more) && Run(t, more).work.Asleep?
    ensures forall k | 0 <= k < |more| :: more[k] == WorkStep(1)
    decreases WorkRank(t)
  {
    hide GateNext, TickNext, WorkEnabled, WorkRank, Pausing, GateInv, TicksMutex, Semaphore, CallsMatch, Owed,
      ControlNext, ControlEnabled, WaitNext, WaitEnabled;
    if t.work.Asleep? {
      more := [];
    } else {
      PausingMoves(t);
      if Serving(t.work) {
        PausingTick(t);
        TickRank(t);
      } else {
        PausingGate(t);
      }
      WorkStepKeeps(t, 1);
      more := PausedSleeps(WorkNext(t, 1));
      more := [WorkStep(1)] + more;
    }
  }

  // --- A read is served -------------------------------------------------------------------

  lemma ServingStays(t: Timer)
    requires Owed(t) && t.wait.Away? && WorkEnabled(t, 1) && InLoop(t.work)
    ensures var m := TickNext(t, 1);
      && m.wait.Away? && m.flags == t.flags && m.counts.expired == t.counts.expired
      && m.counts.rounds == t.counts.rounds && (InLoop(m.work) || m.work.LockControl?)
  {
  }

  lemma ServingMoves(t: Timer)
    requires Inv(t) && InLoop(t.work) && t.wait.Away?
    ensures WorkEnabled(t, 1)
  {
    hide GateInv, Semaphore, Ledger;
    OwnerCases(t.ticksMutex);
  }

  lemma {:induction false} LoopEnds(t: Timer) returns (more: seq<Action>)
    requires Inv(t) && t.wait.Away? && (InLoop(t.work) || t.work.LockControl?)
    ensures Legal(t, more) && Inv(Run(t, more)) && Run(t, more).work.LockControl?
    ensures Run(t, more).flags == t.flags && Run(t, more).counts.expired == t.counts.expired
    ensures Run(t, more).counts.rounds == t.counts.rounds
    ensures forall k | 0 <= k < |more| :: more[k] == WorkStep(1)
    decreases WorkRank(t)
  {
    hide GateNext, TickNext, WorkEnabled, WorkRank, GateInv, TicksMutex, Semaphore, CallsMatch, Owed,
      ControlNext, ControlEnabled, WaitNext, WaitEnabled;
    if t.work.LockControl? {
      more := [];
    } else {
      ServingMoves(t);
      ServingStays(t);
      TickRank(t);
      WorkStepKeeps(t, 1);
      more := LoopEnds(WorkNext(t, 1));
      more := [WorkStep(1)] + more;
    }
  }

  lemma ReadCounts(t: Timer, n: nat)
    requires t.work.ReadTimer? && 0 < n
    ensures WorkEnabled(t, n)
    ensures var m := WorkNext(t, n);
      && InLoop(m.work) && m.wait == t.wait && m.flags == t.flags
      && m.counts.expired == t.counts.expired + n && m.counts.rounds == t.counts.rounds + 1
  {
  }

  lemma OwedNothing(t: Timer)
    requires Ledger(t) && !InLoop(t.work)
    ensures t.counts.produced == if t.flags.compensate then t.counts.rounds else t.counts.expired
    ensures t.counts.calls == if t.flags.hasCallback then t.counts.produced else 0
  {
  }

  /** A read that delivers n expirations, for any n, is served by the worker by itself with n ticks
      and n callbacks, or one of each with compensation, before it looks at `pausing` again. */
  lemma ReadIsServed(t: Timer, n: nat) returns (more: seq<Action>)
    requires Inv(t) && t.work.ReadTimer? && t.wait.Away? && 0 < n
    ensures Legal(t, [WorkStep(n)] + more) && Run(t, [WorkStep(n)] + more).work.LockControl?
    ensures var k := Tallies(t, [WorkStep(n)] + more);
      k.produced == (if t.flags.compensate then 1 else n) && k.calls == if t.flags.hasCallback then k.produced else 0
    ensures forall k | 0 <= k < |more| :: more[k] == WorkStep(1)
  {
    hide Ledger, GateInv, TicksMutex, Semaphore, Apply, Enabled, WorkNext, WorkEnabled, Tallies, Run, Legal;
    ReadCounts(t, n);
    WorkStepKeeps(t, n);
    StepIsWork(t, n);
    more := LoopEnds(WorkNext(t, n));
    Calls(t, WorkStep(n), more);
    CountsRun(t, [WorkStep(n)] + more);
    OwedNothing(t);
    OwedNothing(Run(WorkNext(t, n), more));
  }

  lemma StepIsWork(t: Timer, n: nat)
    requires WorkEnabled(t, n)
    ensures Enabled(t, WorkStep(n)) && Apply(t, WorkStep(n)) == WorkNext(t, n)
  {
    hide WorkNext, WorkEnabled;
  }

  lemma Calls(t: Timer, call: Action, more: seq<Action>)
    requires Enabled(t, call) && Legal(Apply(t, call), more)
    ensures Legal(t, [call] + more) && Run(t, [call] + more) == Run(Apply(t, call), more)
  {
    hide Apply, Enabled;
    var acts := [call] + more;
    assert acts[0] == call && acts[1..] == more;
  }
}
