/** cpu_spinner.c: one worker per core sleeping on a shared condition variable, and one caller
    that turns cores on and off through a shared 64-bit word. */
module Spinner {
  import opened Wrappers
  import opened Bits

  /** Where a worker stands; the line comments are those of cpu_spinner.c. */
  datatype Work =
    | Lock       // 22
    | TestSig    // 23, first operand
    | TestShut   // 23, second operand
    | GoSleep    // 24, called, mutex still held
    | Asleep     // 24, in the wait set
    | Woken      // 24, wants the mutex back
    | Unlock     // 26
    | SpinSig    // 28, first operand
    | SpinShut   // 28, second operand
    | Body       // 29
    | TestExit   // 32
    | Done       // 34

  datatype Caller =
    | Outside
    | Edges(request: nat)     // 106-117
    | RiseLock(request: nat)  // 120
    | RiseSet(request: nat)   // 121
    | RiseTell(request: nat)  // 122
    | RiseUnlock(request: nat) // 123
    | FallSet(request: nat)   // 126
    | ShutSet(core: nat)      // 39
    | ShutLock(core: nat)     // 41
    | ShutTell(core: nat)     // 42
    | ShutUnlock(core: nat)   // 43
    | Join(core: nat)         // 45
    | Destroyed

  datatype Owner = Core(i: nat) | CallingThread

  /** `request`: the argument of the last `cpu_spinner_spin` that returned. */
  datatype State = State(active: nat, shutdown: seq<bool>, workers: seq<Work>,
                         mutex: Option<Owner>, caller: Caller, request: nat)

  datatype Action = Worker(i: nat) | Spurious(i: nat) | Spin(request: nat) | Destroy | Call

  function N(s: State): nat { |s.workers| }

  predicate Shape(s: State) {
    |s.shutdown| == N(s) &&
    (s.caller.ShutSet? || s.caller.ShutLock? || s.caller.ShutTell? || s.caller.ShutUnlock? || s.caller.Join? ==>
      s.caller.core < N(s))
  }

  /** Some core among the first n is turned on by going from word `was` to word `now`. */
  predicate Rises(was: nat, now: nat, n: nat) {
    exists i :: 0 <= i < n && !Bit(was, i) && Bit(now, i)
  }

  predicate Falls(was: nat, now: nat, n: nat) {
    exists i :: 0 <= i < n && Bit(was, i) && !Bit(now, i)
  }

  /** The edge-detection loop of `cpu_spinner_spin`. */
  method DetectEdges(active: nat, request: nat, numCores: nat) returns (rising: bool, falling: bool)
    ensures rising == Rises(active, request, numCores)
    ensures falling == Falls(active, request, numCores)
    ensures !rising && !falling ==> forall i: nat | i < numCores :: Bit(active, i) == Bit(request, i)
  {
    rising, falling := false, false;
    for i := 0 to numCores
      invariant rising == Rises(active, request, i)
      invariant falling == Falls(active, request, i)
    {
      var was, now := Bit(active, i), Bit(request, i);
      if !was && now { rising := true; } else if was && !now { falling := true; }
    }
  }

  predicate WorkEnabled(s: State, i: nat)
    requires Shape(s)
  {
    i < N(s) && s.workers[i] != Asleep && s.workers[i] != Done &&
    (s.workers[i].Lock? || s.workers[i].Woken? ==> s.mutex == None)
  }

  /** A worker's next place, from what it reads of its bit and its shutdown flag. */
  function Advance(w: Work, bit: bool, shut: bool): Work {
    match w
    case Lock => TestSig
    case TestSig => if bit then Unlock else TestShut
    case TestShut => if shut then Unlock else GoSleep
    case GoSleep => Asleep
    case Woken => TestSig
    case Unlock => SpinSig
    case SpinSig => if bit then SpinShut else TestExit
    case SpinShut => if shut then TestExit else Body
    case Body => SpinSig
    case TestExit => if shut then Done else Lock
    case _ => w
  }

  function WorkNext(s: State, i: nat): (n: State)
    requires Shape(s) && WorkEnabled(s, i)
  {
    var w := s.workers[i];
    s.(workers := s.workers[i := Advance(w, Bit(s.active, i), s.shutdown[i])],
       mutex := if w.Lock? || w.Woken? then Some(Core(i)) else if w.GoSleep? || w.Unlock? then None else s.mutex)
  }

  function WakeAll(ws: seq<Work>): (r: seq<Work>)
    ensures |r| == |ws|
    ensures forall i | 0 <= i < |ws| :: r[i] == if ws[i] == Asleep then Woken else ws[i]
  {
    seq(|ws|, i requires 0 <= i < |ws| => if ws[i] == Asleep then Woken else ws[i])
  }

  predicate CallEnabled(s: State)
    requires Shape(s)
  {
    match s.caller
    case Outside => false
    case Destroyed => false
    case RiseLock(_) => s.mutex == None
    case ShutLock(_) => s.mutex == None
    case Join(i) => s.workers[i] == Done
    case _ => true
  }

  function CallNext(s: State): (n: State)
    requires Shape(s) && CallEnabled(s)
  {
    match s.caller
    case Edges(r) =>
      s.(caller := if Rises(s.active, r, N(s)) then RiseLock(r)
                   else if Falls(s.active, r, N(s)) then FallSet(r) else Outside,
         request := if Rises(s.active, r, N(s)) || Falls(s.active, r, N(s)) then s.request else r)
    case RiseLock(r) => s.(caller := RiseSet(r), mutex := Some(CallingThread))
    case RiseSet(r) => s.(caller := RiseTell(r), active := r)
    case RiseTell(r) => s.(caller := RiseUnlock(r), workers := WakeAll(s.workers))
    case RiseUnlock(r) => s.(caller := Outside, mutex := None, request := r)
    case FallSet(r) => s.(caller := Outside, active := r, request := r)
    case ShutSet(i) => s.(caller := ShutLock(i), shutdown := s.shutdown[i := true])
    case ShutLock(i) => s.(caller := ShutTell(i), mutex := Some(CallingThread))
    case ShutTell(i) => s.(caller := ShutUnlock(i), workers := WakeAll(s.workers))
    case ShutUnlock(i) => s.(caller := Join(i), mutex := None)
    case Join(i) => s.(caller := if i + 1 < N(s) then ShutSet(i + 1) else Destroyed)
  }

  predicate Enabled(s: State, a: Action)
    requires Shape(s)
  {
    match a
    case Worker(i) => WorkEnabled(s, i)
    case Spurious(i) => i < N(s) && s.workers[i] == Asleep
    case Spin(r) => s.caller.Outside?
    case Destroy => s.caller.Outside?
    case Call => CallEnabled(s)
  }

  function Apply(s: State, a: Action): (n: State)
    requires Shape(s) && Enabled(s, a)
  {
    match a
    case Worker(i) => WorkNext(s, i)
    case Spurious(i) => s.(workers := s.workers[i := Woken])
    case Spin(r) => s.(caller := Edges(r))
    case Destroy => s.(caller := if N(s) == 0 then Destroyed else ShutSet(0))
    case Call => CallNext(s)
  }

  function Init(n: nat): State {
    State(0, seq(n, _ => false), seq(n, _ => Lock), None, Outside, 0)
  }

  // --- Invariant -----------------------------------------------------------------------

  predicate WorkHolds(w: Work) { w.TestSig? || w.TestShut? || w.GoSleep? || w.Unlock? }

  predicate CallerHolds(c: Caller) {
    c.RiseSet? || c.RiseTell? || c.RiseUnlock? || c.ShutTell? || c.ShutUnlock?
  }

  predicate Locking(s: State) {
    && (forall i | 0 <= i < N(s) :: s.mutex == Some(Core(i)) <==> WorkHolds(s.workers[i]))
    && (s.mutex == Some(CallingThread) <==> CallerHolds(s.caller))
    && (s.mutex.Some? && s.mutex.value.Core? ==> s.mutex.value.i < N(s))
  }

  /** A worker asleep, or on its way to sleep with the mutex, has its bit clear, except in the
      window between the store of a rising edge and the broadcast; and if its shutdown flag is
      set the broadcast for it is still to come. */
  predicate SafeAsleep(s: State, i: nat)
    requires Shape(s) && i < N(s)
  {
    && (s.workers[i].TestShut? || s.workers[i].GoSleep? ==> !Bit(s.active, i))
    && (s.workers[i].Asleep? && Bit(s.active, i) ==> s.caller.RiseTell?)
    && (s.workers[i].GoSleep? && s.shutdown[i] ==> s.caller == ShutLock(i))
    && (s.workers[i].Asleep? && s.shutdown[i] ==> s.caller == ShutLock(i) || s.caller == ShutTell(i))
  }

  /** A falling-only request sets no bit; outside a call the word agrees with the last request on
      every core; a shutdown flag stays set only on a core that is done or being shut down. */
  predicate Calls(s: State)
    requires Shape(s)
  {
    && (s.caller.FallSet? ==> !Rises(s.active, s.caller.request, N(s)))
    && (s.caller.RiseTell? || s.caller.RiseUnlock? ==> s.active == s.caller.request)
    && (s.caller.Outside? ==> forall i: nat | i < N(s) :: Bit(s.active, i) == Bit(s.request, i))
    && (forall i | 0 <= i < N(s) && s.shutdown[i] :: s.workers[i].Done? || ShutFlagged(s.caller, i))
    && (forall i | 0 <= i < N(s) && ShutFlagged(s.caller, i) :: s.shutdown[i])
  }

  /** Cores are shut down one after the other, and only then. */
  predicate Shutting(s: State)
    requires Shape(s)
  {
    && (forall i | 0 <= i < N(s) && s.workers[i].Done? :: s.shutdown[i])
    && (forall i | 0 <= i < N(s) && s.shutdown[i] :: Destroying(s.caller))
    && (forall i | 0 <= i < N(s) && Destroying(s.caller) && (s.caller.Destroyed? || i < s.caller.core) ::
          s.workers[i].Done?)
  }

  predicate Destroying(c: Caller) {
    c.ShutSet? || c.ShutLock? || c.ShutTell? || c.ShutUnlock? || c.Join? || c.Destroyed?
  }

  predicate ShutFlagged(c: Caller, i: nat) {
    c == ShutLock(i) || c == ShutTell(i) || c == ShutUnlock(i) || c == Join(i)
  }

  predicate Inv(s: State) {
    Shape(s) && Locking(s) && (forall i | 0 <= i < N(s) :: SafeAsleep(s, i)) && Calls(s) && Shutting(s)
  }

  lemma InvInit(n: nat)
    ensures Inv(Init(n))
  {
    hide Bit;
  }

  lemma LockingWork(s: State, i: nat)
    requires Shape(s) && Locking(s) && WorkEnabled(s, i)
    ensures Locking(WorkNext(s, i))
  {
    hide Bit;
  }

  lemma LockingCall(s: State)
    requires Shape(s) && Locking(s) && CallEnabled(s)
    ensures Shape(CallNext(s)) && Locking(CallNext(s))
  {
    hide Bit, Rises, Falls;
  }

  lemma AsleepWork(s: State, i: nat, k: nat)
    requires Inv(s) && WorkEnabled(s, i) && k < N(s)
    ensures SafeAsleep(WorkNext(s, i), k)
  {
    hide Bit, Calls;
    assert SafeAsleep(s, k);
  }

  lemma AsleepCall(s: State, k: nat)
    requires Inv(s) && CallEnabled(s) && k < N(s) && Shape(CallNext(s))
    ensures SafeAsleep(CallNext(s), k)
  {
    hide Bit, Falls;
    assert SafeAsleep(s, k);
    if s.caller.FallSet? { assert !(Bit(s.caller.request, k) && !Bit(s.active, k)); }
  }

  lemma CallsCall(s: State)
    requires Inv(s) && CallEnabled(s) && Shape(CallNext(s))
    ensures Calls(CallNext(s))
  {
    hide Bit;
    if s.caller.Edges? {
      assert !Rises(s.active, s.caller.request, N(s)) && !Falls(s.active, s.caller.request, N(s)) ==>
        forall i: nat | i < N(s) :: Bit(s.active, i) == Bit(s.caller.request, i);
    }
  }

  lemma ShapeStep(s: State, a: Action)
    requires Shape(s) && Enabled(s, a)
    ensures Shape(Apply(s, a))
  {
    hide Bit, Rises, Falls;
  }

  lemma ShuttingStep(s: State, a: Action)
    requires Inv(s) && Enabled(s, a) && Shape(Apply(s, a))
    ensures Shutting(Apply(s, a))
  {
    hide Bit, Rises, Falls, Locking, SafeAsleep;
  }

  lemma InvStep(s: State, a: Action)
    requires Inv(s) && Enabled(s, a)
    ensures Inv(Apply(s, a))
  {
    hide Bit, Rises, Falls, CallNext, CallEnabled, Advance, Shutting;
    ShapeStep(s, a);
    ShuttingStep(s, a);
    match a
    case Worker(i) =>
      LockingWork(s, i);
      forall k | 0 <= k < N(s) ensures SafeAsleep(WorkNext(s, i), k) { AsleepWork(s, i, k); }
      DoneStays(s.workers[i], Bit(s.active, i), s.shutdown[i]);
    case Call =>
      LockingCall(s);
      CallKeepsCores(s);
      forall k | 0 <= k < N(s) ensures SafeAsleep(CallNext(s), k) { AsleepCall(s, k); }
      CallsCall(s);
    case _ =>
      forall k | 0 <= k < N(s) ensures SafeAsleep(Apply(s, a), k) { assert SafeAsleep(s, k); }
  }

  lemma CallKeepsCores(s: State)
    requires Shape(s) && CallEnabled(s)
    ensures N(CallNext(s)) == N(s)
  {
    hide Bit, Rises, Falls;
  }

  lemma DoneStays(w: Work, bit: bool, shut: bool)
    ensures w.Done? ==> Advance(w, bit, shut).Done?
  {
  }

  // --- Results -------------------------------------------------------------------------

  predicate Legal(s: State, acts: seq<Action>)
    requires Shape(s)
    decreases |acts|
  {
    acts == [] || (Enabled(s, acts[0]) && Shape(Apply(s, acts[0])) && Legal(Apply(s, acts[0]), acts[1..]))
  }

  /** The state after a run; runs are every interleaving of the workers and the caller. */
  function Run(s: State, acts: seq<Action>): (r: State)
    requires Shape(s) && Legal(s, acts)
    ensures Shape(r)
    decreases |acts|
  {
    if acts == [] then s else Run(Apply(s, acts[0]), acts[1..])
  }

  lemma {:induction false} InvRun(s: State, acts: seq<Action>)
    requires Inv(s) && Legal(s, acts)
    ensures Inv(Run(s, acts))
    decreases |acts|
  {
    hide Apply, Enabled, Locking, SafeAsleep, Calls;
    if acts != [] {
      InvStep(s, acts[0]);
      InvRun(Apply(s, acts[0]), acts[1..]);
    }
  }

  /** The argument of the last `cpu_spinner_spin`, or the word set up by `cpu_spinner_init`. */
  function LastSpin(acts: seq<Action>): nat
    decreases |acts|
  {
    if acts == [] then 0
    else if acts[|acts| - 1].Spin? then acts[|acts| - 1].request else LastSpin(acts[..|acts| - 1])
  }

  /** The request of the call in progress, or of the last one that returned. */
  function Asked(s: State): nat {
    match s.caller
    case Edges(r) => r
    case RiseLock(r) => r
    case RiseSet(r) => r
    case RiseTell(r) => r
    case RiseUnlock(r) => r
    case FallSet(r) => r
    case _ => s.request
  }

  lemma AskedStep(s: State, a: Action)
    requires Shape(s) && Enabled(s, a)
    ensures Asked(Apply(s, a)) == if a.Spin? then a.request else Asked(s)
  {
    hide Bit, Rises, Falls;
  }

  lemma {:induction false} RunSnoc(s: State, acts: seq<Action>)
    requires Shape(s) && Legal(s, acts) && acts != []
    ensures var (p, last) := (acts[..|acts| - 1], acts[|acts| - 1]);
      Legal(s, p) && Enabled(Run(s, p), last) && Run(s, acts) == Apply(Run(s, p), last)
    decreases |acts|
  {
    hide Apply, Enabled;
    if |acts| > 1 {
      RunSnoc(Apply(s, acts[0]), acts[1..]);
      assert acts[..|acts| - 1][1..] == acts[1..][..|acts| - 2];
    }
  }

  lemma {:induction false} AskedRun(n: nat, acts: seq<Action>)
    requires Legal(Init(n), acts)
    ensures Asked(Run(Init(n), acts)) == LastSpin(acts)
    decreases |acts|
  {
    hide Apply, Enabled;
    if acts != [] {
      RunSnoc(Init(n), acts);
      AskedRun(n, acts[..|acts| - 1]);
      AskedStep(Run(Init(n), acts[..|acts| - 1]), acts[|acts| - 1]);
    }
  }

  /** Whenever no call is in progress the shared word agrees with the last request on every core,
      although requests without an edge do not store it. */
  lemma AgreesOnReturn(n: nat, acts: seq<Action>, i: nat)
    requires Legal(Init(n), acts) && i < N(Run(Init(n), acts))
    ensures var s := Run(Init(n), acts); s.caller.Outside? ==> Bit(s.active, i) == Bit(LastSpin(acts), i)
  {
    hide Apply, Enabled, Locking, SafeAsleep, Bit, LastSpin;
    AskedRun(n, acts);
    InvInit(n);
    InvRun(Init(n), acts);
  }

  /** No lost wake-up: outside the window between the store of a rising edge and its broadcast no
      worker sleeps with its bit set, although falling edges are stored without the mutex; a
      worker whose shutdown flag is set sleeps at most until the broadcast that follows, although
      the flag is set without the mutex; and both broadcasts wake it. */
  lemma NoLostWakeUp(n: nat, acts: seq<Action>, i: nat)
    requires Legal(Init(n), acts) && i < N(Run(Init(n), acts))
    ensures var s := Run(Init(n), acts);
      && (s.workers[i].Asleep? && Bit(s.active, i) ==> s.caller.RiseTell? && CallNext(s).workers[i].Woken?)
      && (s.workers[i].Asleep? && s.shutdown[i] ==> s.caller == ShutLock(i) || s.caller == ShutTell(i))
      && (s.workers[i].Asleep? && s.caller == ShutTell(i) ==> CallNext(s).workers[i].Woken?)
  {
    hide Apply, Enabled, Locking, Bit, Rises, Falls, Calls;
    InvInit(n);
    InvRun(Init(n), acts);
    assert SafeAsleep(Run(Init(n), acts), i);
  }

  /** A call never hangs, the join of a worker included: the caller can take its next statement,
      or the worker that holds the mutex can, or the worker being joined can; without a spurious
      wake-up. */
  lemma CallProceeds(n: nat, acts: seq<Action>)
    requires Legal(Init(n), acts)
    ensures var s := Run(Init(n), acts);
      !s.caller.Outside? && !s.caller.Destroyed? ==>
        || CallEnabled(s)
        || (s.mutex.Some? && s.mutex.value.Core? && WorkEnabled(s, s.mutex.value.i))
        || (s.caller.Join? && WorkEnabled(s, s.caller.core))
  {
    hide Apply, Enabled, Bit, Rises, Falls;
    InvInit(n);
    InvRun(Init(n), acts);
    var s := Run(Init(n), acts);
    if s.caller.Join? && s.mutex == None {
      assert SafeAsleep(s, s.caller.core);
      if !CallEnabled(s) { assert WorkEnabled(s, s.caller.core); }
    }
    match s.mutex
    case None =>
    case Some(Core(k)) => assert WorkEnabled(s, k);
    case Some(CallingThread) =>
  }

  /** Throughout the run core i has its bit clear or has been told to shut down. */
  predicate OffThroughout(s: State, acts: seq<Action>, i: nat)
    requires Shape(s) && Legal(s, acts)
    decreases |acts|
  {
    && i < N(s) && (!Bit(s.active, i) || s.shutdown[i])
    && (acts == [] || OffThroughout(Apply(s, acts[0]), acts[1..], i))
  }

  /** The kernel rounds that worker i completes in a run. */
  function Bodies(s: State, acts: seq<Action>, i: nat): nat
    requires Shape(s) && Legal(s, acts)
    decreases |acts|
  {
    if acts == [] then 0 else
    (if acts[0] == Worker(i) && i < N(s) && s.workers[i].Body? then 1 else 0) + Bodies(Apply(s, acts[0]), acts[1..], i)
  }

  /** Worker i has already passed the tests before its next round. */
  predicate Committed(s: State, i: nat)
    requires Shape(s) && i < N(s)
  {
    s.workers[i].Body? || (s.workers[i].SpinShut? && !s.shutdown[i])
  }

  /** A core that is turned off or shut down completes at most the round it has begun, however
      long it stays so. */
  lemma {:induction false} OffCoreIdles(s: State, acts: seq<Action>, i: nat)
    requires Shape(s) && Legal(s, acts) && OffThroughout(s, acts, i)
    ensures Bodies(s, acts, i) <= if Committed(s, i) then 1 else 0
    decreases |acts|
  {
    hide Apply, Enabled, Bit, Committed;
    if acts != [] {
      OffStep(s, acts[0], i);
      OffCoreIdles(Apply(s, acts[0]), acts[1..], i);
    }
  }

  lemma OffStep(s: State, a: Action, i: nat)
    requires Shape(s) && Enabled(s, a) && i < N(s) && (!Bit(s.active, i) || s.shutdown[i])
    requires Shape(Apply(s, a)) && i < N(Apply(s, a))
    ensures Committed(Apply(s, a), i) ==> Committed(s, i) && !(a == Worker(i) && s.workers[i].Body?)
    ensures a == Worker(i) && s.workers[i].Body? ==> Committed(s, i)
  {
    hide Bit, Rises, Falls;
  }

  // --- Cores run, and calls return -----------------------------------------------------

  /** How far a worker is from its next kernel round, with its bit set. */
  function RunRank(w: Work): nat {
    match w
    case Body => 0
    case SpinShut => 1
    case SpinSig => 2
    case Unlock => 3
    case TestSig => 4
    case Lock => 5
    case Woken => 5
    case TestExit => 6
    case _ => 7
  }

  /** How far a worker is from its end, told to shut down. */
  function ExitRank(w: Work): nat {
    match w
    case Done => 0
    case TestExit => 1
    case SpinShut => 2
    case SpinSig => 3
    case Body => 4
    case Unlock => 4
    case TestShut => 5
    case TestSig => 6
    case Lock => 7
    case Woken => 7
    case _ => 8
  }

  /** How long a worker still holds the mutex. */
  function HoldRank(s: State): nat {
    if s.mutex.Some? && s.mutex.value.Core? && s.mutex.value.i < N(s) then
      (match s.workers[s.mutex.value.i]
       case TestSig => 3
       case TestShut => 2
       case _ => 1)
    else 0
  }

  /** The worker that holds the mutex comes nearer to its release, and nobody else moves. */
  lemma HolderMoves(s: State, k: nat)
    requires Inv(s) && s.mutex == Some(Core(k)) && k < N(s)
    ensures WorkEnabled(s, k) && Inv(WorkNext(s, k))
    ensures HoldRank(WorkNext(s, k)) < HoldRank(s)
    ensures WorkNext(s, k).active == s.active && WorkNext(s, k).caller == s.caller
    ensures WorkNext(s, k).shutdown == s.shutdown && N(WorkNext(s, k)) == N(s)
    ensures forall i | 0 <= i < N(s) && i != k :: WorkNext(s, k).workers[i] == s.workers[i]
  {
    hide Bit, Calls, SafeAsleep, Shutting;
    InvStep(s, Worker(k));
  }

  lemma HolderIsCore(s: State)
    requires Inv(s) && s.mutex.Some? && !CallerHolds(s.caller)
    ensures s.mutex.value.Core? && s.mutex.value.i < N(s)
  {
    match s.mutex
    case Some(Core(k)) =>
    case Some(CallingThread) =>
  }

  /** A core that is on. */
  predicate On(s: State, i: nat)
    requires Shape(s)
  {
    i < N(s) && Bit(s.active, i) && s.caller.Outside?
  }

  lemma OnMoves(s: State, i: nat)
    requires Inv(s) && On(s, i) && !s.workers[i].Body? && WorkEnabled(s, i)
    ensures RunRank(WorkNext(s, i).workers[i]) < RunRank(s.workers[i])
    ensures WorkNext(s, i).active == s.active && WorkNext(s, i).caller == s.caller && N(WorkNext(s, i)) == N(s)
  {
    hide Bit, Locking, Calls;
    assert SafeAsleep(s, i);
  }

  lemma OnAwake(s: State, i: nat)
    requires Inv(s) && On(s, i)
    ensures WorkEnabled(s, i) || ((s.workers[i].Lock? || s.workers[i].Woken?) && s.mutex.Some?)
  {
    hide Bit, Locking, Calls;
    assert SafeAsleep(s, i);
  }

  lemma {:induction false} RunsOn(s: State, i: nat) returns (more: seq<Action>)
    requires Inv(s) && On(s, i)
    ensures Legal(s, more) && i < N(Run(s, more)) && Run(s, more).workers[i].Body?
    ensures forall k | 0 <= k < |more| :: more[k].Worker?
    decreases RunRank(s.workers[i]), HoldRank(s)
  {
    hide Inv, Bit, WorkNext, WorkEnabled, RunRank, HoldRank, CallerHolds;
    InvShape(s);
    if s.workers[i].Body? {
      more := [];
    } else {
      OnAwake(s, i);
      var k := i;
      if WorkEnabled(s, i) {
        OnMoves(s, i);
        InvStep(s, Worker(i));
      } else {
        OutsideHolds(s);
        HolderIsCore(s);
        k := s.mutex.value.i;
        HolderMoves(s, k);
        HolderElsewhere(s, i, k);
      }
      InvShape(WorkNext(s, k));
      more := RunsOn(WorkNext(s, k), i);
      more := [Worker(k)] + more;
    }
  }

  lemma OutsideHolds(s: State)
    requires s.caller.Outside? || s.caller.RiseLock? || s.caller.ShutLock? || s.caller.Join?
    ensures !CallerHolds(s.caller)
  {
  }

  lemma HolderElsewhere(s: State, i: nat, k: nat)
    requires Inv(s) && i < N(s) && s.mutex == Some(Core(k)) && !WorkEnabled(s, i) && k < N(s)
    ensures i != k
  {
    hide Bit, Calls, SafeAsleep, Shutting;
  }

  lemma InvShape(s: State)
    requires Inv(s)
    ensures Shape(s)
  {
  }

  /** A core turned on runs: from every reachable state outside a call, the workers by themselves
      bring a core that the last request turned on to its kernel in finitely many statements. */
  lemma KernelRuns(n: nat, acts: seq<Action>, i: nat) returns (more: seq<Action>)
    requires Legal(Init(n), acts) && i < N(Run(Init(n), acts))
    requires Run(Init(n), acts).caller.Outside? && Bit(LastSpin(acts), i)
    ensures var s := Run(Init(n), acts);
      && Legal(s, more) && i < N(Run(s, more)) && Run(s, more).workers[i].Body?
      && forall k | 0 <= k < |more| :: more[k].Worker?
  {
    hide Inv, Bit, Apply, Enabled, LastSpin;
    InvInit(n);
    InvRun(Init(n), acts);
    AgreesOnReturn(n, acts, i);
    more := RunsOn(Run(Init(n), acts), i);
  }

  /** The cores still to shut down. */
  function CoresLeft(s: State): nat
    requires Shape(s)
  {
    if Destroying(s.caller) && !s.caller.Destroyed? then N(s) - s.caller.core else 0
  }

  /** How far the caller is from its return, or from its next core. */
  function CallRank(c: Caller): nat {
    match c
    case Edges(_) => 6
    case RiseLock(_) => 5
    case RiseSet(_) => 4
    case RiseTell(_) => 3
    case RiseUnlock(_) => 2
    case FallSet(_) => 1
    case ShutSet(_) => 5
    case ShutLock(_) => 4
    case ShutTell(_) => 3
    case ShutUnlock(_) => 2
    case Join(_) => 1
    case Outside => 0
    case Destroyed => 0
  }

  /** How far the worker being joined is from its end. */
  function JoinRank(s: State): nat
    requires Shape(s)
  {
    if s.caller.Join? then ExitRank(s.workers[s.caller.core]) else 0
  }

  lemma CallMoves(s: State)
    requires Inv(s) && CallEnabled(s)
    ensures Shape(CallNext(s))
    ensures CoresLeft(CallNext(s)) < CoresLeft(s) ||
            (CoresLeft(CallNext(s)) == CoresLeft(s) && CallRank(CallNext(s).caller) < CallRank(s.caller))
    ensures Destroying(CallNext(s).caller) == Destroying(s.caller)
  {
    hide Bit, Rises, Falls, Locking, SafeAsleep, Calls, Shutting;
    LockedShape(s);
  }

  lemma LockedShape(s: State)
    requires Inv(s) && CallEnabled(s)
    ensures Shape(CallNext(s)) && N(CallNext(s)) == N(s)
  {
    hide Bit, Rises, Falls, Locking, SafeAsleep, Calls, Shutting;
  }

  lemma JoinedMoves(s: State)
    requires Inv(s) && s.caller.Join? && WorkEnabled(s, s.caller.core)
    ensures var n := WorkNext(s, s.caller.core); n.caller == s.caller && N(n) == N(s) && JoinRank(n) < JoinRank(s)
  {
    hide Bit, Locking, Shutting;
    assert SafeAsleep(s, s.caller.core);
  }

  lemma JoinedAwake(s: State)
    requires Inv(s) && s.caller.Join? && !CallEnabled(s)
    ensures WorkEnabled(s, s.caller.core) || s.mutex.Some?
  {
    hide Bit, Locking, Calls, Shutting;
    assert SafeAsleep(s, s.caller.core);
    JoinedFlagged(s);
  }

  lemma JoinedFlagged(s: State)
    requires Inv(s) && s.caller.Join?
    ensures s.shutdown[s.caller.core]
  {
    hide Bit, Locking, Shutting, SafeAsleep;
  }

  /** A blocked caller waits for a worker that can move. */
  lemma Blocked(s: State) returns (k: nat)
    requires Inv(s) && !s.caller.Outside? && !s.caller.Destroyed? && !CallEnabled(s)
    ensures WorkEnabled(s, k) && Inv(WorkNext(s, k)) && WorkNext(s, k).caller == s.caller && N(WorkNext(s, k)) == N(s)
    ensures JoinRank(WorkNext(s, k)) < JoinRank(s) ||
            (JoinRank(WorkNext(s, k)) == JoinRank(s) && HoldRank(WorkNext(s, k)) < HoldRank(s))
  {
    hide Inv, Bit, WorkNext, HoldRank, ExitRank, CallerHolds;
    InvShape(s);
    if s.caller.Join? && WorkEnabled(s, s.caller.core) {
      k := s.caller.core;
      InvStep(s, Worker(k));
      JoinedMoves(s);
    } else {
      if s.caller.Join? { JoinedAwake(s); }
      OutsideHolds(s);
      HolderIsCore(s);
      k := s.mutex.value.i;
      HolderMoves(s, k);
      if s.caller.Join? { HolderElsewhere(s, s.caller.core, k); }
    }
  }

  lemma {:induction false} CallEnds(s: State) returns (more: seq<Action>)
    requires Inv(s)
    ensures Legal(s, more)
    ensures if Destroying(s.caller) then Run(s, more).caller.Destroyed? else Run(s, more).caller.Outside?
    ensures forall k | 0 <= k < |more| :: more[k].Worker? || more[k].Call?
    decreases CoresLeft(s), CallRank(s.caller), JoinRank(s), HoldRank(s)
  {
    hide Inv, Bit, WorkNext, WorkEnabled, CallNext, CallEnabled, JoinRank, HoldRank;
    InvShape(s);
    if s.caller.Outside? || s.caller.Destroyed? {
      more := [];
    } else if CallEnabled(s) {
      CallMoves(s);
      InvStep(s, Call);
      more := CallEnds(CallNext(s));
      more := [Call] + more;
    } else {
      var k := Blocked(s);
      InvShape(WorkNext(s, k));
      more := CallEnds(WorkNext(s, k));
      more := [Worker(k)] + more;
    }
  }

  lemma AllDone(s: State)
    requires Inv(s) && s.caller.Destroyed?
    ensures forall i | 0 <= i < N(s) :: s.workers[i].Done?
  {
    hide Bit, Locking, Calls, SafeAsleep;
  }

  /** From every reachable point of a call the caller and the workers can finish it by themselves
      in finitely many statements, and after a destroy every worker has ended. */
  lemma CallReturns(n: nat, acts: seq<Action>) returns (more: seq<Action>)
    requires Legal(Init(n), acts)
    ensures var s := Run(Init(n), acts);
      && Legal(s, more)
      && (if Destroying(s.caller) then Run(s, more).caller.Destroyed? else Run(s, more).caller.Outside?)
      && (forall i | 0 <= i < N(Run(s, more)) && Destroying(s.caller) :: Run(s, more).workers[i].Done?)
      && forall k | 0 <= k < |more| :: more[k].Worker? || more[k].Call?
  {
    hide Inv, Bit, Apply, Enabled;
    InvInit(n);
    InvRun(Init(n), acts);
    var s := Run(Init(n), acts);
    more := CallEnds(s);
    InvRun(s, more);
    if Destroying(s.caller) { AllDone(Run(s, more)); }
  }

  // --- Idle cores sleep ------------------------------------------------------------------

  /** How far a worker is from its sleep, with its bit clear. */
  function SleepRank(w: Work): nat {
    match w
    case Asleep => 0
    case GoSleep => 1
    case TestShut => 2
    case TestSig => 3
    case Lock => 4
    case Woken => 4
    case TestExit => 5
    case SpinSig => 6
    case Unlock => 7
    case Body => 7
    case SpinShut => 8
    case Done => 9
  }

  /** A core that is off. */
  predicate Off(s: State, i: nat)
    requires Shape(s)
  {
    i < N(s) && !Bit(s.active, i) && s.caller.Outside?
  }

  lemma OffMoves(s: State, i: nat)
    requires Inv(s) && Off(s, i) && WorkEnabled(s, i)
    ensures SleepRank(WorkNext(s, i).workers[i]) < SleepRank(s.workers[i])
    ensures WorkNext(s, i).active == s.active && WorkNext(s, i).caller == s.caller && N(WorkNext(s, i)) == N(s)
  {
    hide Bit, Locking, Calls;
  }

  lemma OffBlocked(s: State, i: nat)
    requires Inv(s) && Off(s, i) && !s.workers[i].Asleep?
    ensures WorkEnabled(s, i) || s.mutex.Some?
  {
    hide Bit, Locking, Calls;
  }

  lemma {:induction false} SleepsOff(s: State, i: nat) returns (more: seq<Action>)
    requires Inv(s) && Off(s, i)
    ensures Legal(s, more) && i < N(Run(s, more)) && Run(s, more).workers[i].Asleep?
    ensures forall k | 0 <= k < |more| :: more[k].Worker?
    decreases SleepRank(s.workers[i]), HoldRank(s)
  {
    hide Inv, Bit, WorkNext, WorkEnabled, SleepRank, HoldRank, CallerHolds;
    InvShape(s);
    if s.workers[i].Asleep? {
      more := [];
    } else {
      OffBlocked(s, i);
      var k := i;
      if WorkEnabled(s, i) {
        OffMoves(s, i);
        InvStep(s, Worker(i));
      } else {
        OutsideHolds(s);
        HolderIsCore(s);
        k := s.mutex.value.i;
        HolderMoves(s, k);
        HolderElsewhere(s, i, k);
      }
      InvShape(WorkNext(s, k));
      more := SleepsOff(WorkNext(s, k), i);
      more := [Worker(k)] + more;
    }
  }

  /** A core turned off goes to sleep: from every reachable state outside a call, the workers by
      themselves bring a core that the last request left off into the wait set. */
  lemma IdleSleeps(n: nat, acts: seq<Action>, i: nat) returns (more: seq<Action>)
    requires Legal(Init(n), acts) && i < N(Run(Init(n), acts))
    requires Run(Init(n), acts).caller.Outside? && !Bit(LastSpin(acts), i)
    ensures var s := Run(Init(n), acts);
      && Legal(s, more) && i < N(Run(s, more)) && Run(s, more).workers[i].Asleep?
      && forall k | 0 <= k < |more| :: more[k].Worker?
  {
    hide Inv, Bit, Apply, Enabled, LastSpin;
    InvInit(n);
    InvRun(Init(n), acts);
    AgreesOnReturn(n, acts, i);
    more := SleepsOff(Run(Init(n), acts), i);
  }
}
