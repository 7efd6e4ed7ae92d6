/** multi_tone_gen.c: one timer per tone, of which the generator lets one run at a time.  The
    timers are those of FTimer, each with its own worker; one thread calls
    `multi_tone_gen_switch_frequency`. */
module MultiTone {
  import F = FTimer

  /** Where the controlling thread stands; the line comments are those of multi_tone_gen.c. */
  datatype Phase =
    | Outside
    | Pausing(target: int)   // 39, inside ftimer_pause of the old timer
    | Assign(target: int)    // 41
    | Unpausing              // 43, inside ftimer_unpause of the new timer
    | Silence                // 47, the callback with status 0

  /** `wanted`: the last argument of a call that was in range; `played`: the tones made current
      so far, in order. */
  datatype Gen = Gen(timers: seq<F.Timer>, freqIdx: int, phase: Phase, wanted: int, played: seq<nat>)

  /** Worker: a statement (or a spurious wake-up) of the worker of timer i.  Switch: a call;
      Step: the next statement of the calling thread. */
  datatype Action = Worker(i: nat, count: nat) | Wake(who: F.Who, i: nat) | Switch(target: int) | Step

  predicate Shape(g: Gen) {
    && -1 <= g.freqIdx < |g.timers|
    && (g.phase.Pausing? ==> 0 <= g.freqIdx && -1 <= g.phase.target < |g.timers|)
    && (g.phase.Assign? ==> -1 <= g.phase.target < |g.timers|)
    && (g.phase.Unpausing? ==> 0 <= g.freqIdx)
  }

  predicate Enabled(g: Gen, a: Action)
    requires Shape(g)
  {
    match a
    case Worker(i, n) => i < |g.timers| && F.WorkEnabled(g.timers[i], n)
    case Wake(w, i) => i < |g.timers| && w != F.Waiter && F.Enabled(g.timers[i], F.Spurious(w))
    case Switch(_) => g.phase.Outside? && (0 <= g.freqIdx ==> g.timers[g.freqIdx].control.Free?)
    case Step =>
      !g.phase.Outside? &&
      (g.phase.Pausing? || g.phase.Unpausing? ==> F.ControlEnabled(g.timers[g.freqIdx])) &&
      (g.phase.Assign? && 0 <= g.phase.target ==> g.timers[g.phase.target].control.Free?)
  }

  function Put(g: Gen, i: nat, t: F.Timer): Gen
    requires i < |g.timers|
  {
    g.(timers := g.timers[i := t])
  }

  function Apply(g: Gen, a: Action): Gen
    requires Shape(g) && Enabled(g, a)
  {
    match a
    case Worker(i, n) => Put(g, i, F.WorkNext(g.timers[i], n))
    case Wake(w, i) => Put(g, i, F.Apply(g.timers[i], F.Spurious(w)))
    case Switch(target) =>
      if target < -1 || |g.timers| <= target then g
      else if g.freqIdx != -1
      then Put(g, g.freqIdx, F.Apply(g.timers[g.freqIdx], F.CallPause(true))).(
             phase := Pausing(target), wanted := target)
      else g.(phase := Assign(target), wanted := target)
    case Step =>
      match g.phase
      case Pausing(target) =>
        var t := F.ControlNext(g.timers[g.freqIdx]);
        Put(g, g.freqIdx, t).(phase := if t.control.Free? then Assign(target) else g.phase)
      case Assign(target) =>
        if target == -1 then g.(freqIdx := -1, phase := Silence)
        else Put(g, target, F.Apply(g.timers[target], F.CallUnpause)).(
               freqIdx := target, phase := Unpausing, played := g.played + [target])
      case Unpausing =>
        var t := F.ControlNext(g.timers[g.freqIdx]);
        Put(g, g.freqIdx, t).(phase := if t.control.Free? then Outside else g.phase)
      case Silence => g.(phase := Outside)
  }

  /** After `multi_tone_gen_init`: every timer created paused. */
  function Init(n: nat, compensate: bool): Gen {
    Gen(seq(n, _ => F.Created(F.Flags(true, compensate), true)), -1, Outside, -1, [])
  }

  // --- Invariant -----------------------------------------------------------------------

  /** A timer that is paused, or still on its way to noticing that it was created paused; either
      way its worker cannot reach a callback while `pausing` stays set. */
  predicate Quiet(t: F.Timer) {
    && t.pausing && t.control.Free?
    && (F.InRegion(t.work) || t.work.LockControl? || t.work.TestPausing? || t.work.LockPaused? || t.work.SetPaused?)
  }

  /** The calling thread is inside a call on the current timer exactly in these phases. */
  predicate Calling(p: Phase, t: F.Timer) {
    match p
    case Outside => t.control.Free? && !t.pausing
    case Pausing(_) =>
      t.control in {F.PauseLock(true), F.PauseSet(true), F.PauseUnlock(true)} || t.control.ConfirmLock? ||
      t.control.ConfirmTest? || t.control.ConfirmWait? || t.control.ConfirmRelock? || t.control.ConfirmUnlock?
    case Assign(_) => Quiet(t)
    case Unpausing =>
      t.control.UnpauseLock? || t.control.UnpauseSet? || t.control.UnpauseTell? || t.control.UnpauseUnlock?
    case Silence => Quiet(t)
  }

  predicate Inv(g: Gen) {
    && Shape(g)
    && (forall i | 0 <= i < |g.timers| :: F.Inv(g.timers[i]))
    && (forall i | 0 <= i < |g.timers| && i != g.freqIdx :: Quiet(g.timers[i]))
    && (0 <= g.freqIdx ==> Calling(g.phase, g.timers[g.freqIdx]))
    && (g.phase.Silence? ==> g.freqIdx == -1)
    && (match g.phase case Pausing(i) => i == g.wanted case Assign(i) => i == g.wanted case _ => g.freqIdx == g.wanted)
    && (forall i | 0 <= i < |g.timers| :: g.timers[i].wait.Away?)
    && (0 <= g.freqIdx ==> g.played != [] && g.played[|g.played| - 1] == g.freqIdx)
  }

  lemma InvInit(n: nat, compensate: bool)
    ensures Inv(Init(n, compensate))
  {
    hide F.Inv;
    F.InvCreated(F.Flags(true, compensate), true);
  }

  lemma QuietWork(t: F.Timer, n: nat)
    requires F.Inv(t) && Quiet(t) && F.WorkEnabled(t, n)
    ensures Quiet(F.WorkNext(t, n)) && !F.WorkNext(t, n).work.Callback?
  {
  }

  /** The worker touches nothing of the calling thread but its sleep. */
  lemma WorkerLeaves(t: F.Timer, n: nat)
    requires F.WorkEnabled(t, n)
    ensures var m := F.WorkNext(t, n);
      m.pausing == t.pausing && (m.control == t.control || (t.control.ConfirmWait? && m.control.ConfirmRelock?))
  {
  }

  /** A worker statement leaves the calling thread in its call. */
  lemma CallingWork(g: Gen, t: F.Timer, n: nat)
    requires F.Inv(t) && Calling(g.phase, t) && F.WorkEnabled(t, n)
    ensures Calling(g.phase, F.WorkNext(t, n))
  {
    hide F.WorkNext, F.WorkEnabled, F.Inv, Quiet;
    WorkerLeaves(t, n);
    if Quiet(t) { QuietWork(t, n); }
  }

  lemma SpuriousWake(g: Gen, t: F.Timer, w: F.Who)
    requires F.Inv(t) && w != F.Waiter && F.Enabled(t, F.Spurious(w))
    ensures Quiet(t) ==> Quiet(F.Apply(t, F.Spurious(w)))
    ensures Calling(g.phase, t) ==> Calling(g.phase, F.Apply(t, F.Spurious(w)))
    ensures F.Apply(t, F.Spurious(w)).wait == t.wait
  {
  }

  /** A pause that returns leaves its timer quiet. */
  lemma PauseReturns(g: Gen, t: F.Timer)
    requires F.Inv(t) && g.phase.Pausing? && Calling(g.phase, t) && F.ControlEnabled(t)
    ensures var n := F.ControlNext(t); if n.control.Free? then Quiet(n) else Calling(g.phase, n)
  {
  }

  lemma UnpauseReturns(g: Gen, t: F.Timer)
    requires F.Inv(t) && g.phase.Unpausing? && Calling(g.phase, t) && F.ControlEnabled(t)
    ensures var n := F.ControlNext(t); if n.control.Free? then !n.pausing else Calling(g.phase, n)
  {
  }

  lemma InvStep(g: Gen, a: Action)
    requires Inv(g) && Enabled(g, a)
    ensures Inv(Apply(g, a))
  {
    hide F.WorkNext, F.WorkEnabled, F.ControlNext, F.ControlEnabled, F.Inv, F.Apply, F.Enabled, Quiet, Calling;
    match a
    case Worker(i, n) =>
      WorkIsAction(g.timers[i], n);
      StaysAway(g.timers[i], n);
      F.InvStep(g.timers[i], F.WorkStep(n));
      if i == g.freqIdx { CallingWork(g, g.timers[i], n); } else { QuietWork(g.timers[i], n); }
    case Wake(w, i) =>
      F.InvStep(g.timers[i], F.Spurious(w));
      SpuriousWake(g, g.timers[i], w);
    case Switch(target) => SwitchStep(g, target);
    case Step => StepStep(g);
  }

  /** Nobody waits for the ticks of a tone timer. */
  lemma StaysAway(t: F.Timer, n: nat)
    requires t.wait.Away?
    ensures F.WorkEnabled(t, n) ==> F.WorkNext(t, n).wait.Away?
    ensures F.ControlEnabled(t) ==> F.ControlNext(t).wait.Away?
  {
  }

  lemma WorkIsAction(t: F.Timer, n: nat)
    requires F.WorkEnabled(t, n)
    ensures F.Enabled(t, F.WorkStep(n)) && F.Apply(t, F.WorkStep(n)) == F.WorkNext(t, n)
  {
    hide F.WorkNext, F.WorkEnabled;
  }

  lemma ControlIsAction(t: F.Timer)
    requires F.ControlEnabled(t)
    ensures F.Enabled(t, F.ControlStep) && F.Apply(t, F.ControlStep) == F.ControlNext(t)
  {
    hide F.ControlNext, F.ControlEnabled;
  }

  lemma SwitchStep(g: Gen, target: int)
    requires Inv(g) && Enabled(g, Switch(target))
    ensures Inv(Apply(g, Switch(target)))
  {
    hide F.Inv;
    if 0 <= g.freqIdx { F.InvStep(g.timers[g.freqIdx], F.CallPause(true)); }
  }

  lemma StepStep(g: Gen)
    requires Inv(g) && Enabled(g, Step)
    ensures Inv(Apply(g, Step))
  {
    hide F.ControlNext, F.ControlEnabled, F.Inv;
    if g.phase.Pausing? || g.phase.Unpausing? {
      var t := g.timers[g.freqIdx];
      ControlIsAction(t);
      StaysAway(t, 0);
      F.InvStep(t, F.ControlStep);
      if g.phase.Pausing? { PauseReturns(g, t); } else { UnpauseReturns(g, t); }
    } else if g.phase.Assign? && 0 <= g.phase.target {
      F.InvStep(g.timers[g.phase.target], F.CallUnpause);
    }
  }

  // --- Results -------------------------------------------------------------------------

  predicate Legal(g: Gen, acts: seq<Action>)
    requires Shape(g)
    decreases |acts|
  {
    acts == [] || (Enabled(g, acts[0]) && Shape(Apply(g, acts[0])) && Legal(Apply(g, acts[0]), acts[1..]))
  }

  /** The state after a run; runs are every interleaving of the workers and the calling thread. */
  function Run(g: Gen, acts: seq<Action>): (r: Gen)
    requires Shape(g) && Legal(g, acts)
    ensures Shape(r)
    decreases |acts|
  {
    if acts == [] then g else Run(Apply(g, acts[0]), acts[1..])
  }

  lemma {:induction false} InvRun(g: Gen, acts: seq<Action>)
    requires Inv(g) && Legal(g, acts)
    ensures Inv(Run(g, acts))
    decreases |acts|
  {
    hide Apply, Enabled, Quiet, Calling, F.Inv;
    if acts != [] {
      InvStep(g, acts[0]);
      InvRun(Apply(g, acts[0]), acts[1..]);
    }
  }

  /** At every moment of every run only the worker of the current tone can be inside `toggle`;
      between the pause of the old tone and the unpause of the new one, and when the generator
      is silent, none is. */
  lemma SingleTone(n: nat, compensate: bool, acts: seq<Action>, i: nat)
    requires Legal(Init(n, compensate), acts) && i < |Run(Init(n, compensate), acts).timers|
    ensures var g := Run(Init(n, compensate), acts);
            g.timers[i].work.Callback? ==> i == g.freqIdx && !g.phase.Assign? && !g.phase.Silence?
  {
    hide Apply, Enabled, F.Inv;
    InvInit(n, compensate);
    InvRun(Init(n, compensate), acts);
  }

  /** Whatever step any thread takes, a callback starts only on the tone that is current before
      the step: once a switch has made another tone current, the old one starts none. */
  lemma OnlyCurrentToneStarts(n: nat, compensate: bool, acts: seq<Action>, a: Action, i: nat)
    requires Legal(Init(n, compensate), acts) && Enabled(Run(Init(n, compensate), acts), a)
    requires i < |Run(Init(n, compensate), acts).timers|
    ensures var g := Run(Init(n, compensate), acts);
            i < |Apply(g, a).timers| && (i != g.freqIdx ==> !Apply(g, a).timers[i].work.Callback?)
  {
    hide F.Inv, F.WorkNext, F.WorkEnabled, F.ControlNext, F.ControlEnabled, Calling;
    InvInit(n, compensate);
    InvRun(Init(n, compensate), acts);
    var g := Run(Init(n, compensate), acts);
    if a.Worker? && a.i == i && i != g.freqIdx { QuietWork(g.timers[i], a.count); }
  }

  /** The argument of the last call in range, -1 being silence, or -1 if there was none. */
  function LastAsked(n: nat, acts: seq<Action>): int
    decreases |acts|
  {
    if acts == [] then -1
    else
      var last := acts[|acts| - 1];
      if last.Switch? && -1 <= last.target < n then last.target else LastAsked(n, acts[..|acts| - 1])
  }

  function Wanted(g: Gen, a: Action): int {
    if a.Switch? && -1 <= a.target < |g.timers| then a.target else g.wanted
  }

  lemma WantedStep(g: Gen, a: Action)
    requires Shape(g) && Enabled(g, a)
    ensures Apply(g, a).wanted == Wanted(g, a) && |Apply(g, a).timers| == |g.timers|
  {
    hide F.WorkNext, F.WorkEnabled, F.ControlNext, F.ControlEnabled, F.Apply, F.Enabled;
  }

  lemma {:induction false} RunSnoc(g: Gen, acts: seq<Action>)
    requires Shape(g) && Legal(g, acts) && acts != []
    ensures var (p, last) := (acts[..|acts| - 1], acts[|acts| - 1]);
      Legal(g, p) && Enabled(Run(g, p), last) && Run(g, acts) == Apply(Run(g, p), last)
    decreases |acts|
  {
    hide Apply, Enabled;
    if |acts| > 1 {
      RunSnoc(Apply(g, acts[0]), acts[1..]);
      assert acts[..|acts| - 1][1..] == acts[1..][..|acts| - 2];
    }
  }

  lemma {:induction false} WantedRun(n: nat, compensate: bool, acts: seq<Action>)
    requires Legal(Init(n, compensate), acts)
    ensures var g := Run(Init(n, compensate), acts); g.wanted == LastAsked(n, acts) && |g.timers| == n
    decreases |acts|
  {
    hide Apply, Enabled;
    if acts != [] {
      RunSnoc(Init(n, compensate), acts);
      WantedRun(n, compensate, acts[..|acts| - 1]);
      WantedStep(Run(Init(n, compensate), acts[..|acts| - 1]), acts[|acts| - 1]);
    }
  }

  /** Whenever no call is in progress the current tone is the last one asked for, silence included,
      its timer is not told to pause, and every other timer is. */
  lemma SwitchTakesEffect(n: nat, compensate: bool, acts: seq<Action>, i: nat)
    requires Legal(Init(n, compensate), acts) && i < |Run(Init(n, compensate), acts).timers|
    ensures var g := Run(Init(n, compensate), acts);
            g.phase.Outside? ==> g.freqIdx == LastAsked(n, acts) && (g.timers[i].pausing <==> i != LastAsked(n, acts))
  {
    hide Apply, Enabled, F.Inv, LastAsked;
    WantedRun(n, compensate, acts);
    InvInit(n, compensate);
    InvRun(Init(n, compensate), acts);
  }

  /** The tones that the calls of a run ask for, in order; calls out of range and calls for silence
      ask for none. */
  function Requests(n: nat, acts: seq<Action>): (r: seq<nat>)
    decreases |acts|
  {
    if acts == [] then [] else
    (if acts[0].Switch? && 0 <= acts[0].target < n then [acts[0].target] else []) + Requests(n, acts[1..])
  }

  /** The tone of a call that has not yet made it current. */
  function Pending(g: Gen): seq<nat> {
    match g.phase
    case Pausing(target) => if 0 <= target then [target] else []
    case Assign(target) => if 0 <= target then [target] else []
    case _ => []
  }

  lemma RequestStep(g: Gen, a: Action)
    requires Shape(g) && Enabled(g, a)
    ensures |Apply(g, a).timers| == |g.timers|
    ensures Apply(g, a).played + Pending(Apply(g, a)) ==
            g.played + Pending(g) + if a.Switch? && 0 <= a.target < |g.timers| then [a.target] else []
  {
    hide F.WorkNext, F.WorkEnabled, F.ControlNext, F.ControlEnabled, F.Apply, F.Enabled;
  }

  lemma {:induction false} RequestsRun(g: Gen, acts: seq<Action>)
    requires Shape(g) && Legal(g, acts)
    ensures Run(g, acts).played + Pending(Run(g, acts)) == g.played + Pending(g) + Requests(|g.timers|, acts)
    decreases |acts|
  {
    hide Apply, Enabled, Pending;
    if acts != [] {
      RequestStep(g, acts[0]);
      RequestsRun(Apply(g, acts[0]), acts[1..]);
    }
  }

  /** Whatever the interleaving, whenever no call is in progress the tones made current are exactly
      those asked for, each once and in order. */
  lemma TonesInOrder(n: nat, compensate: bool, acts: seq<Action>)
    requires Legal(Init(n, compensate), acts)
    ensures var g := Run(Init(n, compensate), acts); g.phase.Outside? ==> g.played == Requests(n, acts)
  {
    hide Apply, Enabled;
    RequestsRun(Init(n, compensate), acts);
    var g := Run(Init(n, compensate), acts);
    if g.phase.Outside? {
      assert g.played + Pending(g) == g.played;
      assert [] + Pending(Init(n, compensate)) + Requests(n, acts) == Requests(n, acts);
    }
  }

  // --- What sounds -----------------------------------------------------------------------

  /** A callback started: of which timer, and while which of the tones made current. */
  datatype Sound = Sound(nth: nat, tone: nat)

  /** The action starts a callback. */
  predicate Starts(g: Gen, a: Action)
    requires Shape(g) && Enabled(g, a)
  {
    a.Worker? && !g.timers[a.i].work.Callback? && F.WorkNext(g.timers[a.i], a.count).work.Callback?
  }

  /** The callbacks of a run, in order. */
  function Heard(g: Gen, acts: seq<Action>): (h: seq<Sound>)
    requires Shape(g) && Legal(g, acts)
    decreases |acts|
  {
    if acts == [] then [] else
    (if Starts(g, acts[0]) then [Sound(|g.played|, acts[0].i)] else []) + Heard(Apply(g, acts[0]), acts[1..])
  }

  /** A callback starts only on the current tone. */
  lemma StartsCurrent(g: Gen, a: Action)
    requires Inv(g) && Enabled(g, a) && Starts(g, a)
    ensures a.i == g.freqIdx && g.played != [] && g.played[|g.played| - 1] == a.i
  {
    hide F.Inv, F.WorkNext, F.WorkEnabled, Quiet, Calling;
    if a.i != g.freqIdx { QuietWork(g.timers[a.i], a.count); }
  }

  lemma PlayedGrows(g: Gen, a: Action)
    requires Shape(g) && Enabled(g, a)
    ensures g.played <= Apply(g, a).played
  {
    hide F.WorkNext, F.WorkEnabled, F.ControlNext, F.ControlEnabled, F.Apply, F.Enabled;
  }

  /** The sounds of h are of the tones in `played`, from the nth on and never back. */
  predicate InOrder(h: seq<Sound>, played: seq<nat>, nth: nat) {
    && (forall k | 0 <= k < |h| :: nth <= h[k].nth && 1 <= h[k].nth <= |played| && h[k].tone == played[h[k].nth - 1])
    && (forall j, k | 0 <= j < k < |h| :: h[j].nth <= h[k].nth)
  }

  lemma {:induction false} HeardRun(g: Gen, acts: seq<Action>)
    requires Inv(g) && Legal(g, acts)
    ensures g.played <= Run(g, acts).played
    ensures InOrder(Heard(g, acts), Run(g, acts).played, |g.played|)
    decreases |acts|
  {
    hide Apply, Enabled, Quiet, Calling, F.Inv, Starts;
    if acts != [] {
      InvStep(g, acts[0]);
      PlayedGrows(g, acts[0]);
      if Starts(g, acts[0]) { StartsCurrent(g, acts[0]); }
      HeardRun(Apply(g, acts[0]), acts[1..]);
    }
  }

  /** In every interleaving the callbacks that start are of the tones asked for, in order: each on
      the tone last made current, and none on an earlier one again. */
  lemma HeardInOrder(n: nat, compensate: bool, acts: seq<Action>)
    requires Legal(Init(n, compensate), acts)
    ensures var g := Run(Init(n, compensate), acts);
      && InOrder(Heard(Init(n, compensate), acts), g.played, 0)
      && (g.phase.Outside? ==> g.played == Requests(n, acts))
  {
    InvInit(n, compensate);
    HeardRun(Init(n, compensate), acts);
    TonesInOrder(n, compensate, acts);
  }

  // --- Calls return --------------------------------------------------------------------

  /** A switch never hangs: inside a call the calling thread, or the worker it waits for, can
      take its next statement without a spurious wake-up. */
  lemma SwitchProceeds(n: nat, compensate: bool, acts: seq<Action>)
    requires Legal(Init(n, compensate), acts)
    ensures var g := Run(Init(n, compensate), acts);
            !g.phase.Outside? ==> Enabled(g, Step) || (0 <= g.freqIdx && Enabled(g, Worker(g.freqIdx, 1)))
  {
    hide Apply, F.Inv, F.WorkEnabled, F.ControlEnabled;
    InvInit(n, compensate);
    InvRun(Init(n, compensate), acts);
    var g := Run(Init(n, compensate), acts);
    if 0 <= g.freqIdx { F.CanMove(g.timers[g.freqIdx]); }
  }

  /** Who should move for the call to go on: the calling thread, or the worker it waits for. */
  function Urge(g: Gen): Action
    requires Shape(g)
  {
    if Enabled(g, Step) || g.freqIdx < 0 then Step else Worker(g.freqIdx, 1)
  }

  function PhaseRank(g: Gen): nat {
    match g.phase
    case Pausing(_) => 3
    case Assign(_) => 2
    case Unpausing => 1
    case Silence => 1
    case Outside => 0
  }

  predicate InCall(g: Gen)
    requires Shape(g)
  {
    g.phase.Pausing? || g.phase.Unpausing?
  }

  predicate Closer(m: Gen, g: Gen)
    requires Shape(m) && Shape(g)
  {
    || PhaseRank(m) < PhaseRank(g)
    || (m.phase == g.phase && InCall(g) && m.freqIdx == g.freqIdx && |m.timers| == |g.timers| &&
        F.Closer(m.timers[m.freqIdx], g.timers[g.freqIdx]))
  }

  lemma UrgeCloser(g: Gen)
    requires Inv(g) && !g.phase.Outside?
    ensures Enabled(g, Urge(g)) && Shape(Apply(g, Urge(g))) && Closer(Apply(g, Urge(g)), g)
  {
    hide F.Inv, F.WorkNext, F.WorkEnabled, F.ControlNext, F.ControlEnabled, F.WaitEnabled, F.Closer, F.Apply, F.Enabled;
    if InCall(g) {
      var t := g.timers[g.freqIdx];
      F.UrgeCloser(t);
      NobodyWaits(t);
      if F.ControlEnabled(t) { ControlIsAction(t); }
      if F.WorkEnabled(t, 1) { WorkIsAction(t, 1); }
    }
  }

  lemma NobodyWaits(t: F.Timer)
    requires t.wait.Away?
    ensures !F.WaitEnabled(t) && !F.Enabled(t, F.WaitStep)
  {
  }

  /** A step of the calling thread, or of the worker of the old tone or the new. */
  predicate OfSwitch(g: Gen, a: Action) {
    a.Step? || (a.Worker? && (a.i == g.freqIdx || a.i == g.wanted))
  }

  lemma UrgeOfSwitch(g: Gen)
    requires Inv(g) && Enabled(g, Urge(g))
    ensures OfSwitch(g, Urge(g))
    ensures forall a :: OfSwitch(Apply(g, Urge(g)), a) ==> OfSwitch(g, a)
  {
    hide F.Inv, F.WorkNext, F.WorkEnabled, F.ControlNext, F.ControlEnabled, F.Apply, F.Enabled, Quiet, Calling;
  }

  lemma {:induction false} SwitchEnds(g: Gen) returns (more: seq<Action>)
    requires Inv(g)
    ensures Legal(g, more) && Run(g, more).phase.Outside?
    ensures forall k | 0 <= k < |more| :: OfSwitch(g, more[k])
    decreases PhaseRank(g), CallDistance(g).0, CallDistance(g).1, CallDistance(g).2, CallDistance(g).3
  {
    hide F.Inv, Apply, Enabled, Quiet, Calling, PhaseRank;
    if g.phase.Outside? {
      more := [];
    } else {
      UrgeCloser(g);
      InvStep(g, Urge(g));
      UrgeOfSwitch(g);
      CloserDrops(Apply(g, Urge(g)), g);
      more := SwitchEnds(Apply(g, Urge(g)));
      more := [Urge(g)] + more;
    }
  }

  /** What the current timer still has to do for the call. */
  function CallDistance(g: Gen): (nat, bool, nat, nat)
    requires Shape(g)
  {
    if InCall(g) then
      var t := g.timers[g.freqIdx];
      (F.ControlRank(t), !F.ControlEnabled(t), F.WorkRank(t), F.WaitHold(t))
    else (0, false, 0, 0)
  }

  lemma CloserDrops(m: Gen, g: Gen)
    requires Shape(m) && Shape(g) && Closer(m, g)
    ensures PhaseRank(m) < PhaseRank(g) ||
      (PhaseRank(m) == PhaseRank(g) &&
       var (a, b, c, d), (p, q, r, s) := CallDistance(m), CallDistance(g);
       a < p || (a == p && q && (!b || c < r || (c == r && d < s))))
  {
    hide F.ControlRank, F.ControlEnabled, F.WorkRank, F.WaitHold;
  }

  /** From every reachable point of a switch the calling thread and the workers of the old and the
      new tone can finish it by themselves, in finitely many statements and without a spurious wake-up. */
  lemma SwitchReturns(n: nat, compensate: bool, acts: seq<Action>) returns (more: seq<Action>)
    requires Legal(Init(n, compensate), acts)
    ensures var g := Run(Init(n, compensate), acts); Legal(g, more) && Run(g, more).phase.Outside?
    ensures forall k | 0 <= k < |more| :: OfSwitch(Run(Init(n, compensate), acts), more[k])
  {
    hide Inv, Apply, Enabled;
    InvInit(n, compensate);
    InvRun(Init(n, compensate), acts);
    more := SwitchEnds(Run(Init(n, compensate), acts));
  }

  // --- The current tone sounds -----------------------------------------------------------

  lemma {:induction false} Fires(g: Gen) returns (more: seq<Action>)
    requires Inv(g) && g.phase.Outside? && 0 <= g.freqIdx && F.Firing(g.timers[g.freqIdx])
    ensures Legal(g, more) && Run(g, more).freqIdx == g.freqIdx
    ensures g.freqIdx < |Run(g, more).timers| && Run(g, more).timers[g.freqIdx].work.Callback?
    ensures forall k | 0 <= k < |more| :: more[k] == Worker(g.freqIdx, 1)
    decreases F.FireRank(g.timers[g.freqIdx])
  {
    hide F.Inv, F.WorkNext, F.WorkEnabled, F.FireRank, F.Firing, Quiet, Calling;
    var t := g.timers[g.freqIdx];
    if t.work.Callback? {
      more := [];
    } else {
      F.FiringCloser(t);
      InvStep(g, Worker(g.freqIdx, 1));
      more := Fires(Put(g, g.freqIdx, F.WorkNext(t, 1)));
      more := [Worker(g.freqIdx, 1)] + more;
    }
  }

  lemma CurrentFires(g: Gen)
    requires Inv(g) && g.phase.Outside? && 0 <= g.freqIdx && g.timers[g.freqIdx].flags.hasCallback
    ensures F.Firing(g.timers[g.freqIdx])
  {
    hide F.Inv;
  }

  lemma FlagsStep(g: Gen, a: Action, i: nat)
    requires Shape(g) && Enabled(g, a) && i < |g.timers|
    ensures |Apply(g, a).timers| == |g.timers| && Apply(g, a).timers[i].flags == g.timers[i].flags
  {
    hide F.GateNext, F.TickNext, F.ControlNext, F.ControlEnabled;
    if a.Worker? { WorkFlags(g.timers[a.i], a.count); }
    if a.Step? && (g.phase.Pausing? || g.phase.Unpausing?) { F.ControlFrame(g.timers[g.freqIdx]); }
  }

  lemma WorkFlags(t: F.Timer, n: nat)
    requires F.WorkEnabled(t, n)
    ensures F.WorkNext(t, n).flags == t.flags
  {
    hide F.GateNext, F.TickNext;
    if F.Serving(t.work) { TickFlags(t, n); } else { F.GateFrameAny(t, n); }
  }

  lemma TickFlags(t: F.Timer, n: nat)
    requires F.WorkEnabled(t, n) && F.Serving(t.work)
    ensures F.TickNext(t, n).flags == t.flags
  {
  }

  lemma {:induction false} FlagsRun(g: Gen, acts: seq<Action>, i: nat)
    requires Shape(g) && Legal(g, acts) && i < |g.timers|
    ensures |Run(g, acts).timers| == |g.timers| && Run(g, acts).timers[i].flags == g.timers[i].flags
    decreases |acts|
  {
    hide Apply, Enabled;
    if acts != [] {
      FlagsStep(g, acts[0], i);
      FlagsRun(Apply(g, acts[0]), acts[1..], i);
    }
  }

  /** A tone asked for sounds: from every reachable state outside a call, unless silence was asked
      for last, the worker of the last tone asked for by itself gets into its callback in finitely
      many statements. */
  lemma CurrentToneSounds(n: nat, compensate: bool, acts: seq<Action>) returns (more: seq<Action>)
    requires Legal(Init(n, compensate), acts) && Run(Init(n, compensate), acts).phase.Outside?
    requires 0 <= LastAsked(n, acts)
    ensures var g := Run(Init(n, compensate), acts); var i := LastAsked(n, acts);
      && Legal(g, more) && i < |Run(g, more).timers| && Run(g, more).timers[i].work.Callback?
      && forall k | 0 <= k < |more| :: more[k] == Worker(i, 1)
  {
    hide F.Inv, Apply, Enabled, LastAsked, Quiet, Calling;
    InvInit(n, compensate);
    InvRun(Init(n, compensate), acts);
    WantedRun(n, compensate, acts);
    var g := Run(Init(n, compensate), acts);
    FlagsRun(Init(n, compensate), acts, g.freqIdx);
    CurrentFires(g);
    more := Fires(g);
  }
}
