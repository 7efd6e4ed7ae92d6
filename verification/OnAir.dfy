/** fsk.c on the real timers: the sending thread cuts its stream into symbols, switches the tone
    generator to each and waits for the symbol timer, while the workers of the 2^m tone timers and
    of the symbol timer run as they like. */
module OnAir {
  import opened Wrappers
  import opened Bits
  import opened Framers
  import opened Fsk
  import opened Receiver
  import F = FTimer
  import M = MultiTone

  /** The sending thread; the line comments are those of fsk.c. */
  datatype Sender =
    | Next       // 35-41, about to send the next symbol
    | Switching  // 21, inside multi_tone_gen_switch_frequency
    | Waiting    // 22, inside ftimer_wait
    | Done       // 44

  /** `clock`: the symbol timer; `todo`: the symbols still to send. */
  datatype State = State(gen: M.Gen, clock: F.Timer, todo: seq<nat>, sender: Sender)

  /** Tone, Clock: a statement or a spurious wake-up of a worker, or the sender's own wake-up;
      Send: the next statement of the sending thread. */
  datatype Action = Tone(t: M.Action) | Clock(c: F.Action) | Send

  predicate Shape(c: State) { M.Shape(c.gen) }

  predicate Enabled(c: State, a: Action)
    requires Shape(c)
  {
    match a
    case Tone(t) => (t.Worker? || t.Wake?) && M.Enabled(c.gen, t)
    case Clock(x) => (x.WorkStep? || x.Spurious?) && F.Enabled(c.clock, x)
    case Send =>
      match c.sender
      case Next => c.todo == [] || M.Enabled(c.gen, M.Switch(c.todo[0]))
      case Switching => if c.gen.phase.Outside? then c.clock.wait.Away? else M.Enabled(c.gen, M.Step)
      case Waiting => c.clock.wait.Away? || F.WaitEnabled(c.clock)
      case Done => false
  }

  function Apply(c: State, a: Action): State
    requires Shape(c) && Enabled(c, a)
  {
    match a
    case Tone(t) => c.(gen := M.Apply(c.gen, t))
    case Clock(x) => c.(clock := F.Apply(c.clock, x))
    case Send =>
      match c.sender
      case Next =>
        if c.todo == [] then c.(sender := Done)
        else c.(gen := M.Apply(c.gen, M.Switch(c.todo[0])), todo := c.todo[1..], sender := Switching)
      case Switching =>
        if c.gen.phase.Outside? then c.(clock := F.Apply(c.clock, F.CallWait), sender := Waiting)
        else c.(gen := M.Apply(c.gen, M.Step))
      case Waiting =>
        if c.clock.wait.Away? then c.(sender := Next) else c.(clock := F.WaitNext(c.clock))
      case Done => c
  }

  /** After `fsk_start`: n tone timers, all paused, and the symbol timer, which has no callback and
      compensates for misses. */
  function Init(n: nat, symbols: seq<nat>): State {
    State(M.Init(n, false), F.Created(F.Flags(false, true), false), symbols, Next)
  }

  // --- Invariant -----------------------------------------------------------------------

  /** Symbols made current against waits served: one each, but for the symbol on the air. */
  predicate Account(c: State) {
    var waits := c.clock.counts.consumed;
    match c.sender
    case Next => c.gen.phase.Outside? && c.clock.wait.Away? && waits == |c.gen.played|
    case Switching => c.clock.wait.Away? && waits + 1 == |c.gen.played| + |M.Pending(c.gen)|
    case Waiting =>
      c.gen.phase.Outside? &&
      waits + (if c.clock.wait.WaitUnlock? || c.clock.wait.Away? then 0 else 1) == |c.gen.played|
    case Done => c.gen.phase.Outside? && c.clock.wait.Away? && waits == |c.gen.played| && c.todo == []
  }

  predicate Ready(c: State, n: nat, symbols: seq<nat>) {
    && |c.gen.timers| == n && (forall k | 0 <= k < |c.todo| :: c.todo[k] < n)
    && c.gen.played + M.Pending(c.gen) + c.todo == symbols
    && c.clock.flags == F.Flags(false, true) && c.clock.control.Free? && !c.clock.pausing
  }

  predicate Inv(c: State, n: nat, symbols: seq<nat>) {
    Shape(c) && M.Inv(c.gen) && F.Inv(c.clock) && Account(c) && Ready(c, n, symbols)
  }

  lemma GenShape(g: M.Gen)
    requires M.Inv(g)
    ensures M.Shape(g)
  {
  }

  lemma InvInit(n: nat, symbols: seq<nat>)
    requires forall k | 0 <= k < |symbols| :: symbols[k] < n
    ensures Inv(Init(n, symbols), n, symbols)
  {
    hide M.Inv, F.Inv;
    M.InvInit(n, false);
    GenShape(M.Init(n, false));
    F.InvCreated(F.Flags(false, true), false);
    assert [] + symbols == symbols;
  }

  /** The sending thread alone changes what has been played and how far it is with it. */
  lemma ToneKeeps(g: M.Gen, t: M.Action)
    requires M.Shape(g) && M.Enabled(g, t) && (t.Worker? || t.Wake?)
    ensures var h := M.Apply(g, t);
      h.phase == g.phase && h.played == g.played && h.freqIdx == g.freqIdx && |h.timers| == |g.timers|
  {
    hide F.WorkNext, F.WorkEnabled, F.Apply, F.Enabled;
  }

  predicate Untouched(m: F.Timer, t: F.Timer) {
    && m.flags == t.flags && m.control == t.control && m.pausing == t.pausing
    && m.counts.consumed == t.counts.consumed
    && (m.wait == t.wait || (t.wait.WaitSleep? && m.wait.WaitRelock?))
  }

  lemma GateKeeps(t: F.Timer)
    requires F.WorkEnabled(t, 1) && !F.Serving(t.work) && t.control.Free?
    ensures Untouched(F.GateNext(t), t)
  {
  }

  lemma TickKeeps(t: F.Timer, n: nat)
    requires F.WorkEnabled(t, n) && F.Serving(t.work)
    ensures Untouched(F.TickNext(t, n), t)
  {
  }

  /** What the symbol timer's worker leaves to the sending thread. */
  lemma ClockKeeps(t: F.Timer, x: F.Action)
    requires F.Enabled(t, x) && (x.WorkStep? || x.Spurious?) && t.control.Free?
    ensures Untouched(F.Apply(t, x), t)
  {
    hide F.GateNext, F.TickNext;
    if x.WorkStep? {
      if F.Serving(t.work) { TickKeeps(t, x.count); } else { GateKeeps(t); }
    }
  }

  /** A step of the sending thread inside the wait. */
  lemma WaitKeeps(t: F.Timer)
    requires F.WaitEnabled(t)
    ensures var m := F.WaitNext(t);
      && m.flags == t.flags && m.control == t.control && m.pausing == t.pausing
      && m.counts.consumed == t.counts.consumed + (if t.wait.WaitTake? then 1 else 0)
      && (t.wait.WaitTake? <==> m.wait.WaitUnlock?) && (t.wait.WaitUnlock? <==> m.wait.Away?)
  {
  }

  lemma SendKeeps(c: State, n: nat, symbols: seq<nat>)
    requires Inv(c, n, symbols) && Enabled(c, Send)
    ensures Inv(Apply(c, Send), n, symbols)
  {
    hide M.Inv, F.Inv, M.Apply, M.Enabled, F.WaitNext, F.WaitEnabled;
    match c.sender
    case Next =>
      if c.todo != [] {
        M.InvStep(c.gen, M.Switch(c.todo[0]));
        GenShape(M.Apply(c.gen, M.Switch(c.todo[0])));
        M.RequestStep(c.gen, M.Switch(c.todo[0]));
        SwitchTaken(c.gen, c.todo[0]);
        assert c.todo == [c.todo[0]] + c.todo[1..];
      }
    case Switching =>
      if c.gen.phase.Outside? {
        F.InvStep(c.clock, F.CallWait);
      } else {
        M.InvStep(c.gen, M.Step);
        GenShape(M.Apply(c.gen, M.Step));
        M.RequestStep(c.gen, M.Step);
        StepLength(c.gen);
      }
    case Waiting =>
      if !c.clock.wait.Away? {
        F.WaitStepKeeps(c.clock);
        WaitKeeps(c.clock);
      }
    case Done =>
  }

  lemma SwitchTaken(g: M.Gen, target: nat)
    requires M.Shape(g) && M.Enabled(g, M.Switch(target)) && target < |g.timers|
    ensures var h := M.Apply(g, M.Switch(target)); h.played == g.played && M.Pending(h) == [target]
  {
    hide F.Apply;
  }

  lemma StepLength(g: M.Gen)
    requires M.Shape(g) && M.Enabled(g, M.Step)
    ensures var h := M.Apply(g, M.Step); |h.played| + |M.Pending(h)| == |g.played| + |M.Pending(g)|
  {
    hide M.Apply, M.Enabled;
    M.RequestStep(g, M.Step);
    var h := M.Apply(g, M.Step);
    assert |h.played + M.Pending(h)| == |g.played + M.Pending(g) + []|;
  }

  lemma InvStep(c: State, a: Action, n: nat, symbols: seq<nat>)
    requires Inv(c, n, symbols) && Enabled(c, a)
    ensures Inv(Apply(c, a), n, symbols)
  {
    hide M.Inv, F.Inv, M.Apply, M.Enabled, F.Apply, F.Enabled, F.WaitNext, F.WaitEnabled;
    match a
    case Tone(t) =>
      M.InvStep(c.gen, t);
      GenShape(M.Apply(c.gen, t));
      ToneKeeps(c.gen, t);
    case Clock(x) =>
      F.InvStep(c.clock, x);
      ClockKeeps(c.clock, x);
    case Send => SendKeeps(c, n, symbols);
  }

  // --- Results -------------------------------------------------------------------------

  predicate Legal(c: State, acts: seq<Action>)
    requires Shape(c)
    decreases |acts|
  {
    acts == [] || (Enabled(c, acts[0]) && Shape(Apply(c, acts[0])) && Legal(Apply(c, acts[0]), acts[1..]))
  }

  /** The state after a run; runs are every interleaving of all the threads. */
  function Run(c: State, acts: seq<Action>): (r: State)
    requires Shape(c) && Legal(c, acts)
    ensures Shape(r)
    decreases |acts|
  {
    if acts == [] then c else Run(Apply(c, acts[0]), acts[1..])
  }

  lemma {:induction false} InvRun(c: State, acts: seq<Action>, n: nat, symbols: seq<nat>)
    requires Inv(c, n, symbols) && Legal(c, acts)
    ensures Inv(Run(c, acts), n, symbols)
    decreases |acts|
  {
    hide Apply, Enabled, M.Inv, F.Inv, Account, Ready;
    if acts != [] {
      InvStep(c, acts[0], n, symbols);
      InvRun(Apply(c, acts[0]), acts[1..], n, symbols);
    }
  }

  /** What a step does to the symbol timer. */
  function ClockAct(c: State, a: Action): seq<F.Action>
    requires Shape(c) && Enabled(c, a)
  {
    match a
    case Tone(_) => []
    case Clock(x) => [x]
    case Send =>
      if c.sender.Switching? && c.gen.phase.Outside? then [F.CallWait]
      else if c.sender.Waiting? && !c.clock.wait.Away? then [F.WaitStep]
      else []
  }

  /** What a run does to the symbol timer. */
  function ClockActs(c: State, acts: seq<Action>): seq<F.Action>
    requires Shape(c) && Legal(c, acts)
    decreases |acts|
  {
    if acts == [] then [] else ClockAct(c, acts[0]) + ClockActs(Apply(c, acts[0]), acts[1..])
  }

  lemma ClockStep(c: State, a: Action)
    requires Shape(c) && Enabled(c, a)
    ensures var x := ClockAct(c, a); if x == [] then Apply(c, a).clock == c.clock
            else |x| == 1 && F.Enabled(c.clock, x[0]) && Apply(c, a).clock == F.Apply(c.clock, x[0])
  {
    hide M.Apply, M.Enabled, F.WorkNext, F.WorkEnabled, F.WaitNext, F.WaitEnabled, F.ControlNext, F.ControlEnabled;
  }

  lemma {:induction false} ClockRun(c: State, acts: seq<Action>)
    requires Shape(c) && Legal(c, acts)
    ensures F.Legal(c.clock, ClockActs(c, acts)) && F.Run(c.clock, ClockActs(c, acts)) == Run(c, acts).clock
    decreases |acts|
  {
    hide Apply, Enabled, F.Apply, F.Enabled, ClockAct;
    if acts != [] {
      ClockStep(c, acts[0]);
      ClockRun(Apply(c, acts[0]), acts[1..]);
      var x, rest := ClockAct(c, acts[0]), ClockActs(Apply(c, acts[0]), acts[1..]);
      if x == [] { assert x + rest == rest; } else { assert (x + rest)[0] == x[0] && (x + rest)[1..] == rest; }
    }
  }

  /** The symbol timer sets the pace: the tone of a symbol is not made current before the ticks of
      all the symbols before it have been waited for, and every tick is a read of the timer; and a
      send that is done has made every symbol current, each for one tick, in order. */
  lemma Paced(n: nat, symbols: seq<nat>, acts: seq<Action>)
    requires (forall k | 0 <= k < |symbols| :: symbols[k] < n) && Legal(Init(n, symbols), acts)
    ensures F.Legal(Init(n, symbols).clock, ClockActs(Init(n, symbols), acts))
    ensures var c := Run(Init(n, symbols), acts);
            var k := F.Tallies(Init(n, symbols).clock, ClockActs(Init(n, symbols), acts));
      && c.gen.played <= symbols && |c.gen.played| <= k.consumed + 1
      && k.consumed <= k.produced <= k.rounds
      && (c.sender.Done? ==> c.gen.played == symbols && k.consumed == |symbols|)
  {
    hide Apply, Enabled, M.Inv, F.Inv, F.Tallies, F.Legal, F.Run, ClockActs;
    InvInit(n, symbols);
    InvRun(Init(n, symbols), acts, n, symbols);
    var c := Run(Init(n, symbols), acts);
    ClockRun(Init(n, symbols), acts);
    F.CountsRun(Init(n, symbols).clock, ClockActs(Init(n, symbols), acts));
    TicksRead(c.clock);
    DonePlayed(c, symbols);
  }

  lemma TicksRead(t: F.Timer)
    requires F.Inv(t) && t.flags.compensate
    ensures t.counts.consumed <= t.counts.produced <= t.counts.rounds
  {
    hide F.GateInv, F.TicksMutex, F.CallsMatch;
  }

  lemma DonePlayed(c: State, symbols: seq<nat>)
    requires Account(c) && c.gen.played + M.Pending(c.gen) + c.todo == symbols
    ensures c.gen.played <= symbols && (c.sender.Done? ==> c.gen.played == symbols)
    ensures c.clock.counts.consumed <= |c.gen.played| <= c.clock.counts.consumed + 1
  {
  }

  /** A callback started: of which tone timer, during which symbol, and how many ticks of the
      symbol timer had been waited for. */
  datatype Sound = Sound(nth: nat, tone: nat, ticks: nat)

  predicate Starts(c: State, a: Action)
    requires Shape(c) && Enabled(c, a)
  {
    a.Tone? && M.Starts(c.gen, a.t)
  }

  /** The callbacks of a run, in order. */
  function Heard(c: State, acts: seq<Action>): (h: seq<Sound>)
    requires Shape(c) && Legal(c, acts)
    decreases |acts|
  {
    if acts == [] then [] else
    (if Starts(c, acts[0]) then [Sound(|c.gen.played|, acts[0].t.i, c.clock.counts.consumed)] else []) +
    Heard(Apply(c, acts[0]), acts[1..])
  }

  /** The sound is of the symbol that the ticks waited for say, or of the one before while the
      generator is being switched. */
  predicate OfSymbol(x: Sound, symbols: seq<nat>) {
    1 <= x.nth <= |symbols| && x.tone == symbols[x.nth - 1] && x.nth - 1 <= x.ticks <= x.nth
  }

  lemma StartsOfSymbol(c: State, a: Action, n: nat, symbols: seq<nat>)
    requires Inv(c, n, symbols) && Enabled(c, a) && Starts(c, a)
    ensures OfSymbol(Sound(|c.gen.played|, a.t.i, c.clock.counts.consumed), symbols)
  {
    hide M.Inv, F.Inv, M.Starts, M.Enabled;
    M.StartsCurrent(c.gen, a.t);
    DonePlayed(c, symbols);
  }

  lemma PlayedStep(c: State, a: Action)
    requires Shape(c) && Enabled(c, a)
    ensures |c.gen.played| <= |Apply(c, a).gen.played|
  {
    hide M.Apply, M.Enabled, F.Apply, F.Enabled, F.WaitNext, F.WaitEnabled;
    match a
    case Tone(t) => M.PlayedGrows(c.gen, t);
    case Clock(_) =>
    case Send =>
      if c.sender.Next? && c.todo != [] { M.PlayedGrows(c.gen, M.Switch(c.todo[0])); }
      if c.sender.Switching? && !c.gen.phase.Outside? { M.PlayedGrows(c.gen, M.Step); }
  }

  /** Sounds of the symbols, from the nth on and never back. */
  predicate InOrder(h: seq<Sound>, symbols: seq<nat>, nth: nat) {
    && (forall k | 0 <= k < |h| :: nth <= h[k].nth && OfSymbol(h[k], symbols))
    && (forall j, k | 0 <= j < k < |h| :: h[j].nth <= h[k].nth)
  }

  lemma {:induction false} HeardRun(c: State, acts: seq<Action>, n: nat, symbols: seq<nat>)
    requires Inv(c, n, symbols) && Legal(c, acts)
    ensures InOrder(Heard(c, acts), symbols, |c.gen.played|)
    decreases |acts|
  {
    hide Apply, Enabled, M.Inv, F.Inv, Account, Ready, Starts, OfSymbol;
    if acts != [] {
      InvStep(c, acts[0], n, symbols);
      PlayedStep(c, acts[0]);
      if Starts(c, acts[0]) { StartsOfSymbol(c, acts[0], n, symbols); }
      HeardRun(Apply(c, acts[0]), acts[1..], n, symbols);
    }
  }

  /** Sending a stream: in every interleaving every callback that starts is of the tone of a symbol
      of the stream, the one that the symbol timer says or, while it is being switched, the one
      before; and the symbols sound in order. */
  lemma SymbolsSound(s: seq<bool>, m: nat, acts: seq<Action>)
    requires 0 < m && Legal(Init(Pow2(m), Symbols(s, m)), acts)
    ensures InOrder(Heard(Init(Pow2(m), Symbols(s, m)), acts), Symbols(s, m), 0)
  {
    hide Symbols, Pow2, Inv, Init, OfSymbol;
    SymbolsSpellStream(s, m);
    InvInit(Pow2(m), Symbols(s, m));
    HeardRun(Init(Pow2(m), Symbols(s, m)), acts, Pow2(m), Symbols(s, m));
  }

  /** A listener who takes one sound of each symbol. */
  predicate Listens(received: seq<nat>, h: seq<Sound>) {
    forall k | 0 <= k < |received| :: exists j :: 0 <= j < |h| && h[j].nth == k + 1 && h[j].tone == received[k]
  }

  /** From a frame of which every symbol sounds, whoever listens to one sound of each receives
      exactly the header and payload encoded. */
  lemma HeardIsSent(c: Config, header: seq<Byte>, payload: seq<Byte>, acts: seq<Action>, received: seq<nat>)
    requires 1 <= c.mExp <= 30 && !c.noHeader && !c.rawPayload && |header| == 3
    requires Legal(Init(Pow2(c.mExp), Symbols(c.FrameBits(header, payload), c.mExp)), acts)
    requires |received| == |Symbols(c.FrameBits(header, payload), c.mExp)|
    requires Listens(received, Heard(Init(Pow2(c.mExp), Symbols(c.FrameBits(header, payload), c.mExp)), acts))
    ensures Receive(received, c.mExp) == Some(Packet(header, payload))
  {
    hide Symbols, Receive, Pow2, Legal, Heard, InOrder, Listens;
    var symbols := Symbols(c.FrameBits(header, payload), c.mExp);
    SymbolsSound(c.FrameBits(header, payload), c.mExp, acts);
    ListenerHears(Heard(Init(Pow2(c.mExp), symbols), acts), symbols, received);
    EndToEnd(c, header, payload);
  }

  lemma ListenerHears(h: seq<Sound>, symbols: seq<nat>, received: seq<nat>)
    requires InOrder(h, symbols, 0) && |received| == |symbols| && Listens(received, h)
    ensures received == symbols
  {
  }

  // --- A send completes ----------------------------------------------------------------

  /** How far the wait is from its return; there may be a tick to take already. */
  function WaitRank(t: F.Timer): nat {
    match t.wait
    case WaitLock => if 0 < t.ticks then 5 else 9
    case WaitRelock => if 0 < t.ticks then 4 else 8
    case WaitTest => if 0 < t.ticks then 3 else 7
    case WaitSleep => 6
    case WaitTake => 2
    case WaitUnlock => 1
    case Away => 0
  }

  /** How far the symbol timer's worker is from its next signal, or from leaving its critical
      section when the sender is awake. */
  function WorkRank(t: F.Timer): nat {
    match t.work
    case UnlockTicks => if t.wait.WaitSleep? then 30 else 1
    case TestBreak => 29
    case Woken => 28
    case StillPausing => 27
    case RelockPaused => 26
    case ClearPaused => 25
    case ReleasePaused => 24
    case LockControl => 22
    case TestPausing => 21
    case TestExiting => 20
    case UnlockControl => 19
    case ReadTimer => 18
    case TestCount => 17
    case Callback => 16
    case LockTicks => 15
    case AddTick => 14
    case TellTick => 13
    case _ => 0
  }

  predicate WaitCloser(m: F.Timer, t: F.Timer) {
    || WaitRank(m) < WaitRank(t)
    || (WaitRank(m) == WaitRank(t) && !F.WaitEnabled(t) && (F.WaitEnabled(m) || WorkRank(m) < WorkRank(t)))
  }

  /** A symbol timer between control calls. */
  predicate Ticking(t: F.Timer) { t.control.Free? && !t.pausing && t.flags.compensate }

  lemma WaitStepCloser(t: F.Timer)
    requires F.WaitEnabled(t)
    ensures WaitRank(F.WaitNext(t)) < WaitRank(t)
  {
  }

  lemma GateCloser(t: F.Timer)
    requires F.Inv(t) && Ticking(t) && !F.WaitEnabled(t) && F.WorkEnabled(t, 1) && !F.Serving(t.work)
    ensures WaitCloser(F.GateNext(t), t)
  {
    hide F.TickInv, F.ControlMutex, F.PausedMutex;
  }

  lemma TickCloser(t: F.Timer)
    requires F.Inv(t) && Ticking(t) && !F.WaitEnabled(t) && !t.wait.Away? && F.WorkEnabled(t, 1) && F.Serving(t.work)
    ensures WaitCloser(F.TickNext(t, 1), t)
  {
    hide F.GateInv, F.CallsMatch;
  }

  lemma ClockMoves(t: F.Timer)
    requires F.Inv(t) && Ticking(t) && !t.wait.Away?
    ensures !F.WaitEnabled(t) ==> F.WorkEnabled(t, 1) && WaitCloser(F.WorkNext(t, 1), t)
  {
    hide F.Inv, F.WaitEnabled, F.WorkEnabled, F.GateNext, F.TickNext, WaitCloser;
    CanTick(t);
    if !F.WaitEnabled(t) {
      if F.Serving(t.work) { TickCloser(t); } else { GateCloser(t); }
    }
  }

  lemma CanTick(t: F.Timer)
    requires F.Inv(t) && Ticking(t) && !t.wait.Away?
    ensures F.WaitEnabled(t) || F.WorkEnabled(t, 1)
  {
    hide F.TickInv, F.WorkEnabled;
    F.CanMove(t);
  }

  /** Who should move for the send to go on. */
  function Urge(c: State): Action
    requires Shape(c)
  {
    if Enabled(c, Send) || c.sender.Done? || c.sender.Next? then Send
    else if c.sender.Switching? then (if M.Urge(c.gen).Step? then Send else Tone(M.Urge(c.gen)))
    else Clock(F.WorkStep(1))
  }

  function SenderRank(c: State): nat {
    match c.sender
    case Switching => 3
    case Waiting => 2
    case Next => 1
    case Done => 0
  }

  /** What the call that the sender is in still has to do. */
  function CallDistance(c: State): (nat, nat, bool, nat, nat)
    requires Shape(c)
  {
    match c.sender
    case Switching =>
      var d := M.CallDistance(c.gen);
      (M.PhaseRank(c.gen), d.0, d.1, d.2, d.3)
    case Waiting => (0, WaitRank(c.clock), !F.WaitEnabled(c.clock), WorkRank(c.clock), 0)
    case _ => (0, 0, false, 0, 0)
  }

  predicate Less(x: (nat, nat, bool, nat, nat), y: (nat, nat, bool, nat, nat)) {
    x.0 < y.0 || (x.0 == y.0 && (x.1 < y.1 || (x.1 == y.1 &&
      ((!x.2 && y.2) || (x.2 == y.2 && (x.3 < y.3 || (x.3 == y.3 && x.4 < y.4)))))))
  }

  predicate Closer(m: State, c: State)
    requires Shape(m) && Shape(c)
  {
    || |m.todo| < |c.todo|
    || (m.todo == c.todo && (SenderRank(m) < SenderRank(c) ||
                             (m.sender == c.sender && Less(CallDistance(m), CallDistance(c)))))
  }

  lemma SwitchingCloser(c: State, n: nat, symbols: seq<nat>)
    requires Inv(c, n, symbols) && c.sender.Switching? && !c.gen.phase.Outside?
    ensures Enabled(c, Urge(c)) && Shape(Apply(c, Urge(c))) && Closer(Apply(c, Urge(c)), c)
  {
    hide M.Inv, F.Inv, M.Apply, M.Enabled, Account, Ready, M.PhaseRank, M.CallDistance, M.Closer;
    M.UrgeCloser(c.gen);
    UrgeKind(c.gen);
    M.CloserDrops(M.Apply(c.gen, M.Urge(c.gen)), c.gen);
  }

  lemma UrgeKind(g: M.Gen)
    requires M.Shape(g)
    ensures M.Urge(g).Step? || (M.Urge(g).Worker? && !M.Enabled(g, M.Step))
  {
    hide M.Enabled;
  }

  lemma WaitingCloser(c: State, n: nat, symbols: seq<nat>)
    requires Inv(c, n, symbols) && c.sender.Waiting?
    ensures Enabled(c, Urge(c)) && Shape(Apply(c, Urge(c))) && Closer(Apply(c, Urge(c)), c)
  {
    hide M.Inv, F.Inv, F.WaitEnabled, F.WaitNext, F.WorkEnabled, F.WorkNext, Account, WaitRank, WorkRank;
    if !c.clock.wait.Away? {
      ClockMoves(c.clock);
      if F.WaitEnabled(c.clock) { WaitStepCloser(c.clock); }
    }
  }

  lemma UrgeCloser(c: State, n: nat, symbols: seq<nat>)
    requires Inv(c, n, symbols) && !c.sender.Done?
    ensures Enabled(c, Urge(c)) && Shape(Apply(c, Urge(c))) && Closer(Apply(c, Urge(c)), c)
  {
    match c.sender
    case Switching =>
      if c.gen.phase.Outside? { HandsOver(c, n, symbols); } else { SwitchingCloser(c, n, symbols); }
    case Waiting => WaitingCloser(c, n, symbols);
    case Next => HandsOver(c, n, symbols);
  }

  /** Between calls the sender itself goes on. */
  lemma HandsOver(c: State, n: nat, symbols: seq<nat>)
    requires Inv(c, n, symbols) && (c.sender.Next? || (c.sender.Switching? && c.gen.phase.Outside?))
    ensures Enabled(c, Urge(c)) && Shape(Apply(c, Urge(c))) && Closer(Apply(c, Urge(c)), c)
  {
    hide F.Inv, M.CallDistance, M.PhaseRank, WaitRank, WorkRank, Less;
    if c.sender.Next? && c.todo != [] { GenFree(c.gen, c.todo[0]); }
  }

  lemma GenFree(g: M.Gen, target: nat)
    requires M.Inv(g) && g.phase.Outside?
    ensures M.Enabled(g, M.Switch(target)) && M.Shape(M.Apply(g, M.Switch(target)))
  {
    hide F.Inv, F.Apply;
    M.InvStep(g, M.Switch(target));
  }

  lemma {:induction false} Completes(c: State, n: nat, symbols: seq<nat>) returns (more: seq<Action>)
    requires Inv(c, n, symbols)
    ensures Legal(c, more) && Run(c, more).sender.Done?
    decreases |c.todo|, SenderRank(c), CallDistance(c).0, CallDistance(c).1, CallDistance(c).2, CallDistance(c).3,
              CallDistance(c).4
  {
    hide M.Inv, F.Inv, Account, Ready, Apply, Enabled, CallDistance;
    if c.sender.Done? {
      more := [];
    } else {
      UrgeCloser(c, n, symbols);
      InvStep(c, Urge(c), n, symbols);
      more := Completes(Apply(c, Urge(c)), n, symbols);
      more := [Urge(c)] + more;
    }
  }

  /** From every reachable point of a send the threads can finish it by themselves, in finitely
      many statements and without a spurious wake-up: no symbol is ever stuck. */
  lemma SendCompletes(n: nat, symbols: seq<nat>, acts: seq<Action>) returns (more: seq<Action>)
    requires (forall k | 0 <= k < |symbols| :: symbols[k] < n) && Legal(Init(n, symbols), acts)
    ensures var c := Run(Init(n, symbols), acts);
            Legal(c, more) && Run(c, more).sender.Done? && Run(c, more).gen.played == symbols
  {
    hide Apply, Enabled, M.Inv, F.Inv;
    InvInit(n, symbols);
    InvRun(Init(n, symbols), acts, n, symbols);
    var c := Run(Init(n, symbols), acts);
    more := Completes(c, n, symbols);
    InvRun(c, more, n, symbols);
    DonePlayed(Run(c, more), symbols);
  }
}
