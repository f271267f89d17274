/**
  Starting, stopping and restarting the ingestion manager, interleaved with the
  event processors that earlier starts have spawned.

  Each successful claim of `started` begins a new generation with a stop channel, a
  done channel and a cancellable context of its own, all numbered by the generation.
  Stop holds the lock while it waits, so no other locked region runs meanwhile.

  Times are in milliseconds.  A processor's own steps take no time; time passes while
  it waits for an event, for the limiter, for a response or for a token.
 */
module Lifecycle {
  import opened Resources

  const DRAIN_TIMEOUT: nat := 5_000
  const STOP_TIMEOUT: nat := 10_000
  const SEND_TIMEOUT: nat := 30_000

  // What a processor is doing about the event it has taken, if any: it waits for the
  // limiter; it is in a send that began at `since`; or inside that send it waits for
  // another caller's token refresh.
  datatype Activity = Idle | InLimiter | InSend(since: nat) | InRefresh(since: nat)

  // The processor of a generation: none if handler registration failed; it reads which
  // done channel it is to close when it first runs, not when it is spawned.  The drain
  // context is made when the cancellation is seen.
  datatype Processor =
    | Absent
    | Spawned
    | Live(done: nat, doing: Activity)
    | Draining(done: nat, doing: Activity, until: nat)
    | Exited(done: nat)
  {
    predicate Running() {
      Live? || Draining?
    }

    predicate Active() {
      Spawned? || Running()
    }
  }

  datatype State = State(
    started: bool,
    processors: seq<Processor>,
    cancelledAt: seq<Option<nat>>,
    closedStops: seq<nat>,
    closedDones: seq<nat>,
    stopping: Option<nat>,  // since when a Stop has been waiting, holding the lock
    now: nat,
    stalled: nat)           // how much time has passed in refresh waits beyond their context

  datatype Step =
    | Start(registers: bool)
    | BeginStop
    | StopDone
    | StopTimeout
    | ParentCancel(g: nat)
    | FirstRun(g: nat)
    | Take(g: nat)
    | Admit(g: nat)
    | AwaitRefresh(g: nat)
    | RefreshDone(g: nat)
    | Finish(g: nat)
    | SeeCancel(g: nat)
    | Exit(g: nat)
    | Tick(elapsed: nat)
    | Stall(elapsed: nat)
  {
    predicate ByProcessor() {
      FirstRun? || Take? || Admit? || AwaitRefresh? || RefreshDone? || Finish? || SeeCancel? || Exit?
    }
  }

  function Initial(): State {
    State(false, [], [], [], [], None, 0, 0)
  }

  function Current(s: State): int {
    |s.processors| - 1
  }

  /* ---- How long things may take ---- */

  // When the context under which a running processor takes events ends, if it does.
  function ContextEnd(s: State, g: nat): Option<nat>
    requires g < |s.processors| && g < |s.cancelledAt| && s.processors[g].Running()
  {
    if s.processors[g].Draining? then Some(s.processors[g].until) else s.cancelledAt[g]
  }

  function Earlier(a: nat, b: Option<nat>): nat {
    if b.Some? && b.value < a then b.value else a
  }

  // Until when a processor may go on as it is.  The goroutine runs as soon as it can; an
  // idle processor waits for an event only while it is live and not cancelled; a limiter
  // wait ends with its context; a send also ends thirty seconds after it began.
  function Patience(s: State, g: nat): Option<nat>
    requires g < |s.processors| && g < |s.cancelledAt|
  {
    var p := s.processors[g];
    if p.Spawned? then Some(s.now)
    else if !p.Running() then None
    else
      match p.doing
      case Idle => if p.Live? && s.cancelledAt[g].None? then None else Some(s.now)
      case InLimiter => ContextEnd(s, g)
      case InSend(since) => Some(Earlier(since + SEND_TIMEOUT, ContextEnd(s, g)))
      case InRefresh(since) => Some(Earlier(since + SEND_TIMEOUT, ContextEnd(s, g)))
  }

  predicate MayWait(s: State, g: nat, t: nat)
    requires g < |s.processors| && g < |s.cancelledAt|
  {
    t == s.now || Patience(s, g).None? || t <= Patience(s, g).value
  }

  predicate AwaitsRefresh(p: Processor) {
    p.Running() && p.doing.InRefresh?
  }

  // The wait for another caller's refresh does not look at its context.
  predicate AllMayWait(s: State, t: nat, stalling: bool)
    requires |s.cancelledAt| == |s.processors|
  {
    forall g: nat | g < |s.processors| :: (stalling && AwaitsRefresh(s.processors[g])) || MayWait(s, g, t)
  }

  predicate Enabled(s: State, step: Step) {
    match step
    case Start(_) => s.stopping.None?
    case BeginStop => s.stopping.None? && (s.started ==> 0 < |s.processors| == |s.cancelledAt|)
    case StopDone => s.stopping.Some? && Current(s) in s.closedDones
    case StopTimeout => s.stopping.Some? && s.now >= s.stopping.value + STOP_TIMEOUT
    case ParentCancel(g) => g < |s.cancelledAt|
    case FirstRun(g) => g < |s.processors| && s.processors[g].Spawned?
    case Take(g) => Doing(s, g, Idle)
    case Admit(g) => Doing(s, g, InLimiter)
    case AwaitRefresh(g) => g < |s.processors| && s.processors[g].Running() && s.processors[g].doing.InSend?
    case RefreshDone(g) => g < |s.processors| && AwaitsRefresh(s.processors[g])
    case Finish(g) =>
      && g < |s.processors| && s.processors[g].Running()
      && (s.processors[g].doing.InLimiter? || s.processors[g].doing.InSend?)
    case SeeCancel(g) =>
      Doing(s, g, Idle) && s.processors[g].Live? && g < |s.cancelledAt| && s.cancelledAt[g].Some?
    case Exit(g) => Doing(s, g, Idle) && s.processors[g].Draining?
    case Tick(elapsed) => |s.cancelledAt| == |s.processors| && AllMayWait(s, s.now + elapsed, false)
    case Stall(elapsed) => |s.cancelledAt| == |s.processors| && AllMayWait(s, s.now + elapsed, true)
  }

  predicate Doing(s: State, g: nat, a: Activity) {
    g < |s.processors| && s.processors[g].Running() && s.processors[g].doing == a
  }

  function Cancelled(s: State, g: nat): seq<Option<nat>>
    requires g < |s.cancelledAt|
  {
    if s.cancelledAt[g].None? then s.cancelledAt[g := Some(s.now)] else s.cancelledAt
  }

  function Started(s: State, registers: bool): State {
    if s.started then s
    else s.(started := true, processors := s.processors + [if registers then Spawned else Absent],
            cancelledAt := s.cancelledAt + [None])
  }

  function StopBegun(s: State): State
    requires s.started ==> 0 < |s.processors| == |s.cancelledAt|
  {
    if !s.started then s
    else s.(closedStops := s.closedStops + [Current(s)], cancelledAt := Cancelled(s, Current(s)),
            stopping := Some(s.now))
  }

  function StopEnded(s: State): State {
    s.(started := false, stopping := None)
  }

  function With(s: State, g: nat, a: Activity): State
    requires g < |s.processors| && s.processors[g].Running()
  {
    s.(processors := s.processors[g := s.processors[g].(doing := a)])
  }

  function Do(s: State, step: Step): State
    requires Enabled(s, step)
  {
    match step
    case Start(registers) => Started(s, registers)
    case BeginStop => StopBegun(s)
    case StopDone => StopEnded(s)
    case StopTimeout => StopEnded(s)
    case ParentCancel(g) => s.(cancelledAt := Cancelled(s, g))
    case FirstRun(g) => s.(processors := s.processors[g := Live(Current(s), Idle)])
    case Take(g) => With(s, g, InLimiter)
    case Admit(g) => With(s, g, InSend(s.now))
    case AwaitRefresh(g) => With(s, g, InRefresh(s.processors[g].doing.since))
    case RefreshDone(g) => With(s, g, InSend(s.processors[g].doing.since))
    case Finish(g) => With(s, g, Idle)
    case SeeCancel(g) =>
      s.(processors := s.processors[g := Draining(s.processors[g].done, Idle, s.now + DRAIN_TIMEOUT)])
    case Exit(g) =>
      s.(processors := s.processors[g := Exited(s.processors[g].done)],
         closedDones := s.closedDones + [s.processors[g].done])
    case Tick(elapsed) => s.(now := s.now + elapsed)
    case Stall(elapsed) => s.(now := s.now + elapsed, stalled := s.stalled + elapsed)
  }

  ghost predicate Run(s: State, steps: seq<Step>, s': State)
    decreases |steps|
  {
    if steps == [] then s == s' else Enabled(s, steps[0]) && Run(Do(s, steps[0]), steps[1..], s')
  }

  /* ---- The invariant ---- */

  predicate OldOrStopped(s: State, g: nat) {
    g < Current(s) || !s.started
  }

  ghost predicate Generation(s: State, g: nat)
    requires g < |s.processors| == |s.cancelledAt|
  {
    var p := s.processors[g];
    && (OldOrStopped(s, g) ==> !p.Active())
    && (p.Running() || p.Exited? ==> p.done == g)
    && (p.Draining? ==> s.cancelledAt[g].Some?)
    && (p.Exited? <==> g in s.closedDones)
    && (g in s.closedStops <==> OldOrStopped(s, g) || s.stopping.Some?)
  }

  ghost predicate Inv(s: State) {
    && |s.processors| == |s.cancelledAt|
    && (s.started ==> 0 < |s.processors|)
    && (s.stopping.Some? ==> s.started && s.cancelledAt[Current(s)].Some?)
    && Distinct(s.closedStops) && Distinct(s.closedDones)
    && (forall g | g in s.closedStops || g in s.closedDones :: g < |s.processors|)
    && forall g: nat | g < |s.processors| :: Generation(s, g)
  }

  // Stop gives up although its processor is still active.
  predicate Abandons(s: State, step: Step) {
    step.StopTimeout? && 0 <= Current(s) && s.processors[Current(s)].Active()
  }

  lemma StartKeepsInv(s: State, registers: bool)
    requires Inv(s) && Enabled(s, Start(registers))
    ensures Inv(Do(s, Start(registers)))
  {
    var s' := Do(s, Start(registers));
    forall g: nat | g < |s'.processors| ensures Generation(s', g) {
      if g < |s.processors| {
        assert Generation(s, g);
      }
    }
  }

  lemma BeginStopKeepsInv(s: State)
    requires Inv(s) && Enabled(s, BeginStop)
    ensures Inv(Do(s, BeginStop))
  {
    var s' := Do(s, BeginStop);
    if s.started {
      assert Generation(s, Current(s));
      assert Current(s) !in s.closedStops;
      forall g: nat | g < |s'.processors| ensures Generation(s', g) {
        assert Generation(s, g);
      }
    }
  }

  lemma EndStopKeepsInv(s: State, step: Step)
    requires Inv(s) && Enabled(s, step) && (step.StopDone? || step.StopTimeout?) && !Abandons(s, step)
    ensures Inv(Do(s, step))
  {
    var s' := Do(s, step);
    assert Generation(s, Current(s));
    forall g: nat | g < |s'.processors| ensures Generation(s', g) {
      assert Generation(s, g);
    }
  }

  lemma ProcessorKeepsInv(s: State, step: Step)
    requires Inv(s) && Enabled(s, step) && (step.ByProcessor() || step.ParentCancel?)
    ensures Inv(Do(s, step))
  {
    var s' := Do(s, step);
    assert Generation(s, step.g);
    forall g: nat | g < |s'.processors| ensures Generation(s', g) {
      assert Generation(s, g);
    }
  }

  lemma StepKeepsInv(s: State, step: Step)
    requires Inv(s) && Enabled(s, step) && !Abandons(s, step)
    ensures Inv(Do(s, step))
  {
    match step
    case Start(registers) => StartKeepsInv(s, registers);
    case BeginStop => BeginStopKeepsInv(s);
    case StopDone | StopTimeout => EndStopKeepsInv(s, step);
    case ParentCancel(_) | FirstRun(_) | Take(_) | Admit(_) | AwaitRefresh(_) | RefreshDone(_) | Finish(_)
      | SeeCancel(_) | Exit(_) => ProcessorKeepsInv(s, step);
    case Tick(_) | Stall(_) =>
      forall g: nat | g < |s.processors| ensures Generation(Do(s, step), g) {
        assert Generation(s, g);
      }
  }

  // Giving up on an active processor is the one step that breaks the invariant, and it
  // always does.
  lemma OnlyAbandoningHarms(s: State, step: Step)
    requires Inv(s) && Enabled(s, step)
    ensures Inv(Do(s, step)) <==> !Abandons(s, step)
  {
    if Abandons(s, step) {
      assert !Generation(Do(s, step), Current(s));
    } else {
      StepKeepsInv(s, step);
    }
  }

  ghost predicate Patient(s: State, steps: seq<Step>)
    decreases |steps|
  {
    steps == [] || (Enabled(s, steps[0]) && !Abandons(s, steps[0]) && Patient(Do(s, steps[0]), steps[1..]))
  }

  lemma {:induction false} RunKeepsInv(s: State, steps: seq<Step>, s': State)
    requires Inv(s) && Run(s, steps, s') && Patient(s, steps)
    ensures Inv(s')
    decreases |steps|
  {
    if steps == [] {
    } else {
      StepKeepsInv(s, steps[0]);
      RunKeepsInv(Do(s, steps[0]), steps[1..], s');
    }
  }

  // Over every interleaving of starts, stops, cancellations and restarts in which no
  // Stop gives up on an active processor: no channel is closed twice, at most one
  // processor is active, it is the current one and closes its own done channel, and the
  // stop channel of a started manager is open.
  lemma LifecycleIsSafe(steps: seq<Step>, s: State)
    requires Run(Initial(), steps, s) && Patient(Initial(), steps)
    ensures Distinct(s.closedStops) && Distinct(s.closedDones)
    ensures forall g: nat | g < |s.processors| && s.processors[g].Active() :: s.started && g == Current(s)
    ensures forall g: nat | g < |s.processors| && s.processors[g].Running() ::
      s.processors[g].done == g && g !in s.closedDones
    ensures s.started && s.stopping.None? ==> 0 < |s.processors| && Current(s) !in s.closedStops
  {
    RunKeepsInv(Initial(), steps, s);
    forall g: nat | g < |s.processors|
      ensures s.processors[g].Active() ==> s.started && g == Current(s)
      ensures s.processors[g].Running() ==> s.processors[g].done == g && g !in s.closedDones
    {
      assert Generation(s, g);
    }
    if s.started && s.stopping.None? {
      assert Generation(s, Current(s));
    }
  }

  /* ---- When can Stop give up on an active processor? ---- */

  // By when a cancelled generation has reached the end of its drain: only time spent in
  // stalled refresh waits can put it off.
  ghost predicate InTime(s: State, g: nat)
    requires g < |s.processors| == |s.cancelledAt|
  {
    var p := s.processors[g];
    && (p.Draining? ==> s.cancelledAt[g].Some?)
    && (p.Running() && (p.doing.InSend? || p.doing.InRefresh?) ==>
          p.doing.since <= s.now <= p.doing.since + SEND_TIMEOUT + s.stalled)
    && (s.cancelledAt[g].Some? ==>
          var c := s.cancelledAt[g].value;
          && c <= s.now
          && (p.Spawned? || p.Live? ==> s.now <= c + s.stalled)
          && (p.Draining? ==> s.now <= c + DRAIN_TIMEOUT + s.stalled
                              && c + DRAIN_TIMEOUT <= p.until <= c + DRAIN_TIMEOUT + s.stalled))
  }

  ghost predicate Timed(s: State) {
    && |s.processors| == |s.cancelledAt|
    && (forall g: nat | g < |s.processors| :: InTime(s, g))
    && (s.started ==> 0 <= Current(s))
    && (s.stopping.Some? ==>
          && 0 <= Current(s) && s.cancelledAt[Current(s)].Some?
          && s.cancelledAt[Current(s)].value <= s.stopping.value <= s.now)
  }

  // While time passes every processor stays within its patience, or stalls on record.
  lemma TimePassesInTime(s: State, step: Step, g: nat)
    requires Timed(s) && Enabled(s, step) && (step.Tick? || step.Stall?) && g < |s.processors|
    ensures InTime(Do(s, step), g)
  {
    assert InTime(s, g);
    if step.Stall? && AwaitsRefresh(s.processors[g]) {
    } else {
      assert MayWait(s, g, s.now + step.elapsed);
    }
  }

  lemma ProcessorStaysInTime(s: State, step: Step, g: nat)
    requires Timed(s) && Enabled(s, step) && step.ByProcessor() && g < |s.processors|
    ensures InTime(Do(s, step), g)
  {
    assert InTime(s, g);
  }

  lemma ManagerStaysInTime(s: State, step: Step, g: nat)
    requires Timed(s) && Enabled(s, step) && !step.ByProcessor() && !step.Tick? && !step.Stall?
    requires g < |Do(s, step).processors|
    ensures |Do(s, step).processors| == |Do(s, step).cancelledAt| && InTime(Do(s, step), g)
  {
    if g < |s.processors| {
      assert InTime(s, g);
    }
  }

  lemma StepKeepsInTime(s: State, step: Step, g: nat)
    requires Timed(s) && Enabled(s, step) && g < |Do(s, step).processors|
    ensures |Do(s, step).processors| == |Do(s, step).cancelledAt|
    ensures InTime(Do(s, step), g)
  {
    if step.Tick? || step.Stall? {
      TimePassesInTime(s, step, g);
    } else if step.ByProcessor() {
      ProcessorStaysInTime(s, step, g);
    } else {
      ManagerStaysInTime(s, step, g);
    }
  }

  lemma StepKeepsTimed(s: State, step: Step)
    requires Timed(s) && Enabled(s, step)
    ensures Timed(Do(s, step))
  {
    var s' := Do(s, step);
    assert |s'.processors| == |s'.cancelledAt|;
    forall g: nat | g < |s'.processors| ensures InTime(s', g) {
      StepKeepsInTime(s, step, g);
    }
    assert s.started ==> InTime(s, Current(s));
  }

  lemma {:induction false} RunKeepsTimed(s: State, steps: seq<Step>, s': State)
    requires Timed(s) && Run(s, steps, s')
    ensures Timed(s')
    decreases |steps|
  {
    if steps == [] {
    } else {
      StepKeepsTimed(s, steps[0]);
      RunKeepsTimed(Do(s, steps[0]), steps[1..], s');
    }
  }

  // In every run at all, whatever limiter, server and other callers do: a processor is
  // gone five seconds after its cancellation, plus the time that token waits have held
  // processors beyond their contexts; and Stop gives up on an active processor only if
  // these add up to five seconds or more.
  lemma DrainMeetsDeadline(steps: seq<Step>, s: State, g: nat)
    requires Run(Initial(), steps, s) && g < |s.processors|
    ensures |s.cancelledAt| == |s.processors|
    ensures s.processors[g].Active() && s.cancelledAt[g].Some? ==>
      s.now <= s.cancelledAt[g].value + 5_000 + s.stalled
    ensures Enabled(s, StopTimeout) && Abandons(s, StopTimeout) ==> s.stalled >= 5_000
  {
    RunKeepsTimed(Initial(), steps, s);
    assert InTime(s, g);
    if Enabled(s, StopTimeout) && Abandons(s, StopTimeout) {
      assert InTime(s, Current(s));
    }
  }

  // A send is over thirty seconds after it began, plus that time, in a live phase as well.
  lemma SendMeetsTimeout(steps: seq<Step>, s: State, g: nat)
    requires Run(Initial(), steps, s) && g < |s.processors| && s.processors[g].Running()
    requires s.processors[g].doing.InSend? || s.processors[g].doing.InRefresh?
    ensures s.processors[g].doing.since <= s.now <= s.processors[g].doing.since + 30_000 + s.stalled
  {
    RunKeepsTimed(Initial(), steps, s);
    assert InTime(s, g);
  }

  lemma StopOutlivesDrain(s: State, step: Step)
    requires Timed(s) && Enabled(s, step) && s.stalled < 5_000
    ensures !Abandons(s, step)
  {
    if step.StopTimeout? {
      assert InTime(s, Current(s));
    }
  }

  lemma {:induction false} StalledGrows(s: State, steps: seq<Step>, s': State)
    requires Run(s, steps, s')
    ensures s.stalled <= s'.stalled
    decreases |steps|
  {
    if steps == [] {
    } else {
      StalledGrows(Do(s, steps[0]), steps[1..], s');
    }
  }

  lemma {:induction false} ShortStallsArePatient(s: State, steps: seq<Step>, s': State)
    requires Timed(s) && Run(s, steps, s') && s'.stalled < 5_000
    ensures Patient(s, steps)
    decreases |steps|
  {
    if steps == [] {
    } else {
      StalledGrows(s, steps, s');
      StopOutlivesDrain(s, steps[0]);
      StepKeepsTimed(s, steps[0]);
      ShortStallsArePatient(Do(s, steps[0]), steps[1..], s');
    }
  }

  // So the lifecycle is safe in every run in which token waits hold processors beyond
  // their contexts for less than five seconds in all.
  lemma TimelyRunsAreSafe(steps: seq<Step>, s: State)
    requires Run(Initial(), steps, s) && s.stalled < 5_000
    ensures Patient(Initial(), steps) && Inv(s)
    ensures Enabled(s, StopTimeout) ==> !Abandons(s, StopTimeout)
  {
    ShortStallsArePatient(Initial(), steps, s);
    RunKeepsInv(Initial(), steps, s);
    RunKeepsTimed(Initial(), steps, s);
    if Enabled(s, StopTimeout) {
      StopOutlivesDrain(s, StopTimeout);
    }
  }

  // Start changes nothing exactly when the manager is started.
  lemma StartIsExclusive(s: State, registers: bool)
    requires Enabled(s, Start(registers))
    ensures Do(s, Start(registers)) == s <==> s.started
  {
    if !s.started {
      assert |Do(s, Start(registers)).processors| == |s.processors| + 1;
    }
  }

  // Stop does nothing exactly when the manager is not started.  So a Stop that comes
  // before the background Start has the lock is lost, and a processor outlives it.
  lemma EarlyStopIsLost(s: State)
    requires Inv(s) && s.stopping.None?
    ensures Do(s, BeginStop) == s <==> !s.started
    ensures !s.started ==> exists s' ::
      && Run(s, [BeginStop] + ([Start(true)] + ([FirstRun(|s.processors|)] + [])), s')
      && s'.started && s'.processors == s.processors + [Live(|s.processors|, Idle)]
  {
    if s.started {
      assert Do(s, BeginStop).stopping.Some?;
    } else {
      var g := |s.processors|;
      var s1 := Do(s, Start(true));
      var s2 := Do(s1, FirstRun(g));
      assert s2.processors == s.processors + [Live(g, Idle)];
      Follow(s1, FirstRun(g), [], s2);
      Follow(s, Start(true), [FirstRun(g)] + [], s2);
      Follow(s, BeginStop, [Start(true)] + ([FirstRun(g)] + []), s2);
    }
  }

  // A manager that is stopped, by itself or by another, stays so unless it is started again.
  lemma {:induction false} StoppedStaysStopped(s: State, steps: seq<Step>, s': State)
    requires !s.started && s.stopping.None? && Run(s, steps, s') && forall step | step in steps :: !step.Start?
    ensures !s'.started
    decreases |steps|
  {
    if steps == [] {
    } else {
      assert steps[0] in steps && forall step | step in steps[1..] :: step in steps;
      StoppedStaysStopped(Do(s, steps[0]), steps[1..], s');
    }
  }

  /* ---- A waiting Stop ---- */

  // Neither the manager's lock nor the reconciler's is needed for these.
  predicate TakesNoLock(step: Step) {
    step.FirstRun? || step.RefreshDone? || step.Finish? || step.SeeCancel? || step.Exit?
  }

  lemma Follow(s: State, step: Step, rest: seq<Step>, s': State)
    requires Enabled(s, step) && Run(Do(s, step), rest, s')
    ensures Run(s, [step] + rest, s')
  {
    assert ([step] + rest)[1..] == rest;
  }

  // How many such steps the current processor is away from its exit.
  function StepsToExit(p: Processor): nat {
    match p
    case Absent => 0
    case Exited(_) => 0
    case Spawned => 3
    case Live(_, doing) => 2 + StepsToIdle(doing)
    case Draining(_, doing, _) => 1 + StepsToIdle(doing)
  }

  function StepsToIdle(a: Activity): nat {
    match a case Idle => 0 case InLimiter => 1 case InSend(_) => 1 case InRefresh(_) => 2
  }

  // The next of them.
  function NextStep(p: Processor, g: nat): Step
    requires p.Active()
  {
    if p.Spawned? then FirstRun(g)
    else if p.doing.InRefresh? then RefreshDone(g)
    else if !p.doing.Idle? then Finish(g)
    else if p.Live? then SeeCancel(g) else Exit(g)
  }

  // Stop cannot deadlock on its processor: at most four steps of the processor, none of
  // which needs a lock, bring it to close the channel Stop waits for.
  lemma {:induction false} StopGetsDone(s: State) returns (steps: seq<Step>, s': State)
    requires Inv(s) && s.stopping.Some? && !s.processors[Current(s)].Absent?
    ensures Run(s, steps, s') && |steps| == StepsToExit(s.processors[Current(s)]) <= 4
    ensures forall step | step in steps :: TakesNoLock(step)
    ensures Enabled(s', StopDone)
    decreases StepsToExit(s.processors[Current(s)])
  {
    var g := Current(s);
    assert Generation(s, g);
    if s.processors[g].Exited? {
      steps, s' := [], s;
    } else {
      var step := NextStep(s.processors[g], g);
      ProcessorKeepsInv(s, step);
      var rest;
      rest, s' := StopGetsDone(Do(s, step));
      Follow(s, step, rest, s');
      steps := [step] + rest;
    }
  }

  // When handler registration failed there is no processor to wait for: Stop then ends
  // by its timeout and in no other way.
  lemma {:induction false} StopWithoutProcessorTimesOut(s: State, steps: seq<Step>, s': State)
    requires Inv(s) && s.stopping.Some? && s.processors[Current(s)].Absent?
    requires Run(s, steps, s') && StopTimeout !in steps
    ensures s'.stopping == s.stopping && s'.started && !Enabled(s', StopDone)
    ensures Enabled(s', StopTimeout) <==> s'.now - s.stopping.value >= 10_000
    decreases |steps|
  {
    assert Generation(s, Current(s));
    if steps == [] {
    } else {
      assert steps[0] in steps && forall step | step in steps[1..] :: step in steps;
      StepKeepsInv(s, steps[0]);
      StopWithoutProcessorTimesOut(Do(s, steps[0]), steps[1..], s');
    }
  }

  // The five seconds are exact, and the one thing a context does not end is the wait for
  // another caller's token refresh: a send in the drain that waits that long makes Stop
  // give up, and a restart then runs beside the old processor.
  lemma StalledProcessorsOverlap()
    ensures exists steps: seq<Step>, s: State ::
      && Run(Initial(), steps, s) && s.stalled == 5_000
      && |s.processors| == 2 && s.processors[0].Running() && s.processors[1].Running()
  {
    var s1 := Do(Initial(), Start(true));
    var s2 := Do(s1, FirstRun(0));
    var s3 := Do(s2, BeginStop);
    var s4 := Do(s3, SeeCancel(0));
    assert s4.processors == [Draining(0, Idle, DRAIN_TIMEOUT)];
    var s := StallInDrain(s4);
    var tail := DrainTail();
    Follow(s3, SeeCancel(0), tail, s);
    Follow(s2, BeginStop, [SeeCancel(0)] + tail, s);
    Follow(s1, FirstRun(0), [BeginStop] + ([SeeCancel(0)] + tail), s);
    Follow(Initial(), Start(true), [FirstRun(0)] + ([BeginStop] + ([SeeCancel(0)] + tail)), s);
  }

  function RestartTail(): seq<Step> {
    [StopTimeout] + ([Start(true)] + ([FirstRun(1)] + []))
  }

  function DrainTail(): seq<Step> {
    [Take(0)] + ([Admit(0)] + ([AwaitRefresh(0)] + ([Tick(DRAIN_TIMEOUT)] + ([Stall(DRAIN_TIMEOUT)] + RestartTail()))))
  }

  // The processor waits for a refresh until its drain context has ended, and then as long again.
  lemma StallInDrain(s: State) returns (s': State)
    requires s == State(true, [Draining(0, Idle, DRAIN_TIMEOUT)], [Some(0)], [0], [], Some(0), 0, 0)
    ensures Run(s, DrainTail(), s') && s'.stalled == DRAIN_TIMEOUT
    ensures |s'.processors| == 2 && s'.processors[0].Running() && s'.processors[1].Running()
  {
    var s1 := Do(s, Take(0));
    var s2 := Do(s1, Admit(0));
    var s3 := Do(s2, AwaitRefresh(0));
    assert s3.processors == [Draining(0, InRefresh(0), DRAIN_TIMEOUT)];
    var s4 := Do(s3, Tick(DRAIN_TIMEOUT));
    var s5 := Do(s4, Stall(DRAIN_TIMEOUT));
    s' := GiveUpAndRestart(s5);
    Follow(s4, Stall(DRAIN_TIMEOUT), RestartTail(), s');
    Follow(s3, Tick(DRAIN_TIMEOUT), [Stall(DRAIN_TIMEOUT)] + RestartTail(), s');
    Follow(s2, AwaitRefresh(0), [Tick(DRAIN_TIMEOUT)] + ([Stall(DRAIN_TIMEOUT)] + RestartTail()), s');
    Follow(s1, Admit(0), [AwaitRefresh(0)] + ([Tick(DRAIN_TIMEOUT)] + ([Stall(DRAIN_TIMEOUT)] + RestartTail())), s');
    Follow(s, Take(0), [Admit(0)] + ([AwaitRefresh(0)]
      + ([Tick(DRAIN_TIMEOUT)] + ([Stall(DRAIN_TIMEOUT)] + RestartTail()))), s');
  }

  lemma GiveUpAndRestart(s: State) returns (s': State)
    requires s.started && |s.processors| == 1 && |s.cancelledAt| == 1 && s.processors[0].Running()
    requires s.stopping == Some(0) && s.now == STOP_TIMEOUT
    ensures Run(s, RestartTail(), s') && s'.stalled == s.stalled
    ensures |s'.processors| == 2 && s'.processors[0].Running() && s'.processors[1].Running()
  {
    var s1 := Do(s, StopTimeout);
    var s2 := Do(s1, Start(true));
    s' := Do(s2, FirstRun(1));
    Follow(s2, FirstRun(1), [], s');
    Follow(s1, Start(true), [FirstRun(1)] + [], s');
    Follow(s, StopTimeout, [Start(true)] + ([FirstRun(1)] + []), s');
  }

  /* ---- The manager's code ---- */

  class Manager {
    var started: bool
    var processors: seq<Processor>  // the goroutines spawned so far
    var cancelledAt: seq<Option<nat>>
    var closedStops: seq<nat>
    var closedDones: seq<nat>
    var stopping: Option<nat>

    ghost function View(now: nat, stalled: nat): State
      reads this
    {
      State(started, processors, cancelledAt, closedStops, closedDones, stopping, now, stalled)
    }

    constructor ()
      ensures View(0, 0) == Initial()
    {
      started, processors, cancelledAt, closedStops, closedDones, stopping := false, [], [], [], [], None;
    }

    // The locked region of Start.
    method Claim(registers: bool, ghost now: nat, ghost stalled: nat) returns (claimed: bool)
      requires Enabled(View(now, stalled), Start(registers))
      modifies this
      ensures View(now, stalled) == Do(old(View(now, stalled)), Start(registers)) && claimed == !old(started)
      ensures started && stopping == old(stopping) && closedStops == old(closedStops) && closedDones == old(closedDones)
      ensures claimed ==> processors == old(processors) + [if registers then Spawned else Absent]
                          && cancelledAt == old(cancelledAt) + [None]
      ensures !claimed ==> processors == old(processors) && cancelledAt == old(cancelledAt)
    {
      if started {
        return false;
      }
      started := true;
      cancelledAt := cancelledAt + [None];
      processors := processors + [if registers then Spawned else Absent];
      claimed := true;
    }

    // Stop up to its wait.
    method RequestStop(now: nat, ghost stalled: nat) returns (waits: bool)
      requires Enabled(View(now, stalled), BeginStop)
      requires started ==> |processors| - 1 !in closedStops
      modifies this
      ensures View(now, stalled) == Do(old(View(now, stalled)), BeginStop) && waits == old(started)
      ensures started == old(started) && processors == old(processors) && closedDones == old(closedDones)
      ensures waits ==> stopping == Some(now) && closedStops == old(closedStops) + [|processors| - 1]
      ensures waits ==> cancelledAt == old(cancelledAt)[|processors| - 1 :=
        if old(cancelledAt)[|processors| - 1].Some? then old(cancelledAt)[|processors| - 1] else Some(now)]
      ensures !waits ==> stopping == old(stopping) && closedStops == old(closedStops)
                         && cancelledAt == old(cancelledAt)
    {
      if !started {
        return false;
      }
      var g := |processors| - 1;
      closedStops := closedStops + [g];
      if cancelledAt[g].None? {
        cancelledAt := cancelledAt[g := Some(now)];
      }
      stopping := Some(now);
      waits := true;
    }

    // Stop after its wait.
    method CompleteStop(ghost now: nat, ghost stalled: nat)
      requires Enabled(View(now, stalled), StopDone) || Enabled(View(now, stalled), StopTimeout)
      modifies this
      ensures View(now, stalled) == StopEnded(old(View(now, stalled))) && !started && stopping.None?
      ensures processors == old(processors) && cancelledAt == old(cancelledAt)
      ensures closedStops == old(closedStops) && closedDones == old(closedDones)
    {
      started := false;
      stopping := None;
    }
  }
}
