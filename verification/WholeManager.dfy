/**
  The ingestion manager as a whole: the lifecycle of module Lifecycle, the channel of
  module Pipeline and the limiter of module RateLimit, driven by the same steps.

  A lifecycle step of a processor is also a step of the pipeline, and the calls to the
  sender are logged with the time.  What the parts assume of each other is proved here:
  that there is one consumer, that its sends come one after the other, and when.
 */
module WholeManager {
  import opened Resources
  import L = Lifecycle
  import P = Pipeline
  import R = RateLimit
  import T = Transport

  // One call to the sender: when the limiter let it through, when it posted, and when it
  // returned, if it has.
  datatype Call = Call(admitted: nat, posts: seq<nat>, returned: Option<nat>)

  datatype World = World(life: L.State, pipe: P.Pipeline, limiter: R.Limiter, calls: seq<Call>)

  datatype Step =
    | Manage(step: L.Step)
    | Offer(event: ResourceEvent)
    | FirstRun(g: nat)
    | Take(g: nat)
    | Admit(g: nat)
    | Post(g: nat)
    | Finish(g: nat, fate: P.Fate)
    | SeeCancel(g: nat)
    | Exit(g: nat, timedOut: bool)

  function Start(capacity: nat, cfg: Option<R.Config>): World {
    World(L.Initial(), P.Initial(capacity), R.NewLimiter(cfg), [])
  }

  // What a step means for the lifecycle, and what it means for the channel.
  function LifeStep(s: Step): Option<L.Step> {
    match s
    case Manage(step) => Some(step)
    case Offer(_) => None
    case FirstRun(g) => Some(L.FirstRun(g))
    case Take(g) => Some(L.Take(g))
    case Admit(g) => Some(L.Admit(g))
    case Post(_) => None
    case Finish(g, _) => Some(L.Finish(g))
    case SeeCancel(g) => Some(L.SeeCancel(g))
    case Exit(g, _) => Some(L.Exit(g))
  }

  function ChannelStep(s: Step): Option<P.Step> {
    match s
    case Offer(e) => Some(P.Offer(e))
    case FirstRun(_) => Some(P.Restart)
    case Take(_) => Some(P.Take)
    case Finish(_, fate) => Some(P.Finish(fate))
    case SeeCancel(_) => Some(P.SeeCancel)
    case Exit(_, timedOut) => Some(if timedOut then P.DrainTimeout else P.DrainedOut)
    case _ => None
  }

  function Seconds(t: nat): real {
    t as real / 1000.0
  }

  function Times(calls: seq<Call>): seq<real> {
    seq(|calls|, i requires 0 <= i < |calls| => Seconds(calls[i].admitted))
  }

  predicate HasToken(w: World) {
    R.Available(w.limiter, Times(w.calls) + [Seconds(w.life.now)], |w.calls|) >= 1.0
  }

  // The guards are those of the processor's code; none of them looks at the pipeline's
  // phase or hand.
  predicate Enabled(w: World, s: Step) {
    && (LifeStep(s).Some? ==> L.Enabled(w.life, LifeStep(s).value))
    && match s
       case Manage(step) => !step.ByProcessor() || step.AwaitRefresh? || step.RefreshDone?
       case Take(_) => w.pipe.queue != []
       case Admit(_) => HasToken(w)
       case Post(g) =>
         && g < |w.life.processors| && w.life.processors[g].Running() && w.life.processors[g].doing.InSend?
         && w.calls != [] && |w.calls[|w.calls| - 1].posts| < T.MAX_RETRIES
       case Finish(g, fate) =>
         fate.Possible() && (fate.RateCancelled? <==> w.life.processors[g].doing.InLimiter?)
       case Exit(g, timedOut) =>
         if timedOut then w.life.now >= w.life.processors[g].until else w.pipe.queue == []
       case _ => true
  }

  function LastCall(calls: seq<Call>, c: Call): seq<Call>
    requires calls != []
  {
    calls[|calls| - 1 := c]
  }

  function CallsAfter(w: World, s: Step): seq<Call>
    requires Enabled(w, s)
  {
    match s
    case Admit(_) => w.calls + [Call(w.life.now, [], None)]
    case Post(_) =>
      var c := w.calls[|w.calls| - 1];
      LastCall(w.calls, c.(posts := c.posts + [w.life.now]))
    case Finish(g, fate) =>
      if fate.RateCancelled? || w.calls == [] then w.calls
      else LastCall(w.calls, w.calls[|w.calls| - 1].(returned := Some(w.life.now)))
    case _ => w.calls
  }

  function Do(w: World, s: Step): World
    requires Enabled(w, s)
  {
    World(
      if LifeStep(s).Some? then L.Do(w.life, LifeStep(s).value) else w.life,
      if ChannelStep(s).Some? && P.Enabled(w.pipe, ChannelStep(s).value)
      then P.Do(w.pipe, ChannelStep(s).value) else w.pipe,
      w.limiter, CallsAfter(w, s))
  }

  ghost predicate Run(w: World, steps: seq<Step>, w': World)
    decreases |steps|
  {
    if steps == [] then w == w' else Enabled(w, steps[0]) && Run(Do(w, steps[0]), steps[1..], w')
  }

  /* ---- Lifecycle and channel keep together ---- */

  function CurrentProcessor(s: L.State): L.Processor {
    if s.processors == [] then L.Absent else s.processors[|s.processors| - 1]
  }

  predicate Matches(p: L.Processor, pipe: P.Pipeline) {
    match p
    case Live(_, doing) => pipe.phase == P.Running && (pipe.hand.Some? <==> !doing.Idle?)
    case Draining(_, doing, _) => pipe.phase == P.Draining && (pipe.hand.Some? <==> !doing.Idle?)
    case _ => pipe.phase == P.Stopped && pipe.hand.None?
  }

  ghost predicate Coupled(w: World) {
    L.Inv(w.life) && Matches(CurrentProcessor(w.life), w.pipe)
  }

  predicate Abandons(w: World, s: Step) {
    s.Manage? && L.Abandons(w.life, s.step)
  }

  // Who takes a step as a processor is the current one.
  lemma OnlyCurrentActs(s: L.State, g: nat)
    requires L.Inv(s) && g < |s.processors| && s.processors[g].Active()
    ensures g == |s.processors| - 1 && s.started
  {
    assert L.Generation(s, g);
  }

  // The channel never refuses what the processor's code is about to do.
  lemma ChannelFollows(w: World, s: Step)
    requires Coupled(w) && Enabled(w, s) && ChannelStep(s).Some?
    ensures P.Enabled(w.pipe, ChannelStep(s).value)
  {
    match s
    case Offer(_) =>
    case FirstRun(g) => OnlyCurrentActs(w.life, g);
    case Take(g) => OnlyCurrentActs(w.life, g);
    case Finish(g, _) => OnlyCurrentActs(w.life, g);
    case SeeCancel(g) => OnlyCurrentActs(w.life, g);
    case Exit(g, _) => OnlyCurrentActs(w.life, g);
  }

  lemma ProcessorKeepsMatch(w: World, s: Step)
    requires Coupled(w) && Enabled(w, s) && !s.Manage? && !s.Offer? && !s.Post?
    ensures Matches(CurrentProcessor(Do(w, s).life), Do(w, s).pipe)
  {
    if ChannelStep(s).Some? {
      ChannelFollows(w, s);
    }
    OnlyCurrentActs(w.life, s.g);
  }

  lemma ManageKeepsMatch(w: World, s: Step)
    requires Coupled(w) && Enabled(w, s) && s.Manage?
    ensures Matches(CurrentProcessor(Do(w, s).life), Do(w, s).pipe)
  {
    if s.step.Start? && !w.life.started && w.life.processors != [] {
      assert L.Generation(w.life, |w.life.processors| - 1);
    } else if s.step.AwaitRefresh? || s.step.RefreshDone? {
      OnlyCurrentActs(w.life, s.step.g);
    }
  }

  lemma StepKeepsCoupled(w: World, s: Step)
    requires Coupled(w) && Enabled(w, s) && !Abandons(w, s)
    ensures Coupled(Do(w, s))
  {
    if LifeStep(s).Some? {
      L.StepKeepsInv(w.life, LifeStep(s).value);
    }
    if s.Manage? {
      ManageKeepsMatch(w, s);
    } else if !s.Offer? && !s.Post? {
      ProcessorKeepsMatch(w, s);
    }
  }

  /* ---- Sends come one after the other ---- */

  ghost predicate WellTimed(c: Call, now: nat) {
    && |c.posts| <= 5
    && c.admitted <= now
    && (c.returned.Some? ==> c.admitted <= c.returned.value <= now)
    && forall t | t in c.posts :: c.admitted <= t <= if c.returned.Some? then c.returned.value else now
  }

  predicate Sending(p: L.Processor) {
    p.Running() && (p.doing.InSend? || p.doing.InRefresh?)
  }

  ghost predicate AllWellTimed(calls: seq<Call>, now: nat) {
    forall i | 0 <= i < |calls| :: WellTimed(calls[i], now)
  }

  // All calls but the last have returned, before the next was admitted.
  ghost predicate OneByOne(calls: seq<Call>) {
    forall i, j | 0 <= i < j < |calls| ::
      calls[i].returned.Some? && calls[i].returned.value <= calls[j].admitted
  }

  predicate LastIsOpen(calls: seq<Call>) {
    calls != [] && calls[|calls| - 1].returned.None?
  }

  // The last call is open exactly while the current processor is sending.
  ghost predicate InTurn(w: World) {
    && AllWellTimed(w.calls, w.life.now)
    && OneByOne(w.calls)
    && (Sending(CurrentProcessor(w.life)) <==> LastIsOpen(w.calls))
    && R.Admitted(w.limiter, Times(w.calls))
  }

  lemma OneMoreCall(calls: seq<Call>, now: nat)
    requires AllWellTimed(calls, now) && OneByOne(calls) && !LastIsOpen(calls)
    ensures AllWellTimed(calls + [Call(now, [], None)], now) && OneByOne(calls + [Call(now, [], None)])
  {
    forall i | 0 <= i < |calls| ensures calls[i].returned.Some? && calls[i].returned.value <= now {
      assert WellTimed(calls[i], now);
      assert i < |calls| - 1 ==> calls[i].returned.Some? && calls[i].returned.value <= calls[|calls| - 1].admitted;
    }
    assert WellTimed(Call(now, [], None), now);
  }

  lemma AdmitKeepsInTurn(w: World, g: nat)
    requires InTurn(w) && Enabled(w, Admit(g))
    requires !Sending(CurrentProcessor(w.life)) && Sending(CurrentProcessor(Do(w, Admit(g)).life))
    ensures InTurn(Do(w, Admit(g)))
  {
    OneMoreCall(w.calls, w.life.now);
    AdmittedSoFar(w);
    assert Times(Do(w, Admit(g)).calls) == Times(w.calls) + [Seconds(w.life.now)];
  }

  lemma AdmittedSoFar(w: World)
    requires InTurn(w) && HasToken(w)
    ensures R.Admitted(w.limiter, Times(w.calls) + [Seconds(w.life.now)])
  {
    forall i | 0 <= i < |w.calls| ensures Times(w.calls)[i] <= Seconds(w.life.now) {
      assert WellTimed(w.calls[i], w.life.now);
    }
    R.AdmitOneMore(w.limiter, Times(w.calls), Seconds(w.life.now));
  }

  // The open call posts or returns.
  lemma LastCallMoves(calls: seq<Call>, c: Call, now: nat)
    requires AllWellTimed(calls, now) && OneByOne(calls) && calls != []
    requires WellTimed(c, now) && c.admitted == calls[|calls| - 1].admitted
    ensures AllWellTimed(LastCall(calls, c), now) && OneByOne(LastCall(calls, c))
    ensures Times(LastCall(calls, c)) == Times(calls)
  {
  }

  lemma PostKeepsInTurn(w: World, g: nat)
    requires InTurn(w) && Enabled(w, Post(g)) && Sending(CurrentProcessor(w.life))
    ensures InTurn(Do(w, Post(g)))
  {
    var c := w.calls[|w.calls| - 1];
    assert WellTimed(c, w.life.now);
    LastCallMoves(w.calls, c.(posts := c.posts + [w.life.now]), w.life.now);
  }

  lemma FinishKeepsInTurn(w: World, g: nat, fate: P.Fate)
    requires InTurn(w) && Enabled(w, Finish(g, fate))
    requires !Sending(CurrentProcessor(Do(w, Finish(g, fate)).life))
    requires Sending(CurrentProcessor(w.life)) <==> !fate.RateCancelled?
    ensures InTurn(Do(w, Finish(g, fate)))
  {
    if !fate.RateCancelled? {
      var c := w.calls[|w.calls| - 1];
      assert WellTimed(c, w.life.now);
      LastCallMoves(w.calls, c.(returned := Some(w.life.now)), w.life.now);
    }
  }

  lemma OthersKeepInTurn(w: World, s: Step)
    requires InTurn(w) && Enabled(w, s) && !s.Admit? && !s.Post? && !s.Finish?
    requires Sending(CurrentProcessor(Do(w, s).life)) <==> Sending(CurrentProcessor(w.life))
    ensures InTurn(Do(w, s))
  {
    LaterIsWellTimed(w.calls, w.life.now, Do(w, s).life.now);
  }

  lemma LaterIsWellTimed(calls: seq<Call>, now: nat, later: nat)
    requires AllWellTimed(calls, now) && now <= later
    ensures AllWellTimed(calls, later)
  {
    forall i | 0 <= i < |calls| ensures WellTimed(calls[i], later) {
      assert WellTimed(calls[i], now);
    }
  }

  // When sending begins and ends.
  lemma SendingAfterProcessor(s: L.State, step: L.Step)
    requires L.Inv(s) && L.Enabled(s, step) && step.ByProcessor()
    ensures step.g == |s.processors| - 1
    ensures Sending(CurrentProcessor(L.Do(s, step))) <==>
      step.Admit? || (!step.Finish? && Sending(CurrentProcessor(s)))
  {
    OnlyCurrentActs(s, step.g);
  }

  lemma SendingAfterManage(s: L.State, step: L.Step)
    requires L.Inv(s) && L.Enabled(s, step) && !step.ByProcessor()
    ensures Sending(CurrentProcessor(L.Do(s, step))) <==> Sending(CurrentProcessor(s))
  {
    if step.Start? && !s.started && s.processors != [] {
      assert L.Generation(s, |s.processors| - 1);
    }
  }

  lemma SendingAfter(s: L.State, step: L.Step)
    requires L.Inv(s) && L.Enabled(s, step)
    ensures Sending(CurrentProcessor(L.Do(s, step))) <==>
      step.Admit? || (!step.Finish? && Sending(CurrentProcessor(s)))
  {
    if step.ByProcessor() {
      SendingAfterProcessor(s, step);
    } else {
      SendingAfterManage(s, step);
    }
  }

  lemma StepKeepsInTurn(w: World, s: Step)
    requires L.Inv(w.life) && InTurn(w) && Enabled(w, s)
    ensures InTurn(Do(w, s))
  {
    if LifeStep(s).Some? {
      SendingAfter(w.life, LifeStep(s).value);
    }
    match s
    case Admit(g) =>
      OnlyCurrentActs(w.life, g);
      AdmitKeepsInTurn(w, g);
    case Post(g) =>
      OnlyCurrentActs(w.life, g);
      PostKeepsInTurn(w, g);
    case Finish(g, fate) =>
      OnlyCurrentActs(w.life, g);
      FinishKeepsInTurn(w, g, fate);
    case _ => OthersKeepInTurn(w, s);
  }

  /* ---- Whole runs ---- */

  function LifeSteps(steps: seq<Step>): seq<L.Step> {
    if steps == [] then []
    else (if LifeStep(steps[0]).Some? then [LifeStep(steps[0]).value] else []) + LifeSteps(steps[1..])
  }

  lemma {:induction false} RunOfLife(w: World, steps: seq<Step>, w': World)
    requires Run(w, steps, w')
    ensures L.Run(w.life, LifeSteps(steps), w'.life)
    decreases |steps|
  {
    if steps == [] {
    } else {
      RunOfLife(Do(w, steps[0]), steps[1..], w');
      if LifeStep(steps[0]).Some? {
        L.Follow(w.life, LifeStep(steps[0]).value, LifeSteps(steps[1..]), w'.life);
      } else {
        assert LifeSteps(steps) == LifeSteps(steps[1..]);
      }
    }
  }

  ghost predicate Sound(w: World) {
    Coupled(w) && InTurn(w) && P.Reachable(w.pipe)
  }

  lemma StepKeepsSound(w: World, s: Step)
    requires Sound(w) && Enabled(w, s) && !Abandons(w, s)
    ensures Sound(Do(w, s))
  {
    StepKeepsCoupled(w, s);
    StepKeepsInTurn(w, s);
    if ChannelStep(s).Some? {
      ChannelFollows(w, s);
      P.ReachStep(w.pipe, ChannelStep(s).value);
    }
  }

  lemma PatientFromTheStart(w: World, steps: seq<Step>)
    requires steps != [] && Enabled(w, steps[0]) && L.Patient(w.life, LifeSteps(steps))
    ensures !Abandons(w, steps[0]) && L.Patient(Do(w, steps[0]).life, LifeSteps(steps[1..]))
  {
    if LifeStep(steps[0]).Some? {
      assert LifeSteps(steps)[0] == LifeStep(steps[0]).value && LifeSteps(steps)[1..] == LifeSteps(steps[1..]);
    } else {
      assert LifeSteps(steps) == LifeSteps(steps[1..]);
    }
  }

  lemma {:induction false} RunKeepsSound(w: World, steps: seq<Step>, w': World)
    requires Sound(w) && Run(w, steps, w') && L.Patient(w.life, LifeSteps(steps))
    ensures Sound(w') && w'.limiter == w.limiter && w'.pipe.capacity == w.pipe.capacity
    decreases |steps|
  {
    if steps == [] {
    } else {
      PatientFromTheStart(w, steps);
      StepKeepsSound(w, steps[0]);
      RunKeepsSound(Do(w, steps[0]), steps[1..], w');
    }
  }

  lemma StartIsSound(capacity: nat, cfg: Option<R.Config>)
    ensures Sound(Start(capacity, cfg))
  {
    assert P.Run(P.Initial(capacity), [], P.Initial(capacity));
  }

  lemma RunsAreSound(capacity: nat, cfg: Option<R.Config>, steps: seq<Step>, w: World)
    requires Run(Start(capacity, cfg), steps, w) && w.life.stalled < 5_000
    ensures Sound(w) && w.limiter == R.NewLimiter(cfg) && w.pipe.capacity == capacity
  {
    StartIsSound(capacity, cfg);
    RunOfLife(Start(capacity, cfg), steps, w);
    L.TimelyRunsAreSafe(LifeSteps(steps), w.life);
    RunKeepsSound(Start(capacity, cfg), steps, w);
  }

  // Over every run of the whole manager, with any number of starts, stops, cancellations
  // and restarts, in which token waits outlast their contexts by less than five seconds
  // in all: one processor at most is active, the channel and its processor behave as one
  // run of the pipeline, so that nothing accepted is lost and the order of sends is kept
  // across restarts, and sends come one after the other.
  lemma ManagerIsSafe(capacity: nat, cfg: Option<R.Config>, steps: seq<Step>, w: World)
    requires Run(Start(capacity, cfg), steps, w) && w.life.stalled < 5_000
    ensures Sound(w) && w.limiter == R.NewLimiter(cfg)
    ensures |w.pipe.queue| <= capacity
    ensures P.TakenEvents(w.pipe.taken) + P.InHand(w.pipe) + w.pipe.queue == P.ByVerdict(w.pipe.offers, true)
    ensures P.Subsequence(P.PassedToSend(w.pipe.taken), P.OfferedEvents(w.pipe.offers))
  {
    RunsAreSound(capacity, cfg, steps, w);
    var path :| P.Run(P.Initial(capacity), path, w.pipe);
    P.ConservationAndOrder(capacity, path, w.pipe);
  }

  // A drain that ends with events left in the channel has used all of its five seconds.
  lemma LeftoversMeanFullDrain(capacity: nat, cfg: Option<R.Config>, steps: seq<Step>, w: World, g: nat, timedOut: bool)
    requires Run(Start(capacity, cfg), steps, w) && Enabled(w, Exit(g, timedOut))
    ensures |w.life.cancelledAt| == |w.life.processors| && w.life.cancelledAt[g].Some?
    ensures var cancelled := w.life.cancelledAt[g].value;
      && w.life.now <= cancelled + 5_000 + w.life.stalled
      && (w.pipe.queue != [] ==> cancelled + 5_000 <= w.life.now)
  {
    RunOfLife(Start(capacity, cfg), steps, w);
    L.RunKeepsTimed(L.Initial(), LifeSteps(steps), w.life);
    assert L.InTime(w.life, g);
  }

  /* ---- Sends end in time ---- */

  function Since(p: L.Processor): nat
    requires Sending(p)
  {
    p.doing.since
  }

  // The send of the current processor began when its call was admitted, and every call that
  // has returned did so within thirty seconds of its admission, plus recorded stalls.
  ghost predicate SendsInTime(w: World) {
    && (Sending(CurrentProcessor(w.life)) && w.calls != [] ==>
          Since(CurrentProcessor(w.life)) == w.calls[|w.calls| - 1].admitted)
    && forall i | 0 <= i < |w.calls| && w.calls[i].returned.Some? ::
         w.calls[i].returned.value <= w.calls[i].admitted + 30_000 + w.life.stalled
  }

  lemma SinceStays(s: L.State, step: L.Step)
    requires L.Inv(s) && L.Enabled(s, step) && !step.Admit?
    requires Sending(CurrentProcessor(L.Do(s, step)))
    ensures Sending(CurrentProcessor(s)) && Since(CurrentProcessor(L.Do(s, step))) == Since(CurrentProcessor(s))
  {
    SendingAfter(s, step);
    if step.ByProcessor() {
      OnlyCurrentActs(s, step.g);
    }
  }

  lemma SinceAdmission(s: L.State, g: nat)
    requires L.Inv(s) && L.Enabled(s, L.Admit(g))
    ensures Sending(CurrentProcessor(L.Do(s, L.Admit(g)))) && Since(CurrentProcessor(L.Do(s, L.Admit(g)))) == s.now
  {
    OnlyCurrentActs(s, g);
  }

  lemma AdmitKeepsSendsInTime(w: World, g: nat)
    requires L.Inv(w.life) && SendsInTime(w) && Enabled(w, Admit(g))
    ensures SendsInTime(Do(w, Admit(g)))
  {
    SinceAdmission(w.life, g);
  }

  lemma OthersKeepSendsInTime(w: World, s: Step)
    requires L.Inv(w.life) && SendsInTime(w) && Enabled(w, s) && !s.Admit? && !s.Finish?
    ensures SendsInTime(Do(w, s))
  {
    if LifeStep(s).Some? && Sending(CurrentProcessor(Do(w, s).life)) {
      SinceStays(w.life, LifeStep(s).value);
    }
  }

  lemma FinishKeepsSendsInTime(w: World, g: nat, fate: P.Fate)
    requires L.Inv(w.life) && L.Timed(w.life) && SendsInTime(w) && Enabled(w, Finish(g, fate))
    ensures SendsInTime(Do(w, Finish(g, fate)))
  {
    OnlyCurrentActs(w.life, g);
    SendingAfterProcessor(w.life, L.Finish(g));
    assert L.InTime(w.life, g);
  }

  lemma {:induction false} RunKeepsSendsInTime(w: World, steps: seq<Step>, w': World)
    requires Sound(w) && SendsInTime(w) && L.Timed(w.life) && Run(w, steps, w')
    requires L.Patient(w.life, LifeSteps(steps))
    ensures SendsInTime(w') && L.Timed(w'.life) && Sound(w')
    decreases |steps|
  {
    if steps == [] {
    } else {
      var s := steps[0];
      PatientFromTheStart(w, steps);
      StepKeepsSound(w, s);
      if LifeStep(s).Some? {
        L.StepKeepsTimed(w.life, LifeStep(s).value);
      }
      match s {
        case Admit(g) => AdmitKeepsSendsInTime(w, g);
        case Finish(g, fate) => FinishKeepsSendsInTime(w, g, fate);
        case _ => OthersKeepSendsInTime(w, s);
      }
      RunKeepsSendsInTime(Do(w, s), steps[1..], w');
    }
  }

  // In such a run no call to the sender lasts longer than thirty seconds from its admission,
  // plus the time token waits have outlasted their contexts.
  lemma SendsEndInTime(capacity: nat, cfg: Option<R.Config>, steps: seq<Step>, w: World, i: nat)
    requires Run(Start(capacity, cfg), steps, w) && w.life.stalled < 5_000 && i < |w.calls|
    ensures (if w.calls[i].returned.Some? then w.calls[i].returned.value else w.life.now)
            <= w.calls[i].admitted + 30_000 + w.life.stalled
  {
    StartIsSound(capacity, cfg);
    RunOfLife(Start(capacity, cfg), steps, w);
    L.TimelyRunsAreSafe(LifeSteps(steps), w.life);
    RunKeepsSendsInTime(Start(capacity, cfg), steps, w);
    if w.calls[i].returned.None? {
      assert i == |w.calls| - 1;
      assert L.InTime(w.life, |w.life.processors| - 1);
    }
  }

  /* ---- The rate on the wire ---- */

  // Every post a processor makes is in the log of calls, at its time, and nothing else is.
  function Posted(w: World, steps: seq<Step>): seq<nat>
    decreases |steps|
  {
    if steps == [] || !Enabled(w, steps[0]) then []
    else (if steps[0].Post? then [w.life.now] else []) + Posted(Do(w, steps[0]), steps[1..])
  }

  function Logged(calls: seq<Call>): seq<nat> {
    if calls == [] then [] else Logged(calls[..|calls| - 1]) + calls[|calls| - 1].posts
  }

  lemma StepLogsPosts(w: World, s: Step)
    requires Enabled(w, s)
    ensures Logged(Do(w, s).calls) == Logged(w.calls) + if s.Post? then [w.life.now] else []
  {
    var calls' := Do(w, s).calls;
    if s.Admit? {
      assert calls'[..|calls'| - 1] == w.calls;
    } else if w.calls != [] {
      assert calls'[..|calls'| - 1] == w.calls[..|w.calls| - 1];
    }
  }

  lemma Assoc<T>(a: seq<T>, b: seq<T>, c: seq<T>)
    ensures (a + b) + c == a + (b + c)
  {
  }

  lemma {:induction false} PostsAreLogged(w: World, steps: seq<Step>, w': World)
    requires Run(w, steps, w')
    ensures Logged(w'.calls) == Logged(w.calls) + Posted(w, steps)
    decreases |steps|
  {
    if steps == [] {
      assert Logged(w.calls) + [] == Logged(w.calls);
    } else {
      var now := if steps[0].Post? then [w.life.now] else [];
      StepLogsPosts(w, steps[0]);
      PostsAreLogged(Do(w, steps[0]), steps[1..], w');
      Assoc(Logged(w.calls), now, Posted(Do(w, steps[0]), steps[1..]));
    }
  }

  function Sends(w: World): seq<R.SendCall> {
    seq(|w.calls|, i requires 0 <= i < |w.calls| => SendOf(w.calls[i], w.life.now))
  }

  function SendOf(c: Call, now: nat): R.SendCall {
    R.SendCall(Seconds(c.admitted), seq(|c.posts|, k requires 0 <= k < |c.posts| => Seconds(c.posts[k])),
               Seconds(if c.returned.Some? then c.returned.value else now))
  }

  lemma SendIsWellTimed(c: Call, now: nat)
    requires WellTimed(c, now)
    ensures R.WellTimed(SendOf(c, now))
  {
    forall t | t in SendOf(c, now).posts
      ensures Seconds(c.admitted) <= t <= SendOf(c, now).returned
    {
      var k :| 0 <= k < |c.posts| && t == Seconds(c.posts[k]);
      assert c.posts[k] in c.posts;
    }
  }

  lemma SendsAreOneAtATime(w: World)
    requires InTurn(w)
    ensures R.OneAtATime(w.limiter, Sends(w))
  {
    assert R.Admissions(Sends(w)) == Times(w.calls);
    forall i | 0 <= i < |w.calls| ensures R.WellTimed(Sends(w)[i]) {
      SendIsWellTimed(w.calls[i], w.life.now);
    }
    forall i, j | 0 <= i < j < |w.calls| ensures Sends(w)[i].returned <= Sends(w)[j].admitted {
      assert w.calls[i].returned.value <= w.calls[j].admitted;
    }
  }

  // At most five times 1 + burst + rate * width requests are posted to the events
  // endpoint in any window, whatever the configuration, and across live phases, drains
  // and restarts.
  lemma PostsAreBounded(capacity: nat, cfg: Option<R.Config>, steps: seq<Step>, w: World, start: real, width: real)
    requires Run(Start(capacity, cfg), steps, w) && w.life.stalled < 5_000
    requires width >= 0.0
    ensures var l := R.NewLimiter(cfg);
      |R.Window(Sends(w), start, start + width)| as real <= 5.0 * (1.0 + (l.burst + l.rate * width))
    ensures Logged(w.calls) == Posted(Start(capacity, cfg), steps)
    ensures forall i, k | 0 <= i < |w.calls| && 0 <= k < |w.calls[i].posts| ::
      (i, k) in R.Window(Sends(w), start, start + width)
      <==> start <= w.calls[i].posts[k] as real / 1000.0 <= start + width
  {
    RunsAreSound(capacity, cfg, steps, w);
    SendsAreOneAtATime(w);
    R.PostBound(w.limiter, Sends(w), start, width);
    PostsAreLogged(Start(capacity, cfg), steps, w);
  }
}
