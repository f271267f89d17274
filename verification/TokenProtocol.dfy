/**
  Any number of GetAccessToken calls, credential updates and clock ticks,
  interleaved at every point where the code releases the lock.

  Each element of `callers` is one call from its first step to its return; a
  goroutine that calls twice is two callers.
 */
module TokenProtocol {
  import opened Resources
  import opened Token

  datatype Result =
    | Cached(token: AccessToken, at: int, expiresAt: int)
    | Exchanged(token: AccessToken)
    | Failed

  // Where a call stands between two of its steps.
  datatype Caller =
    | Checking
    | Entering
    | Waiting(ch: nat)
    | Minting(credentials: Credentials)
    | Finishing(token: Option<AccessToken>, expiresAt: int)
    | Done(result: Result)
  {
    predicate Active() {
      Minting? || Finishing?
    }

    // Has been the one to refresh.
    predicate Marked() {
      Active() || (Done? && !result.Cached?)
    }
  }

  // Signing may fail; the request may fail or yield a token with any lifetime at all.
  datatype Outcome = AssertionFailed | ExchangeFailed | Minted(value: nat, lifetime: int)

  datatype World = World(
    shared: Shared, now: int, callers: seq<Caller>,
    holder: Option<nat>,  // the caller that is refreshing
    loops: seq<nat>,      // how often each caller was woken and started over
    exchanges: nat,       // requests sent to the token endpoint
    changed: bool,        // the credentials changed since the refresh in flight captured them
    stale: bool)          // they changed between the capture and the caching of the cached token

  datatype Step =
    | Check(c: nat)
    | Enter(c: nat)
    | Wake(c: nat)
    | Exchange(c: nat, outcome: Outcome)
    | Finish(c: nat)
    | Update(credentials: Credentials)
    | Tick(elapsed: nat)
  {
    predicate ByCaller() {
      !Update? && !Tick?
    }
  }

  function Start(n: nat, credentials: Credentials, now: nat): World {
    World(New(credentials), now, seq(n, _ => Checking), None, seq(n, _ => 0), 0, false, false)
  }

  predicate Enabled(w: World, s: Step) {
    if !s.ByCaller() then true
    else if !(s.c < |w.callers|) then false
    else
      match s
      case Check(c) => w.callers[c].Checking?
      case Enter(c) => w.callers[c].Entering?
      case Wake(c) => w.callers[c].Waiting? && w.callers[c].ch in w.shared.closed
      case Exchange(c, _) => w.callers[c].Minting?
      case Finish(c) => w.callers[c].Finishing?
  }

  function At(w: World, c: nat, pc: Caller): World
    requires c < |w.callers|
  {
    w.(callers := w.callers[c := pc])
  }

  // What an exchange leaves its caller with.
  function AfterExchange(credentials: Credentials, outcome: Outcome, now: int): Caller {
    match outcome
    case Minted(value, lifetime) =>
      Finishing(Some(AccessToken(value, credentials)), now + lifetime)
    case _ => Finishing(None, ZERO_TIME)
  }

  function Do(w: World, s: Step): World
    requires Enabled(w, s) && (w.shared.refreshing ==> w.shared.refreshCh.Some?)
    requires |w.loops| == |w.callers|
  {
    match s
    case Check(c) =>
      if Fresh(w.shared, w.now)
      then At(w, c, Done(Cached(w.shared.accessToken.value, w.now, w.shared.expiresAt)))
      else At(w, c, Entering)
    case Enter(c) =>
      var (shared, entry) := Entered(w.shared, w.now);
      match entry {
        case Hit(token) => At(w, c, Done(Cached(token, w.now, w.shared.expiresAt)))
        case WaitFor(ch) => At(w, c, Waiting(ch))
        case Mint(credentials) => At(w, c, Minting(credentials)).(shared := shared, holder := Some(c), changed := false)
      }
    case Wake(c) => At(w, c, Checking).(loops := w.loops[c := w.loops[c] + 1])
    case Exchange(c, outcome) =>
      At(w, c, AfterExchange(w.callers[c].credentials, outcome, w.now))
      .(exchanges := w.exchanges + if outcome.AssertionFailed? then 0 else 1)
    case Finish(c) =>
      var Finishing(token, expiresAt) := w.callers[c];
      At(w, c, Done(if token.Some? then Exchanged(token.value) else Failed))
      .(shared := Finished(w.shared, token, expiresAt), holder := None, stale := w.changed)
    case Update(credentials) =>
      if w.shared.credentials == credentials then w
      else w.(shared := Updated(w.shared, credentials), changed := true, stale := false)
    case Tick(elapsed) => w.(now := w.now + elapsed)
  }

  /* ---- The invariant ---- */

  ghost predicate Channels(s: Shared) {
    && (s.refreshing <==> s.refreshCh.Some?)
    && (forall i | 0 <= i < |s.closed| :: s.closed[i] == i)
    && s.made == |s.closed| + (if s.refreshing then 1 else 0)
    && (s.refreshing ==> s.refreshCh == Some(|s.closed|))
  }

  ghost predicate SingleFlight(w: World) {
    && (w.holder.Some? <==> w.shared.refreshing)
    && (w.holder.Some? ==> w.holder.value < |w.callers|)
    && (forall c | 0 <= c < |w.callers| :: w.callers[c].Active() <==> w.holder == Some(c))
    && (forall c | 0 <= c < |w.callers| :: w.callers[c].Waiting? ==> w.callers[c].ch < w.shared.made)
  }

  ghost predicate Provenance(w: World) {
    && (w.shared.accessToken.Some? && !w.stale ==> w.shared.accessToken.value.mintedFrom == w.shared.credentials)
    && (w.holder.Some? && w.holder.value < |w.callers| && !w.changed ==>
          match w.callers[w.holder.value]
          case Minting(credentials) => credentials == w.shared.credentials
          case Finishing(Some(token), _) => token.mintedFrom == w.shared.credentials
          case _ => true)
  }

  // A caller that has not refreshed has been woken at most once by each finished refresh.
  ghost predicate LoopsBounded(w: World) {
    && |w.loops| == |w.callers|
    && (forall c | 0 <= c < |w.callers| :: !w.callers[c].Marked() ==>
          w.loops[c] <= if w.callers[c].Waiting? then w.callers[c].ch else |w.shared.closed|)
    && (forall c | 0 <= c < |w.callers| :: w.loops[c] < |w.callers|)
  }

  predicate HolderMints(w: World) {
    w.holder.Some? && w.holder.value < |w.callers| && w.callers[w.holder.value].Minting?
  }

  ghost predicate Counted(w: World) {
    && w.shared.made == Sum(w.callers, Marks)
    && w.exchanges + (if HolderMints(w) then 1 else 0) <= w.shared.made
  }

  ghost predicate Honest(w: World) {
    forall c | 0 <= c < |w.callers| :: w.callers[c].Done? && w.callers[c].result.Cached? ==>
      w.callers[c].result.at + TOKEN_REFRESH_BUFFER < w.callers[c].result.expiresAt
  }

  ghost predicate Inv(w: World) {
    && Channels(w.shared)
    && SingleFlight(w)
    && (w.shared.refreshing ==> !Fresh(w.shared, w.now))
    && Provenance(w)
    && LoopsBounded(w)
    && Counted(w)
    && Honest(w)
  }

  /* ---- Sums over the callers ---- */

  datatype Weight = Marks | Stage | Rank(closed: nat)

  function Weigh(pc: Caller, m: Weight): nat {
    match m
    case Marks => if pc.Marked() then 1 else 0
    case Stage => if pc.Done? then 0 else if pc.Finishing? then 1 else if pc.Minting? then 2 else 3
    case Rank(closed) =>
      if pc.Waiting? then (if pc.ch < closed then 3 else 0)
      else if pc.Checking? then 2 else if pc.Entering? then 1 else 0
  }

  function Sum(s: seq<Caller>, m: Weight): nat {
    if s == [] then 0 else Sum(s[..|s| - 1], m) + Weigh(s[|s| - 1], m)
  }

  lemma {:induction false} SumUpdate(s: seq<Caller>, c: nat, pc: Caller, m: Weight)
    requires c < |s|
    ensures Sum(s[c := pc], m) == Sum(s, m) - Weigh(s[c], m) + Weigh(pc, m)
  {
    var n := |s| - 1;
    if c == n {
      assert s[c := pc][..n] == s[..n];
    } else {
      assert s[c := pc][..n] == s[..n][c := pc];
      SumUpdate(s[..n], c, pc, m);
    }
  }

  lemma {:induction false} SumBound(s: seq<Caller>, m: Weight)
    ensures Sum(s, m) <= (if m.Marks? then 1 else 3) * |s|
  {
    if s == [] {
    } else {
      SumBound(s[..|s| - 1], m);
    }
  }

  lemma {:induction false} UnmarkedBound(s: seq<Caller>, c: nat)
    requires c < |s| && !s[c].Marked()
    ensures Sum(s, Marks) < |s|
  {
    SumUpdate(s, c, Minting(Credentials("", "")), Marks);
    SumBound(s[c := Minting(Credentials("", ""))], Marks);
  }

  lemma {:induction false} SumOfStart(n: nat, m: Weight)
    ensures Sum(seq(n, _ => Checking), m) == n * Weigh(Checking, m)
  {
    if n == 0 {
    } else {
      assert seq(n, _ => Checking)[..n - 1] == seq(n - 1, _ => Checking);
      SumOfStart(n - 1, m);
    }
  }

  /* ---- Every step keeps the invariant ---- */

  // Before a finish the holder is the finishing caller, and it is the only active one.
  lemma OnlyHolderActs(w: World, s: Step)
    requires Inv(w) && Enabled(w, s) && (s.Exchange? || s.Finish?)
    ensures w.holder == Some(s.c) && w.shared.refreshing
  {
    assert w.callers[s.c].Active();
  }

  lemma StepKeepsChannels(w: World, s: Step)
    requires Inv(w) && Enabled(w, s)
    ensures Channels(Do(w, s).shared)
    ensures Do(w, s).shared.refreshing ==> !Fresh(Do(w, s).shared, Do(w, s).now)
  {
    if s.Finish? {
      OnlyHolderActs(w, s);
    }
  }

  lemma StepKeepsSingleFlight(w: World, s: Step)
    requires Inv(w) && Enabled(w, s)
    ensures SingleFlight(Do(w, s))
  {
    if s.Exchange? || s.Finish? {
      OnlyHolderActs(w, s);
    }
  }

  lemma StepKeepsProvenance(w: World, s: Step)
    requires Inv(w) && Enabled(w, s)
    ensures Provenance(Do(w, s)) && Honest(Do(w, s))
  {
    if s.Exchange? || s.Finish? {
      OnlyHolderActs(w, s);
    }
  }

  // A channel is made exactly when a caller is marked.
  lemma MarkMakesChannel(w: World, s: Step)
    requires Inv(w) && Enabled(w, s) && s.ByCaller()
    ensures var w' := Do(w, s);
      && w'.callers == w.callers[s.c := w'.callers[s.c]]
      && w'.shared.made - w.shared.made == Weigh(w'.callers[s.c], Marks) - Weigh(w.callers[s.c], Marks)
  {
  }

  lemma StepKeepsMade(w: World, s: Step)
    requires Inv(w) && Enabled(w, s)
    ensures Do(w, s).shared.made == Sum(Do(w, s).callers, Marks)
  {
    if s.ByCaller() {
      MarkMakesChannel(w, s);
      SumUpdate(w.callers, s.c, Do(w, s).callers[s.c], Marks);
    } else {
      assert Do(w, s).callers == w.callers;
    }
  }

  lemma StepKeepsExchanges(w: World, s: Step)
    requires Inv(w) && Enabled(w, s)
    ensures var w' := Do(w, s); w'.exchanges + (if HolderMints(w') then 1 else 0) <= w'.shared.made
  {
    if s.Exchange? || s.Finish? {
      OnlyHolderActs(w, s);
    } else if s.ByCaller() {
      assert !w.callers[s.c].Active();
    }
  }

  lemma StepKeepsCounts(w: World, s: Step)
    requires Inv(w) && Enabled(w, s)
    ensures Counted(Do(w, s))
  {
    StepKeepsMade(w, s);
    StepKeepsExchanges(w, s);
  }

  lemma StepKeepsLoops(w: World, s: Step)
    requires Inv(w) && Enabled(w, s)
    ensures LoopsBounded(Do(w, s))
  {
    if s.Wake? {
      UnmarkedBound(w.callers, s.c);
    }
  }

  lemma StepKeepsInv(w: World, s: Step)
    requires Inv(w) && Enabled(w, s)
    ensures Inv(Do(w, s))
  {
    StepKeepsChannels(w, s);
    StepKeepsSingleFlight(w, s);
    StepKeepsProvenance(w, s);
    StepKeepsCounts(w, s);
    StepKeepsLoops(w, s);
  }

  lemma StartInv(n: nat, credentials: Credentials, now: nat)
    ensures Inv(Start(n, credentials, now))
  {
    SumOfStart(n, Marks);
  }

  ghost predicate Run(w: World, steps: seq<Step>, w': World)
    decreases |steps|
  {
    if steps == [] then w == w'
    else
      && Enabled(w, steps[0])
      && (w.shared.refreshing ==> w.shared.refreshCh.Some?) && |w.loops| == |w.callers|
      && Run(Do(w, steps[0]), steps[1..], w')
  }

  lemma {:induction false} RunKeepsInv(w: World, steps: seq<Step>, w': World)
    requires Inv(w) && Run(w, steps, w')
    ensures Inv(w') && |w'.callers| == |w.callers|
    decreases |steps|
  {
    if steps == [] {
    } else {
      StepKeepsInv(w, steps[0]);
      RunKeepsInv(Do(w, steps[0]), steps[1..], w');
    }
  }

  // In every interleaving: a refresh is marked exactly while its channel is set and
  // exactly one caller is between marking and finishing; every channel ever made has
  // been closed exactly once, except the current one; and whoever waits, waits for a
  // channel that is closed or is the current one.
  lemma ProtocolIsSafe(n: nat, credentials: Credentials, now: nat, steps: seq<Step>, w: World)
    requires Run(Start(n, credentials, now), steps, w)
    ensures w.shared.refreshing <==> w.shared.refreshCh.Some?
    ensures w.shared.refreshing <==> exists c | 0 <= c < |w.callers| :: w.callers[c].Active()
    ensures forall c, d | 0 <= c < |w.callers| && 0 <= d < |w.callers| && w.callers[c].Active() && w.callers[d].Active()
              :: c == d
    ensures Distinct(w.shared.closed)
    ensures forall ch: nat :: ch < w.shared.made <==> ch in w.shared.closed || w.shared.refreshCh == Some(ch)
    ensures w.shared.refreshCh.Some? ==> w.shared.refreshCh.value !in w.shared.closed
    ensures forall c | 0 <= c < |w.callers| && w.callers[c].Waiting? ::
      w.callers[c].ch in w.shared.closed || w.shared.refreshCh == Some(w.callers[c].ch)
  {
    StartInv(n, credentials, now);
    RunKeepsInv(Start(n, credentials, now), steps, w);
    if w.shared.refreshing {
      assert w.callers[w.holder.value].Active();
    }
    forall ch: nat
      ensures ch < w.shared.made <==> ch in w.shared.closed || w.shared.refreshCh == Some(ch)
    {
      if ch < |w.shared.closed| {
        assert w.shared.closed[ch] == ch;
      }
    }
  }

  // A finished refresh never throws away a token that is still fresh, and a token
  // handed out from the cache was fresh when it was looked at under the lock.
  lemma NothingFreshIsLost(n: nat, credentials: Credentials, now: nat, steps: seq<Step>, w: World)
    requires Run(Start(n, credentials, now), steps, w)
    ensures forall c: nat :: Enabled(w, Finish(c)) ==> !Fresh(w.shared, w.now)
    ensures forall c | 0 <= c < |w.callers| && w.callers[c].Done? && w.callers[c].result.Cached? ::
      w.callers[c].result.at + TOKEN_REFRESH_BUFFER < w.callers[c].result.expiresAt
  {
    StartInv(n, credentials, now);
    RunKeepsInv(Start(n, credentials, now), steps, w);
    forall c: nat | Enabled(w, Finish(c)) ensures !Fresh(w.shared, w.now) {
      OnlyHolderActs(w, Finish(c));
    }
  }

  /* ---- Nobody is stuck, and everybody returns ---- */

  // Some caller can always move, until all have returned.
  lemma NoDeadlock(w: World, c: nat)
    requires Inv(w) && c < |w.callers| && !w.callers[c].Done?
    ensures exists s: Step :: s.ByCaller() && Enabled(w, s)
  {
    match w.callers[c]
    case Checking => assert Enabled(w, Check(c));
    case Entering => assert Enabled(w, Enter(c));
    case Minting(_) => assert Enabled(w, Exchange(c, AssertionFailed));
    case Finishing(_, _) => assert Enabled(w, Finish(c));
    case Waiting(ch) =>
      if ch < |w.shared.closed| {
        assert w.shared.closed[ch] == ch;
        assert Enabled(w, Wake(c));
      } else {
        var h := w.holder.value;
        assert w.callers[h].Active();
        assert Enabled(w, Exchange(h, AssertionFailed)) || Enabled(w, Finish(h));
      }
  }

  // What is left to do: how far each caller is from refreshing or returning, and, as
  // long as that does not change, how far the waiting ones are from waiting again.
  function Work(w: World): nat {
    Sum(w.callers, Stage) * (3 * |w.callers| + 1) + Sum(w.callers, Rank(|w.shared.closed|))
  }

  lemma {:induction false} MulMono(a: nat, b: nat, k: nat)
    requires a <= b
    ensures a * k <= b * k
  {
    if a < b {
      MulMono(a, b - 1, k);
      assert b * k == (b - 1) * k + k;
    }
  }

  lemma WorkDrops(stage: nat, stage': nat, rank: nat, rank': nat, k: nat)
    requires (stage' < stage && rank' < k) || (stage' == stage && rank' < rank)
    ensures stage' * k + rank' < stage * k + rank
  {
    if stage' < stage {
      MulMono(stage' + 1, stage, k);
      assert (stage' + 1) * k == stage' * k + k;
    }
  }

  // Either some caller comes closer to its return, or a waiting one closer to its next wait.
  lemma CallerStepProgresses(w: World, s: Step)
    requires Inv(w) && Enabled(w, s) && s.ByCaller()
    ensures var w' := Do(w, s);
      || Sum(w'.callers, Stage) < Sum(w.callers, Stage)
      || (&& Sum(w'.callers, Stage) == Sum(w.callers, Stage)
          && Sum(w'.callers, Rank(|w'.shared.closed|)) < Sum(w.callers, Rank(|w.shared.closed|)))
  {
    var pc := Do(w, s).callers[s.c];
    SumUpdate(w.callers, s.c, pc, Stage);
    if s.Exchange? || s.Finish? {
      OnlyHolderActs(w, s);
    } else {
      SumUpdate(w.callers, s.c, pc, Rank(|w.shared.closed|));
      LocalProgress(w, s);
    }
  }

  lemma LocalProgress(w: World, s: Step)
    requires Inv(w) && Enabled(w, s) && (s.Check? || s.Enter? || s.Wake?)
    ensures Do(w, s).callers == w.callers[s.c := Do(w, s).callers[s.c]] && Do(w, s).shared.closed == w.shared.closed
    ensures var pc, n := Do(w, s).callers[s.c], |w.shared.closed|;
      || Weigh(pc, Stage) < Weigh(w.callers[s.c], Stage)
      || (Weigh(pc, Stage) == Weigh(w.callers[s.c], Stage) && Weigh(pc, Rank(n)) < Weigh(w.callers[s.c], Rank(n)))
  {
    if s.Wake? {
      var i :| 0 <= i < |w.shared.closed| && w.shared.closed[i] == w.callers[s.c].ch;
    }
  }

  lemma CallerStepWorks(w: World, s: Step)
    requires Inv(w) && Enabled(w, s) && s.ByCaller()
    ensures Work(Do(w, s)) < Work(w)
  {
    var w' := Do(w, s);
    CallerStepProgresses(w, s);
    SumBound(w'.callers, Rank(|w'.shared.closed|));
    WorkDrops(Sum(w.callers, Stage), Sum(w'.callers, Stage), Sum(w.callers, Rank(|w.shared.closed|)),
              Sum(w'.callers, Rank(|w'.shared.closed|)), 3 * |w.callers| + 1);
  }

  function CallerSteps(steps: seq<Step>): nat {
    if steps == [] then 0 else (if steps[0].ByCaller() then 1 else 0) + CallerSteps(steps[1..])
  }

  lemma {:induction false} RunWorks(w: World, steps: seq<Step>, w': World)
    requires Inv(w) && Run(w, steps, w')
    ensures CallerSteps(steps) + Work(w') <= Work(w)
    decreases |steps|
  {
    if steps == [] {
    } else {
      StepKeepsInv(w, steps[0]);
      if steps[0].ByCaller() {
        CallerStepWorks(w, steps[0]);
      }
      RunWorks(Do(w, steps[0]), steps[1..], w');
    }
  }

  lemma WorkAtStart(n: nat, credentials: Credentials, now: nat)
    ensures Work(Start(n, credentials, now)) == 3 * n * (3 * n + 1) + 2 * n
  {
    SumOfStart(n, Stage);
    SumOfStart(n, Rank(0));
    assert n * 3 == 3 * n;
  }

  // The requests sent to the token endpoint, and how often a call starts over, read off
  // the run.
  function Requests(steps: seq<Step>): nat {
    if steps == [] then 0
    else (if steps[0].Exchange? && !steps[0].outcome.AssertionFailed? then 1 else 0) + Requests(steps[1..])
  }

  function Restarts(steps: seq<Step>, c: nat): nat {
    if steps == [] then 0 else (if steps[0] == Wake(c) then 1 else 0) + Restarts(steps[1..], c)
  }

  lemma {:induction false} RequestsCounted(w: World, steps: seq<Step>, w': World)
    requires Inv(w) && Run(w, steps, w')
    ensures w'.exchanges == w.exchanges + Requests(steps)
    decreases |steps|
  {
    if steps == [] {
    } else {
      StepKeepsInv(w, steps[0]);
      RequestsCounted(Do(w, steps[0]), steps[1..], w');
    }
  }

  lemma StepRestarts(w: World, s: Step, c: nat)
    requires Inv(w) && Enabled(w, s) && c < |w.loops|
    ensures var w' := Do(w, s);
      |w'.loops| == |w.loops| && w'.loops[c] == w.loops[c] + if s == Wake(c) then 1 else 0
  {
  }

  lemma {:induction false} RestartsCounted(w: World, steps: seq<Step>, w': World, c: nat)
    requires Inv(w) && Run(w, steps, w') && c < |w.loops|
    ensures |w'.loops| == |w.loops| && w'.loops[c] == w.loops[c] + Restarts(steps, c)
    decreases |steps|
  {
    if steps == [] {
    } else {
      StepKeepsInv(w, steps[0]);
      StepRestarts(w, steps[0], c);
      RestartsCounted(Do(w, steps[0]), steps[1..], w', c);
    }
  }

  // Wait-and-retry terminates.  However the calls interleave, however often credentials
  // change, and even if every refresh fails or yields a token already past its buffer:
  // n calls take a bounded number of steps, send at most n requests, and no call starts
  // over more than n - 1 times.  When no caller can move, all have returned.
  lemma WaitAndRetryTerminates(n: nat, credentials: Credentials, now: nat, steps: seq<Step>, w: World)
    requires Run(Start(n, credentials, now), steps, w)
    ensures CallerSteps(steps) <= 3 * n * (3 * n + 1) + 2 * n
    ensures w.exchanges == Requests(steps) <= n
    ensures |w.loops| == n && forall c: nat | c < n :: w.loops[c] == Restarts(steps, c) <= n - 1
    ensures (forall s: Step | s.ByCaller() :: !Enabled(w, s)) ==> forall c | 0 <= c < |w.callers| :: w.callers[c].Done?
  {
    StartInv(n, credentials, now);
    RunKeepsInv(Start(n, credentials, now), steps, w);
    RunWorks(Start(n, credentials, now), steps, w);
    WorkAtStart(n, credentials, now);
    SumBound(w.callers, Marks);
    RequestsCounted(Start(n, credentials, now), steps, w);
    forall c: nat | c < n ensures w.loops[c] == Restarts(steps, c) <= n - 1 {
      RestartsCounted(Start(n, credentials, now), steps, w, c);
    }
    forall c | 0 <= c < |w.callers| && forall s: Step | s.ByCaller() :: !Enabled(w, s)
      ensures w.callers[c].Done?
    {
      if !w.callers[c].Done? {
        NoDeadlock(w, c);
      }
    }
  }

  /* ---- Where the cached token comes from ---- */

  // Between its mark and its finish a caller works for the credentials it captured.
  predicate WorksFor(pc: Caller, captured: Credentials) {
    match pc
    case Minting(credentials) => credentials == captured
    case Finishing(token, _) => token.Some? ==> token.value.mintedFrom == captured
    case _ => false
  }

  lemma StepWorksFor(w: World, c: nat, captured: Credentials, s: Step)
    requires Inv(w) && c < |w.callers| && WorksFor(w.callers[c], captured) && Enabled(w, s) && s != Finish(c)
    ensures c < |Do(w, s).callers| && WorksFor(Do(w, s).callers[c], captured)
  {
    assert s.ByCaller() && s.c == c ==> s.Exchange?;
  }

  lemma {:induction false} RunWorksFor(w: World, c: nat, captured: Credentials, steps: seq<Step>, w': World)
    requires Inv(w) && c < |w.callers| && WorksFor(w.callers[c], captured) && Run(w, steps, w')
    requires forall s | s in steps :: s != Finish(c)
    ensures Inv(w') && c < |w'.callers| && WorksFor(w'.callers[c], captured)
    decreases |steps|
  {
    if steps == [] {
    } else {
      assert steps[0] in steps && forall s | s in steps[1..] :: s in steps;
      StepKeepsInv(w, steps[0]);
      StepWorksFor(w, c, captured, steps[0]);
      RunWorksFor(Do(w, steps[0]), c, captured, steps[1..], w');
    }
  }

  // Whatever happens between a caller's mark and its finish: a token it caches was
  // minted from the credentials in force when it marked.  So the cached token is one for
  // the credentials in force at the finish exactly when these are the same.
  lemma CachedTokenIsTheCapturedOne(w: World, c: nat, steps: seq<Step>, w': World)
    requires Inv(w) && Enabled(w, Enter(c)) && Do(w, Enter(c)).callers[c].Minting?
    requires Run(Do(w, Enter(c)), steps, w') && forall s | s in steps :: s != Finish(c)
    requires Enabled(w', Finish(c))
    ensures Inv(w')
    ensures var token := Do(w', Finish(c)).shared.accessToken;
      token.Some? ==>
        && token.value.mintedFrom == w.shared.credentials
        && (token.value.mintedFrom == Do(w', Finish(c)).shared.credentials
            <==> w.shared.credentials == w'.shared.credentials)
  {
    StepKeepsInv(w, Enter(c));
    RunWorksFor(Do(w, Enter(c)), c, w.shared.credentials, steps, w');
  }

  /* ---- How long a refreshed token lasts ---- */

  lemma StepLeavesFinishing(w: World, c: nat, s: Step)
    requires Inv(w) && c < |w.callers| && w.callers[c].Finishing? && Enabled(w, s) && s != Finish(c)
    ensures c < |Do(w, s).callers| && Do(w, s).callers[c] == w.callers[c]
  {
    assert s.ByCaller() ==> s.c != c;
  }

  lemma {:induction false} RunLeavesFinishing(w: World, c: nat, steps: seq<Step>, w': World)
    requires Inv(w) && c < |w.callers| && w.callers[c].Finishing? && Run(w, steps, w')
    requires forall s | s in steps :: s != Finish(c)
    ensures Inv(w') && Enabled(w', Finish(c)) && w'.callers[c] == w.callers[c]
    decreases |steps|
  {
    if steps == [] {
    } else {
      assert steps[0] in steps && forall s | s in steps[1..] :: s in steps;
      StepKeepsInv(w, steps[0]);
      StepLeavesFinishing(w, c, steps[0]);
      RunLeavesFinishing(Do(w, steps[0]), c, steps[1..], w');
    }
  }

  // No refresh finishes and the credentials do not change.
  ghost predicate Quiet(w: World, steps: seq<Step>) {
    forall s | s in steps :: !s.Finish? && (s.Update? ==> s.credentials == w.shared.credentials)
  }

  lemma {:induction false} QuietKeepsToken(w: World, steps: seq<Step>, w': World)
    requires Inv(w) && Run(w, steps, w') && Quiet(w, steps)
    ensures Inv(w')
    ensures w'.shared.accessToken == w.shared.accessToken && w'.shared.expiresAt == w.shared.expiresAt
    ensures w'.shared.credentials == w.shared.credentials
    decreases |steps|
  {
    if steps == [] {
    } else {
      assert steps[0] in steps && forall s | s in steps[1..] :: s in steps;
      StepKeepsInv(w, steps[0]);
      QuietKeepsToken(Do(w, steps[0]), steps[1..], w');
    }
  }

  // What a refresh brings its own caller.  The exchange happens in `w`; after any steps
  // `mid` its caller finishes in `m`.  It returns the token it was given, or fails if it
  // was given none; and that is what the cache then holds.
  lemma RefresherGetsItsToken(w: World, c: nat, outcome: Outcome, mid: seq<Step>, m: World)
    requires Inv(w) && Enabled(w, Exchange(c, outcome))
    requires Run(Do(w, Exchange(c, outcome)), mid, m) && forall s | s in mid :: s != Finish(c)
    ensures Inv(m) && Enabled(m, Finish(c)) && Inv(Do(m, Finish(c)))
    ensures var done := Do(m, Finish(c));
      match outcome
      case Minted(v, life) =>
        && done.callers[c] == Done(Exchanged(AccessToken(v, w.callers[c].credentials)))
        && done.shared.accessToken == Some(AccessToken(v, w.callers[c].credentials))
        && done.shared.expiresAt == w.now + life
      case _ => done.callers[c] == Done(Failed) && done.shared.accessToken.None?
  {
    StepKeepsInv(w, Exchange(c, outcome));
    RunLeavesFinishing(Do(w, Exchange(c, outcome)), c, mid, m);
    StepKeepsInv(m, Finish(c));
  }

  // A woken call starts over from the beginning, with the fast path.
  lemma WokenCallsStartOver(w: World, c: nat, n: nat)
    requires Inv(w) && Enabled(w, Wake(c)) && n > 0
    ensures Do(w, Wake(c)).callers == w.callers[c := Start(n, w.shared.credentials, 0).callers[0]]
    ensures Do(w, Wake(c)).shared == w.shared
  {
  }

  // What a call finds that looks at the cache, on the fast path or again under the lock.
  lemma LookDecides(u: World, look: Step)
    requires Inv(u) && (look.Check? || look.Enter?) && Enabled(u, look)
    ensures look.c < |Do(u, look).callers|
    ensures var pc, s := Do(u, look).callers[look.c], u.shared;
      && (pc.Done? <==> s.accessToken.Some? && s.expiresAt - u.now > 300_000_000_000)
      && (pc.Done? ==> pc.result.Cached? && pc.result.token == s.accessToken.value)
  {
  }

  lemma CachedTokenLasts(done: World, later: seq<Step>, u: World, look: Step)
    requires Inv(done) && Run(done, later, u) && Quiet(done, later)
    requires (look.Check? || look.Enter?) && Enabled(u, look)
    ensures Inv(u) && look.c < |Do(u, look).callers|
    ensures var pc, s := Do(u, look).callers[look.c], done.shared;
      && (pc.Done? <==> s.accessToken.Some? && s.expiresAt - u.now > 300_000_000_000)
      && (pc.Done? ==> pc.result.Cached? && pc.result.token == s.accessToken.value)
  {
    QuietKeepsToken(done, later, u);
    LookDecides(u, look);
  }

  ghost predicate Moves(w: World, s: Step, w': World) {
    && Enabled(w, s) && (w.shared.refreshing ==> w.shared.refreshCh.Some?) && |w.loops| == |w.callers|
    && w' == Do(w, s)
  }

  // What it brings the others.  The exchange leads from `w` to `sent`, its caller's finish
  // from `m` to `done`.  If from then on the credentials stay and no other refresh finishes,
  // a look in `u` hands that token out if and only if its lifetime exceeds the time since
  // the exchange by more than five minutes.
  lemma RefreshedTokenLasts(w: World, c: nat, outcome: Outcome, sent: World, mid: seq<Step>, m: World, done: World,
                            later: seq<Step>, u: World, look: Step, end: World)
    requires Inv(w) && Moves(w, Exchange(c, outcome), sent)
    requires Run(sent, mid, m) && forall s | s in mid :: s != Finish(c)
    requires Moves(m, Finish(c), done)
    requires Run(done, later, u) && Quiet(done, later)
    requires (look.Check? || look.Enter?) && Moves(u, look, end)
    ensures look.c < |end.callers|
    ensures var pc := end.callers[look.c];
      && (pc.Done? <==> outcome.Minted? && outcome.lifetime > (u.now - w.now) + 300_000_000_000)
      && (pc.Done? ==> pc.result.Cached? && pc.result.token == AccessToken(outcome.value, w.callers[c].credentials))
  {
    RefresherGetsItsToken(w, c, outcome, mid, m);
    CachedTokenLasts(done, later, u, look);
  }

  // In every run a cached token was minted from the current credentials unless these
  // changed while its refresh was in flight.
  lemma CachedTokenMatches(n: nat, credentials: Credentials, now: nat, steps: seq<Step>, w: World)
    requires Run(Start(n, credentials, now), steps, w)
    ensures w.shared.accessToken.Some? && !w.stale ==> w.shared.accessToken.value.mintedFrom == w.shared.credentials
  {
    StartInv(n, credentials, now);
    RunKeepsInv(Start(n, credentials, now), steps, w);
  }

  // Updating to the same credentials any number of times changes nothing at all.
  lemma {:induction false} IdenticalUpdatesAreFree(w: World, times: nat)
    requires Inv(w)
    ensures Run(w, seq(times, _ => Update(w.shared.credentials)), w)
  {
    if times == 0 {
    } else {
      var steps := seq(times, _ => Update(w.shared.credentials));
      assert steps[1..] == seq(times - 1, _ => Update(w.shared.credentials));
      IdenticalUpdatesAreFree(w, times - 1);
    }
  }

  // An update during a refresh does not cancel it: a token for the old credentials ends
  // up in the cache and is handed to the next caller.
  lemma UpdateMayBeOvertaken(old': Credentials, new': Credentials)
    requires old' != new'
    ensures exists steps: seq<Step>, w: World ::
      && Run(Start(2, old', 0), steps, w)
      && w.shared.credentials == new' && w.shared.accessToken == Some(AccessToken(7, old')) && |w.callers| == 2
      && w.callers[1] == Done(Cached(AccessToken(7, old'), 0, 2 * TOKEN_REFRESH_BUFFER))
  {
    var life := 2 * TOKEN_REFRESH_BUFFER;
    var tail := [Exchange(0, Minted(7, life)), Finish(0), Check(1)];
    var w0 := Start(2, old', 0);
    var w1 := Do(w0, Check(0));
    assert w1.callers == [Entering, Checking];
    var w2 := Do(w1, Enter(0));
    assert w2.callers == [Minting(old'), Checking] && w2.shared == Shared(old', None, ZERO_TIME, true, Some(0), 1, []);
    var w3 := Do(w2, Update(new'));
    assert w3.callers == w2.callers && w3.shared == w2.shared.(credentials := new');
    var w6 := OvertakenTail(w3, old', life);
    Follow(w2, Update(new'), tail, w6);
    Follow(w1, Enter(0), [Update(new')] + tail, w6);
    Follow(w0, Check(0), [Enter(0)] + ([Update(new')] + tail), w6);
  }

  lemma Follow(w: World, s: Step, rest: seq<Step>, w': World)
    requires Enabled(w, s) && (w.shared.refreshing ==> w.shared.refreshCh.Some?) && |w.loops| == |w.callers|
    requires Run(Do(w, s), rest, w')
    ensures Run(w, [s] + rest, w')
  {
    assert ([s] + rest)[1..] == rest;
  }

  lemma OvertakenTail(w: World, old': Credentials, life: int) returns (w3: World)
    requires w.callers == [Minting(old'), Checking] && |w.loops| == 2 && w.now == 0
    requires w.shared.refreshing && w.shared.refreshCh == Some(0)
    requires TOKEN_REFRESH_BUFFER < life
    ensures Run(w, [Exchange(0, Minted(7, life)), Finish(0), Check(1)], w3)
    ensures w3.shared.credentials == w.shared.credentials && w3.shared.accessToken == Some(AccessToken(7, old'))
    ensures |w3.callers| == 2 && w3.callers[1] == Done(Cached(AccessToken(7, old'), 0, life))
  {
    var w1 := Do(w, Exchange(0, Minted(7, life)));
    var w2 := Do(w1, Finish(0));
    w3 := Do(w2, Check(1));
    Follow(w2, Check(1), [], w3);
    Follow(w1, Finish(0), [Check(1)] + [], w3);
    Follow(w, Exchange(0, Minted(7, life)), [Finish(0)] + ([Check(1)] + []), w3);
    assert [Exchange(0, Minted(7, life))] + ([Finish(0)] + ([Check(1)] + []))
        == [Exchange(0, Minted(7, life)), Finish(0), Check(1)];
  }
}
