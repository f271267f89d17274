/**
  The event pipeline: any number of ingesters offer events to a bounded channel,
  one processor takes them in turn, waits for the rate limiter and sends.  On
  cancellation the processor drains what is left, and a later start reuses the
  channel.

  `Pipeline` is the step machine over all interleavings; class `EventProcessor`
  is the processor's code, whose executions are shown to be runs of the machine.
 */
module Pipeline {
  import opened Resources
  import opened Ingester

  datatype Phase = Running | Draining | Stopped

  // How a taken event ended.  `applied` counts how often the receiver applied it:
  // at least once when the send succeeded; a failed send may also have been applied.
  datatype Fate = Sent(applied: nat) | SendFailed(applied: nat) | RateCancelled
  {
    predicate Possible() {
      Sent? ==> applied >= 1
    }
  }

  datatype OfferRecord = OfferRecord(event: ResourceEvent, accepted: bool)

  datatype TakenRecord = TakenRecord(event: ResourceEvent, fate: Fate)

  // The channel, the event in the processor's hand, and the history so far.
  datatype Pipeline = Pipeline(
    capacity: nat, queue: seq<ResourceEvent>, hand: Option<ResourceEvent>, phase: Phase,
    offers: seq<OfferRecord>, taken: seq<TakenRecord>)

  datatype Step =
    | Offer(event: ResourceEvent)
    | Take
    | Finish(fate: Fate)
    | SeeCancel
    | DrainedOut
    | DrainTimeout
    | Restart

  function Initial(capacity: nat): Pipeline {
    Pipeline(capacity, [], None, Stopped, [], [])
  }

  predicate Enabled(p: Pipeline, s: Step) {
    match s
    case Offer(_) => true
    case Take => p.phase != Stopped && p.hand.None? && p.queue != []
    case Finish(fate) => p.phase != Stopped && p.hand.Some? && fate.Possible()
    case SeeCancel => p.phase == Running && p.hand.None?
    case DrainedOut => p.phase == Draining && p.hand.None? && p.queue == []
    case DrainTimeout => p.phase == Draining && p.hand.None?
    case Restart => p.phase == Stopped
  }

  function Do(p: Pipeline, s: Step): Pipeline
    requires Enabled(p, s)
  {
    match s
    case Offer(e) =>
      p.(queue := Offered(p.queue, p.capacity, Some(e)),
         offers := p.offers + [OfferRecord(e, |p.queue| < p.capacity)])
    case Take => p.(queue := p.queue[1..], hand := Some(p.queue[0]))
    case Finish(fate) => p.(hand := None, taken := p.taken + [TakenRecord(p.hand.value, fate)])
    case SeeCancel => p.(phase := Draining)
    case DrainedOut => p.(phase := Stopped)
    case DrainTimeout => p.(phase := Stopped)
    case Restart => p.(phase := Running)
  }

  function Offers(steps: seq<Step>): seq<ResourceEvent> {
    if steps == [] then []
    else (if steps[0].Offer? then [steps[0].event] else []) + Offers(steps[1..])
  }

  ghost predicate Run(p: Pipeline, steps: seq<Step>, p': Pipeline)
    decreases |steps|
  {
    if steps == [] then p == p'
    else Enabled(p, steps[0]) && Run(Do(p, steps[0]), steps[1..], p')
  }

  lemma {:induction false} RunSnoc(p: Pipeline, a: seq<Step>, q: Pipeline, s: Step)
    requires Run(p, a, q) && Enabled(q, s)
    ensures Run(p, a + [s], Do(q, s))
    decreases |a|
  {
    if a == [] {
      assert [s][1..] == [] && a + [s] == [s];
    } else {
      RunSnoc(Do(p, a[0]), a[1..], q, s);
      assert (a + [s])[1..] == a[1..] + [s];
    }
  }

  ghost predicate Reachable(p: Pipeline) {
    exists steps :: Run(Initial(p.capacity), steps, p)
  }

  lemma ReachStep(p: Pipeline, s: Step)
    requires Reachable(p) && Enabled(p, s)
    ensures Reachable(Do(p, s))
  {
    var steps :| Run(Initial(p.capacity), steps, p);
    RunSnoc(Initial(p.capacity), steps, p, s);
  }

  /* ---- Conservation and order ---- */

  function OfferedEvents(offers: seq<OfferRecord>): seq<ResourceEvent> {
    if offers == [] then [] else OfferedEvents(offers[..|offers| - 1]) + [offers[|offers| - 1].event]
  }

  function ByVerdict(offers: seq<OfferRecord>, accepted: bool): seq<ResourceEvent> {
    if offers == [] then []
    else
      var last := offers[|offers| - 1];
      ByVerdict(offers[..|offers| - 1], accepted) + if last.accepted == accepted then [last.event] else []
  }

  function TakenEvents(taken: seq<TakenRecord>): seq<ResourceEvent> {
    if taken == [] then [] else TakenEvents(taken[..|taken| - 1]) + [taken[|taken| - 1].event]
  }

  datatype Outcome = Success | Failure | Cancellation

  function OutcomeOf(f: Fate): Outcome {
    match f case Sent(_) => Success case SendFailed(_) => Failure case RateCancelled => Cancellation
  }

  function ByOutcome(taken: seq<TakenRecord>, outcome: Outcome): seq<ResourceEvent> {
    if taken == [] then []
    else
      var last := taken[|taken| - 1];
      ByOutcome(taken[..|taken| - 1], outcome) + if OutcomeOf(last.fate) == outcome then [last.event] else []
  }

  // What SendEvent was called with, in order.
  function PassedToSend(taken: seq<TakenRecord>): seq<ResourceEvent> {
    if taken == [] then []
    else
      var last := taken[|taken| - 1];
      PassedToSend(taken[..|taken| - 1]) + if last.fate.RateCancelled? then [] else [last.event]
  }

  function InHand(p: Pipeline): seq<ResourceEvent> {
    if p.hand.Some? then [p.hand.value] else []
  }

  ghost predicate Inv(p: Pipeline) {
    && |p.queue| <= p.capacity
    && ByVerdict(p.offers, true) == TakenEvents(p.taken) + InHand(p) + p.queue
    && (p.phase == Stopped ==> p.hand.None?)
    && forall i | 0 <= i < |p.taken| :: p.taken[i].fate.Possible()
  }

  lemma OfferKeepsInv(p: Pipeline, e: ResourceEvent)
    requires Inv(p)
    ensures Inv(Do(p, Offer(e)))
  {
    var p' := Do(p, Offer(e));
    assert p'.offers[..|p'.offers| - 1] == p.offers;
    var done := TakenEvents(p.taken) + InHand(p);
    if |p.queue| < p.capacity {
      assert ByVerdict(p'.offers, true) == ByVerdict(p.offers, true) + [e];
      assert (done + p.queue) + [e] == done + p'.queue;
    } else {
      assert ByVerdict(p'.offers, true) == ByVerdict(p.offers, true) + [];
    }
  }

  lemma TakenSnoc(taken: seq<TakenRecord>, r: TakenRecord)
    ensures TakenEvents(taken + [r]) == TakenEvents(taken) + [r.event]
  {
    var all := taken + [r];
    assert all[..|all| - 1] == taken && all[|all| - 1] == r;
  }

  lemma TakeKeepsOrderOfAccepted(taken: seq<ResourceEvent>, queue: seq<ResourceEvent>)
    requires queue != []
    ensures taken + [queue[0]] + queue[1..] == taken + [] + queue
  {
    assert queue == [queue[0]] + queue[1..];
  }

  lemma ProcessorKeepsInv(p: Pipeline, s: Step)
    requires Inv(p) && Enabled(p, s) && (s.Take? || s.Finish?)
    ensures Inv(Do(p, s))
  {
    if s.Take? {
      TakeKeepsOrderOfAccepted(TakenEvents(p.taken), p.queue);
    } else {
      TakenSnoc(p.taken, TakenRecord(p.hand.value, s.fate));
      assert TakenEvents(Do(p, s).taken) + [] + p.queue == TakenEvents(p.taken) + [p.hand.value] + p.queue;
    }
  }

  lemma StepKeepsInv(p: Pipeline, s: Step)
    requires Inv(p) && Enabled(p, s)
    ensures Inv(Do(p, s))
  {
    match s
    case Offer(e) => OfferKeepsInv(p, e);
    case Take => ProcessorKeepsInv(p, s);
    case Finish(_) => ProcessorKeepsInv(p, s);
    case _ =>
  }

  lemma {:induction false} RunKeepsInv(p: Pipeline, steps: seq<Step>, p': Pipeline)
    requires Inv(p) && Run(p, steps, p')
    ensures Inv(p') && p'.capacity == p.capacity
    decreases |steps|
  {
    if steps == [] {
    } else {
      StepKeepsInv(p, steps[0]);
      RunKeepsInv(Do(p, steps[0]), steps[1..], p');
    }
  }

  ghost predicate Subsequence<T>(a: seq<T>, b: seq<T>) {
    if a == [] then true
    else if b == [] then false
    else (a[|a| - 1] == b[|b| - 1] && Subsequence(a[..|a| - 1], b[..|b| - 1])) || Subsequence(a, b[..|b| - 1])
  }

  lemma {:induction false} SubsequenceExtend<T>(a: seq<T>, b: seq<T>, c: seq<T>)
    requires Subsequence(a, b)
    ensures Subsequence(a, b + c)
  {
    if c == [] {
      assert b + c == b;
    } else {
      SubsequenceExtend(a, b, c[..|c| - 1]);
      assert (b + c)[..|b + c| - 1] == b + c[..|c| - 1];
    }
  }

  lemma {:induction false} SubsequenceTrans<T>(a: seq<T>, b: seq<T>, c: seq<T>)
    requires Subsequence(a, b) && Subsequence(b, c)
    ensures Subsequence(a, c)
    decreases |b| + |c|
  {
    if a == [] {
    } else {
      var b', c' := b[..|b| - 1], c[..|c| - 1];
      if Subsequence(b, c') {
        SubsequenceTrans(a, b, c');
      } else if Subsequence(a, b') {
        SubsequenceTrans(a, b', c');
      } else {
        SubsequenceTrans(a[..|a| - 1], b', c');
      }
    }
  }

  lemma {:induction false} SendsAreTaken(taken: seq<TakenRecord>)
    ensures Subsequence(PassedToSend(taken), TakenEvents(taken))
  {
    if taken == [] {
    } else {
      var n := |taken| - 1;
      SendsAreTaken(taken[..n]);
      var all := TakenEvents(taken);
      assert all[..|all| - 1] == TakenEvents(taken[..n]);
      if taken[n].fate.RateCancelled? {
        assert PassedToSend(taken) == PassedToSend(taken[..n]);
      } else {
        var sent := PassedToSend(taken);
        assert sent[..|sent| - 1] == PassedToSend(taken[..n]);
      }
    }
  }

  lemma {:induction false} AcceptedAreOffered(offers: seq<OfferRecord>)
    ensures Subsequence(ByVerdict(offers, true), OfferedEvents(offers))
  {
    if offers == [] {
    } else {
      var n := |offers| - 1;
      AcceptedAreOffered(offers[..n]);
      var all, acc := OfferedEvents(offers), ByVerdict(offers, true);
      assert all[..|all| - 1] == OfferedEvents(offers[..n]);
      if offers[n].accepted {
        assert acc[..|acc| - 1] == ByVerdict(offers[..n], true);
      } else {
        assert acc == ByVerdict(offers[..n], true);
      }
    }
  }

  lemma {:induction false} OffersSplit(offers: seq<OfferRecord>)
    ensures multiset(OfferedEvents(offers)) == multiset(ByVerdict(offers, true)) + multiset(ByVerdict(offers, false))
  {
    if offers == [] {
    } else {
      OffersSplit(offers[..|offers| - 1]);
    }
  }

  lemma {:induction false} TakenSplit(taken: seq<TakenRecord>)
    ensures multiset(TakenEvents(taken)) ==
      multiset(ByOutcome(taken, Success)) + multiset(ByOutcome(taken, Failure))
      + multiset(ByOutcome(taken, Cancellation))
  {
    if taken == [] {
    } else {
      var n := |taken| - 1;
      TakenSplit(taken[..n]);
      assert TakenEvents(taken) == TakenEvents(taken[..n]) + [taken[n].event];
    }
  }

  predicate EndedIn(r: TakenRecord, outcome: Outcome) {
    match outcome
    case Success => r.fate.Sent?
    case Failure => r.fate.SendFailed?
    case Cancellation => r.fate.RateCancelled?
  }

  predicate ReachedSender(r: TakenRecord) {
    !r.fate.RateCancelled?
  }

  // `at` lists, in order, where the records that qualify are, and `events` what they are
  // about.
  ghost predicate Picks(taken: seq<TakenRecord>, qualifies: TakenRecord -> bool,
                        events: seq<ResourceEvent>, at: seq<nat>)
  {
    && |at| == |events|
    && (forall i, j | 0 <= i < j < |at| :: at[i] < at[j])
    && (forall i | 0 <= i < |at| :: at[i] < |taken| && taken[at[i]].event == events[i])
    && (forall k: nat | k < |taken| :: k in at <==> qualifies(taken[k]))
  }

  lemma PickOneMore(taken: seq<TakenRecord>, r: TakenRecord, qualifies: TakenRecord -> bool,
                    events: seq<ResourceEvent>, at: seq<nat>)
    requires Picks(taken, qualifies, events, at)
    ensures qualifies(r) ==> Picks(taken + [r], qualifies, events + [r.event], at + [|taken|])
    ensures !qualifies(r) ==> Picks(taken + [r], qualifies, events, at)
  {
    var all := taken + [r];
    forall k: nat | k < |all| ensures k in at + [|taken|] <==> k in at || k == |taken| {}
    forall k: nat | k < |taken| ensures k in at <==> qualifies(all[k]) {
      assert all[k] == taken[k];
    }
  }

  // The events with some outcome are those of the records with that fate, in their order.
  lemma {:induction false} OutcomesAreFates(taken: seq<TakenRecord>, outcome: Outcome) returns (at: seq<nat>)
    ensures Picks(taken, r => EndedIn(r, outcome), ByOutcome(taken, outcome), at)
  {
    if taken == [] {
      at := [];
    } else {
      var n := |taken| - 1;
      at := OutcomesAreFates(taken[..n], outcome);
      PickOneMore(taken[..n], taken[n], r => EndedIn(r, outcome), ByOutcome(taken[..n], outcome), at);
      assert taken == taken[..n] + [taken[n]];
      if EndedIn(taken[n], outcome) {
        at := at + [n];
      } else {
        assert ByOutcome(taken, outcome) == ByOutcome(taken[..n], outcome);
      }
    }
  }

  // The events passed to the sender are those not given up in the limiter, in their order.
  lemma {:induction false} PassedAreNotCancelled(taken: seq<TakenRecord>) returns (at: seq<nat>)
    ensures Picks(taken, ReachedSender, PassedToSend(taken), at)
  {
    if taken == [] {
      at := [];
    } else {
      var n := |taken| - 1;
      at := PassedAreNotCancelled(taken[..n]);
      PickOneMore(taken[..n], taken[n], ReachedSender, PassedToSend(taken[..n]), at);
      assert taken == taken[..n] + [taken[n]];
      if ReachedSender(taken[n]) {
        at := at + [n];
      } else {
        assert PassedToSend(taken) == PassedToSend(taken[..n]);
      }
    }
  }

  // A subsequence is one whose elements are found at growing places.
  lemma {:induction false} SubsequenceIsEmbedded<T>(a: seq<T>, b: seq<T>) returns (at: seq<nat>)
    requires Subsequence(a, b)
    ensures |at| == |a|
    ensures forall i, j | 0 <= i < j < |at| :: at[i] < at[j]
    ensures forall i | 0 <= i < |at| :: at[i] < |b| && b[at[i]] == a[i]
    decreases |b|
  {
    if a == [] {
      at := [];
    } else {
      var n := |b| - 1;
      if a[|a| - 1] == b[n] && Subsequence(a[..|a| - 1], b[..n]) {
        at := SubsequenceIsEmbedded(a[..|a| - 1], b[..n]);
        at := at + [n];
      } else {
        at := SubsequenceIsEmbedded(a, b[..n]);
      }
    }
  }

  // Over every run, whatever the interleaving and however often the processor is
  // stopped and restarted: each offered event is exactly one of dropped, queued, in
  // hand, sent, failed or cancelled; the channel never overflows; and the events
  // passed to SendEvent are offered events in the order they were offered.
  lemma ConservationAndOrder(capacity: nat, steps: seq<Step>, p: Pipeline)
    requires Run(Initial(capacity), steps, p)
    ensures multiset(OfferedEvents(p.offers)) ==
      multiset(ByVerdict(p.offers, false)) + multiset(p.queue) + multiset(InHand(p))
      + multiset(ByOutcome(p.taken, Success)) + multiset(ByOutcome(p.taken, Failure))
      + multiset(ByOutcome(p.taken, Cancellation))
    ensures |p.queue| <= capacity
    ensures TakenEvents(p.taken) + InHand(p) + p.queue == ByVerdict(p.offers, true)
    ensures Subsequence(PassedToSend(p.taken), OfferedEvents(p.offers))
  {
    RunKeepsInv(Initial(capacity), steps, p);
    Conservation(p);
    SendOrder(p);
  }

  lemma Conservation(p: Pipeline)
    requires Inv(p)
    ensures multiset(OfferedEvents(p.offers)) ==
      multiset(ByVerdict(p.offers, false)) + multiset(p.queue) + multiset(InHand(p))
      + multiset(ByOutcome(p.taken, Success)) + multiset(ByOutcome(p.taken, Failure))
      + multiset(ByOutcome(p.taken, Cancellation))
  {
    OffersSplit(p.offers);
    TakenSplit(p.taken);
    assert multiset(ByVerdict(p.offers, true)) == multiset(TakenEvents(p.taken) + InHand(p) + p.queue);
  }

  lemma SendOrder(p: Pipeline)
    requires Inv(p)
    ensures Subsequence(PassedToSend(p.taken), ByVerdict(p.offers, true))
    ensures Subsequence(PassedToSend(p.taken), OfferedEvents(p.offers))
  {
    SendsAreTaken(p.taken);
    SubsequenceExtend(PassedToSend(p.taken), TakenEvents(p.taken), InHand(p));
    SubsequenceExtend(PassedToSend(p.taken), TakenEvents(p.taken) + InHand(p), p.queue);
    AcceptedAreOffered(p.offers);
    SubsequenceTrans(PassedToSend(p.taken), ByVerdict(p.offers, true), OfferedEvents(p.offers));
  }

  /* ---- The drain ends ---- */

  predicate IsDrainStep(s: Step) {
    s.Take? || s.Finish? || s.DrainedOut? || s.DrainTimeout?
  }

  function DrainSteps(steps: seq<Step>): nat {
    if steps == [] then 0 else (if IsDrainStep(steps[0]) then 1 else 0) + DrainSteps(steps[1..])
  }

  // Work left: two steps for a queued event, one for the event in hand, one to exit.
  function DrainWork(p: Pipeline): nat {
    2 * |p.queue| + |InHand(p)| + if p.phase == Stopped then 0 else 1
  }

  // Once draining, the processor takes a number of steps bounded by what is queued
  // and what is still offered.
  lemma {:induction false} DrainIsBounded(p: Pipeline, steps: seq<Step>, p': Pipeline)
    requires p.phase != Running && Run(p, steps, p')
    requires forall s | s in steps :: !s.Restart?
    ensures DrainSteps(steps) + DrainWork(p') <= DrainWork(p) + 2 * |Offers(steps)|
    ensures p'.phase != Running
    decreases |steps|
  {
    if steps == [] {
    } else {
      DrainIsBounded(Do(p, steps[0]), steps[1..], p');
    }
  }

  /* ---- The processor's code ---- */

  // What arrives before the i-th look at the channel, and what has arrived before the n-th.
  function ArrivedAt(arrivals: seq<seq<ResourceEvent>>, i: nat): seq<ResourceEvent> {
    if i < |arrivals| then arrivals[i] else []
  }

  function Flatten(arrivals: seq<seq<ResourceEvent>>, n: nat): seq<ResourceEvent> {
    if n == 0 then [] else Flatten(arrivals, n - 1) + ArrivedAt(arrivals, n - 1)
  }

  // The channel and the history, whatever phase the processor is in.
  datatype Ledger = Ledger(
    capacity: nat, queue: seq<ResourceEvent>, offers: seq<OfferRecord>, taken: seq<TakenRecord>)

  function AfterOffer(l: Ledger, e: ResourceEvent): Ledger {
    l.(queue := Offered(l.queue, l.capacity, Some(e)),
       offers := l.offers + [OfferRecord(e, |l.queue| < l.capacity)])
  }

  function AfterOffers(l: Ledger, events: seq<ResourceEvent>): Ledger {
    if events == [] then l
    else AfterOffer(AfterOffers(l, events[..|events| - 1]), events[|events| - 1])
  }

  // The event at the front, if any, is taken, and ends as `fates` decides.
  function AfterTake(l: Ledger, fates: nat -> Fate): Ledger {
    if l.queue == [] then l
    else l.(queue := l.queue[1..], taken := l.taken + [TakenRecord(l.queue[0], fates(|l.taken|))])
  }

  // One turn of the processor: what arrived was offered, in order; then it looked.
  function AfterTurn(l: Ledger, arrivals: seq<ResourceEvent>, fates: nat -> Fate): Ledger {
    AfterTake(AfterOffers(l, arrivals), fates)
  }

  function AfterTurns(l: Ledger, arrivals: seq<seq<ResourceEvent>>, n: nat, fates: nat -> Fate): Ledger {
    if n == 0 then l else AfterTurn(AfterTurns(l, arrivals, n - 1, fates), ArrivedAt(arrivals, n - 1), fates)
  }

  // Exactly `events` were offered since `before`, in that order.
  ghost predicate Gained(before: Ledger, now: Ledger, events: seq<ResourceEvent>) {
    OfferedEvents(now.offers) == OfferedEvents(before.offers) + events
  }

  // Every accepted event is accounted for: taken, or waiting in the channel in order.
  ghost predicate InOrder(l: Ledger) {
    ByVerdict(l.offers, true) == TakenEvents(l.taken) + l.queue
  }

  // The events taken since `before` ended as the environment decided.
  ghost predicate Ends(before: Ledger, now: Ledger, fates: nat -> Fate) {
    before.taken <= now.taken && forall j | |before.taken| <= j < |now.taken| :: now.taken[j].fate == fates(j)
  }

  lemma {:induction false} OffersMean(l: Ledger, events: seq<ResourceEvent>)
    requires InOrder(l) && |l.queue| <= l.capacity
    ensures var l' := AfterOffers(l, events);
      && l'.capacity == l.capacity && |l'.queue| <= l.capacity && l'.taken == l.taken
      && Gained(l, l', events) && InOrder(l')
  {
    if events == [] {
    } else {
      var n := |events| - 1;
      OffersMean(l, events[..n]);
      var m := AfterOffers(l, events[..n]);
      var l' := AfterOffers(l, events);
      assert l'.offers[..|l'.offers| - 1] == m.offers;
      assert OfferedEvents(l.offers) + events == (OfferedEvents(l.offers) + events[..n]) + [events[n]];
      assert (TakenEvents(m.taken) + m.queue) + [events[n]] == TakenEvents(m.taken) + (m.queue + [events[n]]);
    }
  }

  // The first of the waiting events moves over to the taken ones.
  lemma FrontMovesOver(taken: seq<TakenRecord>, r: TakenRecord, queue: seq<ResourceEvent>)
    requires queue != [] && r.event == queue[0]
    ensures TakenEvents(taken + [r]) + queue[1..] == TakenEvents(taken) + queue
  {
    TakenSnoc(taken, r);
    assert queue == [r.event] + queue[1..];
  }

  lemma TakeKeepsOrder(l: Ledger, fates: nat -> Fate)
    requires InOrder(l)
    ensures InOrder(AfterTake(l, fates))
  {
    if l.queue != [] {
      FrontMovesOver(l.taken, TakenRecord(l.queue[0], fates(|l.taken|)), l.queue);
    }
  }

  lemma TakeEnds(l: Ledger, fates: nat -> Fate)
    ensures Ends(l, AfterTake(l, fates), fates)
  {
  }

  // `l'` follows from `l` by offering exactly `arrivals`, in that order; nothing
  // accepted is lost and the channel is in bounds.
  ghost predicate Accounts(l: Ledger, l': Ledger, arrivals: seq<ResourceEvent>) {
    && l'.capacity == l.capacity && |l'.queue| <= l'.capacity
    && Gained(l, l', arrivals) && InOrder(l')
  }

  lemma TurnMeans(l: Ledger, arrivals: seq<ResourceEvent>, fates: nat -> Fate)
    requires InOrder(l) && |l.queue| <= l.capacity
    ensures Accounts(l, AfterTurn(l, arrivals, fates), arrivals)
  {
    OffersMean(l, arrivals);
    TakeKeepsOrder(AfterOffers(l, arrivals), fates);
  }

  lemma GainedConcat(a: Ledger, b: Ledger, c: Ledger, es: seq<ResourceEvent>, fs: seq<ResourceEvent>)
    requires Gained(a, b, es) && Gained(b, c, fs)
    ensures Gained(a, c, es + fs)
  {
    assert OfferedEvents(a.offers) + (es + fs) == (OfferedEvents(a.offers) + es) + fs;
  }

  // After any number of turns everything that arrived has been offered, in order; the
  // accepted events are the taken ones followed by those in the channel, in order; and
  // the channel is within its capacity.
  lemma {:induction false} TurnsMean(l: Ledger, arrivals: seq<seq<ResourceEvent>>, n: nat, fates: nat -> Fate)
    requires InOrder(l) && |l.queue| <= l.capacity
    ensures Accounts(l, AfterTurns(l, arrivals, n, fates), Flatten(arrivals, n))
  {
    if n == 0 {
      assert OfferedEvents(l.offers) + [] == OfferedEvents(l.offers);
    } else {
      var m, now := AfterTurns(l, arrivals, n - 1, fates), ArrivedAt(arrivals, n - 1);
      TurnsMean(l, arrivals, n - 1, fates);
      TurnMeans(m, now, fates);
      GainedConcat(l, m, AfterTurn(m, now, fates), Flatten(arrivals, n - 1), now);
    }
  }

  lemma {:induction false} OffersTakeNothing(l: Ledger, events: seq<ResourceEvent>)
    ensures AfterOffers(l, events).taken == l.taken
  {
    if events == [] {
    } else {
      OffersTakeNothing(l, events[..|events| - 1]);
    }
  }

  // Every event taken in these turns ended as the environment decided.
  lemma {:induction false} TurnsEnd(l: Ledger, arrivals: seq<seq<ResourceEvent>>, n: nat, fates: nat -> Fate)
    ensures Ends(l, AfterTurns(l, arrivals, n, fates), fates)
  {
    if n == 0 {
    } else {
      var m, now := AfterTurns(l, arrivals, n - 1, fates), ArrivedAt(arrivals, n - 1);
      TurnsEnd(l, arrivals, n - 1, fates);
      OffersTakeNothing(m, now);
      TakeEnds(AfterOffers(m, now), fates);
    }
  }

  ghost predicate PossibleFates(fates: nat -> Fate) {
    forall j :: fates(j).Possible()
  }

  // Every state of the object between two of its steps is one the step machine reaches.
  class EventProcessor {
    const eventChan: EventChannel
    var hand: Option<ResourceEvent>
    var phase: Phase
    var offers: seq<OfferRecord>  // the history, as the code logs it
    var taken: seq<TakenRecord>

    constructor (eventChan: EventChannel)
      requires eventChan.Valid() && eventChan.queue == []
      ensures Valid() && this.eventChan == eventChan && View() == Initial(eventChan.capacity)
    {
      this.eventChan := eventChan;
      hand, phase, offers, taken := None, Stopped, [], [];
      assert Run(Initial(eventChan.capacity), [], Initial(eventChan.capacity));
    }

    ghost function View(): Pipeline
      reads this, eventChan
    {
      Pipeline(eventChan.capacity, eventChan.queue, hand, phase, offers, taken)
    }

    ghost function Books(): Ledger
      reads this, eventChan
    {
      Ledger(eventChan.capacity, eventChan.queue, offers, taken)
    }

    ghost predicate Valid()
      reads this, eventChan
    {
      eventChan.Valid() && Reachable(View())
    }

    // One ingester offers an event.
    method Arrive(e: ResourceEvent)
      requires Valid()
      modifies this`offers, eventChan
      ensures Valid()
      ensures Books() == AfterOffer(old(Books()), e)
    {
      ReachStep(View(), Offer(e));
      var accepted := eventChan.Offer(e);
      offers := offers + [OfferRecord(e, accepted)];
    }

    // The rate-limit wait and the send; the environment decides how they end.
    method SendEvent(fate: Fate)
      requires Valid() && phase != Stopped && hand.Some? && fate.Possible()
      modifies this`hand, this`taken
      ensures Valid() && hand.None? && taken == old(taken) + [TakenRecord(old(hand).value, fate)]
    {
      ReachStep(View(), Finish(fate));
      taken := taken + [TakenRecord(hand.value, fate)];
      hand := None;
    }

    // One `select`: an event is received and sent, if there is one.
    method ReceiveAndSend(fate: Fate) returns (received: bool)
      requires Valid() && phase != Stopped && hand.None? && fate.Possible()
      modifies this`hand, this`taken, eventChan
      ensures Valid() && hand.None?
      ensures received == (old(eventChan.queue) != [])
      ensures received ==> Books() == old(Books()).(queue := old(eventChan.queue)[1..],
          taken := old(taken) + [TakenRecord(old(eventChan.queue)[0], fate)])
      ensures !received ==> Books() == old(Books())
    {
      received := eventChan.queue != [];
      if received {
        ReachStep(View(), Take);
        hand := eventChan.TryReceive();
        SendEvent(fate);
      }
    }

    // One turn: what arrived since the last look at the channel, then a look.
    method Turn(arrivals: seq<ResourceEvent>, fates: nat -> Fate) returns (received: bool)
      requires Valid() && phase != Stopped && hand.None? && PossibleFates(fates)
      modifies this`hand, this`taken, this`offers, eventChan
      ensures Valid() && hand.None? && Books() == AfterTurn(old(Books()), arrivals, fates)
      ensures received ==> |eventChan.queue| < |old(eventChan.queue)| + |arrivals|
      ensures !received ==> eventChan.queue == []
    {
      for n := 0 to |arrivals|
        invariant Valid() && hand.None?
        invariant |eventChan.queue| <= |old(eventChan.queue)| + n
        invariant Books() == AfterOffers(old(Books()), arrivals[..n])
      {
        Arrive(arrivals[n]);
        assert arrivals[..n + 1][..n] == arrivals[..n];
      }
      assert arrivals[..|arrivals|] == arrivals;
      received := ReceiveAndSend(fates(|taken|));
    }

    // One more turn.
    method NextTurn(ghost start: Ledger, arrivals: seq<seq<ResourceEvent>>, n: nat, fates: nat -> Fate)
      returns (received: bool)
      requires Valid() && phase != Stopped && hand.None? && PossibleFates(fates)
      requires Books() == AfterTurns(start, arrivals, n, fates)
      modifies this`hand, this`taken, this`offers, eventChan
      ensures Valid() && hand.None? && Books() == AfterTurns(start, arrivals, n + 1, fates)
      ensures received ==> |eventChan.queue| < |old(eventChan.queue)| + |ArrivedAt(arrivals, n)|
      ensures !received ==> eventChan.queue == []
    {
      received := Turn(ArrivedAt(arrivals, n), fates);
    }

    method Begin()
      requires Valid() && phase == Stopped
      modifies this`phase
      ensures Valid() && Books() == old(Books()) && phase == Running
    {
      ReachStep(View(), Restart);
      phase := Running;
    }

    method BeginDrain()
      requires Valid() && phase == Running && hand.None?
      modifies this`phase
      ensures Valid() && Books() == old(Books()) && phase == Draining
    {
      ReachStep(View(), SeeCancel);
      phase := Draining;
    }

    method EndDrain(timedOut: bool)
      requires Valid() && phase == Draining && hand.None?
      requires timedOut || eventChan.queue == []
      modifies this`phase
      ensures Valid() && Books() == old(Books()) && phase == Stopped
    {
      ghost var s := if timedOut then DrainTimeout else DrainedOut;
      ReachStep(View(), s);
      phase := Stopped;
    }

    // Receives until the channel is empty or the drain context expires.  Events may
    // keep arriving; `fates(j)` is how the j-th event ever taken ends, and `expired(i)`
    // whether the expired arm is chosen in the i-th turn.
    method DrainEvents(arrivals: seq<seq<ResourceEvent>>, fates: nat -> Fate, expired: nat -> bool)
      returns (timedOut: bool, turns: nat)
      requires Valid() && phase == Draining && hand.None? && PossibleFates(fates)
      modifies this, eventChan
      ensures Valid() && phase == Stopped && Books() == AfterTurns(old(Books()), arrivals, turns, fates)
      ensures if timedOut then expired(turns) else eventChan.queue == []
      ensures forall i | 0 <= i < turns :: !expired(i)
    {
      ghost var start := Books();
      timedOut, turns := false, 0;
      var received := true;
      while received && !timedOut
        invariant Valid() && phase == Draining && hand.None?
        invariant Books() == AfterTurns(start, arrivals, turns, fates)
        invariant forall i | 0 <= i < turns :: !expired(i)
        invariant timedOut ==> expired(turns)
        invariant received || (!timedOut && eventChan.queue == [])
        decreases received && !timedOut, if turns < |arrivals| then |arrivals| - turns else 0, |eventChan.queue|
      {
        timedOut := expired(turns);
        if !timedOut {
          received := NextTurn(start, arrivals, turns, fates);
          turns := turns + 1;
        }
      }
      EndDrain(timedOut);
    }

    // The live phase: `live[i]` arrives before the i-th look at the channel.
    method Serve(live: seq<seq<ResourceEvent>>, fates: nat -> Fate)
      requires Valid() && phase == Running && hand.None? && PossibleFates(fates)
      modifies this`hand, this`taken, this`offers, eventChan
      ensures Valid() && hand.None? && Books() == AfterTurns(old(Books()), live, |live|, fates)
    {
      ghost var start := Books();
      for i := 0 to |live|
        invariant Valid() && hand.None? && Books() == AfterTurns(start, live, i, fates)
      {
        var received := NextTurn(start, live, i, fates);
      }
    }

    // The processor from start to finish: it serves until cancellation is seen, then
    // drains what is left while `late` still arrives.
    method ProcessEvents(live: seq<seq<ResourceEvent>>, late: seq<seq<ResourceEvent>>,
                         fates: nat -> Fate, expired: nat -> bool)
      returns (timedOut: bool, turns: nat)
      requires Valid() && phase == Stopped && hand.None? && PossibleFates(fates)
      modifies this, eventChan
      ensures Valid() && phase == Stopped
      ensures Books() == AfterTurns(AfterTurns(old(Books()), live, |live|, fates), late, turns, fates)
      ensures if timedOut then expired(turns) else eventChan.queue == []
    {
      Begin();
      Serve(live, fates);
      BeginDrain();
      timedOut, turns := DrainEvents(late, fates, expired);
    }
  }
}
