/**
  End to end: caches that change, informers that tell the ingesters of it later, the
  bounded channel and its processor, posts that may be repeated or lost, snapshots that
  are listed kind by kind and received on a path of their own, and restarts that begin
  with empty caches.

  `unseen` and `behind` follow, move by move, which keys the receiver may be wrong
  about, and it is right about all others.  Without them, and exactly: a state is
  settled when applying everything on its way would leave the receiver with what the
  caches hold.
 */
module Delivery {
  import opened Resources
  import opened Ingester
  import opened Replication
  import P = Pipeline

  datatype System = System(
    pipe: P.Pipeline,
    cache: Cache,
    waiting: seq<ResourceEvent>,  // of changes the ingesters have not been notified of yet
    view: View,              // what the receiver holds
    landed: nat,             // how often the event in hand has been applied
    snapshot: Option<View>,  // being listed or posted
    listed: set<Kind>,       // the kinds it contains so far
    touched: set<Key>,       // changed since their kind was listed
    unseen: set<Key>,        // changed since the receiver was last right about them
    behind: set<Key>)        // their newest event was dropped, or belongs to an earlier cache
                             // (counts only while an older event is still on its way)

  // `Notify(i)` runs the callback for the i-th waiting change, the first of its kind.
  datatype Move =
    | Change(change: Change)
    | Notify(i: nat)
    | Processor(step: P.Step)
    | Post
    | Cut
    | List(kind: Kind)
    | Receive
    | EndSnapshot
    | Restart
    | OperatorRestart(capacity: nat)

  function Start(capacity: nat): System {
    System(P.Initial(capacity), map[], [], map[], 0, None, {}, {}, {}, {})
  }

  // What has been offered and is not done with, and what has yet to be offered.
  function OnChannel(s: System): seq<ResourceEvent> {
    P.InHand(s.pipe) + s.pipe.queue
  }

  function InFlight(s: System): seq<ResourceEvent> {
    OnChannel(s) + s.waiting
  }

  function Applications(fate: P.Fate): nat {
    match fate case Sent(n) => n case SendFailed(n) => n case RateCancelled => 0
  }

  predicate HasRoom(s: System) {
    |s.pipe.queue| < s.pipe.capacity
  }

  ghost predicate Enabled(s: System, m: Move) {
    match m
    case Change(c) => VersionsFaithful(s.cache, c)
    case Notify(i) => i < |s.waiting| && forall j | 0 <= j < i :: s.waiting[j].kind != s.waiting[i].kind
    case Processor(step) =>
      && !step.Offer? && !step.Restart?
      && P.Enabled(s.pipe, step)
      && (step.Finish? ==> Applications(step.fate) == s.landed)
    case Post => s.pipe.hand.Some?
    case Cut => s.snapshot.None?
    case List(kind) => s.snapshot.Some? && kind !in s.listed
    case Receive => s.snapshot.Some? && forall kind: Kind :: kind in s.listed
    case EndSnapshot => true
    case Restart => s.pipe.phase == P.Stopped
    case OperatorRestart(_) => true
  }

  // `v`, but with the part of `w` that is of one kind.
  function WithKind(v: View, w: View, kind: Kind): View {
    map k | k in v.Keys + w.Keys && (if k.kind == kind then k in w else k in v) ::
      if k.kind == kind then w[k] else v[k]
  }

  // `Restart` starts the same manager again: its channel is kept, its informers are new.
  // `OperatorRestart` is a new process with a new manager: what was queued or in hand is
  // gone as well.
  ghost function Do(s: System, m: Move): System
    requires Enabled(s, m)
  {
    match m
    case Change(c) =>
      var s' := s.(cache := ApplyChange(s.cache, c));
      (match EventOf(s.cache, c)
       case Some(e) =>
         s'.(waiting := s.waiting + [e], touched := s.touched + {e.Target()},
             unseen := s.unseen + {e.Target()}, behind := s.behind - {e.Target()})
       case None => s')
    case Notify(i) =>
      var e := s.waiting[i];
      s.(pipe := P.Do(s.pipe, P.Offer(e)),
         waiting := s.waiting[..i] + s.waiting[i + 1..],
         behind := if HasRoom(s) || e.Target() in Targets(s.waiting[i + 1..]) then s.behind
                   else s.behind + {e.Target()})
    case Processor(step) =>
      s.(pipe := P.Do(s.pipe, step), landed := if step.Take? then 0 else s.landed)
    case Post =>
      var e := s.pipe.hand.value;
      var k := e.Target();
      s.(view := Apply(s.view, e), landed := s.landed + 1,
         unseen := if k in Targets(s.pipe.queue) || k in Targets(s.waiting) || k in s.behind
                   then s.unseen + {k} else s.unseen - {k})
    case Cut => s.(snapshot := Some(map[]), listed := {}, touched := {})
    case List(kind) =>
      s.(snapshot := Some(WithKind(s.snapshot.value, Image(s.cache), kind)), listed := s.listed + {kind},
         touched := set k | k in s.touched && k.kind != kind)
    case Receive => s.(view := s.snapshot.value, unseen := s.touched)
    case EndSnapshot => s.(snapshot := None)
    case Restart =>
      s.(pipe := P.Do(s.pipe, P.Restart), cache := map[], waiting := [],
         touched := s.touched + s.cache.Keys, unseen := s.unseen + s.cache.Keys,
         behind := s.behind + s.cache.Keys + Targets(s.waiting))
    case OperatorRestart(capacity) =>
      s.(pipe := P.Initial(capacity), cache := map[], waiting := [], landed := 0,
         touched := s.touched + s.cache.Keys, unseen := s.unseen + s.cache.Keys, behind := {})
  }

  ghost predicate Run(s: System, moves: seq<Move>, s': System)
    decreases |moves|
  {
    if moves == [] then s == s'
    else Enabled(s, moves[0]) && Run(Do(s, moves[0]), moves[1..], s')
  }

  function Truth(s: System, k: Key): Option<Info> {
    At(Image(s.cache), k)
  }

  ghost predicate RightAt(s: System, k: Key) {
    && (k !in s.unseen ==> At(s.view, k) == Truth(s, k))
    && (k !in s.behind ==>
          match LastFor(InFlight(s), k) case None => true case Some(e) => Effect(e) == Truth(s, k))
    && (s.snapshot.Some? && k.kind in s.listed && k !in s.touched ==> At(s.snapshot.value, k) == Truth(s, k))
  }

  ghost predicate Inv(s: System) {
    forall k :: RightAt(s, k)
  }

  /* ---- What is on its way ---- */

  // The newest event for a key is waiting, or else queued, or else in hand.
  lemma LastInFlight(s: System, k: Key)
    ensures LastFor(P.InHand(s.pipe), k) ==
      if s.pipe.hand.Some? && s.pipe.hand.value.Target() == k then s.pipe.hand else None
    ensures LastFor(OnChannel(s), k) == Later(LastFor(s.pipe.queue, k), LastFor(P.InHand(s.pipe), k))
    ensures LastFor(InFlight(s), k) == Later(LastFor(s.waiting, k), LastFor(OnChannel(s), k))
  {
    LastForConcat(P.InHand(s.pipe), s.pipe.queue, k);
    LastForConcat(OnChannel(s), s.waiting, k);
    if s.pipe.hand.Some? {
      assert P.InHand(s.pipe)[..0] == [];
    }
  }

  lemma InFlightAfterChange(s: System, c: Change, k: Key)
    requires Enabled(s, Change(c))
    ensures var e := EventOf(s.cache, c);
      LastFor(InFlight(Do(s, Change(c))), k) ==
      if e.Some? && e.value.Target() == k then e else LastFor(InFlight(s), k)
  {
    var s' := Do(s, Change(c));
    match EventOf(s.cache, c)
    case None => assert InFlight(s') == InFlight(s);
    case Some(e) =>
      assert InFlight(s') == InFlight(s) + [e];
      LastForConcat(InFlight(s), [e], k);
      assert [e][..0] == [];
  }

  // The callback takes the first event of its kind, so no other of its key is before it.
  lemma WaitingAfterNotify(s: System, i: nat, k: Key)
    requires Enabled(s, Notify(i))
    ensures var e, rest := s.waiting[i], LastFor(s.waiting[i + 1..], k);
      && LastFor(Do(s, Notify(i)).waiting, k) == (if e.Target() == k then rest else LastFor(s.waiting, k))
      && (e.Target() == k ==> LastFor(s.waiting, k) == Later(rest, Some(e)))
  {
    LastForTakenOut(s.waiting, i, k);
    if s.waiting[i].Target() == k {
      NoneOfKind(s.waiting[..i], k);
    }
  }

  lemma ChannelAfterNotify(s: System, i: nat, k: Key)
    requires Enabled(s, Notify(i))
    ensures var e := s.waiting[i];
      LastFor(OnChannel(Do(s, Notify(i))), k) ==
      if HasRoom(s) && e.Target() == k then Some(e) else LastFor(OnChannel(s), k)
  {
    var s', e := Do(s, Notify(i)), s.waiting[i];
    if HasRoom(s) {
      assert OnChannel(s') == OnChannel(s) + [e];
      LastForConcat(OnChannel(s), [e], k);
      assert [e][..0] == [];
    } else {
      assert OnChannel(s') == OnChannel(s);
    }
  }

  // Nothing is lost by a callback unless the channel is full and no newer change of the
  // same key is waiting.
  lemma InFlightAfterNotify(s: System, i: nat, k: Key)
    requires Enabled(s, Notify(i))
    ensures var e := s.waiting[i];
      LastFor(InFlight(Do(s, Notify(i))), k) ==
      if HasRoom(s) || e.Target() != k || k in Targets(s.waiting[i + 1..]) then LastFor(InFlight(s), k)
      else LastFor(OnChannel(s), k)
  {
    LastForConcat(OnChannel(s), s.waiting, k);
    LastForConcat(OnChannel(Do(s, Notify(i))), Do(s, Notify(i)).waiting, k);
    WaitingAfterNotify(s, i, k);
    ChannelAfterNotify(s, i, k);
    LastForTargets(s.waiting[i + 1..], k);
  }

  lemma {:induction false} NoneOfKind(es: seq<ResourceEvent>, k: Key)
    requires forall j | 0 <= j < |es| :: es[j].kind != k.kind
    ensures LastFor(es, k).None?
  {
    if es == [] {
    } else {
      NoneOfKind(es[..|es| - 1], k);
    }
  }

  lemma InFlightAfterProcessor(s: System, step: P.Step, k: Key)
    requires Enabled(s, Processor(step))
    ensures LastFor(InFlight(Do(s, Processor(step))), k) ==
      if step.Finish? then Later(LastFor(s.waiting, k), LastFor(s.pipe.queue, k)) else LastFor(InFlight(s), k)
  {
    var s' := Do(s, Processor(step));
    match step
    case Take =>
      assert s.pipe.queue == [s.pipe.queue[0]] + s.pipe.queue[1..];
      assert OnChannel(s') == OnChannel(s);
    case Finish(_) =>
      LastInFlight(s', k);
    case SeeCancel | DrainedOut | DrainTimeout =>
      assert OnChannel(s') == OnChannel(s);
  }

  lemma InFlightAfterRestart(s: System, m: Move)
    requires Enabled(s, m) && (m.Restart? || m.OperatorRestart?)
    ensures InFlight(Do(s, m)) == if m.Restart? then OnChannel(s) else []
  {
  }

  /* ---- What the receiver may be wrong about ---- */

  lemma ChangeKeeps(s: System, c: Change, k: Key)
    requires RightAt(s, k) && Enabled(s, Change(c))
    ensures RightAt(Do(s, Change(c)), k)
  {
    EventIsCurrent(s.cache, c, k);
    InFlightAfterChange(s, c, k);
  }

  lemma NotifyKeeps(s: System, i: nat, k: Key)
    requires RightAt(s, k) && Enabled(s, Notify(i))
    ensures RightAt(Do(s, Notify(i)), k)
  {
    InFlightAfterNotify(s, i, k);
  }

  lemma ProcessorKeeps(s: System, step: P.Step, k: Key)
    requires RightAt(s, k) && Enabled(s, Processor(step))
    ensures RightAt(Do(s, Processor(step)), k)
  {
    InFlightAfterProcessor(s, step, k);
    LastInFlight(s, k);
  }

  lemma PostKeeps(s: System, k: Key)
    requires RightAt(s, k) && Enabled(s, Post)
    ensures RightAt(Do(s, Post), k)
  {
    LastInFlight(s, k);
    LastForTargets(s.pipe.queue, k);
    LastForTargets(s.waiting, k);
    assert InFlight(Do(s, Post)) == InFlight(s);
  }

  lemma RestartKeeps(s: System, k: Key)
    requires RightAt(s, k) && Enabled(s, Restart)
    ensures RightAt(Do(s, Restart), k)
  {
    InFlightAfterRestart(s, Restart);
    LastInFlight(s, k);
    LastForTargets(s.waiting, k);
  }

  lemma MoveKeeps(s: System, m: Move, k: Key)
    requires RightAt(s, k) && Enabled(s, m)
    ensures RightAt(Do(s, m), k)
  {
    match m
    case Change(c) => ChangeKeeps(s, c, k);
    case Notify(i) => NotifyKeeps(s, i, k);
    case Processor(step) => ProcessorKeeps(s, step, k);
    case Post => PostKeeps(s, k);
    case Restart => RestartKeeps(s, k);
    case _ =>
  }

  lemma {:induction false} RunKeepsInv(s: System, moves: seq<Move>, s': System)
    requires Inv(s) && Run(s, moves, s')
    ensures Inv(s')
    decreases |moves|
  {
    if moves == [] {
    } else {
      forall k ensures RightAt(Do(s, moves[0]), k) { MoveKeeps(s, moves[0], k); }
      RunKeepsInv(Do(s, moves[0]), moves[1..], s');
    }
  }

  lemma StartIsRight(capacity: nat)
    ensures Inv(Start(capacity))
  {
    assert InFlight(Start(capacity)) == [];
  }

  // In every reachable state the receiver agrees with the caches about every key that
  // is not `unseen`, and the newest event on its way for a key that is not `behind`
  // carries what the cache holds now.
  lemma ReceiverIsRight(capacity: nat, moves: seq<Move>, s: System, k: Key)
    requires Run(Start(capacity), moves, s)
    ensures k !in s.unseen ==> At(s.view, k) == At(Image(s.cache), k)
    ensures k !in s.behind && k in Targets(InFlight(s)) ==>
      LastFor(InFlight(s), k).Some? && Effect(LastFor(InFlight(s), k).value) == At(Image(s.cache), k)
  {
    StartIsRight(capacity);
    RunKeepsInv(Start(capacity), moves, s);
    assert RightAt(s, k);
    LastForTargets(InFlight(s), k);
  }

  // The pipeline part of every run is a run of the pipeline, so conservation and order
  // hold here as well.
  lemma {:induction false} PipelineIsReachable(s: System, moves: seq<Move>, s': System)
    requires P.Reachable(s.pipe) && Run(s, moves, s')
    ensures P.Reachable(s'.pipe)
    decreases |moves|
  {
    if moves == [] {
    } else {
      match moves[0] {
        case Notify(i) => P.ReachStep(s.pipe, P.Offer(s.waiting[i]));
        case Processor(step) => P.ReachStep(s.pipe, step);
        case Restart => P.ReachStep(s.pipe, P.Restart);
        case OperatorRestart(capacity) => assert P.Run(P.Initial(capacity), [], P.Initial(capacity));
        case _ =>
      }
      PipelineIsReachable(Do(s, moves[0]), moves[1..], s');
    }
  }

  /* ---- Exactly which moves lose something ---- */

  // What the receiver will hold once the channel is empty, and once everything on its
  // way has been applied.
  function Told(s: System): View {
    Replay(OnChannel(s), s.view)
  }

  function Pending(s: System): View {
    Replay(InFlight(s), s.view)
  }

  // The receiver will be right about everything without any further change or snapshot.
  ghost predicate Settles(s: System) {
    Pending(s) == Image(s.cache)
  }

  // What a move makes of it, under one key.
  ghost function PendingNext(s: System, m: Move, k: Key): Option<Info>
    requires Enabled(s, m)
  {
    match m
    case Change(c) =>
      (match EventOf(s.cache, c)
       case Some(e) => if e.Target() == k then Effect(e) else At(Pending(s), k)
       case None => At(Pending(s), k))
    case Notify(i) =>
      if HasRoom(s) || s.waiting[i].Target() != k || k in Targets(s.waiting[i + 1..]) then At(Pending(s), k)
      else At(Told(s), k)
    case Processor(Finish(_)) =>
      if s.pipe.hand.value.Target() == k && k !in Targets(s.pipe.queue) && k !in Targets(s.waiting)
      then At(s.view, k) else At(Pending(s), k)
    case Receive =>
      (match LastFor(InFlight(s), k) case None => At(s.snapshot.value, k) case Some(e) => Effect(e))
    case Restart => At(Told(s), k)
    case OperatorRestart(_) => At(s.view, k)
    case _ => At(Pending(s), k)
  }

  lemma PendingAfterChange(s: System, c: Change, k: Key)
    requires Enabled(s, Change(c))
    ensures At(Pending(Do(s, Change(c))), k) == PendingNext(s, Change(c), k)
  {
    var s' := Do(s, Change(c));
    LastWins(InFlight(s), s.view, k);
    LastWins(InFlight(s'), s'.view, k);
    InFlightAfterChange(s, c, k);
  }

  lemma PendingAfterNotify(s: System, i: nat, k: Key)
    requires Enabled(s, Notify(i))
    ensures At(Pending(Do(s, Notify(i))), k) == PendingNext(s, Notify(i), k)
  {
    var s' := Do(s, Notify(i));
    LastWins(InFlight(s), s.view, k);
    LastWins(OnChannel(s), s.view, k);
    LastWins(InFlight(s'), s'.view, k);
    InFlightAfterNotify(s, i, k);
  }

  lemma PendingAfterProcessor(s: System, step: P.Step, k: Key)
    requires Enabled(s, Processor(step))
    ensures At(Pending(Do(s, Processor(step))), k) == PendingNext(s, Processor(step), k)
  {
    var s' := Do(s, Processor(step));
    LastWins(InFlight(s), s.view, k);
    LastWins(InFlight(s'), s'.view, k);
    InFlightAfterProcessor(s, step, k);
    LastInFlight(s, k);
    LastForTargets(s.pipe.queue, k);
    LastForTargets(s.waiting, k);
  }

  lemma PendingAfterPost(s: System, k: Key)
    requires Enabled(s, Post)
    ensures At(Pending(Do(s, Post)), k) == At(Pending(s), k)
  {
    var s' := Do(s, Post);
    assert InFlight(s') == InFlight(s);
    LastWins(InFlight(s), s.view, k);
    LastWins(InFlight(s), s'.view, k);
    LastInFlight(s, k);
  }

  lemma PendingAfterOther(s: System, m: Move, k: Key)
    requires Enabled(s, m) && !m.Change? && !m.Notify? && !m.Processor? && !m.Post?
    ensures At(Pending(Do(s, m)), k) == PendingNext(s, m, k)
  {
    LastWins(InFlight(Do(s, m)), Do(s, m).view, k);
    LastWins(InFlight(s), s.view, k);
    if m.Restart? || m.OperatorRestart? {
      InFlightAfterRestart(s, m);
    }
  }

  lemma PendingAfter(s: System, m: Move, k: Key)
    requires Enabled(s, m)
    ensures At(Pending(Do(s, m)), k) == PendingNext(s, m, k)
  {
    match m
    case Change(c) => PendingAfterChange(s, c, k);
    case Notify(i) => PendingAfterNotify(s, i, k);
    case Processor(step) => PendingAfterProcessor(s, step, k);
    case Post => PendingAfterPost(s, k);
    case _ => PendingAfterOther(s, m, k);
  }

  // From a settled state a move is safe
  // - if it is a callback whose event finds room, or is superseded by a waiting one, or
  //   says what the receiver is going to show anyway;
  // - if it lets go of an event that a later one supersedes, or that the receiver shows;
  // - if it is a snapshot that is right about every key with nothing on its way;
  // - if it is a restart that leaves nothing behind;
  // and always if it is any other move.
  ghost predicate Safe(s: System, m: Move)
    requires Enabled(s, m)
  {
    match m
    case Notify(i) => OfferIsSafe(s, i)
    case Processor(Finish(_)) => HandIsSafe(s)
    case Receive => forall k | k !in Targets(InFlight(s)) :: At(s.snapshot.value, k) == Truth(s, k)
    case Restart => Told(s) == map[]
    case OperatorRestart(_) => s.view == map[]
    case _ => true
  }

  predicate OfferIsSafe(s: System, i: nat)
    requires i < |s.waiting|
  {
    var e := s.waiting[i];
    HasRoom(s) || e.Target() in Targets(s.waiting[i + 1..]) || At(Told(s), e.Target()) == Effect(e)
  }

  predicate HandIsSafe(s: System)
    requires s.pipe.hand.Some?
  {
    var e := s.pipe.hand.value;
    e.Target() in Targets(s.pipe.queue) || e.Target() in Targets(s.waiting) || At(s.view, e.Target()) == Effect(e)
  }

  // A settled key stays settled exactly if the move is safe for it.
  lemma SettledAt(s: System, m: Move, k: Key)
    requires Enabled(s, m) && At(Pending(s), k) == Truth(s, k)
    ensures At(Pending(Do(s, m)), k) == Truth(Do(s, m), k) <==>
      match m
      case Notify(i) => s.waiting[i].Target() != k || OfferIsSafe(s, i)
      case Processor(Finish(_)) => s.pipe.hand.value.Target() != k || HandIsSafe(s)
      case Receive => k in Targets(InFlight(s)) || At(s.snapshot.value, k) == Truth(s, k)
      case Restart => k !in Told(s)
      case OperatorRestart(_) => k !in s.view
      case _ => true
  {
    PendingAfter(s, m, k);
    match m
    case Change(c) => EventIsCurrent(s.cache, c, k);
    case Notify(i) => WaitingDecides(s, i, k);
    case Processor(step) => HandDecides(s, step, k);
    case Receive =>
      LastWins(InFlight(s), s.view, k);
      LastForTargets(InFlight(s), k);
    case _ =>
  }

  // What is to be lost decides what is pending under its key, unless it is superseded.
  lemma WaitingDecides(s: System, i: nat, k: Key)
    requires Enabled(s, Notify(i))
    ensures s.waiting[i].Target() == k && k !in Targets(s.waiting[i + 1..]) ==>
      At(Pending(s), k) == Effect(s.waiting[i])
  {
    LastWins(InFlight(s), s.view, k);
    LastInFlight(s, k);
    LastForTakenOut(s.waiting, i, k);
    LastForTargets(s.waiting[i + 1..], k);
  }

  lemma HandDecides(s: System, step: P.Step, k: Key)
    requires Enabled(s, Processor(step))
    ensures step.Finish? && s.pipe.hand.value.Target() == k && k !in Targets(s.pipe.queue) && k !in Targets(s.waiting)
      ==> At(Pending(s), k) == Effect(s.pipe.hand.value)
  {
    LastWins(InFlight(s), s.view, k);
    LastInFlight(s, k);
    LastForTargets(s.pipe.queue, k);
    LastForTargets(s.waiting, k);
  }

  // The safe moves are exactly those after which the receiver is still heading for
  // what the caches hold.
  lemma SafeExactly(s: System, m: Move)
    requires Enabled(s, m) && Settles(s)
    ensures Settles(Do(s, m)) <==> Safe(s, m)
  {
    var s' := Do(s, m);
    forall k ensures At(Pending(s), k) == Truth(s, k) {}
    if Safe(s, m) {
      forall k ensures At(Pending(s'), k) == At(Image(s'.cache), k) {
        SettledAt(s, m, k);
      }
      SameView(Pending(s'), Image(s'.cache));
    } else {
      var k := UnsafeAt(s, m);
      SettledAt(s, m, k);
    }
  }

  // A key for which a move is not safe.
  lemma UnsafeAt(s: System, m: Move) returns (k: Key)
    requires Enabled(s, m) && Settles(s) && !Safe(s, m)
    ensures match m
      case Notify(i) => s.waiting[i].Target() == k
      case Processor(Finish(_)) => s.pipe.hand.value.Target() == k
      case Receive => k !in Targets(InFlight(s)) && At(s.snapshot.value, k) != Truth(s, k)
      case Restart => k in Told(s)
      case OperatorRestart(_) => k in s.view
      case _ => true
  {
    match m
    case Notify(i) => k := s.waiting[i].Target();
    case Processor(Finish(_)) => k := s.pipe.hand.value.Target();
    case Receive => k :| k !in Targets(InFlight(s)) && At(s.snapshot.value, k) != Truth(s, k);
    case Restart => k :| k in Told(s);
    case OperatorRestart(_) => k :| k in s.view;
    case _ =>
  }

  ghost predicate SafeRun(s: System, moves: seq<Move>, s': System)
    decreases |moves|
  {
    if moves == [] then s == s'
    else Enabled(s, moves[0]) && Safe(s, moves[0]) && SafeRun(Do(s, moves[0]), moves[1..], s')
  }

  // From any settled state, however it was reached: safe moves keep it settled, and
  // whenever nothing is on its way the receiver holds exactly what the caches show.
  lemma {:induction false} SettledRunsConverge(s: System, moves: seq<Move>, s': System)
    requires Settles(s) && SafeRun(s, moves, s')
    ensures Settles(s')
    ensures InFlight(s') == [] ==> s'.view == Image(s'.cache)
    decreases |moves|
  {
    if moves == [] {
    } else {
      SafeExactly(s, moves[0]);
      SettledRunsConverge(Do(s, moves[0]), moves[1..], s');
    }
  }

  lemma StartSettles(capacity: nat)
    ensures Settles(Start(capacity))
  {
    assert InFlight(Start(capacity)) == [];
  }

  // In particular safe runs from the start do.
  lemma SafeRunsConverge(capacity: nat, moves: seq<Move>, s: System)
    requires SafeRun(Start(capacity), moves, s) && InFlight(s) == []
    ensures s.view == Image(s.cache)
  {
    StartSettles(capacity);
    SettledRunsConverge(Start(capacity), moves, s);
  }

  /* ---- Recovering from losses ---- */

  // Whatever was lost before, in any run at all: a snapshot settles the system if every
  // key that changed since its kind was listed has an event on its way, and no key on its
  // way has had a newer event dropped.  From there safe moves lead to a receiver that is right.
  lemma SnapshotSettles(capacity: nat, moves: seq<Move>, s: System)
    requires Run(Start(capacity), moves, s) && Enabled(s, Receive)
    requires s.touched <= Targets(InFlight(s)) && s.behind !! Targets(InFlight(s))
    ensures Settles(Do(s, Receive))
  {
    StartIsRight(capacity);
    RunKeepsInv(Start(capacity), moves, s);
    var s' := Do(s, Receive);
    forall k ensures At(Pending(s'), k) == At(Image(s'.cache), k) {
      assert RightAt(s, k);
      PendingAfter(s, Receive, k);
      LastForTargets(InFlight(s), k);
    }
    SameView(Pending(s'), Image(s'.cache));
  }

  // In particular, if nothing is on its way the receiver is right at once.
  lemma SnapshotHeals(capacity: nat, moves: seq<Move>, s: System)
    requires Run(Start(capacity), moves, s) && Enabled(s, Receive)
    requires InFlight(s) == [] && s.touched == {}
    ensures Do(s, Receive).view == Image(s.cache)
  {
    SnapshotSettles(capacity, moves, s);
    assert InFlight(Do(s, Receive)) == [];
  }

  // A snapshot that arrives after later events undoes them: under every key that
  // changed since it was listed and has nothing on its way the receiver was right, goes
  // back to the listing, and is no longer heading for the truth.
  lemma LateSnapshotGoesBack(s: System, k: Key)
    requires Enabled(s, Receive) && Settles(s)
    requires k !in Targets(InFlight(s)) && At(s.snapshot.value, k) != Truth(s, k)
    ensures At(s.view, k) == Truth(s, k)
    ensures At(Do(s, Receive).view, k) == At(s.snapshot.value, k) && !Settles(Do(s, Receive))
  {
    SafeExactly(s, Receive);
    LastWins(InFlight(s), s.view, k);
    LastForTargets(InFlight(s), k);
  }

  /* ---- Restarts ---- */

  // The changes among some moves.
  function ChangeOf(m: Move): seq<Change> {
    if m.Change? then [m.change] else []
  }

  function Log(moves: seq<Move>): seq<Change> {
    if moves == [] then [] else ChangeOf(moves[0]) + Log(moves[1..])
  }

  // No event is lost that is not superseded or shown anyway, and no restart and no
  // received snapshot intervenes.
  ghost predicate LosslessRun(s: System, moves: seq<Move>, s': System)
    decreases |moves|
  {
    if moves == [] then s == s'
    else
      && Enabled(s, moves[0])
      && !moves[0].Restart? && !moves[0].OperatorRestart? && !moves[0].Receive?
      && Safe(s, moves[0])
      && LosslessRun(Do(s, moves[0]), moves[1..], s')
  }

  lemma OneEvent(cache: Cache, c: Change, k: Key)
    ensures var e := EventOf(cache, c);
      LastFor(Events(cache, [c]), k) == if e.Some? && e.value.Target() == k then e else None
  {
    assert [c][..0] == [];
    assert Events(cache, [c]) == AsSeq(EventOf(cache, c));
    assert forall e: ResourceEvent :: [e][..0] == [];
  }

  lemma LosslessStep(s: System, m: Move, k: Key)
    requires Enabled(s, m) && Safe(s, m) && !m.Change? && !m.Restart? && !m.OperatorRestart? && !m.Receive?
    ensures PendingNext(s, m, k) == At(Pending(s), k)
  {
    match m
    case Notify(i) => WaitingDecides(s, i, k);
    case Processor(step) => HandDecides(s, step, k);
    case _ =>
  }

  lemma LosslessMove(s: System, m: Move)
    requires Enabled(s, m) && Safe(s, m) && !m.Restart? && !m.OperatorRestart? && !m.Receive?
    ensures Pending(Do(s, m)) == Replay(Events(s.cache, ChangeOf(m)), Pending(s))
  {
    forall k ensures At(Pending(Do(s, m)), k) == At(Replay(Events(s.cache, ChangeOf(m)), Pending(s)), k) {
      PendingAfter(s, m, k);
      LastWins(Events(s.cache, ChangeOf(m)), Pending(s), k);
      LosslessAt(s, m, k);
    }
    SameView(Pending(Do(s, m)), Replay(Events(s.cache, ChangeOf(m)), Pending(s)));
  }

  lemma LosslessAt(s: System, m: Move, k: Key)
    requires Enabled(s, m) && Safe(s, m) && !m.Restart? && !m.OperatorRestart? && !m.Receive?
    ensures PendingNext(s, m, k) ==
      match LastFor(Events(s.cache, ChangeOf(m)), k) case None => At(Pending(s), k) case Some(e) => Effect(e)
  {
    if m.Change? {
      OneEvent(s.cache, m.change, k);
    } else {
      LosslessStep(s, m, k);
    }
  }

  lemma CacheFollowsLog(s: System, m: Move)
    requires Enabled(s, m) && !m.Restart? && !m.OperatorRestart?
    ensures Do(s, m).cache == CacheAfter(s.cache, ChangeOf(m)) && FaithfulLog(s.cache, ChangeOf(m))
  {
    if m.Change? {
      assert [m.change][..0] == [];
    }
  }

  // From any state, such a run does to what the receiver is heading for what replaying
  // the change log does: channel, processor and posts add nothing and lose nothing.
  lemma {:induction false} LosslessIsReplay(s: System, moves: seq<Move>, s': System)
    requires LosslessRun(s, moves, s')
    ensures Pending(s') == Replay(Events(s.cache, Log(moves)), Pending(s))
    ensures s'.cache == CacheAfter(s.cache, Log(moves)) && FaithfulLog(s.cache, Log(moves))
    decreases |moves|
  {
    if moves == [] {
    } else {
      var first, mid := ChangeOf(moves[0]), Do(s, moves[0]);
      LosslessMove(s, moves[0]);
      CacheFollowsLog(s, moves[0]);
      LosslessIsReplay(mid, moves[1..], s');
      CacheAfterConcat(s.cache, first, Log(moves[1..]));
      EventsConcat(s.cache, first, Log(moves[1..]));
      FaithfulJoin(s.cache, first, Log(moves[1..]));
      ReplayConcat(Events(s.cache, first), Events(mid.cache, Log(moves[1..])), Pending(s));
    }
  }

  // After a restart of the manager or of the operator, with nothing lost from then on,
  // the receiver is heading for the truth exactly when everything it held, or was still
  // to be told by the old channel, is announced again.
  lemma RestartConvergesExactly(s: System, restart: Move, moves: seq<Move>, s': System)
    requires (restart.Restart? || restart.OperatorRestart?) && Enabled(s, restart)
    requires LosslessRun(Do(s, restart), moves, s')
    ensures var left := if restart.Restart? then Told(s) else s.view;
      Settles(s') <==> left.Keys <= Targets(Events(map[], Log(moves)))
  {
    var s1 := Do(s, restart);
    InFlightAfterRestart(s, restart);
    LosslessIsReplay(s1, moves, s');
    RelistConvergesExactly(Log(moves), Pending(s1));
  }

  // A key that is neither cached nor on its way: until it is put again or a snapshot is
  // received the receiver goes on showing what it shows, through any number of losses,
  // posts and restarts.
  ghost predicate Leaves(m: Move, k: Key) {
    !m.Cut? && (m.Change? && m.change.Put? ==> m.change.Target() != k)
  }

  lemma NothingOnItsWay(s: System, k: Key)
    requires k !in Targets(InFlight(s))
    ensures LastFor(InFlight(s), k).None? && LastFor(OnChannel(s), k).None?
    ensures LastFor(s.waiting, k).None? && LastFor(s.pipe.queue, k).None?
    ensures s.pipe.hand.Some? ==> s.pipe.hand.value.Target() != k
  {
    LastForTargets(InFlight(s), k);
    LastInFlight(s, k);
  }

  lemma LeftOutOfFlight(s: System, m: Move, k: Key)
    requires Enabled(s, m) && Leaves(m, k) && k !in s.cache && k !in Targets(InFlight(s))
    ensures k !in Targets(InFlight(Do(s, m)))
  {
    NothingOnItsWay(s, k);
    LastForTargets(InFlight(Do(s, m)), k);
    match m
    case Change(c) =>
      SilentChanges(s.cache, c);
      EventDescribesChange(s.cache, c);
      InFlightAfterChange(s, c, k);
    case Notify(i) => InFlightAfterNotify(s, i, k);
    case Processor(step) => InFlightAfterProcessor(s, step, k);
    case Restart | OperatorRestart(_) =>
      InFlightAfterRestart(s, m);
    case Post | List(_) | Receive | EndSnapshot => assert InFlight(Do(s, m)) == InFlight(s);
    case Cut =>
  }

  lemma LeftUncached(s: System, m: Move, k: Key)
    requires Enabled(s, m) && Leaves(m, k) && k !in s.cache
    ensures k !in Do(s, m).cache
  {
  }

  lemma LeftInView(s: System, m: Move, k: Key)
    requires Enabled(s, m) && Leaves(m, k) && k !in Targets(InFlight(s)) && s.snapshot.None?
    ensures Do(s, m).snapshot.None? && At(Do(s, m).view, k) == At(s.view, k)
  {
    NothingOnItsWay(s, k);
  }

  lemma {:induction false} StaleUntilToldOtherwise(s: System, moves: seq<Move>, s': System, k: Key)
    requires Run(s, moves, s') && forall m | m in moves :: Leaves(m, k)
    requires k !in s.cache && k !in Targets(InFlight(s)) && s.snapshot.None?
    ensures k !in s'.cache && At(s'.view, k) == At(s.view, k)
    decreases |moves|
  {
    if moves == [] {
    } else {
      assert moves[0] in moves && forall m | m in moves[1..] :: m in moves;
      LeftOutOfFlight(s, moves[0], k);
      LeftUncached(s, moves[0], k);
      LeftInView(s, moves[0], k);
      StaleUntilToldOtherwise(Do(s, moves[0]), moves[1..], s', k);
    }
  }

  /* ---- Two concrete runs ---- */

  lemma Follow(s: System, m: Move, rest: seq<Move>, s': System)
    requires Enabled(s, m) && Run(Do(s, m), rest, s')
    ensures Run(s, [m] + rest, s')
  {
    assert ([m] + rest)[1..] == rest;
  }

  function PodEvent(o: KubeObject): ResourceEvent {
    MakeEvent(ConfigFor(Pod), Added, o)
  }

  // A system that is running idle with empty caches, and the same after one pod has
  // been added, announced and shown.
  predicate IdleAndEmpty(s: System) {
    && s.pipe == P.Initial(1).(phase := P.Running)
    && s.cache == map[] && s.waiting == [] && s.view == map[] && s.behind == {} && s.unseen == {}
  }

  function OnePodShown(s: System, o: KubeObject): System {
    var e, k := PodEvent(o), KeyOf(Pod, o);
    s.(pipe := P.Pipeline(1, [], None, P.Running, [P.OfferRecord(e, true)], [P.TakenRecord(e, P.Sent(1))]),
       cache := map[k := o], view := map[k := e.info.value], landed := 1, touched := s.touched + {k})
  }

  lemma ShowOnePod(s: System, o: KubeObject, rest: seq<Move>, s': System) returns (moves: seq<Move>)
    requires IdleAndEmpty(s) && Run(OnePodShown(s, o), rest, s')
    ensures Run(s, moves, s')
  {
    assert EventOf(s.cache, Put(Pod, o)) == Some(PodEvent(o));
    var s1 := Do(s, Change(Put(Pod, o)));
    var s2 := Do(s1, Notify(0));
    assert s2.waiting == [] && s2.pipe.queue == [PodEvent(o)];
    moves := SendOnePod(s2, o, rest, OnePodShown(s, o), s');
    Follow(s1, Notify(0), moves, s');
    Follow(s, Change(Put(Pod, o)), [Notify(0)] + moves, s');
    moves := [Change(Put(Pod, o))] + ([Notify(0)] + moves);
  }

  lemma SendOnePod(s: System, o: KubeObject, rest: seq<Move>, shown: System, s': System) returns (moves: seq<Move>)
    requires s.pipe == P.Pipeline(1, [PodEvent(o)], None, P.Running, [P.OfferRecord(PodEvent(o), true)], [])
    requires s.waiting == [] && s.view == map[] && s.behind == {} && s.unseen == {KeyOf(Pod, o)}
    requires shown == OnePodShown(s, o).(cache := s.cache, touched := s.touched, unseen := {})
    requires Run(shown, rest, s')
    ensures Run(s, moves, s')
  {
    var last := Processor(P.Finish(P.Sent(1)));
    var s1 := Do(s, Processor(P.Take));
    assert Targets(s1.pipe.queue) == {} && Targets(s1.waiting) == {};
    var s2 := Do(s1, Post);
    assert Do(s2, last) == shown;
    Follow(s2, last, rest, s');
    Follow(s1, Post, [last] + rest, s');
    Follow(s, Processor(P.Take), [Post] + ([last] + rest), s');
    moves := [Processor(P.Take)] + ([Post] + ([last] + rest));
  }

  // An object deleted while the operator is down stays visible: the new caches never
  // held it, so nothing announces its absence, and no snapshot is under way.
  lemma DowntimeDeletionStays(o: KubeObject)
    ensures exists moves: seq<Move>, s: System ::
      && Run(Start(1), moves, s)
      && InFlight(s) == [] && s.snapshot.None? && s.pipe.phase == P.Running
      && KeyOf(Pod, o) in s.view && KeyOf(Pod, o) !in s.cache
  {
    var s1 := Do(Start(1), Restart);
    var s := RestartedEmpty(OnePodShown(s1, o));
    var moves := ShowOnePod(s1, o, [OperatorRestart(1)] + ([Restart] + []), s);
    Follow(Start(1), Restart, moves, s);
  }

  // A new operator starts a new manager.
  lemma RestartedEmpty(s: System) returns (s': System)
    ensures Run(s, [OperatorRestart(1)] + ([Restart] + []), s')
    ensures InFlight(s') == [] && s'.cache == map[] && s'.view == s.view && s'.snapshot == s.snapshot
    ensures s'.pipe.phase == P.Running
  {
    var down := Do(s, OperatorRestart(1));
    s' := Do(down, Restart);
    Follow(down, Restart, [], s');
    Follow(s, OperatorRestart(1), [Restart] + [], s');
  }

  function KindsOf(kinds: seq<Kind>): set<Kind> {
    set kind | kind in kinds
  }

  // Listing any kinds of empty caches one after another.
  lemma {:induction false} ListEmpty(s: System, kinds: seq<Kind>, rest: seq<Move>, s': System)
    returns (moves: seq<Move>)
    requires s.cache == map[] && s.snapshot == Some(map[]) && s.touched == {}
    requires Distinct(kinds) && forall kind | kind in kinds :: kind !in s.listed
    requires Run(s.(listed := s.listed + KindsOf(kinds)), rest, s')
    ensures Run(s, moves, s')
    decreases |kinds|
  {
    if kinds == [] {
      assert s.(listed := s.listed + KindsOf(kinds)) == s;
      moves := rest;
    } else {
      var m := List(kinds[0]);
      assert Do(s, m) == s.(listed := s.listed + {kinds[0]});
      assert s.listed + KindsOf(kinds) == s.listed + {kinds[0]} + KindsOf(kinds[1..]) by {
        assert forall kind :: kind in kinds <==> kind == kinds[0] || kind in kinds[1..];
      }
      forall kind | kind in kinds[1..] ensures kind in kinds && kind != kinds[0] {
        var i :| 0 < i < |kinds| && kinds[i] == kind;
      }
      var tail := ListEmpty(Do(s, m), kinds[1..], rest, s');
      Follow(s, m, tail, s');
      moves := [m] + tail;
    }
  }

  lemma OnePodIsSettled(s: System, o: KubeObject)
    requires IdleAndEmpty(s)
    ensures var s' := OnePodShown(s, o);
      InFlight(s') == [] && s'.view == Image(s'.cache) && Settles(s') && KeyOf(Pod, o) in s'.view
  {
    assert InFlight(OnePodShown(s, o)) == [];
  }

  // A snapshot listed before a pod was added and received after the pod was shown makes
  // it disappear, with nothing on its way to bring it back.
  lemma LateSnapshotHidesPod(o: KubeObject)
    ensures exists moves: seq<Move>, s: System ::
      && Run(Start(1), moves, s) && Enabled(s, Receive) && Settles(s) && InFlight(s) == []
      && KeyOf(Pod, o) in s.cache && KeyOf(Pod, o) in s.view && KeyOf(Pod, o) !in Do(s, Receive).view
  {
    var s1 := Do(Start(1), Restart);
    var s2 := Do(s1, Cut);
    var s3 := s2.(listed := s2.listed + KindsOf(SNAPSHOT_SECTIONS));
    var s := OnePodShown(s3, o);
    OnePodIsSettled(s3, o);
    AllListed(s);
    var moves := ShowOnePod(s3, o, [], s);
    moves := ListSections(s2, moves, s);
    Follow(s1, Cut, moves, s);
    Follow(Start(1), Restart, [Cut] + moves, s);
  }

  lemma AllListed(s: System)
    requires KindsOf(SNAPSHOT_SECTIONS) <= s.listed && s.snapshot.Some?
    ensures Enabled(s, Receive)
  {
    TablesAgree();
    forall kind: Kind ensures kind in s.listed {
      assert kind in SNAPSHOT_SECTIONS;
      assert kind in KindsOf(SNAPSHOT_SECTIONS);
    }
  }

  lemma ListSections(s: System, rest: seq<Move>, s': System) returns (moves: seq<Move>)
    requires s.cache == map[] && s.snapshot == Some(map[]) && s.touched == {} && s.listed == {}
    requires Run(s.(listed := s.listed + KindsOf(SNAPSHOT_SECTIONS)), rest, s')
    ensures Run(s, moves, s')
  {
    TablesAgree();
    moves := ListEmpty(s, SNAPSHOT_SECTIONS, rest, s');
  }
}
