/**
  When does the receiver's view equal the informer caches?

  The receiver keeps a map: an event with an object stores it under the event's
  key, a delete removes the key, and a snapshot replaces the whole map.  The
  theorems here are about sequences of events; module Delivery puts them to work
  on the running pipeline.
 */
module Replication {
  import opened Resources
  import opened Ingester

  type View = map<Key, Info>

  // What a full snapshot of a cache shows the receiver.
  function Image(cache: Cache): View {
    map k | k in cache :: Info(SnapshotConversion(k.kind), cache[k])
  }

  function At(v: View, k: Key): Option<Info> {
    if k in v then Some(v[k]) else None
  }

  // What an event leaves at its key.
  function Effect(e: ResourceEvent): Option<Info> {
    if e.eventType.Deleted? then None else e.info
  }

  function Apply(v: View, e: ResourceEvent): View {
    match Effect(e)
    case Some(info) => v[e.Target() := info]
    case None => v - {e.Target()}
  }

  // A deletion removes the key it names, whatever it carries; any other event stores the
  // object it carries; no other key is touched.
  lemma ApplyMeans(v: View, e: ResourceEvent, k: Key)
    ensures At(Apply(v, e), k) ==
      if k != Key(e.kind, e.namespace, e.name) then At(v, k)
      else if e.eventType == Deleted then None else e.info
  {
  }

  function Replay(es: seq<ResourceEvent>, v: View): View {
    if es == [] then v else Apply(Replay(es[..|es| - 1], v), es[|es| - 1])
  }

  function LastFor(es: seq<ResourceEvent>, k: Key): Option<ResourceEvent> {
    if es == [] then None
    else if es[|es| - 1].Target() == k then Some(es[|es| - 1])
    else LastFor(es[..|es| - 1], k)
  }

  // Two views are the same map exactly when they agree under every key.
  lemma SameView(v: View, w: View)
    requires forall k :: At(v, k) == At(w, k)
    ensures v == w
  {
    forall k: Key
      ensures k in v <==> k in w
      ensures k in v ==> v[k] == w[k]
    {
      assert At(v, k) == At(w, k);
    }
  }

  // Under each key only the last event for it counts.
  lemma {:induction false} LastWins(es: seq<ResourceEvent>, v: View, k: Key)
    ensures At(Replay(es, v), k) == match LastFor(es, k) case None => At(v, k) case Some(e) => Effect(e)
  {
    if es == [] {
    } else {
      LastWins(es[..|es| - 1], v, k);
    }
  }

  lemma {:induction false} LastForConcat(a: seq<ResourceEvent>, b: seq<ResourceEvent>, k: Key)
    ensures LastFor(a + b, k) == if LastFor(b, k).Some? then LastFor(b, k) else LastFor(a, k)
  {
    if b == [] {
      assert a + b == a;
    } else {
      assert (a + b)[..|a + b| - 1] == a + b[..|b| - 1];
      LastForConcat(a, b[..|b| - 1], k);
    }
  }

  function Later(a: Option<ResourceEvent>, b: Option<ResourceEvent>): Option<ResourceEvent> {
    if a.Some? then a else b
  }

  // What is last when one event is taken out of its place.
  lemma LastForTakenOut(es: seq<ResourceEvent>, i: nat, k: Key)
    requires i < |es|
    ensures LastFor(es[..i] + es[i + 1..], k) == Later(LastFor(es[i + 1..], k), LastFor(es[..i], k))
    ensures LastFor(es, k) ==
      Later(LastFor(es[i + 1..], k), if es[i].Target() == k then Some(es[i]) else LastFor(es[..i], k))
  {
    LastForConcat(es[..i], es[i + 1..], k);
    LastForConcat(es[..i + 1], es[i + 1..], k);
    assert es == es[..i + 1] + es[i + 1..];
    assert es[..i + 1][..i] == es[..i];
  }

  /* ---- The change log ---- */

  function AsSeq<T>(o: Option<T>): seq<T> {
    if o.Some? then [o.value] else []
  }

  function CacheAfter(cache: Cache, log: seq<Change>): Cache {
    if log == [] then cache else ApplyChange(CacheAfter(cache, log[..|log| - 1]), log[|log| - 1])
  }

  // The events the ingesters produce while `log` happens to `cache`.
  function Events(cache: Cache, log: seq<Change>): seq<ResourceEvent> {
    if log == [] then []
    else
      var before := log[..|log| - 1];
      Events(cache, before) + AsSeq(EventOf(CacheAfter(cache, before), log[|log| - 1]))
  }

  // The resource-version test may skip an update only if it changes nothing.
  ghost predicate VersionsFaithful(cache: Cache, c: Change) {
    c.Put? && c.Target() in cache && cache[c.Target()].resourceVersion == c.obj.resourceVersion
    ==> cache[c.Target()] == c.obj
  }

  ghost predicate FaithfulLog(cache: Cache, log: seq<Change>) {
    log == [] ||
    var before := log[..|log| - 1];
    FaithfulLog(cache, before) && VersionsFaithful(CacheAfter(cache, before), log[|log| - 1])
  }

  lemma {:induction false} CacheAfterConcat(cache: Cache, a: seq<Change>, b: seq<Change>)
    ensures CacheAfter(cache, a + b) == CacheAfter(CacheAfter(cache, a), b)
  {
    if b == [] {
      assert a + b == a;
    } else {
      assert (a + b)[..|a + b| - 1] == a + b[..|b| - 1];
      CacheAfterConcat(cache, a, b[..|b| - 1]);
    }
  }

  lemma {:induction false} FaithfulConcat(cache: Cache, a: seq<Change>, b: seq<Change>)
    requires FaithfulLog(cache, a + b)
    ensures FaithfulLog(cache, a) && FaithfulLog(CacheAfter(cache, a), b)
  {
    if b == [] {
      assert a + b == a;
    } else {
      var b' := b[..|b| - 1];
      assert (a + b)[..|a + b| - 1] == a + b';
      FaithfulConcat(cache, a, b');
      CacheAfterConcat(cache, a, b');
    }
  }

  lemma SeqAssoc<T>(a: seq<T>, b: seq<T>, c: seq<T>)
    ensures (a + b) + c == a + (b + c)
  {
  }

  lemma {:induction false} EventsConcat(cache: Cache, a: seq<Change>, b: seq<Change>)
    ensures Events(cache, a + b) == Events(cache, a) + Events(CacheAfter(cache, a), b)
  {
    if b == [] {
      assert a + b == a;
    } else {
      var b' := b[..|b| - 1];
      var c := b[|b| - 1];
      assert (a + b)[..|a + b| - 1] == a + b' && (a + b)[|a + b| - 1] == c;
      EventsConcat(cache, a, b');
      CacheAfterConcat(cache, a, b');
      SeqAssoc(Events(cache, a), Events(CacheAfter(cache, a), b'), AsSeq(EventOf(CacheAfter(cache, a + b'), c)));
    }
  }

  // One change and the event announcing it: the receiver follows the cache exactly
  // unless the version test hides a difference.
  lemma StepTracks(cache: Cache, c: Change)
    ensures Replay(AsSeq(EventOf(cache, c)), Image(cache)) == Image(ApplyChange(cache, c))
            <==> VersionsFaithful(cache, c)
  {
    TablesAgree();
    EventDescribesChange(cache, c);
    SilentChanges(cache, c);
    var k, cache' := c.Target(), ApplyChange(cache, c);
    match EventOf(cache, c)
    case Some(e) =>
      assert Replay([e], Image(cache)) == Apply(Replay([e][..0], Image(cache)), e);
      assert Replay([e], Image(cache)) == Image(cache');
      assert VersionsFaithful(cache, c);
    case None =>
      if VersionsFaithful(cache, c) {
        assert cache' == cache;
      } else {
        assert Image(cache)[k] != Image(cache')[k];
      }
  }

  // At the key it touches an event carries the cached state; elsewhere the cache is untouched.
  lemma EventIsCurrent(cache: Cache, c: Change, k: Key)
    requires VersionsFaithful(cache, c)
    ensures var e := EventOf(cache, c);
      At(Image(ApplyChange(cache, c)), k) ==
      if e.Some? && e.value.Target() == k then Effect(e.value) else At(Image(cache), k)
  {
    TablesAgree();
    EventDescribesChange(cache, c);
    SilentChanges(cache, c);
  }

  // The last event for a key carries what the cache now holds under it; a key
  // without events has not changed.
  lemma {:induction false} LastEventIsCurrent(cache: Cache, log: seq<Change>, k: Key)
    requires FaithfulLog(cache, log)
    ensures At(Image(CacheAfter(cache, log)), k) ==
      match LastFor(Events(cache, log), k) case None => At(Image(cache), k) case Some(e) => Effect(e)
  {
    if log == [] {
    } else {
      var before, c := log[..|log| - 1], log[|log| - 1];
      LastEventIsCurrent(cache, before, k);
      EventIsCurrent(CacheAfter(cache, before), c, k);
      LastForConcat(Events(cache, before), AsSeq(EventOf(CacheAfter(cache, before), c)), k);
    }
  }

  /* ---- Convergence ---- */

  // The events that got through, in order.
  function Survivors(es: seq<ResourceEvent>, kept: seq<bool>): seq<ResourceEvent>
    requires |es| == |kept|
  {
    if es == [] then []
    else Survivors(es[..|es| - 1], kept[..|es| - 1]) + if kept[|es| - 1] then [es[|es| - 1]] else []
  }

  // The last event for `k` is among the survivors, or there is no event for `k`.
  predicate LastSurvives(es: seq<ResourceEvent>, kept: seq<bool>, k: Key)
    requires |es| == |kept|
  {
    if es == [] then true
    else if es[|es| - 1].Target() == k then kept[|es| - 1]
    else LastSurvives(es[..|es| - 1], kept[..|es| - 1], k)
  }

  lemma {:induction false} SurvivingLast(es: seq<ResourceEvent>, kept: seq<bool>, k: Key)
    requires |es| == |kept| && LastSurvives(es, kept, k)
    ensures LastFor(Survivors(es, kept), k) == LastFor(es, k)
  {
    if es == [] {
    } else {
      var n := |es| - 1;
      LastForConcat(Survivors(es[..n], kept[..n]), if kept[n] then [es[n]] else [], k);
      assert forall e: ResourceEvent :: [e][..0] == [];
      if es[n].Target() != k {
        SurvivingLast(es[..n], kept[..n], k);
      }
    }
  }

  // A key without events in `a` and `b` together has not changed since the snapshot after `a`.
  lemma UntouchedKey(start: Cache, a: seq<Change>, b: seq<Change>, k: Key)
    requires FaithfulLog(start, a + b) && LastFor(Events(start, a + b), k).None?
    ensures At(Image(CacheAfter(start, a)), k) == At(Image(CacheAfter(start, a + b)), k)
  {
    EventsConcat(start, a, b);
    LastForConcat(Events(start, a), Events(CacheAfter(start, a), b), k);
    FaithfulConcat(start, a, b);
    LastEventIsCurrent(start, a, k);
    LastEventIsCurrent(start, a + b, k);
  }

  // A view that shows the cache after `a` under `k`, then what survives of the events of
  // `a` and `b`.
  lemma OverlapFrom(start: Cache, a: seq<Change>, b: seq<Change>, kept: seq<bool>, v: View, k: Key)
    requires FaithfulLog(start, a + b)
    requires |kept| == |Events(start, a + b)| && LastSurvives(Events(start, a + b), kept, k)
    requires At(v, k) == At(Image(CacheAfter(start, a)), k)
    ensures At(Replay(Survivors(Events(start, a + b), kept), v), k) == At(Image(CacheAfter(start, a + b)), k)
  {
    var es := Events(start, a + b);
    LastWins(Survivors(es, kept), v, k);
    SurvivingLast(es, kept, k);
    if LastFor(es, k).None? {
      UntouchedKey(start, a, b, k);
    } else {
      LastEventIsCurrent(start, a + b, k);
    }
  }

  // What a receiver shows under `k` was cut at `p`, whatever it shows elsewhere; then
  // comes what survives of the events from an earlier cut `q` on.  It ends up agreeing
  // with the cache under `k` if the last event for `k` survived or there was none,
  // whatever else was lost and however much of the replay the cut already contained.
  lemma OverlapHealsPerKey(log: seq<Change>, q: nat, p: nat, kept: seq<bool>, v: View, k: Key)
    requires q <= p <= |log|
    requires FaithfulLog(map[], log)
    requires |kept| == |Events(CacheAfter(map[], log[..q]), log[q..])|
    requires LastSurvives(Events(CacheAfter(map[], log[..q]), log[q..]), kept, k)
    requires At(v, k) == At(Image(CacheAfter(map[], log[..p])), k)
    ensures At(Replay(Survivors(Events(CacheAfter(map[], log[..q]), log[q..]), kept), v), k)
            == At(Image(CacheAfter(map[], log)), k)
  {
    var start, a, b := CacheAfter(map[], log[..q]), log[q..p], log[p..];
    Cuts(log, q, p);
    FaithfulConcat(map[], log[..q], log[q..]);
    OverlapFrom(start, a, b, kept, v, k);
  }

  // The caches at the two cuts and at the end, as seen from the first cut.
  lemma Cuts(log: seq<Change>, q: nat, p: nat)
    requires q <= p <= |log|
    ensures log[q..] == log[q..p] + log[p..] && log == log[..q] + log[q..]
    ensures CacheAfter(map[], log[..p]) == CacheAfter(CacheAfter(map[], log[..q]), log[q..p])
    ensures CacheAfter(map[], log) == CacheAfter(CacheAfter(map[], log[..q]), log[q..p] + log[p..])
  {
    Slices(log, q, p);
    CacheAfterConcat(map[], log[..q], log[q..]);
    CacheAfterConcat(map[], log[..q], log[q..p]);
  }

  lemma Slices<T>(log: seq<T>, q: nat, p: nat)
    requires q <= p <= |log|
    ensures log[q..] == log[q..p] + log[p..] && log == log[..q] + log[q..] && log[..p] == log[..q] + log[q..p]
  {
  }

  // The caches are listed one kind after another while they go on changing, so a
  // snapshot shows each kind as it was at a cut of its own.
  ghost predicate ShowsCuts(v: View, log: seq<Change>, cut: Kind -> nat)
    requires forall kind: Kind :: cut(kind) <= |log|
  {
    forall k: Key :: At(v, k) == At(Image(CacheAfter(map[], log[..cut(k.kind)])), k)
  }

  // Snapshot plus overlapping replay converges: replaying everything from any cut `q`
  // that is not after any of the snapshot's cuts yields exactly the final cache.
  lemma SnapshotThenReplayConverges(log: seq<Change>, q: nat, cut: Kind -> nat, v: View)
    requires forall kind: Kind :: q <= cut(kind) <= |log|
    requires q <= |log| && FaithfulLog(map[], log) && ShowsCuts(v, log, cut)
    ensures Replay(Events(CacheAfter(map[], log[..q]), log[q..]), v) == Image(CacheAfter(map[], log))
  {
    var es := Events(CacheAfter(map[], log[..q]), log[q..]);
    var kept := seq(|es|, _ => true);
    AllSurvive(es, kept);
    forall k: Key
      ensures At(Replay(es, v), k) == At(Image(CacheAfter(map[], log)), k)
    {
      EveryLastSurvives(es, kept, k);
      OverlapHealsPerKey(log, q, cut(k.kind), kept, v, k);
    }
    SameView(Replay(es, v), Image(CacheAfter(map[], log)));
  }

  lemma {:induction false} AllSurvive(es: seq<ResourceEvent>, kept: seq<bool>)
    requires |es| == |kept| && forall i | 0 <= i < |kept| :: kept[i]
    ensures Survivors(es, kept) == es
  {
    if es == [] {
    } else {
      AllSurvive(es[..|es| - 1], kept[..|es| - 1]);
    }
  }

  lemma {:induction false} EveryLastSurvives(es: seq<ResourceEvent>, kept: seq<bool>, k: Key)
    requires |es| == |kept| && forall i | 0 <= i < |kept| :: kept[i]
    ensures LastSurvives(es, kept, k)
  {
    if es == [] {
    } else {
      EveryLastSurvives(es[..|es| - 1], kept[..|es| - 1], k);
    }
  }

  /* ---- Independence of interleaving and of repetition ---- */

  function ForKey(es: seq<ResourceEvent>, k: Key): seq<ResourceEvent> {
    if es == [] then []
    else ForKey(es[..|es| - 1], k) + if es[|es| - 1].Target() == k then [es[|es| - 1]] else []
  }

  lemma {:induction false} LastOfKey(es: seq<ResourceEvent>, k: Key)
    ensures LastFor(es, k) == if ForKey(es, k) == [] then None else Some(ForKey(es, k)[|ForKey(es, k)| - 1])
  {
    if es == [] {
    } else {
      LastOfKey(es[..|es| - 1], k);
    }
  }

  // Any two merges that keep the order of the events of each key leave the receiver in
  // the same state.
  lemma MergeIndependence(es: seq<ResourceEvent>, fs: seq<ResourceEvent>, v: View)
    requires forall k: Key :: ForKey(es, k) == ForKey(fs, k)
    ensures Replay(es, v) == Replay(fs, v)
  {
    forall k: Key
      ensures At(Replay(es, v), k) == At(Replay(fs, v), k)
    {
      assert ForKey(es, k) == ForKey(fs, k);
      LastOfKey(es, k);
      LastOfKey(fs, k);
      LastWins(es, v, k);
      LastWins(fs, v, k);
    }
    SameView(Replay(es, v), Replay(fs, v));
  }

  function OfKind(es: seq<ResourceEvent>, kind: Kind): seq<ResourceEvent> {
    if es == [] then []
    else OfKind(es[..|es| - 1], kind) + if es[|es| - 1].kind == kind then [es[|es| - 1]] else []
  }

  lemma {:induction false} ForKeyOfKind(es: seq<ResourceEvent>, k: Key)
    ensures ForKey(OfKind(es, k.kind), k) == ForKey(es, k)
  {
    if es == [] {
    } else {
      var n := |es| - 1;
      var before, kinds := OfKind(es[..n], k.kind), OfKind(es, k.kind);
      ForKeyOfKind(es[..n], k);
      if es[n].kind == k.kind {
        assert kinds == before + [es[n]];
        assert kinds[..|kinds| - 1] == before && kinds[|kinds| - 1] == es[n];
      } else {
        assert kinds == before;
      }
    }
  }

  // In particular any two merges of the twenty per-kind streams do.
  lemma KindMergeIndependence(es: seq<ResourceEvent>, fs: seq<ResourceEvent>, v: View)
    requires forall kind: Kind :: OfKind(es, kind) == OfKind(fs, kind)
    ensures Replay(es, v) == Replay(fs, v)
  {
    forall k: Key
      ensures ForKey(es, k) == ForKey(fs, k)
    {
      ForKeyOfKind(es, k);
      ForKeyOfKind(fs, k);
      assert OfKind(es, k.kind) == OfKind(fs, k.kind);
    }
    MergeIndependence(es, fs, v);
  }

  function Copies(e: ResourceEvent, n: nat): seq<ResourceEvent> {
    seq(n, _ => e)
  }

  // Each event in turn, as many times as the receiver applied it.
  function Repeated(es: seq<ResourceEvent>, times: seq<nat>): seq<ResourceEvent>
    requires |es| == |times|
  {
    if es == [] then [] else Repeated(es[..|es| - 1], times[..|es| - 1]) + Copies(es[|es| - 1], times[|es| - 1])
  }

  lemma {:induction false} LastForCopies(e: ResourceEvent, n: nat, k: Key)
    ensures LastFor(Copies(e, n), k) == if n > 0 && e.Target() == k then Some(e) else None
  {
    if n == 0 {
    } else {
      assert Copies(e, n)[..n - 1] == Copies(e, n - 1);
      LastForCopies(e, n - 1, k);
    }
  }

  lemma {:induction false} LastForRepeated(es: seq<ResourceEvent>, times: seq<nat>, k: Key)
    requires |es| == |times|
    ensures LastFor(Repeated(es, times), k) ==
            LastFor(Survivors(es, seq(|es|, i requires 0 <= i < |times| => times[i] > 0)), k)
  {
    if es == [] {
    } else {
      var n := |es| - 1;
      var kept := seq(|es|, i requires 0 <= i < |times| => times[i] > 0);
      LastForRepeated(es[..n], times[..n], k);
      assert kept[..n] == seq(|es[..n]|, i requires 0 <= i < |times[..n]| => times[..n][i] > 0);
      LastForConcat(Repeated(es[..n], times[..n]), Copies(es[n], times[n]), k);
      LastForCopies(es[n], times[n], k);
      LastForConcat(Survivors(es[..n], kept[..n]), if kept[n] then [es[n]] else [], k);
      assert forall e: ResourceEvent :: [e][..0] == [];
    }
  }

  // A retried post may be applied more than once.  Repetition changes nothing: only
  // whether each event was applied at all matters.
  lemma RepetitionIndependence(es: seq<ResourceEvent>, times: seq<nat>, v: View)
    requires |es| == |times|
    ensures Replay(Repeated(es, times), v) ==
            Replay(Survivors(es, seq(|es|, i requires 0 <= i < |times| => times[i] > 0)), v)
    ensures (forall i | 0 <= i < |times| :: times[i] >= 1) ==> Replay(Repeated(es, times), v) == Replay(es, v)
  {
    var kept := seq(|es|, i requires 0 <= i < |times| => times[i] > 0);
    forall k: Key
      ensures At(Replay(Repeated(es, times), v), k) == At(Replay(Survivors(es, kept), v), k)
    {
      LastForRepeated(es, times, k);
      LastWins(Repeated(es, times), v, k);
      LastWins(Survivors(es, kept), v, k);
    }
    SameView(Replay(Repeated(es, times), v), Replay(Survivors(es, kept), v));
    if forall i | 0 <= i < |times| :: times[i] >= 1 {
      AllSurvive(es, kept);
    }
  }

  /* ---- Starting again with empty caches ---- */

  function Targets(es: seq<ResourceEvent>): set<Key> {
    set e | e in es :: e.Target()
  }

  lemma {:induction false} LastForTargets(es: seq<ResourceEvent>, k: Key)
    ensures LastFor(es, k).None? <==> k !in Targets(es)
  {
    if es == [] {
    } else {
      var n := |es| - 1;
      LastForTargets(es[..n], k);
      TargetsConcat(es[..n], [es[n]]);
      assert es == es[..n] + [es[n]] && es[n] in [es[n]];
    }
  }

  lemma TargetsConcat(a: seq<ResourceEvent>, b: seq<ResourceEvent>)
    ensures Targets(a + b) == Targets(a) + Targets(b)
  {
    assert forall e :: e in a + b <==> e in a || e in b;
  }

  lemma {:induction false} ReplayConcat(a: seq<ResourceEvent>, b: seq<ResourceEvent>, v: View)
    ensures Replay(a + b, v) == Replay(b, Replay(a, v))
  {
    if b == [] {
      assert a + b == a;
    } else {
      assert (a + b)[..|a + b| - 1] == a + b[..|b| - 1];
      ReplayConcat(a, b[..|b| - 1], v);
    }
  }

  lemma {:induction false} FaithfulJoin(cache: Cache, a: seq<Change>, b: seq<Change>)
    requires FaithfulLog(cache, a) && FaithfulLog(CacheAfter(cache, a), b)
    ensures FaithfulLog(cache, a + b)
  {
    if b == [] {
      assert a + b == a;
    } else {
      var b' := b[..|b| - 1];
      assert (a + b)[..|a + b| - 1] == a + b';
      FaithfulJoin(cache, a, b');
      CacheAfterConcat(cache, a, b');
    }
  }

  // A receiver that holds `v` when the caches start empty ends up right exactly when
  // every key it still shows is announced again: nothing says that the others are gone.
  lemma RelistConvergesExactly(log: seq<Change>, v: View)
    requires FaithfulLog(map[], log)
    ensures Replay(Events(map[], log), v) == Image(CacheAfter(map[], log))
            <==> v.Keys <= Targets(Events(map[], log))
  {
    var es, now := Events(map[], log), Image(CacheAfter(map[], log));
    forall k: Key
      ensures At(Replay(es, v), k) == At(now, k) <==> (k in v ==> k in Targets(es))
    {
      LastWins(es, v, k);
      LastForTargets(es, k);
      LastEventIsCurrent(map[], log, k);
    }
    if v.Keys <= Targets(es) {
      SameView(Replay(es, v), now);
    } else {
      var k :| k in v && k !in Targets(es);
      assert At(Replay(es, v), k) != At(now, k);
    }
  }
}
