/**
  Reading the informer caches: the full snapshot, and the counts that are a faster
  form of its list lengths.
 */
module Snapshot {
  import opened Resources
  import opened Ingester
  import opened Replication

  datatype Listing = Listed(objects: seq<KubeObject>) | ListError

  // The listers of a started informer factory.
  type Listers = Kind -> Listing

  datatype Result<+T> = Ok(value: T) | Error

  type Payload = map<Kind, seq<Info>>

  function Converted(k: Kind, objects: seq<KubeObject>): (infos: seq<Info>)
    ensures |infos| == |objects|
    ensures forall i | 0 <= i < |objects| :: infos[i].of == objects[i] && Takes(infos[i].via) == k
  {
    ConfigsAgree();
    seq(|objects|, i requires 0 <= i < |objects| => Info(SnapshotConversion(k), objects[i]))
  }

  ghost predicate IsCurrentState(started: bool, factory: Option<Listers>, r: Result<Payload>) {
    && (r.Ok? <==> started && factory.Some? && forall k: Kind :: factory.value(k).Listed?)
    && (r.Ok? ==> forall k: Kind :: k in r.value && r.value[k] == Converted(k, factory.value(k).objects))
  }

  ghost predicate AreResourceCounts(started: bool, factory: Option<Listers>, r: Result<map<Kind, nat>>) {
    && (r.Ok? <==> started && factory.Some?)
    && (r.Ok? ==> forall k: Kind :: k in r.value && r.value[k] == CountOf(factory.value(k)))
  }

  function CountOf(l: Listing): nat {
    match l case Listed(objects) => |objects| case ListError => 0
  }

  // Fails when any one cache cannot be listed; otherwise every kind's objects,
  // converted, in the order listed.
  method GetCurrentState(started: bool, factory: Option<Listers>) returns (r: Result<Payload>)
    ensures IsCurrentState(started, factory, r)
  {
    TablesAgree();
    if !started || factory.None? {
      return Error;
    }
    var lists := ListAll(factory.value);
    if lists.None? {
      return Error;
    }
    var payload: Payload := map[];
    for i := 0 to |SNAPSHOT_SECTIONS|
      invariant forall j | 0 <= j < i :: SNAPSHOT_SECTIONS[j] in payload
      invariant forall k | k in payload :: payload[k] == Converted(k, lists.value[k])
    {
      var k := SNAPSHOT_SECTIONS[i];
      var infos := ConvertAll(k, lists.value[k]);
      payload := payload[k := infos];
    }
    forall k: Kind
      ensures k in payload
    {
      assert k in SNAPSHOT_SECTIONS;
    }
    r := Ok(payload);
  }

  // The first of the two phases: every cache is listed, or nothing is.
  method ListAll(listers: Listers) returns (lists: Option<map<Kind, seq<KubeObject>>>)
    ensures lists.Some? <==> forall k: Kind :: listers(k).Listed?
    ensures lists.Some? ==> forall k: Kind :: k in lists.value && lists.value[k] == listers(k).objects
  {
    EachListedOnce();
    var found: map<Kind, seq<KubeObject>> := map[];
    for i := 0 to |SNAPSHOT_SECTIONS|
      invariant forall j | 0 <= j < i :: SNAPSHOT_SECTIONS[j] in found
      invariant forall k | k in found :: listers(k) == Listed(found[k])
    {
      var k := SNAPSHOT_SECTIONS[i];
      match listers(k)
      case ListError => return None;
      case Listed(objects) => found := found[k := objects];
    }
    forall k: Kind
      ensures k in found
    {
      assert k in SNAPSHOT_SECTIONS;
    }
    lists := Some(found);
  }

  method ConvertAll(k: Kind, objects: seq<KubeObject>) returns (infos: seq<Info>)
    ensures infos == Converted(k, objects)
  {
    infos := [];
    for i := 0 to |objects|
      invariant infos == Converted(k, objects[..i])
    {
      infos := infos + [Info(SnapshotConversion(k), objects[i])];
      assert objects[..i + 1][..i] == objects[..i];
    }
    assert objects[..|objects|] == objects;
  }

  // The kinds in the order the counts are taken.
  const COUNTED: seq<Kind> := [
    Namespace, Pod, Service, Node, ConfigMap, Secret, PersistentVolumeClaim, ServiceAccount, Event,
    Deployment, StatefulSet, DaemonSet, Job, CronJob, Ingress, NetworkPolicy,
    Role, ClusterRole, RoleBinding, ClusterRoleBinding]

  lemma AllCounted(k: Kind)
    ensures k in COUNTED
  {
    var i := match k
      case Namespace => 0 case Pod => 1 case Service => 2 case Node => 3 case ConfigMap => 4
      case Secret => 5 case PersistentVolumeClaim => 6 case ServiceAccount => 7 case Event => 8
      case Deployment => 9 case StatefulSet => 10 case DaemonSet => 11 case Job => 12 case CronJob => 13
      case Ingress => 14 case NetworkPolicy => 15 case Role => 16 case ClusterRole => 17
      case RoleBinding => 18 case ClusterRoleBinding => 19;
    assert COUNTED[i] == k;
  }

  // A cache that cannot be listed counts as zero and fails nothing.
  method GetResourceCounts(started: bool, factory: Option<Listers>) returns (r: Result<map<Kind, nat>>)
    ensures AreResourceCounts(started, factory, r)
  {
    if !started || factory.None? {
      return Error;
    }
    var counts := Count(COUNTED, factory.value);
    forall k: Kind
      ensures k in counts
    {
      AllCounted(k);
    }
    r := Ok(counts);
  }

  method Count(kinds: seq<Kind>, listers: Listers) returns (counts: map<Kind, nat>)
    ensures forall k: Kind :: k in counts <==> k in kinds
    ensures forall k | k in counts :: counts[k] == CountOf(listers(k))
  {
    counts := map[];
    for i := 0 to |kinds|
      invariant forall k: Kind :: k in counts <==> k in kinds[..i]
      invariant forall k | k in counts :: counts[k] == CountOf(listers(k))
    {
      match listers(kinds[i]) {
        case Listed(objects) => counts := counts[kinds[i] := |objects|];
        case ListError => counts := counts[kinds[i] := 0];
      }
      assert kinds[..i + 1] == kinds[..i] + [kinds[i]];
    }
    assert kinds[..|kinds|] == kinds;
  }

  // The fast form agrees with the slow one: over the same caches the counts are the
  // lengths of the snapshot's lists, for all twenty kinds.  They exist whenever the
  // snapshot does; the converse fails exactly when some cache cannot be listed, which
  // the counts show as a zero.
  lemma CountsAgree(started: bool, factory: Option<Listers>, state: Result<Payload>, counts: Result<map<Kind, nat>>)
    requires IsCurrentState(started, factory, state) && AreResourceCounts(started, factory, counts)
    ensures state.Ok? ==> counts.Ok? && forall k: Kind ::
      k in state.value && k in counts.value && counts.value[k] == |state.value[k]|
    ensures counts.Ok? && state.Error? <==>
      started && factory.Some? && exists k: Kind :: factory.value(k).ListError?
    ensures counts.Ok? && state.Error? ==>
      forall k: Kind | factory.value(k).ListError? :: counts.value[k] == 0
  {
    if state.Ok? {
      forall k: Kind
        ensures k in state.value && k in counts.value && counts.value[k] == |state.value[k]|
      {
        assert factory.value(k).Listed?;
      }
    }
  }

  /* ---- What the receiver makes of a snapshot ---- */

  function StoreSection(k: Kind, infos: seq<Info>, v: View): View {
    if infos == [] then v
    else
      var n := |infos| - 1;
      StoreSection(k, infos[..n], v)[KeyOf(k, infos[n].of) := infos[n]]
  }

  function StoreSections(kinds: seq<Kind>, payload: Payload, v: View): View
    requires forall k | k in kinds :: k in payload
  {
    if kinds == [] then v
    else
      var n := |kinds| - 1;
      StoreSection(kinds[n], payload[kinds[n]], StoreSections(kinds[..n], payload, v))
  }

  // The listers list each kind as it was in some state of the cache, which need not be
  // the same state for different kinds: what was cached of the kind appears, and nothing
  // else does.
  ghost predicate ListsCaches(listers: Listers, caches: Kind -> Cache) {
    forall k: Kind :: listers(k).Listed?
      && (forall o | o in listers(k).objects :: KeyOf(k, o) in caches(k) && caches(k)[KeyOf(k, o)] == o)
      && (forall key | key in caches(k) && key.kind == k ::
            caches(k)[key] in listers(k).objects && KeyOf(k, caches(k)[key]) == key)
  }

  lemma {:induction false} SectionStored(k: Kind, objects: seq<KubeObject>, v: View, cache: Cache, key: Key)
    requires forall o | o in objects :: KeyOf(k, o) in cache && cache[KeyOf(k, o)] == o
    ensures At(StoreSection(k, Converted(k, objects), v), key) ==
      if key in cache && key.kind == k && cache[key] in objects && KeyOf(k, cache[key]) == key
      then At(Image(cache), key) else At(v, key)
  {
    if objects == [] {
    } else {
      var n := |objects| - 1;
      assert Converted(k, objects)[..n] == Converted(k, objects[..n]);
      assert forall o :: o in objects <==> o in objects[..n] || o == objects[n];
      SectionStored(k, objects[..n], v, cache, key);
    }
  }

  lemma {:induction false} SectionsStored(
    kinds: seq<Kind>, listers: Listers, payload: Payload, caches: Kind -> Cache, key: Key)
    requires ListsCaches(listers, caches)
    requires forall k: Kind :: k in payload && payload[k] == Converted(k, listers(k).objects)
    ensures At(StoreSections(kinds, payload, map[]), key) ==
      if key.kind in kinds then At(Image(caches(key.kind)), key) else None
  {
    if kinds == [] {
    } else {
      var n := |kinds| - 1;
      var k := kinds[n];
      assert forall j :: j in kinds <==> j in kinds[..n] || j == k;
      SectionsStored(kinds[..n], listers, payload, caches, key);
      assert payload[k] == Converted(k, listers(k).objects);
      SectionStored(k, listers(k).objects, StoreSections(kinds[..n], payload, map[]), caches(k), key);
    }
  }

  // Storing a snapshot shows each kind as its cache was when it was listed.
  lemma SnapshotShowsCaches(listers: Listers, payload: Payload, caches: Kind -> Cache, key: Key)
    requires ListsCaches(listers, caches)
    requires forall k: Kind :: k in payload && payload[k] == Converted(k, listers(k).objects)
    ensures At(StoreSections(SNAPSHOT_SECTIONS, payload, map[]), key) == At(Image(caches(key.kind)), key)
  {
    TablesAgree();
    SectionsStored(SNAPSHOT_SECTIONS, listers, payload, caches, key);
  }

  // Each kind's state when it was listed.
  function CachesAt(log: seq<Change>, cut: Kind -> nat): Kind -> Cache {
    kind => if cut(kind) <= |log| then CacheAfter(map[], log[..cut(kind)]) else map[]
  }

  // From the operation to the receiver: whatever GetCurrentState returns while the caches
  // go through a change log, listing each kind at some point at or after `q`, the receiver
  // ends up with exactly the final caches once it has stored that snapshot and been told
  // every event from `q` on.
  lemma CurrentStateThenEventsConverges(factory: Option<Listers>, r: Result<Payload>,
                                        log: seq<Change>, q: nat, cut: Kind -> nat)
    requires IsCurrentState(true, factory, r) && r.Ok?
    requires q <= |log| && (forall kind: Kind :: q <= cut(kind) <= |log|) && FaithfulLog(map[], log)
    requires ListsCaches(factory.value, CachesAt(log, cut))
    ensures Replay(Events(CacheAfter(map[], log[..q]), log[q..]), StoreSections(SNAPSHOT_SECTIONS, r.value, map[]))
            == Image(CacheAfter(map[], log))
  {
    var v := StoreSections(SNAPSHOT_SECTIONS, r.value, map[]);
    forall k: Key
      ensures At(v, k) == At(Image(CacheAfter(map[], log[..cut(k.kind)])), k)
    {
      SnapshotShowsCaches(factory.value, r.value, CachesAt(log, cut), k);
    }
    SnapshotThenReplayConverges(log, q, cut, v);
  }
}
