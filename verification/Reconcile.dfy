/**
  The reconcile loop of one agent: what each pass sends and persists, with every
  outside call allowed to fail, and what holds of the persisted status over all runs.

  Each pass reads the clock once, after anything it sends.  Times are in seconds, as
  persisted.
 */
module Reconcile {
  import opened Resources
  import opened Conditions

  const AVAILABLE := "Available"
  const SYNCING := "Syncing"
  const DEGRADED := "Degraded"

  datatype Status = Status(
    clusterUID: string, conditions: seq<Condition>, lastSyncTime: Option<int>, lastSnapshotTime: Option<int>,
    observedGeneration: int, resourceCounts: Option<map<Kind, nat>>)

  const EMPTY_STATUS: Status := Status("", [], None, None, 0, None)

  const AVAILABLE_MESSAGE := "Agent is running and connected to platform"
  const SYNCING_MESSAGE := "Agent is actively syncing data"
  const HEALTHY_MESSAGE := "Agent is operating normally"

  datatype Read = Found | NotFound | ReadError

  // What the outside world answers during one pass; `error` is the text of whatever fails.
  datatype Environment = Environment(
    read: Read,
    credentials: bool,
    clusterUID: Option<string>,
    clientset: bool,
    started: bool,
    sendSucceeds: bool,
    counts: Option<map<Kind, nat>>,
    updateSucceeds: bool,
    error: string,
    generation: int,
    syncInterval: int,
    now: int)

  datatype Send = Snapshot(ok: bool) | Heartbeat(ok: bool, clusterUID: string)

  // The status as it stands in memory when the pass ends, whether it was written, and
  // whether an ingestion manager was started or stopped.
  datatype Outcome = Outcome(
    status: Status, written: bool, sends: seq<Send>, hasManager: bool, starts: bool, stops: bool,
    requeueAfter: int, failed: bool)

  function Conditioned(
    s: Status, t: string, value: ConditionStatus, reason: string, message: string, env: Environment): Status
  {
    s.(conditions := With(s.conditions, Condition(t, value, env.generation, env.now, reason, message)))
  }

  function Healthy(s: Status, env: Environment): Status {
    Conditioned(
      Conditioned(
        Conditioned(s, AVAILABLE, True, "AgentRunning", AVAILABLE_MESSAGE, env),
        SYNCING, True, "SyncActive", SYNCING_MESSAGE, env),
      DEGRADED, False, "AgentHealthy", HEALTHY_MESSAGE, env)
    .(observedGeneration := env.generation)
  }

  function Interval(env: Environment): int {
    if env.syncInterval > 0 then env.syncInterval else 300
  }

  // The pass as a function of what it loaded and what it was answered.  An agent that is
  // gone takes its client, and the client's manager, with it.
  function Pass(loaded: Status, hasManager: bool, env: Environment): Outcome {
    match env.read
    case NotFound => Outcome(loaded, false, [], false, false, hasManager, 0, false)
    case ReadError => Outcome(loaded, false, [], hasManager, false, false, 0, true)
    case Found =>
      if !env.credentials then
        Outcome(Conditioned(loaded, DEGRADED, True, "AuthenticationError", env.error, env), true, [],
                hasManager, false, false, 30, !env.updateSucceeds)
      else if loaded.clusterUID == "" && env.clusterUID.None? then
        Outcome(loaded, false, [], hasManager, false, false, 10, true)
      else
        var s := if loaded.clusterUID == "" then loaded.(clusterUID := env.clusterUID.value) else loaded;
        var starts := !hasManager && env.clientset;
        var managed := hasManager || starts;
        if !managed || !env.started then Outcome(s, false, [], managed, starts, false, 2, false)
        else
          var send := if s.lastSnapshotTime.None? then Snapshot(env.sendSucceeds)
                      else Heartbeat(env.sendSucceeds, s.clusterUID);
          if !env.sendSucceeds then
            var reason := if send.Snapshot? then "SnapshotFailed" else "HeartbeatFailed";
            Outcome(Conditioned(s, SYNCING, False, reason, env.error, env), true, [send],
                    managed, starts, false, 30, !env.updateSucceeds)
          else
            Outcome(Healthy(Counted(Timed(s, send, env), env), env), true, [send], managed, starts, false,
                    if env.updateSucceeds then Interval(env) else 0, !env.updateSucceeds)
  }

  function Timed(s: Status, send: Send, env: Environment): Status {
    s.(lastSyncTime := Some(env.now),
       lastSnapshotTime := if send.Snapshot? then Some(env.now) else s.lastSnapshotTime)
  }

  function Counted(s: Status, env: Environment): Status {
    if env.counts.Some? then s.(resourceCounts := env.counts) else s
  }

  // A pass ends with the agent available, syncing and not degraded exactly when nothing
  // it asked for failed before the final write.
  lemma SuccessfulPass(loaded: Status, hasManager: bool, env: Environment)
    ensures var o := Pass(loaded, hasManager, env);
      (env.read.Found? && env.credentials && (loaded.clusterUID != "" || env.clusterUID.Some?)
       && (hasManager || env.clientset) && env.started && env.sendSucceeds)
      <==> (o.written && |o.sends| == 1 && o.sends[0].ok)
    ensures var o := Pass(loaded, hasManager, env);
      o.written && |o.sends| == 1 && o.sends[0].ok ==>
        && Lookup(o.status.conditions, AVAILABLE).Some? && Lookup(o.status.conditions, AVAILABLE).value.status.True?
        && Lookup(o.status.conditions, SYNCING).Some? && Lookup(o.status.conditions, SYNCING).value.status.True?
        && Lookup(o.status.conditions, DEGRADED).Some? && Lookup(o.status.conditions, DEGRADED).value.status.False?
        && o.status.observedGeneration == env.generation && o.status.lastSyncTime == Some(env.now)
  {
    var o := Pass(loaded, hasManager, env);
    if o.written && |o.sends| == 1 && o.sends[0].ok {
      HealthyConditions(loaded.conditions, env);
    }
  }

  lemma HealthyConditions(cs: seq<Condition>, env: Environment)
    ensures var c1 := Condition(AVAILABLE, True, env.generation, env.now, "AgentRunning", AVAILABLE_MESSAGE);
      var c2 := Condition(SYNCING, True, env.generation, env.now, "SyncActive", SYNCING_MESSAGE);
      var c3 := Condition(DEGRADED, False, env.generation, env.now, "AgentHealthy", HEALTHY_MESSAGE);
      var all := With(With(With(cs, c1), c2), c3);
      Lookup(all, AVAILABLE) == Some(c1) && Lookup(all, SYNCING) == Some(c2) && Lookup(all, DEGRADED) == Some(c3)
  {
    var c1 := Condition(AVAILABLE, True, env.generation, env.now, "AgentRunning", AVAILABLE_MESSAGE);
    var c2 := Condition(SYNCING, True, env.generation, env.now, "SyncActive", SYNCING_MESSAGE);
    var c3 := Condition(DEGRADED, False, env.generation, env.now, "AgentHealthy", HEALTHY_MESSAGE);
    assert AVAILABLE[0] == 'A' && SYNCING[0] == 'S' && DEGRADED[0] == 'D';
    var one := With(cs, c1);
    var two := With(one, c2);
    LookupAfterWith(cs, c1, AVAILABLE);
    LookupAfterWith(one, c2, AVAILABLE);
    LookupAfterWith(one, c2, SYNCING);
    LookupAfterWith(two, c3, AVAILABLE);
    LookupAfterWith(two, c3, SYNCING);
    LookupAfterWith(two, c3, DEGRADED);
  }

  /* ---- What each way of ending a pass leaves ---- */

  // Only the condition of one type has been set.
  ghost predicate OnlySets(before: Status, after: Status, t: string, value: ConditionStatus, reason: string,
                           message: string, env: Environment)
  {
    && Lookup(after.conditions, t) == Some(Condition(t, value, env.generation, env.now, reason, message))
    && (forall u | u != t :: Lookup(after.conditions, u) == Lookup(before.conditions, u))
    && after.(conditions := before.conditions) == before
  }

  // The status a pass works on: with the cluster UID, if it was not known.
  function WithUID(loaded: Status, env: Environment): Status {
    if loaded.clusterUID == "" && env.clusterUID.Some? then loaded.(clusterUID := env.clusterUID.value) else loaded
  }

  ghost predicate GoneOrUnread(loaded: Status, hasManager: bool, env: Environment, o: Outcome) {
    && o.status == loaded && !o.written && o.sends == [] && !o.starts && o.requeueAfter == 0
    && (env.read.NotFound? ==> !o.failed && !o.hasManager && (o.stops <==> hasManager))
    && (env.read.ReadError? ==> o.failed && (o.hasManager <==> hasManager) && !o.stops)
  }

  ghost predicate NoCredentials(loaded: Status, hasManager: bool, env: Environment, o: Outcome) {
    && o.written && o.sends == [] && !o.starts && !o.stops && (o.hasManager <==> hasManager)
    && o.requeueAfter == 30 && (o.failed <==> !env.updateSucceeds)
    && OnlySets(loaded, o.status, "Degraded", True, "AuthenticationError", env.error, env)
  }

  ghost predicate NoClusterUID(loaded: Status, hasManager: bool, o: Outcome) {
    && o.status == loaded && !o.written && o.failed && o.sends == [] && !o.starts && !o.stops
    && (o.hasManager <==> hasManager) && o.requeueAfter == 10
  }

  ghost predicate NotReady(loaded: Status, hasManager: bool, env: Environment, o: Outcome) {
    && !o.written && !o.failed && o.sends == [] && !o.stops && o.requeueAfter == 2
    && (o.starts <==> !hasManager && env.clientset) && (o.hasManager <==> hasManager || env.clientset)
  }

  ghost predicate SendFailed(loaded: Status, hasManager: bool, env: Environment, o: Outcome) {
    var first := loaded.lastSnapshotTime.None?;
    && o.sends == [if first then Snapshot(false) else Heartbeat(false, WithUID(loaded, env).clusterUID)]
    && o.written && !o.stops && o.hasManager && (o.starts <==> !hasManager)
    && o.requeueAfter == 30 && (o.failed <==> !env.updateSucceeds)
    && OnlySets(WithUID(loaded, env), o.status, "Syncing", False,
                if first then "SnapshotFailed" else "HeartbeatFailed", env.error, env)
  }

  ghost predicate Succeeded(loaded: Status, hasManager: bool, env: Environment, o: Outcome) {
    var first := loaded.lastSnapshotTime.None?;
    var cs := o.status.conditions;
    && o.sends == [if first then Snapshot(true) else Heartbeat(true, WithUID(loaded, env).clusterUID)]
    && o.written && !o.stops && o.hasManager && (o.starts <==> !hasManager)
    && (o.failed <==> !env.updateSucceeds)
    && o.requeueAfter == (if !env.updateSucceeds then 0 else if env.syncInterval > 0 then env.syncInterval else 300)
    && o.status.clusterUID == WithUID(loaded, env).clusterUID
    && o.status.lastSyncTime == Some(env.now)
    && o.status.lastSnapshotTime == (if first then Some(env.now) else loaded.lastSnapshotTime)
    && o.status.observedGeneration == env.generation
    && o.status.resourceCounts == (if env.counts.Some? then env.counts else loaded.resourceCounts)
    && Lookup(cs, "Available") == Some(Condition("Available", True, env.generation, env.now, "AgentRunning",
                                                 "Agent is running and connected to platform"))
    && Lookup(cs, "Syncing") == Some(Condition("Syncing", True, env.generation, env.now, "SyncActive",
                                               "Agent is actively syncing data"))
    && Lookup(cs, "Degraded") == Some(Condition("Degraded", False, env.generation, env.now, "AgentHealthy",
                                                "Agent is operating normally"))
    && forall u | u != "Available" && u != "Syncing" && u != "Degraded" :: Lookup(cs, u) == Lookup(loaded.conditions, u)
  }

  // Which of these a pass ends in, by what it was answered.
  ghost predicate EndsAsPromised(loaded: Status, hasManager: bool, env: Environment, o: Outcome) {
    if !env.read.Found? then GoneOrUnread(loaded, hasManager, env, o)
    else if !env.credentials then NoCredentials(loaded, hasManager, env, o)
    else if loaded.clusterUID == "" && env.clusterUID.None? then NoClusterUID(loaded, hasManager, o)
    else if (!hasManager && !env.clientset) || !env.started then NotReady(loaded, hasManager, env, o)
    else if !env.sendSucceeds then SendFailed(loaded, hasManager, env, o)
    else Succeeded(loaded, hasManager, env, o)
  }

  lemma ConditionedSets(s: Status, t: string, value: ConditionStatus, reason: string, message: string, env: Environment)
    ensures OnlySets(s, Conditioned(s, t, value, reason, message, env), t, value, reason, message, env)
  {
    var c := Condition(t, value, env.generation, env.now, reason, message);
    forall u ensures Lookup(With(s.conditions, c), u) == if u == t then Some(c) else Lookup(s.conditions, u) {
      LookupAfterWith(s.conditions, c, u);
    }
  }

  lemma HealthySets(s: Status, env: Environment, u: string)
    requires u != AVAILABLE && u != SYNCING && u != DEGRADED
    ensures Lookup(Healthy(s, env).conditions, u) == Lookup(s.conditions, u)
  {
    var c1 := Condition(AVAILABLE, True, env.generation, env.now, "AgentRunning", AVAILABLE_MESSAGE);
    var c2 := Condition(SYNCING, True, env.generation, env.now, "SyncActive", SYNCING_MESSAGE);
    var c3 := Condition(DEGRADED, False, env.generation, env.now, "AgentHealthy", HEALTHY_MESSAGE);
    LookupAfterWith(s.conditions, c1, u);
    LookupAfterWith(With(s.conditions, c1), c2, u);
    LookupAfterWith(With(With(s.conditions, c1), c2), c3, u);
  }

  lemma FailedSendEnds(loaded: Status, hasManager: bool, env: Environment)
    requires env.read.Found? && env.credentials && (loaded.clusterUID != "" || env.clusterUID.Some?)
    requires (hasManager || env.clientset) && env.started && !env.sendSucceeds
    ensures SendFailed(loaded, hasManager, env, Pass(loaded, hasManager, env))
  {
    ConditionedSets(WithUID(loaded, env), SYNCING, False,
                    if loaded.lastSnapshotTime.None? then "SnapshotFailed" else "HeartbeatFailed", env.error, env);
  }

  lemma SuccessEnds(loaded: Status, hasManager: bool, env: Environment)
    requires env.read.Found? && env.credentials && (loaded.clusterUID != "" || env.clusterUID.Some?)
    requires (hasManager || env.clientset) && env.started && env.sendSucceeds
    ensures Succeeded(loaded, hasManager, env, Pass(loaded, hasManager, env))
  {
    HealthyConditions(loaded.conditions, env);
    forall u | u != AVAILABLE && u != SYNCING && u != DEGRADED
      ensures Lookup(Healthy(loaded, env).conditions, u) == Lookup(loaded.conditions, u)
    {
      HealthySets(loaded, env, u);
    }
  }

  lemma EveryPassEndsAsPromised(loaded: Status, hasManager: bool, env: Environment)
    ensures EndsAsPromised(loaded, hasManager, env, Pass(loaded, hasManager, env))
  {
    if !env.read.Found? {
    } else if !env.credentials {
      ConditionedSets(loaded, DEGRADED, True, "AuthenticationError", env.error, env);
    } else if loaded.clusterUID == "" && env.clusterUID.None? {
    } else if (!hasManager && !env.clientset) || !env.started {
    } else if !env.sendSucceeds {
      FailedSendEnds(loaded, hasManager, env);
    } else {
      SuccessEnds(loaded, hasManager, env);
    }
  }

  /* ---- Runs ---- */

  // Every version of the status ever persisted and everything sent since the agent was
  // last created, and the clock.  Clients are numbered as they come into use under the
  // agent's name; `starts` and `stops` list those for which a pass started or stopped a
  // manager.  The manager is `down` once it has stopped itself because its caches did not
  // sync: nobody starts the same manager a second time.
  datatype World = World(
    versions: seq<Status>, sends: seq<Send>, hasManager: bool, now: int,
    client: nat, starts: seq<nat>, stops: seq<nat>, down: bool)

  datatype Step = Reconcile(loaded: nat, env: Environment) | ManagerFails | Recreate | OperatorRestart

  function Start(now: int): World {
    World([EMPTY_STATUS], [], false, now, 0, [], [], false)
  }

  // A pass may load an old version from its cache; a write succeeds only on the newest.
  // `uid` is the UID of the kube-system namespace, which never changes.
  predicate Enabled(w: World, step: Step, uid: string) {
    match step
    case Reconcile(loaded, env) =>
      && loaded < |w.versions|
      && w.now <= env.now
      && (env.clusterUID.Some? ==> env.clusterUID.value == uid)
      && (env.updateSucceeds ==> loaded == |w.versions| - 1)
      && (w.down ==> !env.started)
    case ManagerFails => w.hasManager
    case Recreate => true
    case OperatorRestart => true
  }

  // An agent that is not found loses its client, as all do when the operator restarts.
  // An agent may be created anew before its deletion is noticed; its status is then
  // empty, and its client still there.
  function Do(w: World, step: Step, uid: string): World
    requires Enabled(w, step, uid)
  {
    match step
    case Reconcile(loaded, env) =>
      var o := Pass(w.versions[loaded], w.hasManager, env);
      World(if o.written && env.updateSucceeds then w.versions + [o.status] else w.versions,
            w.sends + o.sends, o.hasManager, env.now,
            if env.read.NotFound? then w.client + 1 else w.client,
            w.starts + (if o.starts then [w.client] else []),
            w.stops + (if o.stops then [w.client] else []), w.down && !env.read.NotFound?)
    case ManagerFails => w.(down := true)
    case Recreate => w.(versions := [EMPTY_STATUS], sends := [])
    case OperatorRestart => w.(hasManager := false, client := w.client + 1, down := false)
  }

  ghost predicate Run(w: World, steps: seq<Step>, w': World, uid: string)
    decreases |steps|
  {
    if steps == [] then w == w'
    else Enabled(w, steps[0], uid) && Run(Do(w, steps[0], uid), steps[1..], w', uid)
  }

  predicate SnapshotSucceeded(sends: seq<Send>) {
    Snapshot(true) in sends
  }

  ghost predicate GoodTimes(s: Status, sends: seq<Send>, now: int, uid: string) {
    && (s.lastSnapshotTime.Some? <==> s.lastSyncTime.Some?)
    && (s.lastSnapshotTime.Some? ==>
          && s.lastSnapshotTime.value <= s.lastSyncTime.value <= now
          && s.clusterUID == uid
          && SnapshotSucceeded(sends))
    && (s.clusterUID == "" || s.clusterUID == uid)
  }

  ghost predicate GoodStatus(s: Status, sends: seq<Send>, now: int, uid: string) {
    GoodTimes(s, sends, now, uid) && Distinct(Types(s.conditions))
  }

  // What a later version may not take back from an earlier one.
  ghost predicate Keeps(earlier: Status, later: Status) {
    && (earlier.lastSnapshotTime.Some? ==> later.lastSnapshotTime == earlier.lastSnapshotTime)
    && (earlier.lastSyncTime.Some? ==>
          later.lastSyncTime.Some? && earlier.lastSyncTime.value <= later.lastSyncTime.value)
    && (earlier.clusterUID != "" ==> later.clusterUID == earlier.clusterUID)
  }

  // Each heartbeat comes after a successful snapshot and names the cluster.
  ghost predicate HeartbeatsFollow(sends: seq<Send>, uid: string) {
    forall i | 0 <= i < |sends| && sends[i].Heartbeat? :: sends[i].clusterUID == uid && SnapshotSucceeded(sends[..i])
  }

  ghost predicate Inv(w: World, uid: string) {
    && w.versions != []
    && (forall i | 0 <= i < |w.versions| :: GoodStatus(w.versions[i], w.sends, w.now, uid))
    && (forall i, j | 0 <= i < j < |w.versions| :: Keeps(w.versions[i], w.versions[j]))
    && HeartbeatsFollow(w.sends, uid)
  }

  // What a pass does to the times and the cluster UID, whatever it does to the conditions.
  ghost predicate SetsTimes(loaded: Status, env: Environment, o: Outcome) {
    var s := o.status;
    && |o.sends| <= 1
    && (s.clusterUID != loaded.clusterUID ==> loaded.clusterUID == "" && env.clusterUID == Some(s.clusterUID))
    && (if o.sends != [] && o.sends[0].ok
        then
          && s.lastSyncTime == Some(env.now)
          && (if o.sends[0].Snapshot? then s.lastSnapshotTime == Some(env.now) && loaded.lastSnapshotTime.None?
              else s.lastSnapshotTime == loaded.lastSnapshotTime && loaded.lastSnapshotTime.Some?)
          && (loaded.clusterUID != "" || env.clusterUID == Some(s.clusterUID))
        else s.lastSyncTime == loaded.lastSyncTime && s.lastSnapshotTime == loaded.lastSnapshotTime)
  }

  lemma PassSetsTimes(loaded: Status, hasManager: bool, env: Environment)
    ensures SetsTimes(loaded, env, Pass(loaded, hasManager, env))
  {
  }

  lemma TimesStayGood(loaded: Status, env: Environment, o: Outcome, sends: seq<Send>, now: int, uid: string)
    requires uid != "" && GoodTimes(loaded, sends, now, uid) && now <= env.now && SetsTimes(loaded, env, o)
    requires env.clusterUID.Some? ==> env.clusterUID.value == uid
    ensures GoodTimes(o.status, sends + o.sends, env.now, uid) && Keeps(loaded, o.status)
  {
    if o.sends != [] {
      assert o.sends[0] in sends + o.sends;
    }
  }

  lemma PassKeepsGood(loaded: Status, hasManager: bool, env: Environment, sends: seq<Send>, now: int, uid: string)
    requires uid != "" && GoodStatus(loaded, sends, now, uid) && now <= env.now
    requires env.clusterUID.Some? ==> env.clusterUID.value == uid
    ensures var o := Pass(loaded, hasManager, env);
      && GoodStatus(o.status, sends + o.sends, env.now, uid)
      && Keeps(loaded, o.status)
  {
    PassSetsTimes(loaded, hasManager, env);
    TimesStayGood(loaded, env, Pass(loaded, hasManager, env), sends, now, uid);
    PassKeepsTypes(loaded, hasManager, env);
  }

  lemma HealthyKeepsTypes(s: Status, env: Environment)
    requires Distinct(Types(s.conditions))
    ensures Distinct(Types(Healthy(s, env).conditions))
  {
    var c1 := Condition(AVAILABLE, True, env.generation, env.now, "AgentRunning", AVAILABLE_MESSAGE);
    var c2 := Condition(SYNCING, True, env.generation, env.now, "SyncActive", SYNCING_MESSAGE);
    TypesAfterWith(s.conditions, c1);
    TypesAfterWith(With(s.conditions, c1), c2);
    var c3 := Condition(DEGRADED, False, env.generation, env.now, "AgentHealthy", HEALTHY_MESSAGE);
    TypesAfterWith(With(With(s.conditions, c1), c2), c3);
  }

  lemma PassKeepsTypes(loaded: Status, hasManager: bool, env: Environment)
    requires Distinct(Types(loaded.conditions))
    ensures Distinct(Types(Pass(loaded, hasManager, env).status.conditions))
  {
    var cs := loaded.conditions;
    TypesAfterWith(cs, Condition(DEGRADED, True, env.generation, env.now, "AuthenticationError", env.error));
    TypesAfterWith(cs, Condition(SYNCING, False, env.generation, env.now, "SnapshotFailed", env.error));
    TypesAfterWith(cs, Condition(SYNCING, False, env.generation, env.now, "HeartbeatFailed", env.error));
    var o := Pass(loaded, hasManager, env);
    if o.written && |o.sends| == 1 && o.sends[0].ok {
      HealthyKeepsTypes(loaded, env);
      assert o.status.conditions == Healthy(loaded, env).conditions;
    }
  }

  lemma PassSendsInOrder(loaded: Status, hasManager: bool, env: Environment, sends: seq<Send>, now: int, uid: string)
    requires uid != "" && GoodStatus(loaded, sends, now, uid) && HeartbeatsFollow(sends, uid)
    requires env.clusterUID.Some? ==> env.clusterUID.value == uid
    ensures HeartbeatsFollow(sends + Pass(loaded, hasManager, env).sends, uid)
  {
    var all := sends + Pass(loaded, hasManager, env).sends;
    forall i | 0 <= i < |all| && all[i].Heartbeat?
      ensures all[i].clusterUID == uid && SnapshotSucceeded(all[..i])
    {
      if i < |sends| {
        assert all[..i] == sends[..i];
      } else {
        assert all[..i] == sends;
      }
    }
  }

  lemma MoreSendsStayGood(s: Status, sends: seq<Send>, more: seq<Send>, now: int, later: int, uid: string)
    requires GoodStatus(s, sends, now, uid) && now <= later
    ensures GoodStatus(s, sends + more, later, uid)
  {
  }

  lemma StepKeepsInv(w: World, step: Step, uid: string)
    requires uid != "" && Inv(w, uid) && Enabled(w, step, uid)
    ensures Inv(Do(w, step, uid), uid)
  {
    if step.Recreate? {
      assert GoodStatus(EMPTY_STATUS, [], w.now, uid);
    } else if step.Reconcile? {
      var loaded, env := w.versions[step.loaded], step.env;
      var o, w' := Pass(loaded, w.hasManager, env), Do(w, step, uid);
      PassKeepsGood(loaded, w.hasManager, env, w.sends, w.now, uid);
      PassSendsInOrder(loaded, w.hasManager, env, w.sends, w.now, uid);
      forall i | 0 <= i < |w'.versions|
        ensures GoodStatus(w'.versions[i], w'.sends, w'.now, uid)
      {
        if i < |w.versions| {
          MoreSendsStayGood(w.versions[i], w.sends, o.sends, w.now, env.now, uid);
        }
      }
      forall i, j | 0 <= i < j < |w'.versions|
        ensures Keeps(w'.versions[i], w'.versions[j])
      {
        if j == |w.versions| && i < step.loaded {
          assert Keeps(w.versions[i], loaded) && Keeps(loaded, o.status);
        }
      }
    }
  }

  lemma {:induction false} RunKeepsInv(w: World, steps: seq<Step>, w': World, uid: string)
    requires uid != "" && Inv(w, uid) && Run(w, steps, w', uid)
    ensures Inv(w', uid)
    decreases |steps|
  {
    if steps == [] {
    } else {
      StepKeepsInv(w, steps[0], uid);
      RunKeepsInv(Do(w, steps[0], uid), steps[1..], w', uid);
    }
  }

  // Over all runs, with any call failing at any time, stale reads and operator restarts:
  // in every persisted status the snapshot time is set exactly when the sync time is,
  // and is not later; it is set only once a snapshot has succeeded and the cluster UID
  // is known; neither is ever cleared or changed; no condition type repeats.
  lemma PersistedStatusIsSound(steps: seq<Step>, now: int, w: World, uid: string, i: nat, j: nat)
    requires uid != "" && Run(Start(now), steps, w, uid) && i <= j < |w.versions|
    ensures var s := w.versions[i];
      && (s.lastSnapshotTime.Some? <==> s.lastSyncTime.Some?)
      && (s.lastSnapshotTime.Some? ==>
            s.lastSnapshotTime.value <= s.lastSyncTime.value && s.clusterUID == uid && Snapshot(true) in w.sends)
      && Distinct(Types(s.conditions))
    ensures w.versions[i].lastSnapshotTime.Some? ==> w.versions[j].lastSnapshotTime == w.versions[i].lastSnapshotTime
    ensures w.versions[i].clusterUID != "" ==> w.versions[j].clusterUID == w.versions[i].clusterUID == uid
    ensures w.versions[i].lastSyncTime.Some? ==>
      w.versions[j].lastSyncTime.Some? && w.versions[i].lastSyncTime.value <= w.versions[j].lastSyncTime.value
  {
    assert GoodStatus(EMPTY_STATUS, [], now, uid);
    RunKeepsInv(Start(now), steps, w, uid);
    assert GoodStatus(w.versions[i], w.sends, w.now, uid);
  }

  // No heartbeat is ever sent before a snapshot has succeeded.
  lemma SnapshotBeforeHeartbeat(steps: seq<Step>, now: int, w: World, uid: string, i: nat)
    requires uid != "" && Run(Start(now), steps, w, uid) && i < |w.sends| && w.sends[i].Heartbeat?
    ensures w.sends[i].clusterUID == uid
    ensures exists j :: 0 <= j < i && w.sends[j] == Snapshot(true)
  {
    assert GoodStatus(EMPTY_STATUS, [], now, uid);
    RunKeepsInv(Start(now), steps, w, uid);
    assert SnapshotSucceeded(w.sends[..i]);
    var j :| 0 <= j < |w.sends[..i]| && w.sends[..i][j] == Snapshot(true);
    assert w.sends[j] == Snapshot(true);
  }

  // Once a version with a snapshot time has been persisted, passes that load it or a
  // newer one never send a snapshot again, whatever happens to the operator: only an
  // agent that is created anew gets another.
  lemma {:induction false} NoSecondSnapshot(w: World, steps: seq<Step>, w': World, uid: string, i: nat)
    requires uid != "" && Inv(w, uid) && Run(w, steps, w', uid)
    requires i < |w.versions| && w.versions[i].lastSnapshotTime.Some?
    requires forall step | step in steps :: !step.Recreate? && (step.Reconcile? ==> i <= step.loaded)
    ensures |w.sends| <= |w'.sends| && forall k | |w.sends| <= k < |w'.sends| :: w'.sends[k].Heartbeat?
    decreases |steps|
  {
    if steps == [] {
    } else {
      assert steps[0] in steps && forall step | step in steps[1..] :: step in steps;
      var m := Do(w, steps[0], uid);
      StepKeepsInv(w, steps[0], uid);
      HeartbeatsOnly(w, steps[0], uid, i);
      NoSecondSnapshot(m, steps[1..], w', uid, i);
      SendsArePrefix(m, steps[1..], w', uid);
    }
  }

  lemma HeartbeatsOnly(w: World, step: Step, uid: string, i: nat)
    requires Inv(w, uid) && Enabled(w, step, uid) && !step.Recreate?
    requires i < |w.versions| && w.versions[i].lastSnapshotTime.Some? && (step.Reconcile? ==> i <= step.loaded)
    ensures var w' := Do(w, step, uid);
      && w.sends <= w'.sends && (forall k | |w.sends| <= k < |w'.sends| :: w'.sends[k].Heartbeat?)
      && i < |w'.versions| && w'.versions[i] == w.versions[i]
  {
    if step.Reconcile? && i < step.loaded {
      assert Keeps(w.versions[i], w.versions[step.loaded]);
    }
  }

  lemma {:induction false} SendsArePrefix(w: World, steps: seq<Step>, w': World, uid: string)
    requires Run(w, steps, w', uid) && forall step | step in steps :: !step.Recreate?
    ensures w.sends <= w'.sends
    decreases |steps|
  {
    if steps == [] {
    } else {
      assert steps[0] in steps && forall step | step in steps[1..] :: step in steps;
      SendsArePrefix(Do(w, steps[0], uid), steps[1..], w', uid);
    }
  }

  // What a pass leaves is persisted exactly if it is written and the write succeeds, and
  // what it sends is sent.
  lemma PassPersistsExactly(w: World, step: Step, uid: string)
    requires Enabled(w, step, uid) && step.Reconcile?
    ensures var env, w', n := step.env, Do(w, step, uid), |w.versions|;
      var known := w.versions[step.loaded].clusterUID != "" || env.clusterUID.Some?;
      var ready := (w.hasManager || env.clientset) && env.started;
      && w.versions <= w'.versions && w.sends <= w'.sends && |w'.versions| <= n + 1
      && (|w'.versions| == n + 1 <==>
            env.read.Found? && env.updateSucceeds && (!env.credentials || (known && ready)))
      && (|w'.sends| == |w.sends| + 1 <==> env.read.Found? && env.credentials && known && ready)
      && (|w'.versions| == n + 1 && env.credentials && env.sendSucceeds ==>
            w'.versions[n].lastSyncTime == Some(env.now) && w'.versions[n].lastSnapshotTime.Some?)
  {
  }

  /* ---- Managers ---- */

  ghost predicate ManagersInv(w: World) {
    && Distinct(w.starts) && Distinct(w.stops)
    && (forall c | c in w.starts :: c <= w.client)
    && (forall c | c in w.stops :: c in w.starts && c < w.client)
    && (w.client in w.starts <==> w.hasManager)
    && (w.sends != [] ==> w.starts != [])
  }

  // What a pass does about the manager.
  predicate Manages(hasManager: bool, env: Environment, o: Outcome) {
    && (o.starts ==> !hasManager)
    && (o.stops <==> hasManager && env.read.NotFound?)
    && (o.hasManager <==> (hasManager || o.starts) && !env.read.NotFound?)
    && (env.read.NotFound? ==> !o.starts)
    && (o.sends != [] ==> o.hasManager)
  }

  lemma PassManages(loaded: Status, hasManager: bool, env: Environment)
    ensures Manages(hasManager, env, Pass(loaded, hasManager, env))
  {
  }

  function After(w: World, gone: bool, o: Outcome): World {
    w.(hasManager := o.hasManager, sends := w.sends + o.sends, client := if gone then w.client + 1 else w.client,
       starts := w.starts + (if o.starts then [w.client] else []),
       stops := w.stops + (if o.stops then [w.client] else []))
  }

  lemma ManagersStayUnique(w: World, env: Environment, o: Outcome)
    requires ManagersInv(w) && Manages(w.hasManager, env, o)
    ensures ManagersInv(After(w, env.read.NotFound?, o))
  {
  }

  lemma StepKeepsManagers(w: World, step: Step, uid: string)
    requires ManagersInv(w) && Enabled(w, step, uid)
    ensures ManagersInv(Do(w, step, uid))
  {
    if step.Reconcile? {
      var loaded := w.versions[step.loaded];
      PassManages(loaded, w.hasManager, step.env);
      ManagersStayUnique(w, step.env, Pass(loaded, w.hasManager, step.env));
    }
  }

  lemma {:induction false} RunKeepsManagers(w: World, steps: seq<Step>, w': World, uid: string)
    requires ManagersInv(w) && Run(w, steps, w', uid)
    ensures ManagersInv(w')
    decreases |steps|
  {
    if steps == [] {
    } else {
      StepKeepsManagers(w, steps[0], uid);
      RunKeepsManagers(Do(w, steps[0], uid), steps[1..], w', uid);
    }
  }

  // As the passes of one agent run one after the other: over all runs, with deletions,
  // re-creations and operator restarts, the starts that passes make are for different
  // clients, so no client ever has two managers; only a started manager is stopped, and
  // once; and nothing is sent before a manager was started.
  lemma OneManagerPerClient(steps: seq<Step>, now: int, w: World, uid: string)
    requires Run(Start(now), steps, w, uid)
    ensures Distinct(w.starts) && Distinct(w.stops) && forall c | c in w.stops :: c in w.starts
    ensures w.client in w.starts <==> w.hasManager
    ensures w.sends != [] ==> w.starts != []
  {
    RunKeepsManagers(Start(now), steps, w, uid);
  }

  // An agent whose manager has failed is silent: its client keeps the manager, so no pass
  // starts another, and no pass sends anything, until the agent is deleted or the
  // operator restarts.
  lemma {:induction false} FailedManagerIsSilent(w: World, steps: seq<Step>, w': World, uid: string)
    requires w.down && w.hasManager && Run(w, steps, w', uid)
    requires forall step | step in steps :: !step.OperatorRestart? && (step.Reconcile? ==> !step.env.read.NotFound?)
    ensures w'.down && w'.hasManager && w'.starts == w.starts && w'.sends <= w.sends
    decreases |steps|
  {
    if steps == [] {
    } else {
      assert steps[0] in steps && forall step | step in steps[1..] :: step in steps;
      FailedManagerIsSilent(Do(w, steps[0], uid), steps[1..], w', uid);
    }
  }

  /* ---- The code of a pass ---- */

  class Agent {
    var clusterUID: string
    var lastSyncTime: Option<int>
    var lastSnapshotTime: Option<int>
    var observedGeneration: int
    var resourceCounts: Option<map<Kind, nat>>
    const conditions: ConditionList

    constructor (loaded: Status)
      ensures View() == loaded && fresh(conditions)
    {
      clusterUID, lastSyncTime, lastSnapshotTime := loaded.clusterUID, loaded.lastSyncTime, loaded.lastSnapshotTime;
      observedGeneration, resourceCounts := loaded.observedGeneration, loaded.resourceCounts;
      var list := new ConditionList();
      list.conditions := loaded.conditions;
      conditions := list;
    }

    ghost function View(): Status
      reads this, conditions
    {
      Status(clusterUID, conditions.conditions, lastSyncTime, lastSnapshotTime, observedGeneration, resourceCounts)
    }

    method SetCondition(t: string, value: ConditionStatus, reason: string, message: string, env: Environment)
      modifies conditions
      ensures View() == Conditioned(old(View()), t, value, reason, message, env)
    {
      conditions.SetCondition(Condition(t, value, env.generation, env.now, reason, message));
    }

    method MarkHealthy(env: Environment)
      modifies this`observedGeneration, conditions
      ensures View() == Healthy(old(View()), env)
    {
      SetCondition(AVAILABLE, True, "AgentRunning", AVAILABLE_MESSAGE, env);
      SetCondition(SYNCING, True, "SyncActive", SYNCING_MESSAGE, env);
      SetCondition(DEGRADED, False, "AgentHealthy", HEALTHY_MESSAGE, env);
      observedGeneration := env.generation;
    }

    // The snapshot, or else the heartbeat, and what its success leaves.
    method Sync(env: Environment) returns (send: Send)
      modifies this`lastSnapshotTime, this`lastSyncTime
      ensures send == if old(lastSnapshotTime).None? then Snapshot(env.sendSucceeds)
                      else Heartbeat(env.sendSucceeds, clusterUID)
      ensures View() == if env.sendSucceeds then Timed(old(View()), send, env) else old(View())
    {
      if lastSnapshotTime.None? {
        send := Snapshot(env.sendSucceeds);
        if env.sendSucceeds {
          lastSnapshotTime := Some(env.now);
          lastSyncTime := Some(env.now);
        }
      } else {
        send := Heartbeat(env.sendSucceeds, clusterUID);
        if env.sendSucceeds {
          lastSyncTime := Some(env.now);
        }
      }
    }

    method Reconcile(hasManager: bool, env: Environment)
      returns (written: bool, sends: seq<Send>, managed: bool, starts: bool, stops: bool,
               requeueAfter: int, failed: bool)
      modifies this, conditions
      ensures Outcome(View(), written, sends, managed, starts, stops, requeueAfter, failed)
           == Pass(old(View()), hasManager, env)
      ensures EndsAsPromised(old(View()), hasManager, env,
                             Outcome(View(), written, sends, managed, starts, stops, requeueAfter, failed))
    {
      EveryPassEndsAsPromised(View(), hasManager, env);
      sends, managed, starts, stops := [], hasManager, false, false;
      if env.read.NotFound? {
        return false, sends, false, false, hasManager, 0, false;
      }
      if env.read.ReadError? {
        return false, sends, managed, starts, stops, 0, true;
      }
      if !env.credentials {
        SetCondition(DEGRADED, True, "AuthenticationError", env.error, env);
        return true, sends, managed, starts, stops, 30, !env.updateSucceeds;
      }
      if clusterUID == "" {
        if env.clusterUID.None? {
          return false, sends, managed, starts, stops, 10, true;
        }
        clusterUID := env.clusterUID.value;
      }
      if !managed {
        starts := env.clientset;
        managed := starts;
      }
      if !managed || !env.started {
        return false, sends, managed, starts, stops, 2, false;
      }
      var send := Sync(env);
      sends := [send];
      if !env.sendSucceeds {
        SetCondition(SYNCING, False, if send.Snapshot? then "SnapshotFailed" else "HeartbeatFailed", env.error, env);
        return true, sends, managed, starts, stops, 30, !env.updateSucceeds;
      }
      if env.counts.Some? {
        resourceCounts := env.counts;
      }
      MarkHealthy(env);
      if !env.updateSucceeds {
        return true, sends, managed, starts, stops, 0, true;
      }
      return true, sends, managed, starts, stops, Interval(env), false;
    }
  }
}
