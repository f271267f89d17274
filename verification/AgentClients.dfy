/**
  The reconciler's map of clients, one per agent: double-checked creation and
  deletion under any interleaving, and the two probes that read the map.
 */
module AgentClients {
  import opened Resources
  import opened Token
  import opened Transport

  // One pass: it gets or creates its client, then sees to the client's ingestion manager.
  // The look under the read lock comes first; then, if there was none, the look under the
  // write lock; with a client from the first look its credentials are still to be passed
  // on; then it has its client; if that has no manager it is going to give it one.
  // `epoch` counts the deletions of the key before the look that found the client.
  datatype Caller =
    | Looking(key: string, credentials: Credentials)
    | Missed(key: string, credentials: Credentials)
    | Found(key: string, credentials: Credentials, client: nat, epoch: nat)
    | Returned(key: string, credentials: Credentials, client: nat, epoch: nat)
    | Starting(key: string, credentials: Credentials, client: nat, epoch: nat)
    | Served(key: string, credentials: Credentials, client: nat, epoch: nat)
  {
    predicate HasClient() {
      Found? || Serving()
    }

    predicate Serving() {
      Returned? || Starting? || Served?
    }
  }

  // Clients are numbered as they are created; `created` says for which key and epoch,
  // `given` records the credentials each was given, and `deleted` counts deletions.
  // Managers are numbered as they are started: `managers` says for which client, `holds`
  // which one a client holds, and `stopped` lists those that were stopped.
  datatype Registry = Registry(
    clients: map<string, nat>, created: seq<(string, nat)>, given: set<(nat, Credentials)>, deleted: map<string, nat>,
    managers: seq<nat>, holds: map<nat, nat>, stopped: seq<nat>)
  {
    function Epoch(key: string): nat {
      if key in deleted then deleted[key] else 0
    }

    // The look under the write lock.
    function GetOrCreate(key: string, credentials: Credentials): (Registry, nat) {
      if key in clients then (this.(given := given + {(clients[key], credentials)}), clients[key])
      else
        var id := |created|;
        (this.(clients := clients[key := id], created := created + [(key, Epoch(key))],
               given := given + {(id, credentials)}), id)
    }

    // A manager is started for a client in hand, whether or not the map still has it.
    function Attach(client: nat): Registry {
      this.(managers := managers + [client], holds := holds[client := |managers|])
    }

    function Remove(key: string): Registry {
      if key !in clients then this
      else this.(clients := clients - {key}, deleted := deleted[key := Epoch(key) + 1],
                 stopped := stopped + (if clients[key] in holds then [holds[clients[key]]] else []))
    }

    predicate InUse(client: nat) {
      client < |created| && created[client].0 in clients && clients[created[client].0] == client
    }

    // The manager is held by a client in use.
    predicate Held(m: nat) {
      m < |managers| && InUse(managers[m]) && managers[m] in holds && holds[managers[m]] == m
    }

    ghost predicate Inv() {
      && (forall key | key in clients :: clients[key] < |created| && created[clients[key]] == (key, Epoch(key)))
      && Distinct(created)
      && (forall id | 0 <= id < |created| ::
            created[id].1 < Epoch(created[id].0) + if created[id].0 in clients then 1 else 0)
    }

    // Every manager is held by a client in use, or has been stopped, once.
    ghost predicate ManagersInv() {
      && (forall c | c in holds :: holds[c] < |managers| && managers[holds[c]] == c)
      && (forall m | 0 <= m < |managers| :: managers[m] < |created|)
      && (forall m: nat | m < |managers| :: Held(m) <==> m !in stopped)
      && (forall m | m in stopped :: 0 <= m < |managers|)
      && Distinct(stopped)
    }
  }

  const NO_CLIENTS: Registry := Registry(map[], [], {}, map[], [], map[], [])

  datatype World = World(registry: Registry, callers: seq<Caller>)

  datatype Step =
    | Call(key: string, credentials: Credentials)
    | FastLook(c: nat)
    | SlowLook(c: nat)
    | PassOn(c: nat)
    | Check(c: nat)
    | Attach(c: nat)
    | Leave(c: nat)
    | Delete(key: string)

  predicate Enabled(w: World, s: Step) {
    match s
    case Call(_, _) => true
    case FastLook(c) => c < |w.callers| && w.callers[c].Looking?
    case SlowLook(c) => c < |w.callers| && w.callers[c].Missed?
    case PassOn(c) => c < |w.callers| && w.callers[c].Found?
    case Check(c) => c < |w.callers| && w.callers[c].Returned?
    case Attach(c) => c < |w.callers| && w.callers[c].Starting?
    case Leave(c) => c < |w.callers| && (w.callers[c].Returned? || w.callers[c].Starting?)
    case Delete(_) => true
  }

  function Do(w: World, s: Step): World
    requires Enabled(w, s)
  {
    var r := w.registry;
    match s
    case Call(key, credentials) => w.(callers := w.callers + [Looking(key, credentials)])
    case FastLook(c) =>
      var Looking(key, credentials) := w.callers[c];
      w.(callers := w.callers[c := if key in r.clients then Found(key, credentials, r.clients[key], r.Epoch(key))
                                   else Missed(key, credentials)])
    case SlowLook(c) =>
      var Missed(key, credentials) := w.callers[c];
      var (registry, id) := r.GetOrCreate(key, credentials);
      World(registry, w.callers[c := Returned(key, credentials, id, r.Epoch(key))])
    case PassOn(c) =>
      var Found(key, credentials, client, epoch) := w.callers[c];
      World(r.(given := r.given + {(client, credentials)}), w.callers[c := Returned(key, credentials, client, epoch)])
    case Check(c) =>
      var Returned(key, credentials, client, epoch) := w.callers[c];
      w.(callers := w.callers[c := if client in r.holds then Served(key, credentials, client, epoch)
                                   else Starting(key, credentials, client, epoch)])
    case Attach(c) =>
      var pc := w.callers[c];
      World(r.Attach(pc.client), w.callers[c := Served(pc.key, pc.credentials, pc.client, pc.epoch)])
    case Leave(c) =>
      var pc := w.callers[c];
      w.(callers := w.callers[c := Served(pc.key, pc.credentials, pc.client, pc.epoch)])
    case Delete(key) => w.(registry := r.Remove(key))
  }

  ghost predicate Run(w: World, steps: seq<Step>, w': World)
    decreases |steps|
  {
    if steps == [] then w == w' else Enabled(w, steps[0]) && Run(Do(w, steps[0]), steps[1..], w')
  }

  // What a caller holds stays so: clients and gifts are only ever added.
  ghost predicate CallerInv(r: Registry, pc: Caller) {
    && (pc.HasClient() ==> pc.client < |r.created| && r.created[pc.client] == (pc.key, pc.epoch))
    && (pc.Serving() ==> (pc.client, pc.credentials) in r.given)
  }

  ghost predicate Inv(w: World) {
    && w.registry.Inv()
    && forall c | 0 <= c < |w.callers| :: CallerInv(w.registry, w.callers[c])
  }

  lemma GetOrCreateKeepsInv(r: Registry, key: string, credentials: Credentials)
    requires r.Inv()
    ensures var (r', id) := r.GetOrCreate(key, credentials);
      && r'.Inv() && r.created <= r'.created && r.given <= r'.given
      && CallerInv(r', Returned(key, credentials, id, r.Epoch(key)))
  {
    if key !in r.clients {
      forall id | 0 <= id < |r.created| ensures r.created[id] != (key, r.Epoch(key)) {
        assert r.created[id].0 == key ==> r.created[id].1 < r.Epoch(key);
      }
    }
  }

  lemma RemoveKeepsInv(r: Registry, key: string)
    requires r.Inv()
    ensures r.Remove(key).Inv()
  {
    var r' := r.Remove(key);
    forall id | 0 <= id < |r'.created|
      ensures r'.created[id].1 < r'.Epoch(r'.created[id].0) + if r'.created[id].0 in r'.clients then 1 else 0
    {
      assert r.created[id].1 < r.Epoch(r.created[id].0) + if r.created[id].0 in r.clients then 1 else 0;
    }
  }

  // The registry keeps its invariant, and nothing created or given is taken back.
  lemma StepKeepsRegistry(w: World, s: Step)
    requires Inv(w) && Enabled(w, s)
    ensures var r, r' := w.registry, Do(w, s).registry;
      r'.Inv() && r.created <= r'.created && r.given <= r'.given
  {
    match s
    case SlowLook(c) => GetOrCreateKeepsInv(w.registry, w.callers[c].key, w.callers[c].credentials);
    case Delete(key) => RemoveKeepsInv(w.registry, key);
    case _ =>
  }

  lemma StepKeepsCaller(w: World, s: Step, d: nat)
    requires Inv(w) && Enabled(w, s) && d < |Do(w, s).callers|
    ensures CallerInv(Do(w, s).registry, Do(w, s).callers[d])
  {
    if d < |w.callers| {
      assert CallerInv(w.registry, w.callers[d]);
    }
    if s.SlowLook? {
      GetOrCreateKeepsInv(w.registry, w.callers[s.c].key, w.callers[s.c].credentials);
    }
  }

  lemma StepKeepsInv(w: World, s: Step)
    requires Inv(w) && Enabled(w, s)
    ensures Inv(Do(w, s))
  {
    StepKeepsRegistry(w, s);
    forall d | 0 <= d < |Do(w, s).callers| ensures CallerInv(Do(w, s).registry, Do(w, s).callers[d]) {
      StepKeepsCaller(w, s, d);
    }
  }

  lemma {:induction false} RunKeepsInv(w: World, steps: seq<Step>, w': World)
    requires Inv(w) && Run(w, steps, w')
    ensures Inv(w')
    decreases |steps|
  {
    if steps == [] {
    } else {
      StepKeepsInv(w, steps[0]);
      RunKeepsInv(Do(w, steps[0]), steps[1..], w');
    }
  }

  // Under every interleaving: for each key at most one client is created between two of
  // its deletions, all calls that look in between come back with that client, and each
  // call's credentials have been given to the client it comes back with.
  lemma OneClientBetweenDeletions(steps: seq<Step>, w: World, c: nat, d: nat)
    requires Run(World(NO_CLIENTS, []), steps, w)
    requires c < |w.callers| && d < |w.callers| && w.callers[c].Serving() && w.callers[d].Serving()
    ensures Distinct(w.registry.created)
    ensures (w.callers[c].client, w.callers[c].credentials) in w.registry.given
    ensures w.callers[c].client == w.callers[d].client <==>
      w.callers[c].key == w.callers[d].key && w.callers[c].epoch == w.callers[d].epoch
  {
    RunKeepsInv(World(NO_CLIENTS, []), steps, w);
    assert CallerInv(w.registry, w.callers[c]) && CallerInv(w.registry, w.callers[d]);
    var i, j := w.callers[c].client, w.callers[d].client;
    if i < j {
      assert w.registry.created[i] != w.registry.created[j];
    } else if j < i {
      assert w.registry.created[j] != w.registry.created[i];
    }
  }

  /* ---- Managers ---- */

  lemma RemoveKeepsManagers(r: Registry, key: string)
    requires r.Inv() && r.ManagersInv()
    ensures r.Remove(key).ManagersInv()
  {
    var r' := r.Remove(key);
    if key in r.clients {
      if r.clients[key] in r.holds {
        assert r.Held(r.holds[r.clients[key]]);
      }
      forall m: nat | m < |r'.managers| ensures r'.Held(m) <==> m !in r'.stopped {
        assert r.Held(m) <==> m !in r.stopped;
        assert r'.InUse(r.managers[m]) <==> r.InUse(r.managers[m]) && r.managers[m] != r.clients[key];
      }
    }
  }

  lemma CreateKeepsManagers(r: Registry, key: string, credentials: Credentials)
    requires r.Inv() && r.ManagersInv()
    ensures r.GetOrCreate(key, credentials).0.ManagersInv()
  {
    var r' := r.GetOrCreate(key, credentials).0;
    forall m: nat | m < |r'.managers| ensures r'.Held(m) <==> m !in r'.stopped {
      assert r.Held(m) <==> m !in r.stopped;
      assert r'.InUse(r.managers[m]) <==> r.InUse(r.managers[m]);
    }
  }

  // Giving a client in hand a manager is in order exactly if the client is still in use
  // and has none: otherwise some manager is neither held nor ever stopped.
  lemma AttachExactly(r: Registry, client: nat)
    requires r.Inv() && r.ManagersInv() && client < |r.created|
    ensures r.Attach(client).ManagersInv() <==> r.InUse(client) && client !in r.holds
  {
    var r', new' := r.Attach(client), |r.managers|;
    assert r'.InUse(client) <==> r.InUse(client);
    if r.InUse(client) && client !in r.holds {
      forall m: nat | m < |r'.managers| ensures r'.Held(m) <==> m !in r'.stopped {
        if m < new' {
          assert r.Held(m) <==> m !in r.stopped;
          assert r'.InUse(r.managers[m]) <==> r.InUse(r.managers[m]);
        }
      }
    } else if !r.InUse(client) {
      assert !r'.Held(new') && new' !in r'.stopped;
    } else {
      var m := r.holds[client];
      assert r.Held(m) && !r'.Held(m);
    }
  }

  /* ---- One pass at a time for each key ---- */

  ghost predicate Busy(w: World, key: string) {
    exists c | 0 <= c < |w.callers| :: w.callers[c].key == key && !w.callers[c].Served?
  }

  // The work queue hands a key to one worker at a time, and a deletion is noticed by a
  // pass of that key as well.
  ghost predicate InTurn(w: World, s: Step) {
    (s.Call? || s.Delete?) ==> !Busy(w, s.key)
  }

  ghost predicate InTurnRun(w: World, steps: seq<Step>, w': World)
    decreases |steps|
  {
    if steps == [] then w == w'
    else Enabled(w, steps[0]) && InTurn(w, steps[0]) && InTurnRun(Do(w, steps[0]), steps[1..], w')
  }

  // Where a pass stands: its client is still the one in the map, and has no manager if it
  // is about to be given one.
  ghost predicate Undisturbed(r: Registry, pc: Caller) {
    && (!pc.Served? && pc.HasClient() ==> pc.key in r.clients && r.clients[pc.key] == pc.client)
    && (pc.Starting? ==> pc.client !in r.holds)
  }

  ghost predicate OneByOne(w: World) {
    && (forall c, d | 0 <= c < d < |w.callers| && !w.callers[c].Served? && !w.callers[d].Served? ::
          w.callers[c].key != w.callers[d].key)
    && forall c | 0 <= c < |w.callers| :: Undisturbed(w.registry, w.callers[c])
  }

  ghost predicate SerialInv(w: World) {
    Inv(w) && w.registry.ManagersInv() && OneByOne(w) && Distinct(w.registry.managers)
    && forall m | 0 <= m < |w.registry.managers| :: w.registry.managers[m] in w.registry.holds
  }

  lemma OthersStayUndisturbed(w: World, s: Step, d: nat)
    requires Inv(w) && OneByOne(w) && Enabled(w, s) && InTurn(w, s) && d < |Do(w, s).callers|
    ensures Undisturbed(Do(w, s).registry, Do(w, s).callers[d])
  {
    if d < |w.callers| {
      assert Undisturbed(w.registry, w.callers[d]) && CallerInv(w.registry, w.callers[d]);
    }
    match s
    case Attach(c) => assert Undisturbed(w.registry, w.callers[c]) && CallerInv(w.registry, w.callers[c]);
    case _ =>
  }

  lemma StepKeepsOneByOne(w: World, s: Step)
    requires Inv(w) && OneByOne(w) && Enabled(w, s) && InTurn(w, s)
    ensures OneByOne(Do(w, s))
  {
    var w' := Do(w, s);
    forall d | 0 <= d < |w'.callers| ensures Undisturbed(w'.registry, w'.callers[d]) {
      OthersStayUndisturbed(w, s, d);
    }
  }

  lemma StepKeepsManagers(w: World, s: Step)
    requires SerialInv(w) && Enabled(w, s) && InTurn(w, s)
    ensures Do(w, s).registry.ManagersInv()
  {
    match s
    case SlowLook(c) => CreateKeepsManagers(w.registry, w.callers[c].key, w.callers[c].credentials);
    case Attach(c) =>
      assert Undisturbed(w.registry, w.callers[c]) && CallerInv(w.registry, w.callers[c]);
      AttachExactly(w.registry, w.callers[c].client);
    case Delete(key) => RemoveKeepsManagers(w.registry, key);
    case PassOn(c) =>
      var r, r' := w.registry, Do(w, s).registry;
      forall m: nat | m < |r'.managers| ensures r'.Held(m) <==> r.Held(m) {}
    case _ =>
  }

  lemma StepKeepsOnePerClient(w: World, s: Step)
    requires SerialInv(w) && Enabled(w, s)
    ensures var r := Do(w, s).registry;
      Distinct(r.managers) && forall m | 0 <= m < |r.managers| :: r.managers[m] in r.holds
  {
    if s.Attach? {
      assert Undisturbed(w.registry, w.callers[s.c]);
    }
  }

  lemma {:induction false} RunKeepsSerial(w: World, steps: seq<Step>, w': World)
    requires SerialInv(w) && InTurnRun(w, steps, w')
    ensures SerialInv(w')
    decreases |steps|
  {
    if steps == [] {
    } else {
      StepKeepsInv(w, steps[0]);
      StepKeepsOneByOne(w, steps[0]);
      StepKeepsManagers(w, steps[0]);
      StepKeepsOnePerClient(w, steps[0]);
      RunKeepsSerial(Do(w, steps[0]), steps[1..], w');
    }
  }

  // With one pass at a time for each key, passes of different keys interleaving at will:
  // no client is ever given two managers, and no manager outlives its client, that is,
  // it is held by a client in use exactly as long as it has not been stopped, once.
  lemma NoManagerOutlivesItsClient(steps: seq<Step>, w: World, m: nat)
    requires InTurnRun(World(NO_CLIENTS, []), steps, w) && m < |w.registry.managers|
    ensures w.registry.Held(m) <==> m !in w.registry.stopped
    ensures Distinct(w.registry.stopped) && Distinct(w.registry.managers)
  {
    RunKeepsSerial(World(NO_CLIENTS, []), steps, w);
  }

  // The key is gone from the map and every other key is as before; every manager ever
  // started for a client of that key has been stopped, and no other manager is.
  ghost predicate GoneWithManagers(r: Registry, r': Registry, key: string, m: nat) {
    && r'.clients == r.clients - {key}
    && r'.created == r.created && r'.managers == r.managers
    && m < |r.managers| && r.managers[m] < |r.created|
    && (if r.created[r.managers[m]].0 == key then m in r'.stopped else (m in r'.stopped <==> m in r.stopped))
  }

  lemma RemoveStops(r: Registry, key: string, m: nat)
    requires r.Inv() && r.ManagersInv() && m < |r.managers|
    ensures GoneWithManagers(r, r.Remove(key), key, m)
  {
    RemoveKeepsManagers(r, key);
    assert r.Remove(key).Held(m) <==> m !in r.Remove(key).stopped;
    if key in r.clients && r.clients[key] in r.holds {
      assert r.managers[r.holds[r.clients[key]]] == r.clients[key];
    }
  }

  // What deleting an agent does, in any run with one pass at a time for each key.
  lemma DeletionStopsManagers(steps: seq<Step>, w: World, key: string, m: nat)
    requires InTurnRun(World(NO_CLIENTS, []), steps, w) && m < |w.registry.managers|
    ensures GoneWithManagers(w.registry, Do(w, Delete(key)).registry, key, m)
  {
    RunKeepsSerial(World(NO_CLIENTS, []), steps, w);
    RemoveStops(w.registry, key, m);
  }

  // From then on the key leads to clients that did not exist before: a call that found its
  // client after the deletion found a new one.
  ghost predicate OnlyNew(w: World, key: string, old': nat, olds: nat) {
    && (key in w.registry.clients ==> w.registry.clients[key] >= old')
    && |w.registry.created| >= old'
    && forall c: nat | olds <= c < |w.callers| && w.callers[c].key == key && w.callers[c].HasClient() ::
         w.callers[c].client >= old'
  }

  lemma StepKeepsOnlyNew(w: World, s: Step, key: string, old': nat, olds: nat)
    requires OnlyNew(w, key, old', olds) && Enabled(w, s) && olds <= |w.callers|
    ensures OnlyNew(Do(w, s), key, old', olds) && olds <= |Do(w, s).callers|
  {
  }

  lemma {:induction false} RunKeepsOnlyNew(w: World, steps: seq<Step>, w': World, key: string, old': nat, olds: nat)
    requires OnlyNew(w, key, old', olds) && Run(w, steps, w') && olds <= |w.callers|
    ensures OnlyNew(w', key, old', olds)
    decreases |steps|
  {
    if steps == [] {
    } else {
      StepKeepsOnlyNew(w, steps[0], key, old', olds);
      RunKeepsOnlyNew(Do(w, steps[0]), steps[1..], w', key, old', olds);
    }
  }

  // A call made after a deletion never gets a client from before it.
  lemma NewClientAfterDeletion(w: World, key: string, later: seq<Step>, w': World, c: nat)
    requires Run(Do(w, Delete(key)), later, w')
    requires |w.callers| <= c < |w'.callers| && w'.callers[c].key == key && w'.callers[c].HasClient()
    ensures w'.callers[c].client >= |w.registry.created|
  {
    RunKeepsOnlyNew(Do(w, Delete(key)), later, w', key, |w.registry.created|, |w.callers|);
  }

  lemma Follow(w: World, s: Step, rest: seq<Step>, w': World)
    requires Enabled(w, s) && Run(Do(w, s), rest, w')
    ensures Run(w, [s] + rest, w')
  {
    assert ([s] + rest)[1..] == rest;
  }

  // Without that, a deletion may come between a pass's look and its start: the manager it
  // starts is held by a client nobody knows any more, and is never stopped.
  lemma DeletionMayOvertakeStart(key: string, credentials: Credentials)
    ensures exists steps: seq<Step>, w: World ::
      && Run(World(NO_CLIENTS, []), steps, w)
      && w.registry.managers == [0] && w.registry.clients == map[] && w.registry.stopped == []
  {
    var w1 := Do(World(NO_CLIENTS, []), Step.Call(key, credentials));
    var w2 := Do(w1, FastLook(0));
    var w3 := Do(w2, SlowLook(0));
    var w4 := Do(w3, Check(0));
    var w5 := Do(w4, Delete(key));
    var w6 := Do(w5, Attach(0));
    Follow(w5, Attach(0), [], w6);
    Follow(w4, Delete(key), [Attach(0)] + [], w6);
    Follow(w3, Check(0), [Delete(key)] + ([Attach(0)] + []), w6);
    Follow(w2, SlowLook(0), [Check(0)] + ([Delete(key)] + ([Attach(0)] + [])), w6);
    var tail := [SlowLook(0)] + ([Check(0)] + ([Delete(key)] + ([Attach(0)] + [])));
    Follow(w1, FastLook(0), tail, w6);
    Follow(World(NO_CLIENTS, []), Step.Call(key, credentials), [FastLook(0)] + tail, w6);
  }

  /* ---- The map itself ---- */

  class ClientMap {
    var clients: map<string, nat>
    var created: seq<(string, nat)>
    var given: set<(nat, Credentials)>
    var deleted: map<string, nat>
    var managers: seq<nat>
    var holds: map<nat, nat>
    var stopped: seq<nat>

    ghost function View(): Registry
      reads this
    {
      Registry(clients, created, given, deleted, managers, holds, stopped)
    }

    constructor ()
      ensures View() == NO_CLIENTS
    {
      clients, created, given, deleted := map[], [], {}, map[];
      managers, holds, stopped := [], map[], [];
    }

    method GetOrCreate(key: string, credentials: Credentials) returns (id: nat)
      modifies this
      ensures (View(), id) == old(View()).GetOrCreate(key, credentials)
      ensures clients == old(clients)[key := id] && (id, credentials) in given
      ensures if key in old(clients) then id == old(clients)[key] && created == old(created)
              else id == |old(created)| && |created| == id + 1 && created[id].0 == key && old(created) <= created
      ensures given == old(given) + {(id, credentials)}
      ensures managers == old(managers) && holds == old(holds) && stopped == old(stopped)
    {
      if key in clients {
        id := clients[key];
        given := given + {(id, credentials)};
        return;
      }
      id := |created|;
      created := created + [(key, if key in deleted then deleted[key] else 0)];
      given := given + {(id, credentials)};
      clients := clients[key := id];
    }

    // What a pass does about the manager of its client, without any lock on the map.
    method EnsureManager(client: nat) returns (started: bool)
      modifies this`managers, this`holds
      ensures started == (client !in old(holds))
      ensures View() == if started then old(View()).Attach(client) else old(View())
      ensures client in holds && (started ==> managers == old(managers) + [client])
      ensures started ==> holds == old(holds)[client := |old(managers)|]
      ensures !started ==> managers == old(managers) && holds == old(holds)
    {
      started := client !in holds;
      if started {
        holds := holds[client := |managers|];
        managers := managers + [client];
      }
    }

    // Under the write lock; a manager is stopped before its client is forgotten.
    method Remove(key: string)
      modifies this
      ensures View() == old(View()).Remove(key)
      ensures clients == old(clients) - {key}
      ensures stopped == old(stopped) +
        if key in old(clients) && old(clients)[key] in holds then [holds[old(clients)[key]]] else []
      ensures created == old(created) && given == old(given) && managers == old(managers) && holds == old(holds)
    {
      if key in clients {
        if clients[key] in holds {
          stopped := stopped + [holds[clients[key]]];
        }
        clients := clients - {key};
        deleted := deleted[key := if key in deleted then deleted[key] + 1 else 1];
      }
    }
  }

  /* ---- Probes ---- */

  datatype Probe = Pass | Fail(key: string, error: Option<SendError>)

  // The first unhealthy client found decides; there may be several.
  method CheckPlatformHealth(clients: map<string, Health>) returns (p: Probe)
    ensures p.Pass? <==> forall key | key in clients :: clients[key].healthy
    ensures p.Fail? ==> p.key in clients && !clients[p.key].healthy && p.error == clients[p.key].lastError
  {
    var rest := clients.Keys;
    while rest != {}
      invariant rest <= clients.Keys
      invariant forall key | key in clients.Keys - rest :: clients[key].healthy
    {
      var key :| key in rest;
      if !clients[key].healthy {
        return Fail(key, clients[key].lastError);
      }
      rest := rest - {key};
    }
    p := Pass;
  }

  method CheckReady(clients: map<string, Health>) returns (ready: bool)
    ensures ready <==> clients == map[] || exists key | key in clients :: clients[key].lastHealthyTime > 0
  {
    if |clients| == 0 {
      return true;
    }
    var rest := clients.Keys;
    while rest != {}
      invariant rest <= clients.Keys
      invariant forall key | key in clients.Keys - rest :: clients[key].lastHealthyTime <= 0
    {
      var key :| key in rest;
      if clients[key].lastHealthyTime > 0 {
        return true;
      }
      rest := rest - {key};
    }
    ready := false;
  }
}
