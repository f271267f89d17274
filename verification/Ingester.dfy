/**
  From informer callbacks to queued events: which event a callback produces, and
  the non-blocking offer of that event to the bounded channel.
 */
module Ingester {
  import opened Resources

  // What a callback may receive: an object of some kind, a tombstone for an object
  // whose deletion was missed, or something else.
  datatype Raw = Resource(kind: Kind, obj: KubeObject) | Tombstone(last: Raw) | Foreign

  datatype Notification = OnAdd(obj: Raw) | OnUpdate(oldObj: Raw, newObj: Raw) | OnDelete(obj: Raw)

  predicate IsOf(r: Raw, cfg: ResourceConfig) {
    r.Resource? && r.kind == cfg.resourceType
  }

  function UnwrapTombstone(r: Raw): Raw {
    if r.Tombstone? then r.last else r
  }

  function MakeEvent(cfg: ResourceConfig, t: EventType, o: KubeObject): ResourceEvent {
    ResourceEvent(t, cfg.resourceType, o.uid, o.name, NamespaceOf(cfg, o),
                  if t == Deleted then None else Some(Info(cfg.toInfo, o)))
  }

  // The event a notification gives rise to, if any.
  function EventFor(cfg: ResourceConfig, n: Notification): (r: Option<ResourceEvent>)
    ensures r.Some? ==> r.value.kind == cfg.resourceType
    ensures r.Some? ==> (r.value.eventType.Deleted? <==> n.OnDelete?)
    ensures r.Some? ==> (r.value.info.None? <==> r.value.eventType.Deleted?)
    ensures r.Some? && !cfg.isNamespaced ==> r.value.namespace == ""
  {
    match n
    case OnAdd(obj) =>
      if IsOf(obj, cfg) then Some(MakeEvent(cfg, Added, obj.obj)) else None
    case OnUpdate(oldObj, newObj) =>
      if IsOf(oldObj, cfg) && IsOf(newObj, cfg) && oldObj.obj.resourceVersion != newObj.obj.resourceVersion
      then Some(MakeEvent(cfg, Modified, newObj.obj)) else None
    case OnDelete(obj) =>
      var o := UnwrapTombstone(obj);
      if IsOf(o, cfg) then Some(MakeEvent(cfg, Deleted, o.obj)) else None
  }

  // When a callback leads to an event, and what it says, read off the object it was given.
  // A tombstone stands for the object in it, but not for another tombstone.
  lemma EventExactly(k: Kind, n: Notification)
    ensures var e := EventFor(ConfigFor(k), n);
      match n
      case OnAdd(obj) =>
        && (e.Some? <==> obj.Resource? && obj.kind == k)
        && (e.Some? ==> e.value.eventType == Added && SaysOf(e.value, k, obj.obj)
                        && e.value.info.Some? && e.value.info.value.of == obj.obj)
      case OnUpdate(was, obj) =>
        && (e.Some? <==> was.Resource? && was.kind == k && obj.Resource? && obj.kind == k
                         && was.obj.resourceVersion != obj.obj.resourceVersion)
        && (e.Some? ==> e.value.eventType == Modified && SaysOf(e.value, k, obj.obj)
                        && e.value.info.Some? && e.value.info.value.of == obj.obj)
      case OnDelete(Tombstone(last)) =>
        && (e.Some? <==> last.Resource? && last.kind == k)
        && (e.Some? ==> e.value.eventType == Deleted && SaysOf(e.value, k, last.obj) && e.value.info.None?)
      case OnDelete(obj) =>
        && (e.Some? <==> obj.Resource? && obj.kind == k)
        && (e.Some? ==> e.value.eventType == Deleted && SaysOf(e.value, k, obj.obj) && e.value.info.None?)
  {
    TablesAgree();
  }

  // The event names the object it is about; the namespace is left out for the four
  // cluster-scoped kinds only; what it carries is what the kind's conversion makes of it.
  predicate SaysOf(e: ResourceEvent, k: Kind, o: KubeObject) {
    && e.kind == k && e.uid == o.uid && e.name == o.name
    && e.namespace == (if k in {Namespace, Node, ClusterRole, ClusterRoleBinding} then "" else o.namespace)
    && (e.info.Some? ==> Takes(e.info.value.via) == k)
  }

  function Offered(queue: seq<ResourceEvent>, capacity: nat, e: Option<ResourceEvent>): seq<ResourceEvent> {
    if e.Some? && |queue| < capacity then queue + [e.value] else queue
  }

  // A buffered channel: senders never wait, and the receiver takes from the front.
  class EventChannel {
    const capacity: nat
    var queue: seq<ResourceEvent>

    predicate Valid()
      reads this
    {
      |queue| <= capacity
    }

    constructor (capacity: nat)
      ensures Valid() && this.capacity == capacity && queue == []
    {
      this.capacity := capacity;
      queue := [];
    }

    // False means the event was dropped.
    method Offer(e: ResourceEvent) returns (accepted: bool)
      requires Valid()
      modifies this
      ensures Valid()
      ensures accepted == (|old(queue)| < capacity)
      ensures queue == Offered(old(queue), capacity, Some(e))
      ensures queue == if |old(queue)| < capacity then old(queue) + [e] else old(queue)
    {
      accepted := |queue| < capacity;
      if accepted {
        queue := queue + [e];
      }
    }

    // None means that nothing was ready to be received.
    method TryReceive() returns (e: Option<ResourceEvent>)
      requires Valid()
      modifies this
      ensures Valid()
      ensures e.None? <==> old(queue) == []
      ensures e.Some? ==> old(queue) == [e.value] + queue
      ensures e.None? ==> queue == old(queue)
    {
      if queue == [] {
        e := None;
      } else {
        e := Some(queue[0]);
        queue := queue[1..];
      }
    }
  }

  class GenericIngester {
    const cfg: ResourceConfig
    const channel: EventChannel

    constructor (cfg: ResourceConfig, channel: EventChannel)
      ensures this.cfg == cfg && this.channel == channel
    {
      this.cfg := cfg;
      this.channel := channel;
    }

    method HandleAdd(obj: Raw)
      requires channel.Valid()
      modifies channel
      ensures channel.Valid()
      ensures channel.queue == Offered(old(channel.queue), channel.capacity, EventFor(cfg, OnAdd(obj)))
    {
      if !IsOf(obj, cfg) {
        return;
      }
      SendEvent(Added, obj.obj);
    }

    method HandleUpdate(oldObj: Raw, newObj: Raw)
      requires channel.Valid()
      modifies channel
      ensures channel.Valid()
      ensures channel.queue == Offered(old(channel.queue), channel.capacity, EventFor(cfg, OnUpdate(oldObj, newObj)))
    {
      if !IsOf(oldObj, cfg) {
        return;
      }
      if !IsOf(newObj, cfg) {
        return;
      }
      if oldObj.obj.resourceVersion == newObj.obj.resourceVersion {
        return;
      }
      SendEvent(Modified, newObj.obj);
    }

    method HandleDelete(obj: Raw)
      requires channel.Valid()
      modifies channel
      ensures channel.Valid()
      ensures channel.queue == Offered(old(channel.queue), channel.capacity, EventFor(cfg, OnDelete(obj)))
    {
      var resource := obj;
      if obj.Tombstone? {
        resource := obj.last;
      }
      if !IsOf(resource, cfg) {
        return;
      }
      SendDeleteEvent(resource.obj);
    }

    method SendEvent(t: EventType, o: KubeObject)
      requires channel.Valid() && !t.Deleted?
      modifies channel
      ensures channel.Valid()
      ensures channel.queue == Offered(old(channel.queue), channel.capacity, Some(MakeEvent(cfg, t, o)))
    {
      var namespace := "";
      if cfg.isNamespaced {
        namespace := o.namespace;
      }
      var _ := channel.Offer(ResourceEvent(t, cfg.resourceType, o.uid, o.name, namespace, Some(Info(cfg.toInfo, o))));
    }

    method SendDeleteEvent(o: KubeObject)
      requires channel.Valid()
      modifies channel
      ensures channel.Valid()
      ensures channel.queue == Offered(old(channel.queue), channel.capacity, Some(MakeEvent(cfg, Deleted, o)))
    {
      var namespace := "";
      if cfg.isNamespaced {
        namespace := o.namespace;
      }
      var _ := channel.Offer(ResourceEvent(Deleted, cfg.resourceType, o.uid, o.name, namespace, None));
    }
  }

  // The informer side.  A cache holds the latest object under each key; it changes
  // before the callback for the change runs.
  type Cache = map<Key, KubeObject>

  datatype Change = Put(kind: Kind, obj: KubeObject) | Remove(kind: Kind, obj: KubeObject, missed: bool)
  {
    function Target(): Key {
      KeyOf(kind, obj)
    }
  }

  function ApplyChange(cache: Cache, c: Change): Cache {
    match c
    case Put(_, obj) => cache[c.Target() := obj]
    case Remove(_, _, _) => cache - {c.Target()}
  }

  // Removing what the cache does not hold notifies nobody.
  function NotificationFor(cache: Cache, c: Change): Option<Notification> {
    var k := c.Target();
    match c
    case Put(kind, obj) =>
      Some(if k in cache then OnUpdate(Resource(kind, cache[k]), Resource(kind, obj)) else OnAdd(Resource(kind, obj)))
    case Remove(kind, obj, missed) =>
      if k !in cache then None
      else Some(OnDelete(if missed then Tombstone(Resource(kind, obj)) else Resource(kind, obj)))
  }

  function EventOf(cache: Cache, c: Change): Option<ResourceEvent> {
    match NotificationFor(cache, c)
    case None => None
    case Some(n) => EventFor(ConfigFor(c.kind), n)
  }

  // An event speaks about the key that changed and carries the object now cached.
  lemma EventDescribesChange(cache: Cache, c: Change)
    ensures var e := EventOf(cache, c);
      e.Some? ==>
        && e.value.Target() == c.Target()
        && (e.value.info ==
            if c.Put? then Some(Info(SnapshotConversion(c.kind), ApplyChange(cache, c)[c.Target()])) else None)
        && (e.value.eventType ==
            if c.Remove? then Deleted else if c.Target() in cache then Modified else Added)
  {
    TablesAgree();
  }

  // A change goes unannounced exactly when it removes nothing or when it replaces
  // an object by one with the same resource version.
  lemma SilentChanges(cache: Cache, c: Change)
    ensures EventOf(cache, c).None? <==>
      if c.Remove? then c.Target() !in cache
      else c.Target() in cache && cache[c.Target()].resourceVersion == c.obj.resourceVersion
  {
    TablesAgree();
  }
}
