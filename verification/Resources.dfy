/**
  The vocabulary of the operator: the twenty watched kinds, the objects the
  informers deliver, the events the ingesters produce, and the two tables that
  say how an object of each kind is converted for the platform.

  Conversions are kept symbolic: an `Info` records which conversion was applied
  to which object.  Equalities proved about such terms hold under every
  interpretation of the conversions.
 */
module Resources {

  datatype Option<+T> = None | Some(value: T)

  datatype Kind =
    | Pod | Service | Namespace | Node | ConfigMap | Secret | PersistentVolumeClaim | ServiceAccount | Event
    | Deployment | StatefulSet | DaemonSet
    | Job | CronJob
    | Ingress | NetworkPolicy
    | Role | ClusterRole | RoleBinding | ClusterRoleBinding

  datatype Conversion =
    | NewPodInfo | NewServiceInfo | NewNamespaceInfo | NewNodeInfo | NewConfigMapInfo | NewSecretInfo
    | NewPVCInfo | NewServiceAccountInfo | NewEventInfo
    | NewDeploymentInfo | NewStatefulSetInfo | NewDaemonSetInfo
    | NewJobInfo | NewCronJobInfo
    | NewIngressInfo | NewNetworkPolicyInfo
    | NewRoleInfo | NewClusterRoleInfo | NewRoleBindingInfo | NewClusterRoleBindingInfo

  // `rest` stands for everything else a conversion may read.
  datatype KubeObject = KubeObject(uid: string, namespace: string, name: string, resourceVersion: string, rest: string)

  datatype Info = Info(via: Conversion, of: KubeObject)

  // What identifies a resource at the receiver.  The UID is not part of it: an
  // update may replace the object under an unchanged name.
  datatype Key = Key(kind: Kind, namespace: string, name: string)

  datatype EventType = Added | Modified | Deleted

  datatype ResourceEvent = ResourceEvent(
    eventType: EventType, kind: Kind, uid: string, name: string, namespace: string, info: Option<Info>)
  {
    function Target(): Key {
      Key(kind, namespace, name)
    }
  }

  datatype ResourceConfig = ResourceConfig(resourceType: Kind, toInfo: Conversion, isNamespaced: bool)

  // The per-kind configuration used to produce events.
  function ConfigFor(k: Kind): ResourceConfig {
    match k
    case Pod => ResourceConfig(Pod, NewPodInfo, true)
    case Service => ResourceConfig(Service, NewServiceInfo, true)
    case Namespace => ResourceConfig(Namespace, NewNamespaceInfo, false)
    case Node => ResourceConfig(Node, NewNodeInfo, false)
    case ConfigMap => ResourceConfig(ConfigMap, NewConfigMapInfo, true)
    case Secret => ResourceConfig(Secret, NewSecretInfo, true)
    case PersistentVolumeClaim => ResourceConfig(PersistentVolumeClaim, NewPVCInfo, true)
    case ServiceAccount => ResourceConfig(ServiceAccount, NewServiceAccountInfo, true)
    case Event => ResourceConfig(Event, NewEventInfo, true)
    case Deployment => ResourceConfig(Deployment, NewDeploymentInfo, true)
    case StatefulSet => ResourceConfig(StatefulSet, NewStatefulSetInfo, true)
    case DaemonSet => ResourceConfig(DaemonSet, NewDaemonSetInfo, true)
    case Job => ResourceConfig(Job, NewJobInfo, true)
    case CronJob => ResourceConfig(CronJob, NewCronJobInfo, true)
    case Ingress => ResourceConfig(Ingress, NewIngressInfo, true)
    case NetworkPolicy => ResourceConfig(NetworkPolicy, NewNetworkPolicyInfo, true)
    case Role => ResourceConfig(Role, NewRoleInfo, true)
    case ClusterRole => ResourceConfig(ClusterRole, NewClusterRoleInfo, false)
    case RoleBinding => ResourceConfig(RoleBinding, NewRoleBindingInfo, true)
    case ClusterRoleBinding => ResourceConfig(ClusterRoleBinding, NewClusterRoleBindingInfo, false)
  }

  // The kinds in the order the ingester factory lists them, and in the order the
  // snapshot lists its sections.
  const INGESTERS: seq<Kind> := [
    Pod, Service, Namespace, Node, ConfigMap, Secret, PersistentVolumeClaim, ServiceAccount, Event,
    Deployment, StatefulSet, DaemonSet,
    Job, CronJob,
    Ingress, NetworkPolicy,
    Role, ClusterRole, RoleBinding, ClusterRoleBinding]

  const SNAPSHOT_SECTIONS: seq<Kind> := [
    Namespace, Pod, Service, Node, Deployment, StatefulSet, DaemonSet, Job, CronJob, Ingress,
    NetworkPolicy, ConfigMap, Secret, PersistentVolumeClaim, ServiceAccount,
    Role, ClusterRole, RoleBinding, ClusterRoleBinding, Event]

  // The conversion the snapshot applies to the objects of a section.
  function SnapshotConversion(k: Kind): Conversion {
    match k
    case Namespace => NewNamespaceInfo
    case Pod => NewPodInfo
    case Service => NewServiceInfo
    case Node => NewNodeInfo
    case Deployment => NewDeploymentInfo
    case StatefulSet => NewStatefulSetInfo
    case DaemonSet => NewDaemonSetInfo
    case Job => NewJobInfo
    case CronJob => NewCronJobInfo
    case Ingress => NewIngressInfo
    case NetworkPolicy => NewNetworkPolicyInfo
    case ConfigMap => NewConfigMapInfo
    case Secret => NewSecretInfo
    case PersistentVolumeClaim => NewPVCInfo
    case ServiceAccount => NewServiceAccountInfo
    case Role => NewRoleInfo
    case ClusterRole => NewClusterRoleInfo
    case RoleBinding => NewRoleBindingInfo
    case ClusterRoleBinding => NewClusterRoleBindingInfo
    case Event => NewEventInfo
  }

  ghost predicate Distinct<T>(s: seq<T>) {
    forall i, j | 0 <= i < j < |s| :: s[i] != s[j]
  }

  // The kind of object a conversion takes.
  function Takes(c: Conversion): Kind {
    match c
    case NewNamespaceInfo => Namespace
    case NewPodInfo => Pod
    case NewNodeInfo => Node
    case NewDeploymentInfo => Deployment
    case NewStatefulSetInfo => StatefulSet
    case NewDaemonSetInfo => DaemonSet
    case NewJobInfo => Job
    case NewCronJobInfo => CronJob
    case NewServiceInfo => Service
    case NewIngressInfo => Ingress
    case NewNetworkPolicyInfo => NetworkPolicy
    case NewConfigMapInfo => ConfigMap
    case NewSecretInfo => Secret
    case NewPVCInfo => PersistentVolumeClaim
    case NewServiceAccountInfo => ServiceAccount
    case NewRoleInfo => Role
    case NewClusterRoleInfo => ClusterRole
    case NewRoleBindingInfo => RoleBinding
    case NewClusterRoleBindingInfo => ClusterRoleBinding
    case NewEventInfo => Event
  }

  // Both listings name every kind exactly once; an event and a snapshot convert an
  // object of the same kind the same way, by the conversion for that kind; and exactly
  // four kinds are cluster-scoped.
  lemma TablesAgree()
    ensures Distinct(INGESTERS) && (forall k: Kind :: k in INGESTERS)
    ensures Distinct(SNAPSHOT_SECTIONS) && (forall k: Kind :: k in SNAPSHOT_SECTIONS)
    ensures forall k: Kind :: ConfigFor(k).resourceType == k && ConfigFor(k).toInfo == SnapshotConversion(k)
    ensures forall k: Kind :: Takes(ConfigFor(k).toInfo) == k
    ensures forall k: Kind :: ConfigFor(k).isNamespaced <==> k !in {Namespace, Node, ClusterRole, ClusterRoleBinding}
  {
    EachListedOnce();
    ConfigsAgree();
  }

  lemma EachListedOnce()
    ensures Distinct(INGESTERS) && (forall k: Kind :: k in INGESTERS)
    ensures Distinct(SNAPSHOT_SECTIONS) && (forall k: Kind :: k in SNAPSHOT_SECTIONS)
  {
    forall k: Kind
      ensures k in INGESTERS && k in SNAPSHOT_SECTIONS
    {
      AllKindsListed(k);
    }
  }

  lemma ConfigsAgree()
    ensures forall k: Kind :: ConfigFor(k).resourceType == k && ConfigFor(k).toInfo == SnapshotConversion(k)
    ensures forall k: Kind :: Takes(ConfigFor(k).toInfo) == k
    ensures forall k: Kind :: ConfigFor(k).isNamespaced <==> k !in {Namespace, Node, ClusterRole, ClusterRoleBinding}
  {
  }

  lemma AllKindsListed(k: Kind)
    ensures k in INGESTERS && k in SNAPSHOT_SECTIONS
  {
    var i := match k
      case Pod => 0 case Service => 1 case Namespace => 2 case Node => 3 case ConfigMap => 4
      case Secret => 5 case PersistentVolumeClaim => 6 case ServiceAccount => 7 case Event => 8
      case Deployment => 9 case StatefulSet => 10 case DaemonSet => 11 case Job => 12 case CronJob => 13
      case Ingress => 14 case NetworkPolicy => 15 case Role => 16 case ClusterRole => 17
      case RoleBinding => 18 case ClusterRoleBinding => 19;
    assert INGESTERS[i] == k;
    var j := match k
      case Namespace => 0 case Pod => 1 case Service => 2 case Node => 3 case Deployment => 4
      case StatefulSet => 5 case DaemonSet => 6 case Job => 7 case CronJob => 8 case Ingress => 9
      case NetworkPolicy => 10 case ConfigMap => 11 case Secret => 12 case PersistentVolumeClaim => 13
      case ServiceAccount => 14 case Role => 15 case ClusterRole => 16 case RoleBinding => 17
      case ClusterRoleBinding => 18 case Event => 19;
    assert SNAPSHOT_SECTIONS[j] == k;
  }

  // The namespace under which a resource is announced: empty for cluster-scoped kinds.
  function NamespaceOf(cfg: ResourceConfig, o: KubeObject): string {
    if cfg.isNamespaced then o.namespace else ""
  }

  function KeyOf(k: Kind, o: KubeObject): Key {
    Key(k, NamespaceOf(ConfigFor(k), o), o.name)
  }

  // Two objects are told apart by their kind, their name and, unless the kind is
  // cluster-scoped, their namespace.
  lemma KeysAgreeExactly(j: Kind, a: KubeObject, k: Kind, b: KubeObject)
    ensures KeyOf(j, a) == KeyOf(k, b) <==>
      && j == k && a.name == b.name
      && (k in {Namespace, Node, ClusterRole, ClusterRoleBinding} || a.namespace == b.namespace)
  {
    TablesAgree();
  }
}
