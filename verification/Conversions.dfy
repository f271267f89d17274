/**
  Two conversions that do more than copy fields: joining a pod's containers with
  their statuses, and listing the distinct resources of a role's rules.
 */
module Conversions {
  import opened Resources

  datatype ContainerState = NoState | RunningState | WaitingState | TerminatedState

  datatype ContainerStatus = ContainerStatus(
    name: string, ready: bool, restartCount: int, running: bool, waiting: bool, terminated: bool)

  // The zero value of a missing map entry.
  const NO_STATUS: ContainerStatus := ContainerStatus("", false, 0, false, false, false)

  datatype Container = Container(name: string, image: string)

  datatype ContainerInfo = ContainerInfo(
    name: string, image: string, ready: bool, restartCount: int, state: ContainerState)

  function NewContainerInfo(c: Container, status: ContainerStatus): ContainerInfo {
    ContainerInfo(c.name, c.image, status.ready, status.restartCount,
                  if status.running then RunningState
                  else if status.waiting then WaitingState
                  else if status.terminated then TerminatedState else NoState)
  }

  // What the platform is told of a container: its own name and image, and from its status
  // readiness, restarts and one state, of which running counts before waiting and waiting
  // before terminated.
  predicate Describes(info: ContainerInfo, c: Container, status: ContainerStatus) {
    && info.name == c.name && info.image == c.image
    && (info.ready <==> status.ready) && info.restartCount == status.restartCount
    && (info.state.RunningState? <==> status.running)
    && (info.state.WaitingState? <==> status.waiting && !status.running)
    && (info.state.TerminatedState? <==> status.terminated && !status.running && !status.waiting)
  }

  // The last status reported under a name.
  function LastStatus(statuses: seq<ContainerStatus>, name: string): ContainerStatus {
    if statuses == [] then NO_STATUS
    else if statuses[|statuses| - 1].name == name then statuses[|statuses| - 1]
    else LastStatus(statuses[..|statuses| - 1], name)
  }

  // The join through a map agrees with a scan for the last status of each container's
  // name, and keeps the containers' number and order.
  method JoinStatuses(containers: seq<Container>, statuses: seq<ContainerStatus>) returns (infos: seq<ContainerInfo>)
    ensures |infos| == |containers|
    ensures forall i | 0 <= i < |containers| ::
      infos[i] == NewContainerInfo(containers[i], LastStatus(statuses, containers[i].name))
    ensures forall i | 0 <= i < |containers| ::
      Describes(infos[i], containers[i], LastStatus(statuses, containers[i].name))
  {
    var byName: map<string, ContainerStatus> := map[];
    for i := 0 to |statuses|
      invariant forall name :: LastStatus(statuses[..i], name) == if name in byName then byName[name] else NO_STATUS
    {
      byName := byName[statuses[i].name := statuses[i]];
      assert statuses[..i + 1][..i] == statuses[..i];
    }
    assert statuses[..|statuses|] == statuses;
    infos := [];
    for i := 0 to |containers|
      invariant |infos| == i
      invariant forall j | 0 <= j < i ::
        infos[j] == NewContainerInfo(containers[j], LastStatus(statuses, containers[j].name))
    {
      var name := containers[i].name;
      infos := infos + [NewContainerInfo(containers[i], if name in byName then byName[name] else NO_STATUS)];
    }
  }

  // What LastStatus means, without its recursion: a status of that name that no later
  // one follows, or the zero value when there is none.
  lemma {:induction false} LastStatusIsLast(statuses: seq<ContainerStatus>, name: string)
    ensures (exists i ::
              && 0 <= i < |statuses| && statuses[i].name == name && LastStatus(statuses, name) == statuses[i]
              && forall j | i < j < |statuses| :: statuses[j].name != name)
      || (LastStatus(statuses, name) == NO_STATUS && forall i | 0 <= i < |statuses| :: statuses[i].name != name)
  {
    if statuses == [] {
    } else {
      var n := |statuses| - 1;
      if statuses[n].name == name {
        assert LastStatus(statuses, name) == statuses[n];
      } else {
        LastStatusIsLast(statuses[..n], name);
        if i :| 0 <= i < n && statuses[..n][i].name == name && LastStatus(statuses[..n], name) == statuses[..n][i]
                && forall j | i < j < n :: statuses[..n][j].name != name {
          assert statuses[i].name == name && LastStatus(statuses, name) == statuses[i];
          forall j | i < j < |statuses| ensures statuses[j].name != name {
            assert j < n ==> statuses[..n][j].name != name;
          }
        } else {
          forall i | 0 <= i < |statuses| ensures statuses[i].name != name {
            assert i < n ==> statuses[..n][i].name != name;
          }
        }
      }
    }
  }

  // A role's resources: every resource of every rule, each listed once, in no
  // particular order.
  method RoleResources(rules: seq<seq<string>>) returns (resources: seq<string>)
    ensures Distinct(resources)
    ensures forall r :: r in resources <==> exists i :: 0 <= i < |rules| && r in rules[i]
  {
    var found: set<string> := {};
    for i := 0 to |rules|
      invariant forall r :: r in found <==> exists k :: 0 <= k < i && r in rules[k]
    {
      var before := found;
      for j := 0 to |rules[i]|
        invariant forall r :: r in found <==> r in before || r in rules[i][..j]
      {
        found := found + {rules[i][j]};
        assert rules[i][..j + 1] == rules[i][..j] + [rules[i][j]];
      }
      assert rules[i][..|rules[i]|] == rules[i];
    }
    resources := [];
    var rest := found;
    while rest != {}
      invariant rest <= found && Distinct(resources)
      invariant forall r :: r in resources <==> r in found && r !in rest
    {
      var r :| r in rest;
      resources := resources + [r];
      rest := rest - {r};
    }
  }
}
