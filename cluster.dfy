/**
 * The parts of the cluster objects the client looks at: a pod's phase and the
 * resource requests of its containers, a deployment's replica count, and a
 * node's conditions. Every optional field of the API objects the code tests
 * for is an `Option` here.
 */
module Cluster {
  import opened Types

  datatype PodState = PodState(phase: Option<string>)
  datatype Resources = Resources(requests: Option<map<string, string>>)
  datatype Container = Container(resources: Option<Resources>)
  datatype PodSpec = PodSpec(containers: seq<Container>)
  datatype Pod = Pod(status: Option<PodState>, spec: Option<PodSpec>)

  datatype DeploymentSpec = DeploymentSpec(replicas: Option<int>)
  datatype Deployment = Deployment(spec: Option<DeploymentSpec>)

  datatype Condition = Condition(conditionType: string, status: string)
  datatype NodeStatus = NodeStatus(conditions: Option<seq<Condition>>)
  datatype Node = Node(status: Option<NodeStatus>)

  /** The four condition types that count as pressure. */
  const PressureTypes: seq<string> := ["MemoryPressure", "DiskPressure", "PIDPressure", "NetworkUnavailable"]

  /** A condition signals pressure when its type is one of the four and its
      status is the string `"True"`. */
  predicate IsPressure(c: Condition)
  {
    c.conditionType in PressureTypes && c.status == "True"
  }

  /** A node's conditions, none when its status or condition list is absent. */
  function Conditions(node: Node): seq<Condition>
  {
    if node.status.Some? && node.status.value.conditions.Some? then node.status.value.conditions.value else []
  }

  predicate NodeUnderPressure(node: Node)
  {
    exists j :: 0 <= j < |Conditions(node)| && IsPressure(Conditions(node)[j])
  }

  /** The cluster is under pressure when some node is. */
  predicate HasPressure(nodes: seq<Node>)
  {
    exists i :: 0 <= i < |nodes| && NodeUnderPressure(nodes[i])
  }

  /** The replica count of a deployment, a missing spec or count being 0. */
  function ReplicaCount(d: Deployment): int
  {
    if d.spec.Some? && d.spec.value.replicas.Some? then d.spec.value.replicas.value else 0
  }

  /** The sum of the replica counts, accumulated from the front. */
  function TotalReplicas(ds: seq<Deployment>): int
  {
    if ds == [] then 0 else TotalReplicas(ds[..|ds| - 1]) + ReplicaCount(ds[|ds| - 1])
  }

  /** When every count lies in `[lo, hi]`, the total lies between `|ds|`
      times each bound. */
  lemma {:induction false} TotalReplicasBounds(ds: seq<Deployment>, lo: int, hi: int)
    requires forall i :: 0 <= i < |ds| ==> lo <= ReplicaCount(ds[i]) <= hi
    ensures |ds| * lo <= TotalReplicas(ds) <= |ds| * hi
  {
    if ds != [] {
      var front := ds[..|ds| - 1];
      assert forall i :: 0 <= i < |front| ==> front[i] == ds[i];
      TotalReplicasBounds(front, lo, hi);
      assert |ds| * lo == |front| * lo + lo;
      assert |ds| * hi == |front| * hi + hi;
    }
  }

  /** The total does not depend on the order of the deployments' split: it
      adds up over a concatenation. */
  lemma {:induction false} TotalReplicasAppend(a: seq<Deployment>, b: seq<Deployment>)
    ensures TotalReplicas(a + b) == TotalReplicas(a) + TotalReplicas(b)
    decreases |b|
  {
    if b == [] {
      assert a + b == a;
    } else {
      var front := b[..|b| - 1];
      assert (a + b)[..|a + b| - 1] == a + front;
      assert (a + b)[|a + b| - 1] == b[|b| - 1];
      TotalReplicasAppend(a, front);
    }
  }
}
