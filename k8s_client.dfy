/**
 * The Rust cluster client. The connection itself is outside the model: a
 * client is either connected or not, and each query receives the outcome of
 * its API list call. What is modelled is what the client makes of the listed
 * objects: the first pod's phase as a status index, the mean replica count,
 * the node-pressure scan and the resource-request aggregation.
 */
module KubeClient {
  import opened Types
  import opened Text
  import opened Cluster
  import opened SoundMap
  import Mapper

  /** `unwrap_or(0.0)` */
  function OrZero(r: Option<real>): real
  {
    if r.Some? then r.value else 0.0
  }

  /** `parse_cpu`: a quantity ending in `m` is in thousandths of a core, with
      every trailing `m` trimmed; anything that does not parse counts 0. */
  function ParseCpu(quantity: string): real
  {
    if EndsWith(quantity, "m") then OrZero(ParseDecimal(TrimEnd(quantity, 'm'))) / 1000.0
    else OrZero(ParseDecimal(quantity))
  }

  /** `parse_memory`: mebibytes for `Mi`, 1024 times the number for `Gi`, 0 for
      any other unit or an unparsable number. */
  function ParseMemory(quantity: string): real
  {
    if EndsWith(quantity, "Mi") then OrZero(ParseDecimal(TrimEndSuffix(quantity, "Mi")))
    else if EndsWith(quantity, "Gi") then OrZero(ParseDecimal(TrimEndSuffix(quantity, "Gi"))) * 1024.0
    else 0.0
  }

  /** Millicores: `n` followed by any number of `m`s is `n / 1000` cores. */
  lemma ParseCpuMillicores(n: nat)
    ensures ParseCpu(NatToString(n) + "m") == n as real / 1000.0
    ensures ParseCpu(NatToString(n) + "mm") == n as real / 1000.0
  {
    var d := NatToString(n);
    assert d[|d| - 1] != 'm' by { assert IsDigit(d[|d| - 1]); }
    TrimEndOne(d, 'm');
    assert EndsWith(d + "m", "m") by { assert (d + "m")[|d|..] == "m"; }
    ParseDecimalOfNat(n);
    var s := d + "mm";
    assert s == (d + "m") + ['m'];
    assert s[..|s| - 1] == d + "m";
    assert EndsWith(s, "m") by { assert s[|s| - 1..] == "m"; }
  }

  /** Whole cores: a plain number is read as it stands. */
  lemma ParseCpuCores(n: nat)
    ensures ParseCpu(NatToString(n)) == n as real
  {
    var d := NatToString(n);
    assert !EndsWith(d, "m") by { assert IsDigit(d[|d| - 1]); assert d[|d| - 1..] == [d[|d| - 1]]; }
    ParseDecimalOfNat(n);
  }

  /** `Mi` is read as it stands, `Gi` is scaled by 1024, `Ki` counts 0. */
  lemma ParseMemoryUnits(n: nat)
    ensures ParseMemory(NatToString(n) + "Mi") == n as real
    ensures ParseMemory(NatToString(n) + "Gi") == n as real * 1024.0
    ensures ParseMemory(NatToString(n) + "Ki") == 0.0
  {
    var d := NatToString(n);
    ParseDecimalOfNat(n);
    assert !EndsWith(d, "Mi") && !EndsWith(d, "Gi") by {
      assert IsDigit(d[|d| - 1]);
      if |d| >= 2 { assert d[|d| - 2..][1] == d[|d| - 1]; }
    }
    assert ParseMemory(d + "Mi") == n as real by {
      TrimEndSuffixOne(d, "Mi");
      var mi := d + "Mi";
      assert mi[|mi| - 2..] == "Mi";
    }
    assert ParseMemory(d + "Gi") == n as real * 1024.0 by {
      TrimEndSuffixOne(d, "Gi");
      var gi := d + "Gi";
      assert gi[|gi| - 2..] == "Gi";
      assert !EndsWith(gi, "Mi");
    }
    assert ParseMemory(d + "Ki") == 0.0 by {
      var ki := d + "Ki";
      assert ki[|ki| - 2..] == "Ki";
      assert !EndsWith(ki, "Mi") && !EndsWith(ki, "Gi");
    }
  }

  /** A quantity that does not start like a number (a digit, a sign or a
      point) counts 0 in both parsers, whatever unit it ends with. */
  lemma ParseUnparsable(quantity: string)
    requires |quantity| > 0 && !IsDigit(quantity[0])
    requires quantity[0] != '+' && quantity[0] != '-' && quantity[0] != '.'
    ensures ParseCpu(quantity) == 0.0
    ensures ParseMemory(quantity) == 0.0
  {
    var t := if EndsWith(quantity, "m") then TrimEnd(quantity, 'm') else quantity;
    if |t| > 0 {
      assert t[0] == quantity[0];
      ParseDecimalRejectsLetter(t);
    }
    if EndsWith(quantity, "Mi") || EndsWith(quantity, "Gi") {
      var u := TrimEndSuffix(quantity, if EndsWith(quantity, "Mi") then "Mi" else "Gi");
      if |u| > 0 {
        assert u[0] == quantity[0];
        ParseDecimalRejectsLetter(u);
      }
    }
  }

  /** The status index of a pod phase (lines 74-80): running or succeeded
      pods rank highest, pending ones next, failed and unrecognised ones
      lowest. */
  function PhaseIndex(phase: string): real
  {
    match phase
    case "Running" => 3.0
    case "Succeeded" => 3.0
    case "Pending" => 1.0
    case "Failed" => 0.0
    case _ => 0.0
  }

  /** The hard-coded phase match is the registry's pod-status map, with 0 for
      a phase the map does not list. */
  lemma PhaseIndexMatchesRegistry(phase: string)
    ensures PhaseIndex(phase) == (if phase in PodStatusMap then PodStatusMap[phase] as real else 0.0)
    ensures PhaseIndex(phase) in {0.0, 1.0, 3.0}
  {
  }

  /** A pod's phase; a missing status or phase reads as `"Unknown"`. */
  function Phase(pod: Pod): string
  {
    if pod.status.Some? && pod.status.value.phase.Some? then pod.status.value.phase.value else "Unknown"
  }

  /** What `get_pods_status` makes of a pod list: the first pod stands for
      all of them. */
  function PodsStatusReading(pods: seq<Pod>): (s: Sample)
    ensures s.value in {0.0, 1.0, 3.0}
    ensures pods == [] ==> s == Sample(0.0, map["status" := Text("Unknown"), "count" := Text("0")])
    ensures pods != [] ==>
      && s.value == PhaseIndex(Phase(pods[0]))
      && s.extra == map["status" := Text(Phase(pods[0])), "count" := Text(NatToString(|pods|))]
  {
    if pods == [] then Sample(0.0, map["status" := Text("Unknown"), "count" := Text("0")])
    else
      var status := Phase(pods[0]);
      Sample(PhaseIndex(status), map["status" := Text(status), "count" := Text(NatToString(|pods|))])
  }

  /** What `get_deployment_replicas` makes of a deployment list: 1 for none,
      the mean replica count otherwise. */
  function ReplicasReading(ds: seq<Deployment>): (s: Sample)
    ensures ds == [] ==> s == Sample(1.0, map["replicas" := Text("1"), "deployments" := Text("0")])
    ensures ds != [] ==> s.value * |ds| as real == TotalReplicas(ds) as real
  {
    if ds == [] then Sample(1.0, map["replicas" := Text("1"), "deployments" := Text("0")])
    else
      var avg := TotalReplicas(ds) as real / |ds| as real;
      Mapper.DivMul(TotalReplicas(ds) as real, |ds| as real);
      Sample(avg, map["replicas" := Number(avg), "deployments" := Text(NatToString(|ds|))])
  }

  /** The mean lies within any bounds every deployment's count lies within. */
  lemma ReplicasReadingBounds(ds: seq<Deployment>, lo: int, hi: int)
    requires ds != []
    requires forall i :: 0 <= i < |ds| ==> lo <= ReplicaCount(ds[i]) <= hi
    ensures lo as real <= ReplicasReading(ds).value <= hi as real
  {
    TotalReplicasBounds(ds, lo, hi);
    MeanBounds(TotalReplicas(ds), |ds|, lo, hi);
    assert ReplicasReading(ds).value == TotalReplicas(ds) as real / |ds| as real;
  }

  lemma MeanBounds(total: int, k: nat, lo: int, hi: int)
    requires k > 0 && k * lo <= total <= k * hi
    ensures lo as real <= total as real / k as real <= hi as real
  {
    MulCast(k, lo);
    MulCast(k, hi);
    QuotientBounds(total as real, k as real, lo as real, hi as real);
  }

  lemma MulCast(a: int, b: int)
    ensures (a * b) as real == b as real * a as real
  {
  }

  lemma QuotientBounds(t: real, n: real, lo: real, hi: real)
    requires n > 0.0 && lo * n <= t <= hi * n
    ensures lo <= t / n <= hi
  {
    Mapper.DivMul(t, n);
    Mapper.CancelLe(lo, t / n, n);
    Mapper.CancelLe(t / n, hi, n);
  }

  /** What `get_node_pressure` makes of a node list: 1 when some node reports
      a pressure condition, 0 otherwise. The pressure text is `"False"` for an
      empty list but the lower-case rendering of the flag otherwise. */
  function PressureReading(nodes: seq<Node>): Sample
  {
    if nodes == [] then Sample(0.0, map["pressure" := Text("False"), "nodes" := Text("0")])
    else
      var pressed := HasPressure(nodes);
      Sample(if pressed then 1.0 else 0.0,
             map["pressure" := Text(if pressed then "true" else "false"), "nodes" := Text(NatToString(|nodes|))])
  }

  /** The level is 1 exactly when some node is under pressure, 0 otherwise,
      and never anything else. */
  lemma PressureReadingLevel(nodes: seq<Node>)
    ensures PressureReading(nodes).value == 1.0 <==> HasPressure(nodes)
    ensures PressureReading(nodes).value == 0.0 <==> !HasPressure(nodes)
  {
  }

  /** A calm cluster and an empty one both read 0, but their pressure texts
      differ in case. */
  lemma PressureTextCase(nodes: seq<Node>)
    requires nodes != [] && !HasPressure(nodes)
    ensures PressureReading(nodes).value == PressureReading([]).value
    ensures PressureReading(nodes).extra["pressure"] == Text("false")
    ensures PressureReading([]).extra["pressure"] == Text("False")
  {
  }

  /** The requests of one container, if it has any. */
  function RequestsOf(c: Container): seq<map<string, string>>
  {
    if c.resources.Some? && c.resources.value.requests.Some? then [c.resources.value.requests.value] else []
  }

  function ContainerRequests(cs: seq<Container>): seq<map<string, string>>
  {
    if cs == [] then [] else ContainerRequests(cs[..|cs| - 1]) + RequestsOf(cs[|cs| - 1])
  }

  function PodRequests(pod: Pod): seq<map<string, string>>
  {
    if pod.spec.Some? then ContainerRequests(pod.spec.value.containers) else []
  }

  /** Every request map of every container of every pod, in listing order. */
  function Requests(pods: seq<Pod>): seq<map<string, string>>
  {
    if pods == [] then [] else Requests(pods[..|pods| - 1]) + PodRequests(pods[|pods| - 1])
  }

  function CpuRequested(requests: map<string, string>): real
  {
    if "cpu" in requests then ParseCpu(requests["cpu"]) else 0.0
  }

  function MemoryRequested(requests: map<string, string>): real
  {
    if "memory" in requests then ParseMemory(requests["memory"]) else 0.0
  }

  function CpuTotal(rs: seq<map<string, string>>): real
  {
    if rs == [] then 0.0 else CpuTotal(rs[..|rs| - 1]) + CpuRequested(rs[|rs| - 1])
  }

  function MemoryTotal(rs: seq<map<string, string>>): real
  {
    if rs == [] then 0.0 else MemoryTotal(rs[..|rs| - 1]) + MemoryRequested(rs[|rs| - 1])
  }

  datatype Usage = Usage(cpu: real, memory: real)

  /** The usage estimate from a pod list: 0/0 for no pods, 30/40 for pods
      without any requests, and otherwise 20 times the mean CPU request and a
      tenth of the mean memory request over the containers with requests,
      each capped at 100. */
  function UsageEstimate(pods: seq<Pod>): (u: Usage)
    ensures u.cpu <= 100.0 && u.memory <= 100.0
    ensures pods == [] ==> u == Usage(0.0, 0.0)
    ensures pods != [] && Requests(pods) == [] ==> u == Usage(30.0, 40.0)
  {
    if pods == [] then Usage(0.0, 0.0)
    else
      var rs := Requests(pods);
      var count := |rs|;
      var cpu := if count > 0 then Mapper.Min(CpuTotal(rs) / count as real * 20.0, 100.0) else 30.0;
      var memory := if count > 0 then Mapper.Min(MemoryTotal(rs) / count as real / 10.0, 100.0) else 40.0;
      Usage(cpu, memory)
  }

  /** The count divides by containers with requests, not by pods: one pod
      whose two containers request `a` and `b` cores averages `(a + b) / 2`. */
  lemma UsageCountsContainers(state: Option<PodState>, a: map<string, string>, b: map<string, string>)
    ensures var pod := Pod(state, Some(PodSpec([Container(Some(Resources(Some(a)))), Container(Some(Resources(Some(b))))])));
      UsageEstimate([pod]).cpu == Mapper.Min((CpuRequested(a) + CpuRequested(b)) / 2.0 * 20.0, 100.0)
  {
    var pods := [Pod(state, Some(PodSpec([Container(Some(Resources(Some(a)))), Container(Some(Resources(Some(b))))])))];
    TwoContainerRequests(state, a, b);
    CpuTotalOfTwo(a, b);
    UsageEstimateOfTwo(pods);
  }

  lemma TwoContainerRequests(state: Option<PodState>, a: map<string, string>, b: map<string, string>)
    ensures Requests([Pod(state, Some(PodSpec([Container(Some(Resources(Some(a)))), Container(Some(Resources(Some(b))))])))]) == [a, b]
  {
    var cs := [Container(Some(Resources(Some(a)))), Container(Some(Resources(Some(b))))];
    var pods := [Pod(state, Some(PodSpec(cs)))];
    assert cs[..1] == [cs[0]] && cs[..1][..0] == [];
    assert ContainerRequests(cs[..1]) == [a];
    assert ContainerRequests(cs) == [a] + [b];
    assert pods[..0] == [];
  }

  lemma CpuTotalOfTwo(a: map<string, string>, b: map<string, string>)
    ensures CpuTotal([a, b]) == CpuRequested(a) + CpuRequested(b)
  {
    CpuTotalSnoc([], a);
    assert [] + [a] == [a];
    CpuTotalSnoc([a], b);
    assert [a] + [b] == [a, b];
  }

  lemma UsageEstimateOfTwo(pods: seq<Pod>)
    requires pods != [] && |Requests(pods)| == 2
    ensures UsageEstimate(pods).cpu == Mapper.Min(CpuTotal(Requests(pods)) / 2.0 * 20.0, 100.0)
  {
    assert |Requests(pods)| as real == 2.0;
  }

  /** The outcome of a query: the guard, then the list call. */
  function Listed<T>(connected: bool, listing: Result<T>): (r: Result<T>)
    ensures !connected ==> r == Err(ClientNotInitialized)
    ensures connected ==> r == listing
  {
    if !connected then Err(ClientNotInitialized) else listing
  }

  /** What `get_node_pressure` returns. */
  function PressureOutcome(connected: bool, listing: Result<seq<Node>>): Result<Sample>
  {
    match Listed(connected, listing)
    case Err(e) => Err(e)
    case Ok(nodes) => Ok(PressureReading(nodes))
  }

  /** What `get_resource_usage` returns. */
  function UsageOutcome(connected: bool, listing: Result<seq<Pod>>): Result<Usage>
  {
    match Listed(connected, listing)
    case Err(e) => Err(e)
    case Ok(pods) => Ok(UsageEstimate(pods))
  }

  lemma CpuTotalSnoc(rs: seq<map<string, string>>, r: map<string, string>)
    ensures CpuTotal(rs + [r]) == CpuTotal(rs) + CpuRequested(r)
    ensures MemoryTotal(rs + [r]) == MemoryTotal(rs) + MemoryRequested(r)
  {
    assert (rs + [r])[..|rs|] == rs;
  }

  lemma RequestsSnoc(pods: seq<Pod>, i: nat)
    requires i < |pods|
    ensures Requests(pods[..i + 1]) == Requests(pods[..i]) + PodRequests(pods[i])
  {
    assert pods[..i + 1][..i] == pods[..i];
  }

  /** One container's requests added to the running totals: a missing `cpu`
      or `memory` entry adds nothing. */
  method AddRequests(requests: map<string, string>, cpu0: real, memory0: real) returns (cpu: real, memory: real)
    ensures cpu == cpu0 + CpuRequested(requests)
    ensures memory == memory0 + MemoryRequested(requests)
  {
    cpu, memory := cpu0, memory0;
    if "cpu" in requests {
      cpu := cpu + ParseCpu(requests["cpu"]);
    }
    if "memory" in requests {
      memory := memory + ParseMemory(requests["memory"]);
    }
  }

  /** One container added to the running totals: counted, and its requests
      added, only when it has requests. */
  method AddContainer(container: Container, ghost done: seq<map<string, string>>,
                      cpu0: real, memory0: real, count0: nat)
    returns (cpu: real, memory: real, count: nat)
    requires cpu0 == CpuTotal(done) && memory0 == MemoryTotal(done) && count0 == |done|
    ensures cpu == CpuTotal(done + RequestsOf(container))
    ensures memory == MemoryTotal(done + RequestsOf(container))
    ensures count == |done + RequestsOf(container)|
  {
    if container.resources.Some? && container.resources.value.requests.Some? {
      var requests := container.resources.value.requests.value;
      cpu, memory := AddRequests(requests, cpu0, memory0);
      count := count0 + 1;
      assert done + RequestsOf(container) == done + [requests];
      CpuTotalSnoc(done, requests);
    } else {
      cpu, memory, count := cpu0, memory0, count0;
      assert done + RequestsOf(container) == done;
    }
  }

  /** The inner loop of `get_resource_usage`: adds one pod's containers to
      the running totals, counting each container that has requests. */
  method AddContainers(containers: seq<Container>, ghost before: seq<map<string, string>>,
                       cpu0: real, memory0: real, count0: nat)
    returns (cpu: real, memory: real, count: nat)
    requires cpu0 == CpuTotal(before) && memory0 == MemoryTotal(before) && count0 == |before|
    ensures cpu == CpuTotal(before + ContainerRequests(containers))
    ensures memory == MemoryTotal(before + ContainerRequests(containers))
    ensures count == |before + ContainerRequests(containers)|
  {
    cpu, memory, count := cpu0, memory0, count0;
    var j := 0;
    ghost var done := before;
    assert before + ContainerRequests(containers[..0]) == before;
    while j < |containers|
      invariant 0 <= j <= |containers|
      invariant done == before + ContainerRequests(containers[..j])
      invariant count == |done| && cpu == CpuTotal(done) && memory == MemoryTotal(done)
    {
      ghost var next := done + RequestsOf(containers[j]);
      assert next == before + ContainerRequests(containers[..j + 1]) by {
        assert containers[..j + 1][..j] == containers[..j];
      }
      cpu, memory, count := AddContainer(containers[j], done, cpu, memory, count);
      done := next;
      j := j + 1;
    }
    assert containers[..|containers|] == containers;
  }

  /** The outer loop of `get_resource_usage`: the request totals and the
      number of containers with requests, over every pod. */
  method SumRequests(pods: seq<Pod>) returns (totalCpu: real, totalMemory: real, count: nat)
    ensures totalCpu == CpuTotal(Requests(pods))
    ensures totalMemory == MemoryTotal(Requests(pods))
    ensures count == |Requests(pods)|
  {
    totalCpu, totalMemory, count := 0.0, 0.0, 0;
    var i := 0;
    while i < |pods|
      invariant 0 <= i <= |pods|
      invariant count == |Requests(pods[..i])|
      invariant totalCpu == CpuTotal(Requests(pods[..i]))
      invariant totalMemory == MemoryTotal(Requests(pods[..i]))
    {
      if pods[i].spec.Some? {
        var containers := pods[i].spec.value.containers;
        totalCpu, totalMemory, count := AddContainers(containers, Requests(pods[..i]), totalCpu, totalMemory, count);
        assert Requests(pods[..i + 1]) == Requests(pods[..i]) + ContainerRequests(containers) by {
          RequestsSnoc(pods, i);
        }
      } else {
        assert Requests(pods[..i + 1]) == Requests(pods[..i]) by {
          RequestsSnoc(pods, i);
          assert Requests(pods[..i]) + [] == Requests(pods[..i]);
        }
      }
      i := i + 1;
    }
    assert pods[..|pods|] == pods;
  }

  class K8sClient {
    /** Whether a client handle is held (`client.is_some()`). */
    var connected: bool
    const namespace: string

    /** `new`: a client for a namespace, not yet connected. */
    constructor(namespace: string)
      ensures !connected && this.namespace == namespace
    {
      this.namespace := namespace;
      connected := false;
    }

    /** `initialize`: the outcome of loading the configuration and testing the
        connection is a parameter. Success stores the handle; failure leaves
        the client as it was. */
    method Initialize(connection: Result<()>) returns (r: Result<()>)
      modifies this
      ensures r == connection
      ensures connected == (old(connected) || connection.Ok?)
    {
      if connection.Ok? {
        connected := true;
      }
      r := connection;
    }

    /** `client()`: the handle, or `ClientNotInitialized`. */
    function Guard(): (r: Result<()>)
      reads this
      ensures r.Ok? <==> connected
      ensures r.Err? ==> r.error == ClientNotInitialized
    {
      if connected then Ok(()) else Err(ClientNotInitialized)
    }

    /** `get_pods_status` */
    function GetPodsStatus(listing: Result<seq<Pod>>): (r: Result<Sample>)
      reads this
      ensures !connected ==> r == Err(ClientNotInitialized)
      ensures connected && listing.Err? ==> r == Err(listing.error)
      ensures connected && listing.Ok? ==> r == Ok(PodsStatusReading(listing.value))
    {
      match Guard()
      case Err(e) => Err(e)
      case Ok(_) =>
        match listing
        case Err(e) => Err(e)
        case Ok(pods) => Ok(PodsStatusReading(pods))
    }

    /** `get_deployment_replicas` */
    function GetDeploymentReplicas(listing: Result<seq<Deployment>>): (r: Result<Sample>)
      reads this
      ensures !connected ==> r == Err(ClientNotInitialized)
      ensures connected && listing.Err? ==> r == Err(listing.error)
      ensures connected && listing.Ok? ==> r == Ok(ReplicasReading(listing.value))
    {
      match Guard()
      case Err(e) => Err(e)
      case Ok(_) =>
        match listing
        case Err(e) => Err(e)
        case Ok(ds) => Ok(ReplicasReading(ds))
    }

    /** `get_node_pressure`: a flag set by a scan over the nodes' conditions
        that stops at the first pressure condition. */
    method GetNodePressure(listing: Result<seq<Node>>) returns (r: Result<Sample>)
      ensures r == PressureOutcome(connected, listing)
      ensures r.Ok? ==> (r.value.value == 1.0 <==> HasPressure(listing.value))
    {
      if !connected {
        return Err(ClientNotInitialized);
      }
      if listing.Err? {
        return Err(listing.error);
      }
      var nodes := listing.value;
      if nodes == [] {
        return Ok(Sample(0.0, map["pressure" := Text("False"), "nodes" := Text("0")]));
      }
      var hasPressure := false;
      var i := 0;
      while i < |nodes|
        invariant 0 <= i <= |nodes|
        invariant hasPressure ==> HasPressure(nodes)
        invariant !hasPressure ==> forall k :: 0 <= k < i ==> !NodeUnderPressure(nodes[k])
      {
        if nodes[i].status.Some? && nodes[i].status.value.conditions.Some? {
          var conditions := nodes[i].status.value.conditions.value;
          var j := 0;
          while j < |conditions|
            invariant 0 <= j <= |conditions|
            invariant hasPressure ==> HasPressure(nodes)
            invariant !hasPressure ==> forall k :: 0 <= k < j ==> !IsPressure(conditions[k])
          {
            if conditions[j].conditionType in PressureTypes && conditions[j].status == "True" {
              assert NodeUnderPressure(nodes[i]) by { assert Conditions(nodes[i])[j] == conditions[j]; }
              hasPressure := true;
              break;
            }
            j := j + 1;
          }
        }
        if hasPressure {
          break;
        }
        i := i + 1;
      }
      var level := if hasPressure then 1.0 else 0.0;
      r := Ok(Sample(level, map["pressure" := Text(if hasPressure then "true" else "false"),
                                "nodes" := Text(NatToString(|nodes|))]));
      PressureReadingLevel(nodes);
    }

    /** `get_resource_usage`: sums the parsed CPU and memory requests and counts
        the containers that have requests, over every container of every pod. */
    method GetResourceUsage(listing: Result<seq<Pod>>) returns (r: Result<Usage>)
      ensures r == UsageOutcome(connected, listing)
      ensures r.Ok? ==> r.value.cpu <= 100.0 && r.value.memory <= 100.0
    {
      if !connected {
        return Err(ClientNotInitialized);
      }
      if listing.Err? {
        return Err(listing.error);
      }
      var pods := listing.value;
      if pods == [] {
        return Ok(Usage(0.0, 0.0));
      }
      var totalCpu, totalMemory, count := SumRequests(pods);
      var cpu := if count > 0 then Mapper.Min(totalCpu / count as real * 20.0, 100.0) else 30.0;
      var memory := if count > 0 then Mapper.Min(totalMemory / count as real / 10.0, 100.0) else 40.0;
      r := Ok(Usage(cpu, memory));
    }
  }
}
