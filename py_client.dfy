/**
 * The cluster client of the live Python copy and its metric dispatch. Each
 * API list call is an input that either returns the listed objects or
 * raises. A query catches `ApiException` and answers a fixed fallback. Any
 * other exception (an attribute of a missing object, a number `float`
 * refuses) escapes the query and is swallowed by the dispatch, which then
 * yields no sample.
 */
module PyClient {
  import opened Types
  import opened Text
  import opened Cluster
  import opened SoundMap
  import Mapper
  import PyMapper
  import KubeClient
  import K8sMetrics

  /** `float(s)` on the accepted decimal forms, `ValueError` otherwise. */
  function PyFloat(s: string): PyOutcome<real>
  {
    match ParseDecimal(s)
    case None => Raised(ValueError)
    case Some(x) => Returned(x)
  }

  /** The CPU quantity in cores: exactly one trailing `m` is cut off before
      `float`, and the number is then divided by 1000. */
  function PyParseCpu(quantity: string): PyOutcome<real>
  {
    if EndsWith(quantity, "m") then
      match PyFloat(quantity[..|quantity| - 1])
      case Raised(e) => Raised(e)
      case Returned(x) => Returned(x / 1000.0)
    else PyFloat(quantity)
  }

  /** The memory quantity in mebibytes: `Mi` and `Gi` are cut off once,
      `Gi` scales by 1024, any other unit counts nothing. */
  function PyParseMemory(quantity: string): PyOutcome<real>
  {
    if EndsWith(quantity, "Mi") then PyFloat(quantity[..|quantity| - 2])
    else if EndsWith(quantity, "Gi") then
      match PyFloat(quantity[..|quantity| - 2])
      case Raised(e) => Raised(e)
      case Returned(x) => Returned(x * 1024.0)
    else Returned(0.0)
  }

  /** Plain cores read as in the Rust copy. */
  lemma PyParseCpuCores(n: nat)
    ensures PyParseCpu(NatToString(n)) == Returned(KubeClient.ParseCpu(NatToString(n)))
  {
    var d := NatToString(n);
    KubeClient.ParseCpuCores(n);
    ParseDecimalOfNat(n);
    assert !EndsWith(d, "m") by { assert IsDigit(d[|d| - 1]); assert d[|d| - 1..] == [d[|d| - 1]]; }
  }

  /** Millicores read as in the Rust copy. */
  lemma PyParseCpuMillicores(n: nat)
    ensures PyParseCpu(NatToString(n) + "m") == Returned(KubeClient.ParseCpu(NatToString(n) + "m"))
  {
    var d := NatToString(n);
    KubeClient.ParseCpuMillicores(n);
    ParseDecimalOfNat(n);
    var s1 := d + "m";
    assert EndsWith(s1, "m") by { assert s1[|s1| - 1..] == "m"; }
    assert s1[..|s1| - 1] == d;
  }

  /** A doubled `m` makes `float` raise, where the Rust copy trims every `m`
      and reads millicores. */
  lemma PyParseCpuDoubledUnit(n: nat)
    ensures PyParseCpu(NatToString(n) + "mm") == Raised(ValueError)
    ensures KubeClient.ParseCpu(NatToString(n) + "mm") == n as real / 1000.0
  {
    var d := NatToString(n);
    KubeClient.ParseCpuMillicores(n);
    var s2 := d + "mm";
    assert EndsWith(s2, "m") by { assert s2[|s2| - 1..] == "m"; }
    assert s2[..|s2| - 1] == d + "m";
    ParseDecimalOfNatSuffix(n);
  }

  /** A number followed by a letter is not a number. */
  lemma ParseDecimalOfNatSuffix(n: nat)
    ensures ParseDecimal(NatToString(n) + "m") == None
  {
    var d := NatToString(n);
    var s := d + "m";
    assert forall i :: 0 <= i < |s| ==> s[i] != '.' by {
      forall i | 0 <= i < |s| ensures s[i] != '.' {
        if i < |d| { assert IsDigit(d[i]); } else { assert s[i] == 'm'; }
      }
    }
    assert s[0] != '-' && s[0] != '+' by { assert IsDigit(d[0]); }
    assert !IsDigit(s[|s| - 1]);
    assert s[..|s|] == s;
  }

  /** The running sums of the usage loop. */
  datatype Totals = Totals(cpu: real, memory: real, count: nat)

  /** One container: a container whose requests are missing or empty is
      skipped; otherwise its CPU and memory requests (`"0"` when absent) are
      parsed and added, and it is counted. */
  function AddContainer(t: Totals, c: Container): PyOutcome<Totals>
  {
    if c.resources.Some? && c.resources.value.requests.Some? && c.resources.value.requests.value != map[] then
      var requests := c.resources.value.requests.value;
      var cpu := if "cpu" in requests then requests["cpu"] else "0";
      var memory := if "memory" in requests then requests["memory"] else "0";
      match PyParseCpu(cpu)
      case Raised(e) => Raised(e)
      case Returned(x) =>
        match PyParseMemory(memory)
        case Raised(e) => Raised(e)
        case Returned(y) => Returned(Totals(t.cpu + x, t.memory + y, t.count + 1))
    else Returned(t)
  }

  /** The containers of one pod in order; the first raise ends the scan. */
  function AddContainers(t: Totals, cs: seq<Container>): PyOutcome<Totals>
  {
    if cs == [] then Returned(t)
    else
      match AddContainers(t, cs[..|cs| - 1])
      case Raised(e) => Raised(e)
      case Returned(u) => AddContainer(u, cs[|cs| - 1])
  }

  /** All pods in order; a pod without a spec raises. */
  function AddPods(pods: seq<Pod>): PyOutcome<Totals>
  {
    if pods == [] then Returned(Totals(0.0, 0.0, 0))
    else
      match AddPods(pods[..|pods| - 1])
      case Raised(e) => Raised(e)
      case Returned(t) =>
        var pod := pods[|pods| - 1];
        if pod.spec.None? then Raised(OtherException) else AddContainers(t, pod.spec.value.containers)
  }

  /** The usage estimate: 0/0 for no pods; otherwise the means over the
      counted containers, the count taken as at least 1, scaled as in the
      Rust copy and capped at 100. */
  function PyUsageEstimate(pods: seq<Pod>): PyOutcome<KubeClient.Usage>
  {
    if pods == [] then Returned(KubeClient.Usage(0.0, 0.0))
    else
      match AddPods(pods)
      case Raised(e) => Raised(e)
      case Returned(t) =>
        var n := if t.count > 1 then t.count else 1;
        Returned(KubeClient.Usage(Mapper.Min(t.cpu / n as real * 20.0, 100.0),
                                  Mapper.Min(t.memory / n as real / 10.0, 100.0)))
  }

  /** What `get_resource_usage` returns or raises: 30/40 when the list call
      raises `ApiException`. */
  function UsageOutcome(listing: PyOutcome<seq<Pod>>): PyOutcome<KubeClient.Usage>
  {
    match listing
    case Raised(ApiException(_)) => Returned(KubeClient.Usage(30.0, 40.0))
    case Raised(e) => Raised(e)
    case Returned(pods) => PyUsageEstimate(pods)
  }

  /** Every usage the query returns is capped at 100. */
  lemma UsageOutcomeCapped(listing: PyOutcome<seq<Pod>>)
    ensures UsageOutcome(listing).Returned? ==>
      UsageOutcome(listing).value.cpu <= 100.0 && UsageOutcome(listing).value.memory <= 100.0
  {
  }

  /** A pod whose only container has no requests reads 0/0 here but 30/40 in
      the Rust copy, which does not take the count as at least 1. */
  lemma UsageWithoutRequests(state: Option<PodState>)
    ensures var pods := [Pod(state, Some(PodSpec([Container(None)])))];
      && PyUsageEstimate(pods) == Returned(KubeClient.Usage(0.0, 0.0))
      && KubeClient.UsageEstimate(pods) == KubeClient.Usage(30.0, 40.0)
  {
    var cs := [Container(None)];
    var pods := [Pod(state, Some(PodSpec(cs)))];
    assert cs[..0] == [] && pods[..0] == [];
    assert AddContainers(Totals(0.0, 0.0, 0), cs) == Returned(Totals(0.0, 0.0, 0));
    assert AddPods(pods) == Returned(Totals(0.0, 0.0, 0));
    assert KubeClient.ContainerRequests(cs) == [];
    assert KubeClient.Requests(pods) == [];
  }

  /** An empty requests map is skipped here but counted by the Rust copy. */
  lemma EmptyRequestsSkipped(t: Totals)
    ensures AddContainer(t, Container(Some(Resources(Some(map[]))))) == Returned(t)
    ensures KubeClient.RequestsOf(Container(Some(Resources(Some(map[]))))) == [map[]]
  {
  }

  /** A raise in the containers seen so far is the outcome of the whole
      pod. */
  lemma {:induction false} ContainersRaisePropagates(t: Totals, cs: seq<Container>, k: nat, e: PyException)
    requires k <= |cs| && AddContainers(t, cs[..k]) == Raised(e)
    ensures AddContainers(t, cs) == Raised(e)
    decreases |cs|
  {
    if k == |cs| {
      assert cs[..k] == cs;
    } else {
      var front := cs[..|cs| - 1];
      assert front[..k] == cs[..k];
      ContainersRaisePropagates(t, front, k, e);
    }
  }

  /** A raise in the pods seen so far is the outcome of the whole list. */
  lemma {:induction false} PodsRaisePropagates(pods: seq<Pod>, k: nat, e: PyException)
    requires k <= |pods| && AddPods(pods[..k]) == Raised(e)
    ensures AddPods(pods) == Raised(e)
    decreases |pods|
  {
    if k == |pods| {
      assert pods[..k] == pods;
    } else {
      var front := pods[..|pods| - 1];
      assert front[..k] == pods[..k];
      PodsRaisePropagates(front, k, e);
    }
  }

  /** What `get_pods_status` returns or raises: the first pod's phase looked
      up in the registry's status map, 0 for a missing or unlisted phase; a
      first pod without a status raises. */
  function PodsStatus(listing: PyOutcome<seq<Pod>>): PyOutcome<Sample>
  {
    match listing
    case Raised(ApiException(message)) => Returned(Sample(0.0, map["status" := Text("Unknown"), "error" := Text(message)]))
    case Raised(e) => Raised(e)
    case Returned(pods) =>
      if pods == [] then Returned(Sample(0.0, map["status" := Text("Unknown"), "count" := Int(0)]))
      else if pods[0].status.None? then Raised(OtherException)
      else
        var phase := pods[0].status.value.phase;
        var index := if phase.Some? && phase.value in PodStatusMap then PodStatusMap[phase.value] else 0;
        Returned(Sample(index as real, map["status" := (if phase.Some? then Text(phase.value) else NoneValue),
                                          "count" := Int(|pods|)]))
  }

  /** What `get_deployment_replicas` returns or raises: the mean replica
      count, with its truncation and the deployment count alongside; 1 for
      no deployments or a failed list call. A deployment without a spec
      raises. */
  function Replicas(listing: PyOutcome<seq<Deployment>>): PyOutcome<Sample>
  {
    match listing
    case Raised(ApiException(message)) => Returned(Sample(1.0, map["replicas" := Int(1), "error" := Text(message)]))
    case Raised(e) => Raised(e)
    case Returned(ds) =>
      if ds == [] then Returned(Sample(1.0, map["replicas" := Int(1), "deployments" := Int(0)]))
      else if exists i :: 0 <= i < |ds| && ds[i].spec.None? then Raised(OtherException)
      else
        var avg := TotalReplicas(ds) as real / |ds| as real;
        Returned(Sample(avg, map["replicas" := Int(PyMapper.Trunc(avg)), "deployments" := Int(|ds|)]))
  }

  /** The node scan: nodes in order, a node without a status raising, the
      first node under pressure ending the scan. */
  function Scan(nodes: seq<Node>): PyOutcome<bool>
  {
    if nodes == [] then Returned(false)
    else if nodes[0].status.None? then Raised(OtherException)
    else if NodeUnderPressure(nodes[0]) then Returned(true)
    else Scan(nodes[1..])
  }

  /** A scan that completes reports exactly whether some node is under
      pressure, and it completes whenever every node has a status. */
  lemma {:induction false} ScanFindsPressure(nodes: seq<Node>)
    ensures Scan(nodes).Returned? ==> Scan(nodes).value == HasPressure(nodes)
    ensures (forall i :: 0 <= i < |nodes| ==> nodes[i].status.Some?) ==> Scan(nodes).Returned?
  {
    if nodes != [] && nodes[0].status.Some? && !NodeUnderPressure(nodes[0]) {
      var rest := nodes[1..];
      ScanFindsPressure(rest);
      assert forall i :: 0 <= i < |rest| ==> rest[i] == nodes[i + 1];
      if HasPressure(nodes) {
        var i :| 0 <= i < |nodes| && NodeUnderPressure(nodes[i]);
        assert NodeUnderPressure(rest[i - 1]);
      }
      if HasPressure(rest) {
        var i :| 0 <= i < |rest| && NodeUnderPressure(rest[i]);
        assert NodeUnderPressure(nodes[i + 1]);
      }
    } else if nodes != [] && nodes[0].status.Some? {
      assert NodeUnderPressure(nodes[0]);
    }
  }

  lemma ScanStep(nodes: seq<Node>, i: nat)
    requires i < |nodes|
    ensures Scan(nodes[i..]) ==
      if nodes[i].status.None? then Raised(OtherException)
      else if NodeUnderPressure(nodes[i]) then Returned(true)
      else Scan(nodes[i + 1..])
  {
    assert nodes[i..][1..] == nodes[i + 1..];
  }

  /** What `get_node_pressure` returns or raises. The pressure text is
      `str` of the flag, `"True"` or `"False"`. */
  function Pressure(listing: PyOutcome<seq<Node>>): PyOutcome<Sample>
  {
    match listing
    case Raised(ApiException(message)) => Returned(Sample(0.0, map["pressure" := Text("Unknown"), "error" := Text(message)]))
    case Raised(e) => Raised(e)
    case Returned(nodes) =>
      if nodes == [] then Returned(Sample(0.0, map["pressure" := Text("False"), "nodes" := Int(0)]))
      else
        match Scan(nodes)
        case Raised(e) => Raised(e)
        case Returned(b) =>
          Returned(Sample(if b then 1.0 else 0.0, map["pressure" := Text(if b then "True" else "False"), "nodes" := Int(|nodes|)]))
  }

  class PyK8sClient {
    /** Whether `initialize` last succeeded. */
    var initialized: bool

    /** `__init__`: no API handles yet. */
    constructor()
      ensures !initialized
    {
      initialized := false;
    }

    /** `initialize`: whether loading the configuration and the test call
        succeed is a parameter. Unlike the Rust copy, a failure clears the
        flag. */
    method Initialize(connection: bool) returns (ok: bool)
      modifies this
      ensures ok == connection && initialized == connection
    {
      initialized := connection;
      ok := connection;
    }

    /** `get_node_pressure`: the nested scan with its two early exits. */
    method GetNodePressure(listing: PyOutcome<seq<Node>>) returns (r: PyOutcome<Sample>)
      ensures r == Pressure(listing)
      ensures r.Returned? && listing.Returned? ==> (r.value.value == 1.0 <==> HasPressure(listing.value))
    {
      if listing.Raised? {
        match listing.exception
        case ApiException(message) =>
          return Returned(Sample(0.0, map["pressure" := Text("Unknown"), "error" := Text(message)]));
        case _ =>
          return Raised(listing.exception);
      }
      var nodes := listing.value;
      if nodes == [] {
        return Returned(Sample(0.0, map["pressure" := Text("False"), "nodes" := Int(0)]));
      }
      var hasPressure := false;
      var i := 0;
      while i < |nodes|
        invariant 0 <= i <= |nodes|
        invariant !hasPressure && Scan(nodes) == Scan(nodes[i..])
      {
        ScanStep(nodes, i);
        if nodes[i].status.None? {
          return Raised(OtherException);
        }
        if nodes[i].status.value.conditions.Some? {
          var conditions := nodes[i].status.value.conditions.value;
          var j := 0;
          while j < |conditions|
            invariant 0 <= j <= |conditions|
            invariant !hasPressure && forall k :: 0 <= k < j ==> !IsPressure(conditions[k])
          {
            if conditions[j].conditionType in PressureTypes && conditions[j].status == "True" {
              assert NodeUnderPressure(nodes[i]) by { assert Conditions(nodes[i])[j] == conditions[j]; }
              hasPressure := true;
              break;
            }
            j := j + 1;
          }
        }
        if hasPressure {
          break;
        }
        i := i + 1;
      }
      r := Returned(Sample(if hasPressure then 1.0 else 0.0,
                           map["pressure" := Text(if hasPressure then "True" else "False"), "nodes" := Int(|nodes|)]));
      ScanFindsPressure(nodes);
    }

    /** `get_resource_usage`: the nested loops over pods and containers. */
    method GetResourceUsage(listing: PyOutcome<seq<Pod>>) returns (r: PyOutcome<KubeClient.Usage>)
      ensures r == UsageOutcome(listing)
    {
      if listing.Raised? {
        match listing.exception
        case ApiException(_) =>
          return Returned(KubeClient.Usage(30.0, 40.0));
        case _ =>
          return Raised(listing.exception);
      }
      var pods := listing.value;
      if pods == [] {
        return Returned(KubeClient.Usage(0.0, 0.0));
      }
      var totals := Totals(0.0, 0.0, 0);
      var i := 0;
      while i < |pods|
        invariant 0 <= i <= |pods|
        invariant AddPods(pods[..i]) == Returned(totals)
      {
        assert pods[..i + 1][..i] == pods[..i];
        if pods[i].spec.None? {
          PodsRaisePropagates(pods, i + 1, OtherException);
          return Raised(OtherException);
        }
        var next := AddPodContainers(totals, pods[i].spec.value.containers);
        if next.Raised? {
          PodsRaisePropagates(pods, i + 1, next.exception);
          return Raised(next.exception);
        }
        totals := next.value;
        i := i + 1;
      }
      assert pods[..|pods|] == pods;
      var n := if totals.count > 1 then totals.count else 1;
      r := Returned(KubeClient.Usage(Mapper.Min(totals.cpu / n as real * 20.0, 100.0),
                                     Mapper.Min(totals.memory / n as real / 10.0, 100.0)));
    }
  }

  lemma AddContainersStep(start: Totals, cs: seq<Container>, j: nat, t: Totals)
    requires j < |cs| && AddContainers(start, cs[..j]) == Returned(t)
    ensures AddContainers(start, cs[..j + 1]) == AddContainer(t, cs[j])
  {
    assert cs[..j + 1][..j] == cs[..j];
  }

  /** The body of the inner loop of `get_resource_usage`: one container. */
  method AddOneContainer(totals: Totals, c: Container) returns (r: PyOutcome<Totals>)
    ensures r == AddContainer(totals, c)
  {
    if c.resources.Some? && c.resources.value.requests.Some? && c.resources.value.requests.value != map[] {
      var requests := c.resources.value.requests.value;
      var cpuRequest := if "cpu" in requests then requests["cpu"] else "0";
      var memoryRequest := if "memory" in requests then requests["memory"] else "0";
      var cpu := PyParseCpu(cpuRequest);
      if cpu.Raised? {
        return Raised(cpu.exception);
      }
      var memory := PyParseMemory(memoryRequest);
      if memory.Raised? {
        return Raised(memory.exception);
      }
      r := Returned(Totals(totals.cpu + cpu.value, totals.memory + memory.value, totals.count + 1));
    } else {
      r := Returned(totals);
    }
  }

  /** The inner loop of `get_resource_usage`, over one pod's containers. */
  method AddPodContainers(start: Totals, cs: seq<Container>) returns (r: PyOutcome<Totals>)
    ensures r == AddContainers(start, cs)
  {
    var totals := start;
    var j := 0;
    assert cs[..0] == [];
    while j < |cs|
      invariant 0 <= j <= |cs|
      invariant AddContainers(start, cs[..j]) == Returned(totals)
    {
      AddContainersStep(start, cs, j, totals);
      var next := AddOneContainer(totals, cs[j]);
      if next.Raised? {
        ContainersRaisePropagates(start, cs, j + 1, next.exception);
        return Raised(next.exception);
      }
      totals := next.value;
      j := j + 1;
    }
    assert cs[..|cs|] == cs;
    r := Returned(totals);
  }

  /** The outcomes of the API list calls. */
  datatype PyListings = PyListings(
    pods: PyOutcome<seq<Pod>>,
    deployments: PyOutcome<seq<Deployment>>,
    nodes: PyOutcome<seq<Node>>)

  /** What `get_k8s_data` returns: no sample when the client is not
      initialised, the name is unknown or a query raises. */
  function PyK8sData(metricName: string, initialized: bool, namespace: string, cluster: PyListings): Option<Sample>
  {
    if !initialized then None
    else
      match metricName
      case "cpu_usage" =>
        (match UsageOutcome(cluster.pods)
         case Raised(_) => None
         case Returned(u) => Some(Sample(u.cpu, map["namespace" := Text(namespace)])))
      case "memory_usage" =>
        (match UsageOutcome(cluster.pods)
         case Raised(_) => None
         case Returned(u) => Some(Sample(u.memory, map["namespace" := Text(namespace)])))
      case "pod_status" =>
        (match PodsStatus(cluster.pods)
         case Raised(_) => None
         case Returned(s) => Some(s))
      case "http_latency" =>
        (match PodsStatus(cluster.pods)
         case Raised(_) => None
         case Returned(s) => Some(Sample(50.0 + (3.0 - s.value) * 100.0, map["estimated" := Flag(true)])))
      case "errors_per_second" =>
        (match PodsStatus(cluster.pods)
         case Raised(_) => None
         case Returned(s) =>
           var healthy := "status" in s.extra && s.extra["status"] in {Text("Running"), Text("Succeeded")};
           Some(Sample(if healthy then 0.0 else 5.0, map["estimated" := Flag(true)])))
      case "replicas" =>
        (match Replicas(cluster.deployments)
         case Raised(_) => None
         case Returned(s) => Some(s))
      case "node_pressure" =>
        (match Pressure(cluster.nodes)
         case Raised(_) => None
         case Returned(s) => Some(s))
      case _ => None
  }

  /** `get_k8s_data`: the initialisation guard, then the dispatch, with any
      raise turned into no sample. */
  method GetK8sData(metricName: string, client: PyK8sClient, namespace: string, cluster: PyListings) returns (r: Option<Sample>)
    ensures r == PyK8sData(metricName, client.initialized, namespace, cluster)
  {
    if !client.initialized {
      return None;
    }
    if metricName == "cpu_usage" || metricName == "memory_usage" {
      var usage := client.GetResourceUsage(cluster.pods);
      if usage.Raised? {
        return None;
      }
      var reading := if metricName == "cpu_usage" then usage.value.cpu else usage.value.memory;
      r := Some(Sample(reading, map["namespace" := Text(namespace)]));
    } else if metricName == "pod_status" || metricName == "http_latency" || metricName == "errors_per_second" {
      var status := PodsStatus(cluster.pods);
      if status.Raised? {
        return None;
      }
      if metricName == "pod_status" {
        r := Some(status.value);
      } else if metricName == "http_latency" {
        r := Some(Sample(50.0 + (3.0 - status.value.value) * 100.0, map["estimated" := Flag(true)]));
      } else {
        var data := status.value.extra;
        var errors := if "status" in data && data["status"] in {Text("Running"), Text("Succeeded")} then 0.0 else 5.0;
        r := Some(Sample(errors, map["estimated" := Flag(true)]));
      }
    } else if metricName == "replicas" {
      var replicas := Replicas(cluster.deployments);
      r := if replicas.Raised? then None else Some(replicas.value);
    } else if metricName == "node_pressure" {
      var pressure := client.GetNodePressure(cluster.nodes);
      r := if pressure.Raised? then None else Some(pressure.value);
    } else {
      r := None;
    }
  }

  /** No sample without initialisation or for an unknown name. */
  lemma NoSampleWhenUninitialisedOrUnknown(metricName: string, initialized: bool, namespace: string, cluster: PyListings)
    requires !initialized || !K8sMetrics.Known(metricName)
    ensures PyK8sData(metricName, initialized, namespace, cluster) == None
  {
  }

  /** Where the Rust copy fails a query with the list call's error, this copy
      falls back: a pod status of 0 ("Unknown"), one replica, no pressure and
      a usage of 30/40. */
  lemma ApiFailureFallbacks(message: string, namespace: string)
    ensures var failed := PyListings(Raised(ApiException(message)), Raised(ApiException(message)), Raised(ApiException(message)));
      && PyK8sData("pod_status", true, namespace, failed).value.value == 0.0
      && PyK8sData("http_latency", true, namespace, failed).value.value == 350.0
      && PyK8sData("errors_per_second", true, namespace, failed).value.value == 5.0
      && PyK8sData("replicas", true, namespace, failed).value.value == 1.0
      && PyK8sData("node_pressure", true, namespace, failed).value.value == 0.0
      && PyK8sData("cpu_usage", true, namespace, failed).value.value == 30.0
      && PyK8sData("memory_usage", true, namespace, failed).value.value == 40.0
  {
  }

  /** On pods that all have a status, the pod status, latency and error
      estimates equal those of the Rust copy. */
  lemma PodMetricsAgreeWithRust(metricName: string, pods: seq<Pod>, namespace: string, cluster: PyListings, rust: K8sMetrics.Listings)
    requires metricName in {"pod_status", "http_latency", "errors_per_second"}
    requires cluster.pods == Returned(pods) && rust.pods == Ok(pods)
    requires forall i :: 0 <= i < |pods| ==> pods[i].status.Some?
    ensures PyK8sData(metricName, true, namespace, cluster).Some?
    ensures PyK8sData(metricName, true, namespace, cluster).value.value
      == K8sMetrics.K8sData(metricName, true, rust).value.value.value
  {
    if pods != [] {
      var phase := pods[0].status.value.phase;
      if phase.Some? {
        KubeClient.PhaseIndexMatchesRegistry(phase.value);
      }
      assert KubeClient.PodsStatusReading(pods).extra["status"] == Text(KubeClient.Phase(pods[0]));
    }
  }

  /** On deployments that all have a spec, the mean replica count equals the
      Rust copy's. */
  lemma ReplicasAgreeWithRust(ds: seq<Deployment>)
    requires forall i :: 0 <= i < |ds| ==> ds[i].spec.Some?
    ensures Replicas(Returned(ds)).Returned?
    ensures Replicas(Returned(ds)).value.value == KubeClient.ReplicasReading(ds).value
  {
  }

  /** On nodes that all have a status, the pressure level equals the Rust
      copy's; the text differs in case (`"True"` here, `"true"` there). */
  lemma PressureAgreesWithRust(nodes: seq<Node>)
    requires nodes != [] && HasPressure(nodes)
    requires forall i :: 0 <= i < |nodes| ==> nodes[i].status.Some?
    ensures Pressure(Returned(nodes)).Returned?
    ensures Pressure(Returned(nodes)).value.value == KubeClient.PressureReading(nodes).value == 1.0
    ensures Pressure(Returned(nodes)).value.extra["pressure"] == Text("True")
    ensures KubeClient.PressureReading(nodes).extra["pressure"] == Text("true")
  {
    ScanFindsPressure(nodes);
  }
}
