/**
 * The Rust metric dispatch: which client query answers each metric name and
 * how its answer becomes a sample. Latency and error rate are not measured
 * but estimated from the pod status; an unknown name is not an error but no
 * sample. The three API list calls are inputs (one snapshot of the cluster).
 */
module K8sMetrics {
  import opened Types
  import opened Cluster
  import opened SoundMap
  import opened KubeClient

  /** The outcomes of the API list calls the client would make. */
  datatype Listings = Listings(
    pods: Result<seq<Pod>>,
    deployments: Result<seq<Deployment>>,
    nodes: Result<seq<Node>>)

  /** The metric names the dispatch knows. */
  predicate Known(metricName: string)
  {
    metricName in MetricOrder
  }

  /** The latency estimate from a status index. */
  function Latency(statusIndex: real): real
  {
    50.0 + (3.0 - statusIndex) * 100.0
  }

  /** The error-rate estimate from the status text, a missing one being
      `"Unknown"`. */
  function Errors(extra: Extra): real
  {
    var status := if "status" in extra then extra["status"] else Text("Unknown");
    if status == Text("Running") || status == Text("Succeeded") then 0.0 else 5.0
  }

  /** What `get_k8s_data` produces for a metric name, given whether the client
      is connected and the outcomes of its list calls. Each client error
      propagates unchanged. */
  function K8sData(metricName: string, connected: bool, cluster: Listings): Result<Option<Sample>>
  {
    match metricName
    case "cpu_usage" =>
      (match UsageOutcome(connected, cluster.pods)
       case Err(e) => Err(e)
       case Ok(u) => Ok(Some(Sample(u.cpu, map["type" := Text("cpu")]))))
    case "memory_usage" =>
      (match UsageOutcome(connected, cluster.pods)
       case Err(e) => Err(e)
       case Ok(u) => Ok(Some(Sample(u.memory, map["type" := Text("memory")]))))
    case "pod_status" =>
      (match Listed(connected, cluster.pods)
       case Err(e) => Err(e)
       case Ok(pods) => Ok(Some(PodsStatusReading(pods))))
    case "http_latency" =>
      (match Listed(connected, cluster.pods)
       case Err(e) => Err(e)
       case Ok(pods) => Ok(Some(Sample(Latency(PodsStatusReading(pods).value), map["estimated" := Text("true")]))))
    case "errors_per_second" =>
      (match Listed(connected, cluster.pods)
       case Err(e) => Err(e)
       case Ok(pods) => Ok(Some(Sample(Errors(PodsStatusReading(pods).extra), map["estimated" := Text("true")]))))
    case "replicas" =>
      (match Listed(connected, cluster.deployments)
       case Err(e) => Err(e)
       case Ok(ds) => Ok(Some(ReplicasReading(ds))))
    case "node_pressure" =>
      (match PressureOutcome(connected, cluster.nodes)
       case Err(e) => Err(e)
       case Ok(s) => Ok(Some(s)))
    case _ => Ok(None)
  }

  /** `get_k8s_data`: dispatches on the name and calls the client. */
  method GetK8sData(metricName: string, client: K8sClient, cluster: Listings) returns (r: Result<Option<Sample>>)
    ensures r == K8sData(metricName, client.connected, cluster)
  {
    match metricName
    case "cpu_usage" =>
      var usage := client.GetResourceUsage(cluster.pods);
      if usage.Err? {
        return Err(usage.error);
      }
      r := Ok(Some(Sample(usage.value.cpu, map["type" := Text("cpu")])));
    case "memory_usage" =>
      var usage := client.GetResourceUsage(cluster.pods);
      if usage.Err? {
        return Err(usage.error);
      }
      r := Ok(Some(Sample(usage.value.memory, map["type" := Text("memory")])));
    case "pod_status" =>
      var status := client.GetPodsStatus(cluster.pods);
      if status.Err? {
        return Err(status.error);
      }
      r := Ok(Some(status.value));
    case "http_latency" =>
      var status := client.GetPodsStatus(cluster.pods);
      if status.Err? {
        return Err(status.error);
      }
      r := Ok(Some(Sample(50.0 + (3.0 - status.value.value) * 100.0, map["estimated" := Text("true")])));
    case "errors_per_second" =>
      var status := client.GetPodsStatus(cluster.pods);
      if status.Err? {
        return Err(status.error);
      }
      var text := if "status" in status.value.extra then status.value.extra["status"] else Text("Unknown");
      var errors := if text == Text("Running") || text == Text("Succeeded") then 0.0 else 5.0;
      r := Ok(Some(Sample(errors, map["estimated" := Text("true")])));
    case "replicas" =>
      var replicas := client.GetDeploymentReplicas(cluster.deployments);
      if replicas.Err? {
        return Err(replicas.error);
      }
      r := Ok(Some(replicas.value));
    case "node_pressure" =>
      var pressure := client.GetNodePressure(cluster.nodes);
      if pressure.Err? {
        return Err(pressure.error);
      }
      r := Ok(Some(pressure.value));
    case _ =>
      r := Ok(None);
  }

  /** An unknown name yields no sample and a known one never does, whatever
      the cluster says. */
  lemma UnknownIffNoSample(metricName: string, connected: bool, cluster: Listings)
    ensures K8sData(metricName, connected, cluster) == Ok(None) <==> !Known(metricName)
  {
  }

  /** An unconnected client fails every known metric with
      `ClientNotInitialized`. */
  lemma UnconnectedFails(metricName: string, cluster: Listings)
    requires Known(metricName)
    ensures K8sData(metricName, false, cluster) == Err(ClientNotInitialized)
  {
  }

  /** A failed list call fails every metric built on it with that error. */
  lemma ListingErrorPropagates(metricName: string, cluster: Listings, e: SonifyError)
    requires Known(metricName)
    requires cluster.pods == Err(e) && cluster.deployments == Err(e) && cluster.nodes == Err(e)
    ensures K8sData(metricName, true, cluster) == Err(e)
  {
  }

  /** The latency estimate takes only the values 50 (running or succeeded
      first pod), 250 (pending) and 350 (anything else, or no pods). */
  lemma LatencyLevels(pods: seq<Pod>)
    ensures var r := K8sData("http_latency", true, Listings(Ok(pods), Err(KubeError("")), Err(KubeError(""))));
      && r.Ok? && r.value.Some?
      && (r.value.value.value == 50.0 <==> pods != [] && Phase(pods[0]) in {"Running", "Succeeded"})
      && (r.value.value.value == 250.0 <==> pods != [] && Phase(pods[0]) == "Pending")
      && r.value.value.value in {50.0, 250.0, 350.0}
  {
  }

  /** The two estimates agree: no errors exactly when the latency is at its
      lowest, and five errors per second otherwise. */
  lemma ErrorsMatchLatency(pods: seq<Pod>, deployments: Result<seq<Deployment>>, nodes: Result<seq<Node>>)
    ensures var cluster := Listings(Ok(pods), deployments, nodes);
      var latency := K8sData("http_latency", true, cluster).value.value.value;
      var errors := K8sData("errors_per_second", true, cluster).value.value.value;
      && (errors == 0.0 <==> latency == 50.0)
      && errors in {0.0, 5.0}
  {
    if pods != [] {
      var phase := Phase(pods[0]);
      assert PodsStatusReading(pods).extra["status"] == Text(phase);
    }
  }

  /** CPU and memory readings share one usage estimate and are capped at
      100. */
  lemma UsageReadings(pods: seq<Pod>, cluster: Listings)
    requires cluster.pods == Ok(pods)
    ensures K8sData("cpu_usage", true, cluster) == Ok(Some(Sample(UsageEstimate(pods).cpu, map["type" := Text("cpu")])))
    ensures K8sData("memory_usage", true, cluster) == Ok(Some(Sample(UsageEstimate(pods).memory, map["type" := Text("memory")])))
    ensures UsageEstimate(pods).cpu <= 100.0 && UsageEstimate(pods).memory <= 100.0
  {
  }
}
