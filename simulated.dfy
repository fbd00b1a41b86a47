/**
 * The sampler of the simulated Python copy. Its random draws are not
 * modelled as randomness: a `Draw` holds one arbitrary outcome of each
 * random call, and `InRange` states what the random module guarantees about
 * it (a uniform draw in [0, 100], a choice among the listed phases, an
 * exponential draw that is never negative, integers between the given
 * bounds, a choice of 0 or 1 and of "False" or "True").
 */
module Simulated {
  import opened Types
  import opened SoundMap

  /** The phases the sampler chooses from. */
  const Statuses: seq<string> := ["Running", "Pending", "Succeeded", "Failed", "Unknown"]

  datatype Draw = Draw(
    uniform: real,
    status: string,
    exponential: real,
    errors: int,
    replicas: int,
    level: int,
    pressure: string)

  predicate InRange(d: Draw)
  {
    && 0.0 <= d.uniform <= 100.0
    && d.status in Statuses
    && d.exponential >= 0.0
    && 0 <= d.errors <= 5
    && 1 <= d.replicas <= 5
    && d.level in {0, 1}
    && d.pressure in {"False", "True"}
  }

  /** `get_k8s_data` of the simulated copy, for one draw. The chosen phase
      is always a key of the status map, so the lookup cannot fail. */
  function SimulatedData(metricName: string, d: Draw): (r: Option<Sample>)
    requires d.status in Statuses
    ensures r.Some? <==> metricName in MetricOrder
  {
    match metricName
    case "cpu_usage" => Some(Sample(d.uniform, map[]))
    case "memory_usage" => Some(Sample(d.uniform, map[]))
    case "pod_status" =>
      assert d.status in PodStatusMap;
      Some(Sample(PodStatusMap[d.status] as real, map["status" := Text(d.status)]))
    case "http_latency" => Some(Sample(d.exponential, map[]))
    case "errors_per_second" => Some(Sample(d.errors as real, map[]))
    case "replicas" => Some(Sample(d.replicas as real, map[]))
    case "node_pressure" => Some(Sample(d.level as real, map["pressure" := Text(d.pressure)]))
    case _ => None
  }

  /** The ranges the published checks expect of each sample. */
  lemma SimulatedRanges(d: Draw)
    requires InRange(d)
    ensures 0.0 <= SimulatedData("cpu_usage", d).value.value <= 100.0
    ensures 0.0 <= SimulatedData("memory_usage", d).value.value <= 100.0
    ensures SimulatedData("pod_status", d).value.value in {0.0, 1.0, 3.0}
    ensures "status" in SimulatedData("pod_status", d).value.extra
    ensures SimulatedData("http_latency", d).value.value >= 0.0
    ensures 0.0 <= SimulatedData("errors_per_second", d).value.value <= 5.0
    ensures 1.0 <= SimulatedData("replicas", d).value.value <= 5.0
    ensures SimulatedData("node_pressure", d).value.value in {0.0, 1.0}
    ensures "pressure" in SimulatedData("node_pressure", d).value.extra
  {
  }

  /** The pod status is the status map's value for the chosen phase, and
      every value of the map can come up. */
  lemma SimulatedPodStatusCoversMap(v: nat)
    requires v in PodStatusMap.Values
    ensures exists s :: s in Statuses && SimulatedData("pod_status", Draw(0.0, s, 0.0, 0, 1, 0, "False")).value.value == v as real
  {
    var s :| s in PodStatusMap && PodStatusMap[s] == v;
    assert s in Statuses;
  }

  /** The pressure level and the pressure text are drawn independently: a
      pressured reading can say "False" and a calm one "True". */
  lemma PressureTextIndependent()
    ensures var d := Draw(0.0, "Running", 0.0, 0, 1, 1, "False");
      InRange(d) && SimulatedData("node_pressure", d) == Some(Sample(1.0, map["pressure" := Text("False")]))
    ensures var d := Draw(0.0, "Running", 0.0, 0, 1, 0, "True");
      InRange(d) && SimulatedData("node_pressure", d) == Some(Sample(0.0, map["pressure" := Text("True")]))
  {
  }
}
