/**
 * The metric registry: for each of the seven metrics, its display name, unit,
 * palette of notes, palette of colours and, for the two categorical metrics,
 * the table from state name to palette index.
 *
 * The Rust copy builds an unordered map by successive inserts; the Python
 * copies declare an ordered dictionary literal, whose order is the order in
 * which their poll loops visit the metrics. Both hold the same data, except
 * that the simulated Python copy writes three replica colours without `#`.
 */
module SoundMap {
  import opened Types
  import opened Text

  datatype Note = Note(frequency: nat, name: string)

  datatype MetricConfig = MetricConfig(
    metricName: string,
    unit: string,
    notes: seq<Note>,
    colors: seq<string>,
    statusMap: Option<map<string, nat>>)

  /** A registry entry of the Python copies: a key of the dictionary literal
      and its configuration. */
  datatype Entry = Entry(key: string, config: MetricConfig)

  const CpuUsage := MetricConfig(
    "CPU Usage", "%",
    [Note(262, "C4"), Note(294, "D4"), Note(330, "E4"), Note(349, "F4"),
     Note(392, "G4"), Note(440, "A4"), Note(494, "B4"), Note(523, "C5")],
    ["#88E0EF", "#39C0ED", "#218380", "#126E82", "#145DA0", "#0F4C75", "#3282B8", "#118AB2"],
    None)

  const MemoryUsage := MetricConfig(
    "Memory Usage", "%",
    [Note(277, "C#4"), Note(311, "D#4"), Note(349, "F4"), Note(370, "F#4"),
     Note(415, "G#4"), Note(466, "A#4"), Note(523, "C5"), Note(554, "C#5")],
    ["#D4F5FF", "#A7E9FF", "#56CCF2", "#29ADB2", "#247BA0", "#1E3A8A", "#2A9D8F", "#81B29A"],
    None)

  const PodStatusMap: map<string, nat> :=
    map[]["Running" := 3]["Pending" := 1]["Succeeded" := 3]["Failed" := 0]["Unknown" := 0]

  const PodStatus := MetricConfig(
    "Pod Status", "",
    [Note(220, "A3"), Note(262, "C4"), Note(330, "E4"), Note(392, "G4")],
    ["#86EF7D", "#22C55E", "#16A34A", "#065F46"],
    Some(PodStatusMap))

  const HttpLatency := MetricConfig(
    "HTTP Latency", "ms",
    [Note(294, "D4"), Note(330, "E4"), Note(370, "F#4"), Note(415, "G#4"),
     Note(466, "A#4"), Note(523, "C5"), Note(587, "D5"), Note(659, "E5")],
    ["#FFE5D9", "#FFCAD4", "#F4ACB7", "#F46036", "#E5383B", "#B22222", "#8B0000", "#DC143C"],
    None)

  const ErrorsPerSecond := MetricConfig(
    "Errors/Second", "err/s",
    [Note(131, "C3"), Note(147, "D3"), Note(165, "E3"), Note(175, "F3"),
     Note(196, "G3"), Note(220, "A3"), Note(247, "B3"), Note(262, "C4")],
    ["#FFF2CC", "#FFD65E", "#FFA41B", "#F94144", "#F3722C", "#F8961E", "#F9C74F", "#90BE6D"],
    None)

  const ReplicaNotes :=
    [Note(262, "C4"), Note(277, "C#4"), Note(294, "D4"), Note(311, "D#4"),
     Note(330, "E4"), Note(349, "F4"), Note(370, "F#4"), Note(392, "G4")]

  const Replicas := MetricConfig(
    "Replica Count", "Count", ReplicaNotes,
    ["#E0F7FA", "#B2EBF2", "#80DEEA", "#4DD0E1", "#26C6DA", "#00BCD4", "#00ACC1", "#0097A7"],
    None)

  const NodePressureMap: map<string, nat> := map[]["False" := 0]["True" := 3]

  const NodePressure := MetricConfig(
    "Node Pressure", "",
    [Note(262, "C4"), Note(294, "D4"), Note(330, "E4"), Note(349, "F4")],
    ["#FFFFFF", "#F0F4C3", "#D4E157", "#A4A71D"],
    Some(NodePressureMap))

  /** The replica entry as the simulated Python copy writes it: its last three
      colours have no leading `#`. */
  const SimulatedReplicas := Replicas.(colors :=
    ["#E0F7FA", "#B2EBF2", "#80DEEA", "#4DD0E1", "#26C6DA", "00BCD4", "00ACC1", "0097A7"])

  /** The metric keys in declaration order. */
  const MetricOrder: seq<string> :=
    ["cpu_usage", "memory_usage", "pod_status", "http_latency", "errors_per_second", "replicas", "node_pressure"]

  /** The metrics whose sampled value is already a palette index. */
  predicate IsCategorical(metricName: string)
  {
    metricName == "pod_status" || metricName == "node_pressure"
  }

  /** A colour written as `#` followed by six hexadecimal digits. */
  predicate IsHexColor(color: string)
  {
    && |color| == 7 && color[0] == '#'
    && IsHexDigit(color[1]) && IsHexDigit(color[2]) && IsHexDigit(color[3])
    && IsHexDigit(color[4]) && IsHexDigit(color[5]) && IsHexDigit(color[6])
  }

  /** What the rest of the system relies on in a registry entry: a non-empty
      palette, as many colours as notes, audible frequencies, well-formed
      colours, and categorical indices inside the palette. */
  predicate WellFormed(c: MetricConfig)
  {
    && |c.notes| >= 1
    && |c.colors| == |c.notes|
    && (forall i :: 0 <= i < |c.notes| ==> c.notes[i].frequency > 0)
    && (forall i :: 0 <= i < |c.colors| ==> IsHexColor(c.colors[i]))
    && (c.statusMap.Some? ==> forall s :: s in c.statusMap.value ==> c.statusMap.value[s] < |c.notes|)
  }

  /** The Rust registry (`get_sound_map`), assembled by successive inserts. */
  function GetSoundMap(): (m: map<string, MetricConfig>)
    ensures m.Keys == set k | k in MetricOrder
    ensures forall k :: k in m ==> (m[k].statusMap.Some? <==> IsCategorical(k))
    ensures forall k :: k in m ==> |m[k].notes| >= 1
  {
    var m := map[]
      ["cpu_usage" := CpuUsage]
      ["memory_usage" := MemoryUsage]
      ["pod_status" := PodStatus]
      ["http_latency" := HttpLatency]
      ["errors_per_second" := ErrorsPerSecond]
      ["replicas" := Replicas]
      ["node_pressure" := NodePressure];
    assert m.Keys == {"cpu_usage", "memory_usage", "pod_status", "http_latency", "errors_per_second", "replicas", "node_pressure"};
    m
  }

  /** `SOUND_MAP` of the live Python copy, in declaration order. */
  function PySoundMap(): (entries: seq<Entry>)
    ensures |entries| == |MetricOrder|
    ensures forall i :: 0 <= i < |entries| ==> entries[i].key == MetricOrder[i]
  {
    [Entry("cpu_usage", CpuUsage),
     Entry("memory_usage", MemoryUsage),
     Entry("pod_status", PodStatus),
     Entry("http_latency", HttpLatency),
     Entry("errors_per_second", ErrorsPerSecond),
     Entry("replicas", Replicas),
     Entry("node_pressure", NodePressure)]
  }

  /** `SOUND_MAP` of the simulated Python copy, in declaration order. */
  function SimulatedSoundMap(): (entries: seq<Entry>)
    ensures |entries| == |MetricOrder|
    ensures forall i :: 0 <= i < |entries| ==> entries[i].key == MetricOrder[i]
  {
    PySoundMap()[5 := Entry("replicas", SimulatedReplicas)]
  }

  /** Where each key of the Rust registry leads. */
  lemma SoundMapLookup()
    ensures GetSoundMap()["cpu_usage"] == CpuUsage
    ensures GetSoundMap()["memory_usage"] == MemoryUsage
    ensures GetSoundMap()["pod_status"] == PodStatus
    ensures GetSoundMap()["http_latency"] == HttpLatency
    ensures GetSoundMap()["errors_per_second"] == ErrorsPerSecond
    ensures GetSoundMap()["replicas"] == Replicas
    ensures GetSoundMap()["node_pressure"] == NodePressure
  {
  }

  lemma CpuUsageWellFormed()
    ensures WellFormed(CpuUsage)
  {
    assert IsHexColor(CpuUsage.colors[0]);
    assert IsHexColor(CpuUsage.colors[1]);
    assert IsHexColor(CpuUsage.colors[2]);
    assert IsHexColor(CpuUsage.colors[3]);
    assert IsHexColor(CpuUsage.colors[4]);
    assert IsHexColor(CpuUsage.colors[5]);
    assert IsHexColor(CpuUsage.colors[6]);
    assert IsHexColor(CpuUsage.colors[7]);
  }

  lemma MemoryUsageWellFormed()
    ensures WellFormed(MemoryUsage)
  {
    assert IsHexColor(MemoryUsage.colors[0]);
    assert IsHexColor(MemoryUsage.colors[1]);
    assert IsHexColor(MemoryUsage.colors[2]);
    assert IsHexColor(MemoryUsage.colors[3]);
    assert IsHexColor(MemoryUsage.colors[4]);
    assert IsHexColor(MemoryUsage.colors[5]);
    assert IsHexColor(MemoryUsage.colors[6]);
    assert IsHexColor(MemoryUsage.colors[7]);
  }

  lemma PodStatusWellFormed()
    ensures WellFormed(PodStatus)
  {
    assert IsHexColor(PodStatus.colors[0]);
    assert IsHexColor(PodStatus.colors[1]);
    assert IsHexColor(PodStatus.colors[2]);
    assert IsHexColor(PodStatus.colors[3]);
    assert forall s :: s in PodStatusMap ==> PodStatusMap[s] <= 3;
  }

  lemma HttpLatencyWellFormed()
    ensures WellFormed(HttpLatency)
  {
    assert IsHexColor(HttpLatency.colors[0]);
    assert IsHexColor(HttpLatency.colors[1]);
    assert IsHexColor(HttpLatency.colors[2]);
    assert IsHexColor(HttpLatency.colors[3]);
    assert IsHexColor(HttpLatency.colors[4]);
    assert IsHexColor(HttpLatency.colors[5]);
    assert IsHexColor(HttpLatency.colors[6]);
    assert IsHexColor(HttpLatency.colors[7]);
  }

  lemma ErrorsPerSecondWellFormed()
    ensures WellFormed(ErrorsPerSecond)
  {
    assert IsHexColor(ErrorsPerSecond.colors[0]);
    assert IsHexColor(ErrorsPerSecond.colors[1]);
    assert IsHexColor(ErrorsPerSecond.colors[2]);
    assert IsHexColor(ErrorsPerSecond.colors[3]);
    assert IsHexColor(ErrorsPerSecond.colors[4]);
    assert IsHexColor(ErrorsPerSecond.colors[5]);
    assert IsHexColor(ErrorsPerSecond.colors[6]);
    assert IsHexColor(ErrorsPerSecond.colors[7]);
  }

  lemma ReplicasWellFormed()
    ensures WellFormed(Replicas)
  {
    assert IsHexColor(Replicas.colors[0]);
    assert IsHexColor(Replicas.colors[1]);
    assert IsHexColor(Replicas.colors[2]);
    assert IsHexColor(Replicas.colors[3]);
    assert IsHexColor(Replicas.colors[4]);
    assert IsHexColor(Replicas.colors[5]);
    assert IsHexColor(Replicas.colors[6]);
    assert IsHexColor(Replicas.colors[7]);
  }

  lemma NodePressureWellFormed()
    ensures WellFormed(NodePressure)
  {
    assert IsHexColor(NodePressure.colors[0]);
    assert IsHexColor(NodePressure.colors[1]);
    assert IsHexColor(NodePressure.colors[2]);
    assert IsHexColor(NodePressure.colors[3]);
  }

  /** Every entry of the Rust registry is well formed: 8 notes and 8 colours
      for a continuous metric, 4 and 4 for a categorical one. */
  lemma SoundMapWellFormed()
    ensures forall k :: k in GetSoundMap() ==> WellFormed(GetSoundMap()[k])
    ensures forall k :: k in GetSoundMap() ==>
      |GetSoundMap()[k].notes| == |GetSoundMap()[k].colors| == (if IsCategorical(k) then 4 else 8)
  {
    forall k | k in GetSoundMap()
      ensures WellFormed(GetSoundMap()[k])
      ensures |GetSoundMap()[k].notes| == |GetSoundMap()[k].colors| == (if IsCategorical(k) then 4 else 8)
    {
      if k == "cpu_usage" {
        assert GetSoundMap()[k] == CpuUsage;
        CpuUsageWellFormed();
      } else if k == "memory_usage" {
        assert GetSoundMap()[k] == MemoryUsage;
        MemoryUsageWellFormed();
      } else if k == "pod_status" {
        assert GetSoundMap()[k] == PodStatus;
        PodStatusWellFormed();
      } else if k == "http_latency" {
        assert GetSoundMap()[k] == HttpLatency;
        HttpLatencyWellFormed();
      } else if k == "errors_per_second" {
        assert GetSoundMap()[k] == ErrorsPerSecond;
        ErrorsPerSecondWellFormed();
      } else if k == "replicas" {
        assert GetSoundMap()[k] == Replicas;
        ReplicasWellFormed();
      } else {
        assert k == "node_pressure";
        assert GetSoundMap()[k] == NodePressure;
        NodePressureWellFormed();
      }
    }
  }

  /** The CPU palette spans the octave C4 (262 Hz) to C5 (523 Hz). */
  lemma CpuPaletteSpansOctave()
    ensures "cpu_usage" in GetSoundMap()
    ensures |GetSoundMap()["cpu_usage"].notes| == 8
    ensures GetSoundMap()["cpu_usage"].notes[0].frequency == 262
    ensures GetSoundMap()["cpu_usage"].notes[7].frequency == 523
  {
  }

  /** The categorical tables: pod phases Running/Succeeded/Pending/Failed/Unknown
      map to 3/3/1/0/0, node pressure False/True to 0/3. */
  lemma StatusMaps()
    ensures GetSoundMap()["pod_status"].statusMap == Some(PodStatusMap)
    ensures PodStatusMap.Keys == {"Running", "Pending", "Succeeded", "Failed", "Unknown"}
    ensures PodStatusMap.Values == {0, 1, 3}
    ensures GetSoundMap()["node_pressure"].statusMap == Some(NodePressureMap)
    ensures NodePressureMap.Keys == {"False", "True"} && NodePressureMap["True"] == 3
  {
    assert PodStatusMap["Running"] == 3 && PodStatusMap["Pending"] == 1 && PodStatusMap["Failed"] == 0;
  }

  /** The live Python registry holds, key by key, exactly the Rust registry's
      data, and its order is the one the poll loops follow. */
  lemma PySoundMapMatchesRust()
    ensures forall i :: 0 <= i < |PySoundMap()| ==>
      PySoundMap()[i].key in GetSoundMap() && PySoundMap()[i].config == GetSoundMap()[PySoundMap()[i].key]
    ensures forall i, j :: 0 <= i < j < |PySoundMap()| ==> PySoundMap()[i].key != PySoundMap()[j].key
  {
    SoundMapLookup();
    var py, m := PySoundMap(), GetSoundMap();
    forall i | 0 <= i < |py| ensures py[i].key in m && py[i].config == m[py[i].key] {
      if i == 0 { assert py[i] == Entry("cpu_usage", CpuUsage); }
      else if i == 1 { assert py[i] == Entry("memory_usage", MemoryUsage); }
      else if i == 2 { assert py[i] == Entry("pod_status", PodStatus); }
      else if i == 3 { assert py[i] == Entry("http_latency", HttpLatency); }
      else if i == 4 { assert py[i] == Entry("errors_per_second", ErrorsPerSecond); }
      else if i == 5 { assert py[i] == Entry("replicas", Replicas); }
      else { assert py[i] == Entry("node_pressure", NodePressure); }
    }
    MetricOrderDistinct();
  }

  /** No metric key is declared twice. */
  lemma MetricOrderDistinct()
    ensures forall i, j :: 0 <= i < j < |MetricOrder| ==> MetricOrder[i] != MetricOrder[j]
  {
    var o := MetricOrder;
    assert o[0][0] == 'c' && o[1][0] == 'm' && o[2][0] == 'p' && o[3][0] == 'h';
    assert o[4][0] == 'e' && o[5][0] == 'r' && o[6][0] == 'n';
  }

  /** The simulated registry differs from the live one only in the colours of
      the replica entry, whose entries 5 to 7 lack the leading `#`; those
      colours are still six hexadecimal digits once `#` is optional. */
  lemma SimulatedReplicaColorsLackHash()
    ensures forall i :: 0 <= i < |PySoundMap()| && i != 5 ==> SimulatedSoundMap()[i] == PySoundMap()[i]
    ensures SimulatedSoundMap()[5].config.notes == PySoundMap()[5].config.notes
    ensures forall i :: 5 <= i < 8 ==>
      !IsHexColor(SimulatedSoundMap()[5].config.colors[i])
      && SimulatedSoundMap()[5].config.colors[i][0] != '#'
      && "#" + SimulatedSoundMap()[5].config.colors[i] == PySoundMap()[5].config.colors[i]
    ensures !WellFormed(SimulatedSoundMap()[5].config)
  {
    assert SimulatedSoundMap()[5].config.colors[5] == "00BCD4";
  }

  /** Every entry of the live Python registry is well formed, so every colour
      it can hand out starts with `#`. */
  lemma PySoundMapWellFormed()
    ensures forall i :: 0 <= i < |PySoundMap()| ==> WellFormed(PySoundMap()[i].config)
  {
    SoundMapWellFormed();
    PySoundMapMatchesRust();
  }
}
