/**
 * The index mapper of the two Python copies (identical in both): the same
 * bucket computation as the Rust copy but with Python's truncating `int`, no
 * final clamp to the palette, a colour lookup that only guards the index, and
 * a note lookup by list subscript, where a negative index counts from the end
 * and an index past either end raises `IndexError`.
 */
module PyMapper {
  import opened Types
  import opened SoundMap
  import Mapper

  /** `int(x)` on a float: truncation toward zero. */
  function Trunc(x: real): (i: int)
    ensures x >= 0.0 ==> i as real <= x < i as real + 1.0
    ensures x <= 0.0 ==> i as real - 1.0 < x <= i as real
  {
    if x >= 0.0 then x.Floor else -((-x).Floor)
  }

  /** `calculate_index`. Nothing is required of the palette length; with an
      empty palette the result can be -1. */
  function CalculateIndex(value: real, notesLength: nat, minValue: real, maxValue: real): (index: int)
    ensures maxValue <= minValue ==> index == 0
    ensures notesLength >= 1 ==> 0 <= index < notesLength
    ensures notesLength == 0 ==> index == 0 || index == -1
  {
    if maxValue <= minValue then 0
    else
      var clamped := Mapper.Max(minValue, Mapper.Min(maxValue, value));
      var normalized := (clamped - minValue) / (maxValue - minValue);
      Mapper.UnitFraction(clamped - minValue, maxValue - minValue);
      ScaledIndexBounds(normalized, notesLength);
      Trunc(normalized * (notesLength - 1) as real)
  }

  lemma ScaledIndexBounds(t: real, notesLength: nat)
    requires 0.0 <= t <= 1.0
    ensures notesLength >= 1 ==> 0 <= Trunc(t * (notesLength - 1) as real) < notesLength
    ensures notesLength == 0 ==> -1 <= Trunc(t * (notesLength - 1) as real) <= 0
  {
    var p := t * (notesLength - 1) as real;
    if notesLength >= 1 {
      Mapper.ScaledFraction(t, (notesLength - 1) as real);
      assert 0.0 <= p <= (notesLength - 1) as real;
      assert Trunc(p) as real <= p < Trunc(p) as real + 1.0;
    } else {
      assert p == -t;
      assert Trunc(p) as real - 1.0 < p <= Trunc(p) as real;
    }
  }

  /** On a non-empty palette the Python bucket is the Rust bucket: truncation
      and `as usize` agree on non-negative numbers, and the Rust clamp to the
      last index never fires. */
  lemma CalculateIndexAgreesWithRust(value: real, notesLength: nat, minValue: real, maxValue: real)
    requires notesLength >= 1
    ensures CalculateIndex(value, notesLength, minValue, maxValue)
      == Mapper.CalculateIndex(value, notesLength, minValue, maxValue) as int
  {
    if minValue < maxValue {
      assert Mapper.Max(minValue, Mapper.Min(maxValue, value)) == Mapper.Clamp(value, minValue, maxValue);
      var t := Mapper.Normalized(value, minValue, maxValue);
      Mapper.ScaledFraction(t, (notesLength - 1) as real);
    }
  }

  /** The published examples, including a four-note palette over [0, 10]. */
  lemma CalculateIndexExamples()
    ensures CalculateIndex(0.0, 8, 0.0, 100.0) == 0
    ensures CalculateIndex(100.0, 8, 0.0, 100.0) == 7
    ensures CalculateIndex(50.0, 8, 0.0, 100.0) == 3
    ensures CalculateIndex(-10.0, 8, 0.0, 100.0) == 0
    ensures CalculateIndex(110.0, 8, 0.0, 100.0) == 7
    ensures CalculateIndex(5.0, 4, 0.0, 10.0) == 1
    ensures CalculateIndex(10.0, 5, 10.0, 10.0) == 0
  {
    assert Trunc(3.5) == 3;
    assert Trunc(1.5) == 1;
  }

  /** In the simulated copy a replica count of 4 lands on colour 5 and a count
      of 5 on colour 7, both written without `#`. */
  lemma SimulatedReplicaBareColors()
    ensures MapMetric("replicas", 4.0, SimulatedSoundMap()[5].config) == Returned(Mapper.Signal(349, "F4", "00BCD4"))
    ensures MapMetric("replicas", 5.0, SimulatedSoundMap()[5].config) == Returned(Mapper.Signal(392, "G4", "0097A7"))
  {
    var config := SimulatedSoundMap()[5].config;
    assert config == SimulatedReplicas;
    assert CalculateIndex(4.0, 8, 0.0, 5.0) == 5 by {
      assert Trunc(4.0 / 5.0 * 7.0) == 5;
    }
    assert CalculateIndex(5.0, 8, 0.0, 5.0) == 7 by {
      assert Trunc(5.0 / 5.0 * 7.0) == 7;
    }
    assert ReadingIndex("replicas", 4.0, config) == 5;
    assert ReadingIndex("replicas", 5.0, config) == 7;
  }

  /** On an empty palette a reading at or above the maximum gives -1. */
  lemma CalculateIndexEmptyPalette(value: real)
    ensures CalculateIndex(value, 0, 0.0, 100.0) == (if value >= 100.0 then -1 else 0)
  {
    if value >= 100.0 {
      assert Mapper.Max(0.0, Mapper.Min(100.0, value)) == 100.0;
    } else {
      var c := Mapper.Max(0.0, Mapper.Min(100.0, value));
      assert c / 100.0 < 1.0;
    }
  }

  /** `get_color`: the colour at an index inside the list, the last colour
      for any other index (negative ones included), the neutral grey when
      there are no colours. */
  function GetColor(colors: seq<string>, index: int): (color: string)
    ensures 0 <= index < |colors| ==> color == colors[index]
    ensures !(0 <= index < |colors|) && colors != [] ==> color == colors[|colors| - 1]
    ensures colors == [] ==> color == Mapper.DefaultColor
  {
    if 0 <= index < |colors| then colors[index]
    else if colors != [] then colors[|colors| - 1]
    else Mapper.DefaultColor
  }

  /** For a natural index both copies pick the same colour. */
  lemma GetColorAgreesWithRust(colors: seq<string>, index: nat)
    ensures GetColor(colors, index) == Mapper.GetColor(colors, index)
  {
  }

  /** The published examples. */
  lemma GetColorExamples()
    ensures GetColor(["#111111", "#222222", "#333333"], 1) == "#222222"
    ensures GetColor(["#111111", "#222222", "#333333"], 10) == "#333333"
    ensures GetColor([], 0) == "#808080"
  {
  }

  /** `s[i]` on a Python list: a negative index counts from the end; outside
      `-|s| .. |s| - 1` it raises `IndexError` (here `None`). */
  function Subscript<T>(s: seq<T>, i: int): (r: Option<T>)
    ensures r.Some? <==> -|s| <= i < |s|
    ensures 0 <= i < |s| ==> r == Some(s[i])
    ensures -|s| <= i < 0 ==> r == Some(s[|s| + i])
  {
    if 0 <= i < |s| then Some(s[i])
    else if -|s| <= i < 0 then Some(s[|s| + i])
    else None
  }

  /** The index the loop body computes for one reading: the truncated value for
      a categorical metric, the bucket over [0, max] otherwise. */
  function ReadingIndex(metricName: string, value: real, config: MetricConfig): int
  {
    if IsCategorical(metricName) then Trunc(value)
    else CalculateIndex(value, |config.notes|, 0.0, Mapper.MaxValue(metricName))
  }

  /** The lookup step of the metric loop: the index, then the note by subscript and
      the colour by `get_color`. A subscript out of range raises
      `IndexError`. */
  function MapMetric(metricName: string, value: real, config: MetricConfig): (r: PyOutcome<Mapper.Signal>)
    ensures r.Raised? ==> r.exception == IndexError
    ensures r.Raised? <==> !(-|config.notes| <= ReadingIndex(metricName, value, config) < |config.notes|)
  {
    var index := ReadingIndex(metricName, value, config);
    match Subscript(config.notes, index)
    case None => Raised(IndexError)
    case Some(note) => Returned(Mapper.Signal(note.frequency, note.name, GetColor(config.colors, index)))
  }

  /** For a continuous metric on a non-empty palette the Python copies and
      the Rust copy resolve every reading to the same signal. */
  lemma MapMetricContinuousAgrees(metricName: string, value: real, soundMap: map<string, MetricConfig>)
    requires metricName in soundMap && |soundMap[metricName].notes| >= 1
    requires !IsCategorical(metricName)
    ensures MapMetric(metricName, value, soundMap[metricName]) == Returned(Mapper.MapMetric(metricName, value, soundMap).value)
  {
    var config := soundMap[metricName];
    CalculateIndexAgreesWithRust(value, |config.notes|, 0.0, Mapper.MaxValue(metricName));
    Mapper.MapMetricContinuous(metricName, value, soundMap);
  }

  /** For a categorical metric the copies agree while the reading names a
      palette entry; past the palette the Rust copy clamps to the last note
      where the Python copies raise `IndexError`. */
  lemma MapMetricCategorical(metricName: string, value: real, soundMap: map<string, MetricConfig>)
    requires metricName in soundMap && |soundMap[metricName].notes| >= 1
    requires IsCategorical(metricName)
    ensures var n := |soundMap[metricName].notes|;
      && (0.0 <= value < n as real ==>
            MapMetric(metricName, value, soundMap[metricName]) == Returned(Mapper.MapMetric(metricName, value, soundMap).value))
      && (value >= n as real ==>
            && MapMetric(metricName, value, soundMap[metricName]) == Raised(IndexError)
            && Mapper.MapMetric(metricName, value, soundMap) == Ok(Mapper.Resolve(soundMap[metricName], n - 1)))
  {
    Mapper.MapMetricCategorical(metricName, value, soundMap);
  }

  /** A negative categorical reading is not refused: the note is counted from
      the end of the palette while the colour is always the last one, so for
      -2 on the pod-status palette the note (E4) and the colour (the one
      listed with G4) come from different entries. */
  lemma NegativeReadingMismatch()
    ensures MapMetric("pod_status", -2.0, PodStatus)
      == Returned(Mapper.Signal(PodStatus.notes[2].frequency, PodStatus.notes[2].name, PodStatus.colors[3]))
    ensures PodStatus.colors[2] != PodStatus.colors[3]
  {
    assert Trunc(-2.0) == -2;
  }

  /** An empty palette always raises, for continuous and categorical
      metrics alike: no index subscripts an empty list. */
  lemma MapMetricEmptyPaletteRaises(metricName: string, value: real, config: MetricConfig)
    requires config.notes == []
    ensures MapMetric(metricName, value, config) == Raised(IndexError)
  {
  }
}
