/**
 * The Rust index mapper and signal resolver: a continuous reading is clamped
 * into its domain, normalised and truncated into a palette bucket; a
 * categorical reading is used as the index directly; the index then selects
 * a note and, with a fallback, a colour.
 */
module Mapper {
  import opened Types
  import opened SoundMap

  function Min(a: real, b: real): real { if a <= b then a else b }

  function Max(a: real, b: real): real { if a >= b then a else b }

  /** `value.max(lo).min(hi)` */
  function Clamp(value: real, lo: real, hi: real): real
  {
    Min(Max(value, lo), hi)
  }

  /** `x as usize` for a float: truncation, saturating at 0 below. (The upper
      saturation at the largest `usize` is never observable here, because
      every index is clamped to the palette afterwards.) */
  function AsUsize(x: real): (n: nat)
    ensures x <= 0.0 ==> n == 0
    ensures x >= 0.0 ==> n as real <= x < n as real + 1.0
  {
    if x <= 0.0 then 0 else x.Floor
  }

  /** Where the clamped value lies in the domain, as a fraction of it. */
  function Normalized(value: real, minValue: real, maxValue: real): (t: real)
    requires minValue < maxValue
    ensures 0.0 <= t <= 1.0
  {
    UnitFraction(Clamp(value, minValue, maxValue) - minValue, maxValue - minValue);
    (Clamp(value, minValue, maxValue) - minValue) / (maxValue - minValue)
  }

  /** `calculate_index`. The palette length must be at least one: the source
      computes `notes_length - 1` on an unsigned integer. */
  function CalculateIndex(value: real, notesLength: nat, minValue: real, maxValue: real): (index: nat)
    requires notesLength >= 1
    ensures index < notesLength
    ensures maxValue <= minValue ==> index == 0
  {
    if maxValue <= minValue then 0
    else
      var index := AsUsize(Normalized(value, minValue, maxValue) * (notesLength - 1) as real);
      if index <= notesLength - 1 then index else notesLength - 1
  }

  /** For a proper domain, the index is the bucket that holds the clamped
      value: the domain is cut into `notesLength - 1` equal slices and the
      index counts the whole slices below the value, the maximum itself
      falling in the last index. */
  lemma CalculateIndexIsBucket(value: real, notesLength: nat, minValue: real, maxValue: real)
    requires notesLength >= 1 && minValue < maxValue
    ensures var index := CalculateIndex(value, notesLength, minValue, maxValue);
      var width, offset := maxValue - minValue, Clamp(value, minValue, maxValue) - minValue;
      && index as real * width <= offset * (notesLength - 1) as real
      && offset * (notesLength - 1) as real < (index + 1) as real * width
  {
    var width, offset := maxValue - minValue, Clamp(value, minValue, maxValue) - minValue;
    var m, t := (notesLength - 1) as real, Normalized(value, minValue, maxValue);
    var index := CalculateIndex(value, notesLength, minValue, maxValue);
    CalculateIndexUnfold(value, notesLength, minValue, maxValue);
    assert index == AsUsize(t * m);
    assert t == offset / width;
    FractionBucket(offset, width, m, t);
  }

  /** For a proper domain the final clamp never changes the bucket. */
  lemma CalculateIndexUnfold(value: real, notesLength: nat, minValue: real, maxValue: real)
    requires notesLength >= 1 && minValue < maxValue
    ensures CalculateIndex(value, notesLength, minValue, maxValue)
      == AsUsize(Normalized(value, minValue, maxValue) * (notesLength - 1) as real)
  {
    var m := (notesLength - 1) as real;
    var t := Normalized(value, minValue, maxValue);
    ScaledFraction(t, m);
    assert AsUsize(t * m) as real <= m;
  }

  /** Truncating the scaled fraction `offset / width` picks the slice that
      holds `offset`. */
  lemma FractionBucket(offset: real, width: real, m: real, t: real)
    requires width > 0.0 && m >= 0.0 && t == offset / width && 0.0 <= t
    ensures AsUsize(t * m) as real * width <= offset * m < (AsUsize(t * m) + 1) as real * width
  {
    var p := t * m;
    MulLe(0.0, t, m);
    var index := AsUsize(p);
    var next := (index + 1) as real;
    assert index as real <= p < next;
    MulLe(index as real, p, width);
    MulLt(p, next, width);
    DivMul(offset, width);
    MulSwap(t, m, width);
    assert p * width == offset * m;
    Bracket(p * width, offset * m, index as real * width, next * width);
  }

  lemma Bracket(x: real, y: real, lo: real, hi: real)
    requires x == y && lo <= x < hi
    ensures lo <= y < hi
  {
  }

  lemma MulLe(x: real, y: real, c: real)
    requires x <= y && c >= 0.0
    ensures x * c <= y * c
  {
  }

  lemma MulLt(x: real, y: real, c: real)
    requires x < y && c > 0.0
    ensures x * c < y * c
  {
  }

  lemma ScaledFraction(t: real, m: real)
    requires 0.0 <= t <= 1.0 && m >= 0.0
    ensures 0.0 <= t * m <= m
  {
    MulLe(0.0, t, m);
    MulLe(t, 1.0, m);
  }

  lemma DivMul(a: real, w: real)
    requires w != 0.0
    ensures (a / w) * w == a
  {
  }

  lemma MulSwap(t: real, m: real, w: real)
    ensures (t * m) * w == (t * w) * m
  {
  }

  lemma CancelLe(x: real, y: real, c: real)
    requires x * c <= y * c && c > 0.0
    ensures x <= y
  {
  }

  /** A part of a positive whole is a fraction between 0 and 1 of it. */
  lemma UnitFraction(part: real, whole: real)
    requires 0.0 <= part <= whole && whole > 0.0
    ensures 0.0 <= part / whole <= 1.0
  {
    var t := part / whole;
    assert t * whole == part;
    CancelLe(0.0, t, whole);
    CancelLe(t, 1.0, whole);
  }

  lemma DivMonotone(a: real, b: real, w: real)
    requires a <= b && w > 0.0
    ensures a / w <= b / w
  {
    assert (a / w) * w == a && (b / w) * w == b;
    CancelLe(a / w, b / w, w);
  }

  lemma AsUsizeMonotone(x: real, y: real)
    requires x <= y
    ensures AsUsize(x) <= AsUsize(y)
  {
    if x > 0.0 {
      assert AsUsize(x) as real <= x <= y < AsUsize(y) as real + 1.0;
    }
  }

  /** Readings at or below the minimum select the first note, readings at or
      above the maximum the last one. */
  lemma CalculateIndexClamps(value: real, notesLength: nat, minValue: real, maxValue: real)
    requires notesLength >= 1 && minValue < maxValue
    ensures value <= minValue ==> CalculateIndex(value, notesLength, minValue, maxValue) == 0
    ensures value >= maxValue ==> CalculateIndex(value, notesLength, minValue, maxValue) == notesLength - 1
  {
    if value >= maxValue {
      var width := maxValue - minValue;
      assert Clamp(value, minValue, maxValue) == maxValue;
      var t := Normalized(value, minValue, maxValue);
      DivMul(width, width);
      assert t * width == 1.0 * width;
      CancelLe(t, 1.0, width);
      CancelLe(1.0, t, width);
      var m := (notesLength - 1) as real;
      assert 1.0 * m == m;
      assert AsUsize(m) == notesLength - 1;
    }
  }

  /** For a fixed domain, a larger reading never selects a lower note. */
  lemma CalculateIndexMonotone(v1: real, v2: real, notesLength: nat, minValue: real, maxValue: real)
    requires notesLength >= 1 && v1 <= v2
    ensures CalculateIndex(v1, notesLength, minValue, maxValue) <= CalculateIndex(v2, notesLength, minValue, maxValue)
  {
    if minValue < maxValue {
      var m := (notesLength - 1) as real;
      var t1, t2 := Normalized(v1, minValue, maxValue), Normalized(v2, minValue, maxValue);
      CalculateIndexUnfold(v1, notesLength, minValue, maxValue);
      CalculateIndexUnfold(v2, notesLength, minValue, maxValue);
      NormalizedMonotone(v1, v2, minValue, maxValue);
      ScaledMonotone(t1, t2, m);
      assert CalculateIndex(v1, notesLength, minValue, maxValue) == AsUsize(t1 * m);
      assert CalculateIndex(v2, notesLength, minValue, maxValue) == AsUsize(t2 * m);
    }
  }

  lemma ScaledMonotone(t1: real, t2: real, m: real)
    requires t1 <= t2 && m >= 0.0
    ensures AsUsize(t1 * m) <= AsUsize(t2 * m)
  {
    MulLe(t1, t2, m);
    AsUsizeMonotone(t1 * m, t2 * m);
  }

  lemma NormalizedMonotone(v1: real, v2: real, minValue: real, maxValue: real)
    requires minValue < maxValue && v1 <= v2
    ensures Normalized(v1, minValue, maxValue) <= Normalized(v2, minValue, maxValue)
  {
    DivMonotone(Clamp(v1, minValue, maxValue) - minValue, Clamp(v2, minValue, maxValue) - minValue, maxValue - minValue);
  }

  /** The published examples: 0, 100 and 50 on an 8-note palette over
      [0, 100] give 0, 7 and 3; -10 and 110 clamp to 0 and 7; a degenerate
      domain gives 0. */
  lemma CalculateIndexExamples()
    ensures CalculateIndex(0.0, 8, 0.0, 100.0) == 0
    ensures CalculateIndex(100.0, 8, 0.0, 100.0) == 7
    ensures CalculateIndex(50.0, 8, 0.0, 100.0) == 3
    ensures CalculateIndex(-10.0, 8, 0.0, 100.0) == 0
    ensures CalculateIndex(110.0, 8, 0.0, 100.0) == 7
    ensures CalculateIndex(10.0, 5, 10.0, 10.0) == 0
  {
    ExampleAtMin();
    ExampleBelowMin();
    ExampleAtMax();
    ExampleAboveMax();
    ExampleMidpoint();
  }

  lemma ExampleAtMin()
    ensures CalculateIndex(0.0, 8, 0.0, 100.0) == 0
  {
    CalculateIndexClamps(0.0, 8, 0.0, 100.0);
  }

  lemma ExampleBelowMin()
    ensures CalculateIndex(-10.0, 8, 0.0, 100.0) == 0
  {
    CalculateIndexClamps(-10.0, 8, 0.0, 100.0);
  }

  lemma ExampleAtMax()
    ensures CalculateIndex(100.0, 8, 0.0, 100.0) == 7
  {
    CalculateIndexClamps(100.0, 8, 0.0, 100.0);
  }

  lemma ExampleAboveMax()
    ensures CalculateIndex(110.0, 8, 0.0, 100.0) == 7
  {
    CalculateIndexClamps(110.0, 8, 0.0, 100.0);
  }

  /** 50 lies in the fourth of seven slices of [0, 100]. */
  lemma ExampleMidpoint()
    ensures CalculateIndex(50.0, 8, 0.0, 100.0) == 3
  {
    CalculateIndexIsBucket(50.0, 8, 0.0, 100.0);
    assert Clamp(50.0, 0.0, 100.0) == 50.0;
  }

  /** The neutral colour handed out when a palette has no colours. */
  const DefaultColor: string := "#808080"

  /** `get_color`: the colour at the index, the last colour when the index is
      past the end, the neutral grey when there are no colours. */
  function GetColor(colors: seq<string>, index: nat): (color: string)
    ensures index < |colors| ==> color == colors[index]
    ensures index >= |colors| && colors != [] ==> color == colors[|colors| - 1]
    ensures colors == [] ==> color == DefaultColor
    ensures color in colors || (colors == [] && color == DefaultColor)
  {
    if index < |colors| then colors[index]
    else if colors != [] then colors[|colors| - 1]
    else DefaultColor
  }

  /** What one mapped reading resolves to. */
  datatype Signal = Signal(frequency: nat, noteName: string, color: string)

  /** The note and colour at one palette index. */
  function Resolve(config: MetricConfig, index: nat): Signal
    requires index < |config.notes|
  {
    Signal(config.notes[index].frequency, config.notes[index].name, GetColor(config.colors, index))
  }

  /** The upper end of each continuous metric's domain (the lower end is 0). */
  function MaxValue(metricName: string): real
  {
    match metricName
    case "http_latency" => 500.0
    case "errors_per_second" => 10.0
    case "replicas" => 5.0
    case _ => 100.0
  }

  /** `map_metric`: looks the metric up, derives the index (directly for a
      categorical metric, through `CalculateIndex` otherwise), clamps it to the
      palette and resolves the note and colour at that one index. The looked-up
      palette must be non-empty: the source computes `notes.len() - 1`. */
  function MapMetric(metricName: string, value: real, soundMap: map<string, MetricConfig>): (r: Result<Signal>)
    requires metricName in soundMap ==> |soundMap[metricName].notes| >= 1
    ensures r.Err? <==> metricName !in soundMap
    ensures r.Err? ==> r.error == InvalidMetric(metricName)
    ensures r.Ok? ==> exists i :: 0 <= i < |soundMap[metricName].notes| && r.value == Resolve(soundMap[metricName], i)
  {
    if metricName !in soundMap then Err(InvalidMetric(metricName))
    else
      var config := soundMap[metricName];
      var last := |config.notes| - 1;
      var index :=
        if IsCategorical(metricName) then AsUsize(value)
        else CalculateIndex(value, |config.notes|, 0.0, MaxValue(metricName));
      var index := if index <= last then index else last;
      Ok(Resolve(config, index))
  }

  /** For a continuous metric the final clamp never changes anything: the
      signal is the one at the bucket `CalculateIndex` chooses over [0, max]. */
  lemma MapMetricContinuous(metricName: string, value: real, soundMap: map<string, MetricConfig>)
    requires metricName in soundMap && |soundMap[metricName].notes| >= 1
    requires !IsCategorical(metricName)
    ensures MapMetric(metricName, value, soundMap)
      == Ok(Resolve(soundMap[metricName], CalculateIndex(value, |soundMap[metricName].notes|, 0.0, MaxValue(metricName))))
  {
  }

  /** For a categorical metric the reading itself is the index: truncated,
      negative readings give the first note and readings past the palette the
      last one. */
  lemma MapMetricCategorical(metricName: string, value: real, soundMap: map<string, MetricConfig>)
    requires metricName in soundMap && |soundMap[metricName].notes| >= 1
    requires IsCategorical(metricName)
    ensures var n := |soundMap[metricName].notes|;
      && (value < 0.0 ==> MapMetric(metricName, value, soundMap) == Ok(Resolve(soundMap[metricName], 0)))
      && (0.0 <= value < n as real ==> MapMetric(metricName, value, soundMap) == Ok(Resolve(soundMap[metricName], value.Floor)))
      && (value >= n as real ==> MapMetric(metricName, value, soundMap) == Ok(Resolve(soundMap[metricName], n - 1)))
  {
    var n := |soundMap[metricName].notes|;
    if value >= n as real {
      assert AsUsize(value) >= n;
    }
  }

  /** On the registry every metric maps: the frequency is audible, and the
      colour is a well-formed one taken at the very index of the note, never
      the fallback. */
  lemma MapMetricOnRegistry(metricName: string, value: real)
    requires metricName in GetSoundMap()
    ensures var r := MapMetric(metricName, value, GetSoundMap());
      && r.Ok?
      && r.value.frequency > 0
      && IsHexColor(r.value.color)
      && exists i :: 0 <= i < |GetSoundMap()[metricName].notes|
           && r.value.frequency == GetSoundMap()[metricName].notes[i].frequency
           && r.value.color == GetSoundMap()[metricName].colors[i]
  {
    SoundMapWellFormed();
    var config := GetSoundMap()[metricName];
    assert WellFormed(config);
    var r := MapMetric(metricName, value, GetSoundMap());
    var i :| 0 <= i < |config.notes| && r.value == Resolve(config, i);
    assert r.value.color == config.colors[i];
  }

  /** The node-pressure sampler only ever produces 0 or 1, so a node under
      pressure sounds the second note (D4), never the note the registry's
      `"True"` state names (index 3, F4). */
  lemma PressureStateNeverConsulted(value: real)
    requires value == 0.0 || value == 1.0
    ensures var r := MapMetric("node_pressure", value, GetSoundMap());
      && r == Ok(Resolve(NodePressure, value.Floor))
      && r.value != Resolve(NodePressure, NodePressureMap["True"])
  {
    SoundMapLookup();
    MapMetricCategorical("node_pressure", value, GetSoundMap());
    assert NodePressure.notes[3].frequency == 349;
  }

  /** A name outside the registry is reported as an invalid metric. */
  lemma MapMetricUnknown(metricName: string, value: real)
    requires metricName !in MetricOrder
    ensures MapMetric(metricName, value, GetSoundMap()) == Err(InvalidMetric(metricName))
  {
  }
}
