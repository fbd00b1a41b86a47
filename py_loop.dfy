/**
 * One cycle of the poll loop of the two Python copies (the loop bodies are
 * the same). The registry is visited in declaration order; the sample of
 * each metric is an input (`None` when the sampler has no data). A missing
 * sample logs a warning and skips that metric only. Otherwise the note is
 * looked up by list subscript, the note played, the line printed in colour
 * when colour is on, and the line logged. An exception anywhere in the cycle
 * logs an error and abandons the rest of the cycle; a keyboard interrupt,
 * delivered at a metric boundary or during the closing sleep, stops the
 * loop. Sleeping and audio are not modelled; playing is an event.
 */
module PyLoop {
  import opened Types
  import opened Text
  import opened SoundMap
  import opened Color
  import Mapper
  import PyMapper
  import Simulated

  datatype Event =
    | Warned(metricName: string)
    | Played(frequency: nat)
    | Printed(line: string)
    | Logged(line: string)
    | ErrorLogged(exception: PyException)
    | Stopped
    | ConnectFailed

  /** What one metric contributes: its events, or the events before an
      exception and the exception. */
  datatype StepResult = Emitted(events: seq<Event>) | Failed(events: seq<Event>, exception: PyException)

  datatype CycleEnd = Completed | Interrupted | Aborted(exception: PyException)

  datatype Cycle = Cycle(end: CycleEnd, events: seq<Event>)

  /** The log line: display name, formatted value, unit, note, frequency and
      colour, then the extra data when there is any. The renderings of a
      float to two decimals and of a dictionary are parameters. */
  function LogMessage(config: MetricConfig, value: real, signal: Mapper.Signal, extra: Extra,
                      formatValue: real -> string, formatExtra: Extra -> string): string
  {
    config.metricName + ": " + formatValue(value) + " " + config.unit
      + " | Note: " + signal.noteName + " (" + NatToString(signal.frequency) + " Hz) | Color: " + signal.color
      + (if extra != map[] then " | Extra: " + formatExtra(extra) else "")
  }

  /** The body of the inner loop for one registry entry and its sample. */
  function Step(entry: Entry, sample: Option<Sample>, useColor: bool,
                formatValue: real -> string, formatExtra: Extra -> string): StepResult
  {
    match sample
    case None => Emitted([Warned(entry.key)])
    case Some(s) =>
      match PyMapper.MapMetric(entry.key, s.value, entry.config)
      case Raised(e) => Failed([], e)
      case Returned(signal) => Emit(signal, LogMessage(entry.config, s.value, signal, s.extra, formatValue, formatExtra), useColor)
  }

  /** The tone, the coloured print when colour is on, and the log line. */
  function Emit(signal: Mapper.Signal, line: string, useColor: bool): StepResult
  {
    if !useColor then Emitted([Played(signal.frequency), Logged(line)])
    else
      match ColorizeLine(line, signal.color, true)
      case Raised(e) => Failed([Played(signal.frequency)], e)
      case Returned(colored) => Emitted([Played(signal.frequency), Printed(colored), Logged(line)])
  }

  /** The step of every registry entry with its sample, in order. */
  function Steps(entries: seq<Entry>, samples: seq<Option<Sample>>, useColor: bool,
                 formatValue: real -> string, formatExtra: Extra -> string): (steps: seq<StepResult>)
    requires |samples| == |entries|
    ensures |steps| == |entries|
  {
    seq(|entries|, i requires 0 <= i < |entries| => Step(entries[i], samples[i], useColor, formatValue, formatExtra))
  }

  /** The cycle from step `i` on, with the events so far in `acc`. An
      interrupt at `|steps|` arrives during the closing sleep. */
  function RunFrom(steps: seq<StepResult>, interrupt: Option<nat>, i: nat, acc: seq<Event>): Cycle
    requires i <= |steps|
    decreases |steps| - i
  {
    if interrupt == Some(i) then Cycle(Interrupted, acc + [Stopped])
    else if i == |steps| then Cycle(Completed, acc)
    else
      match steps[i]
      case Failed(events, e) => Cycle(Aborted(e), acc + events + [ErrorLogged(e)])
      case Emitted(events) => RunFrom(steps, interrupt, i + 1, acc + events)
  }

  function RunCycle(entries: seq<Entry>, samples: seq<Option<Sample>>, interrupt: Option<nat>, useColor: bool,
                    formatValue: real -> string, formatExtra: Extra -> string): Cycle
    requires |samples| == |entries|
  {
    RunFrom(Steps(entries, samples, useColor, formatValue, formatExtra), interrupt, 0, [])
  }

  /** One pass of `while True` in `sonify_k8s_metrics`. */
  method PollCycle(entries: seq<Entry>, samples: seq<Option<Sample>>, interrupt: Option<nat>, useColor: bool,
                   formatValue: real -> string, formatExtra: Extra -> string) returns (c: Cycle)
    requires |samples| == |entries|
    ensures c == RunCycle(entries, samples, interrupt, useColor, formatValue, formatExtra)
  {
    var events: seq<Event> := [];
    var i := 0;
    ghost var steps := Steps(entries, samples, useColor, formatValue, formatExtra);
    while i < |entries|
      invariant 0 <= i <= |entries|
      invariant RunCycle(entries, samples, interrupt, useColor, formatValue, formatExtra)
        == RunFrom(steps, interrupt, i, events)
    {
      if interrupt == Some(i) {
        return Cycle(Interrupted, events + [Stopped]);
      }
      var metricName := entries[i].key;
      var config := entries[i].config;
      var data := samples[i];
      if data.None? {
        events := events + [Warned(metricName)];
        i := i + 1;
        continue;
      }
      var value, extra := data.value.value, data.value.extra;
      var outcome := PlayAndLog(metricName, config, value, extra, useColor, formatValue, formatExtra);
      if outcome.Failed? {
        return Cycle(Aborted(outcome.exception), events + outcome.events + [ErrorLogged(outcome.exception)]);
      }
      events := events + outcome.events;
      i := i + 1;
    }
    if interrupt == Some(|entries|) {
      return Cycle(Interrupted, events + [Stopped]);
    }
    c := Cycle(Completed, events);
  }

  /** The body of the inner loop for a metric that has a sample: the index,
      the note by subscript, the colour, the tone, the coloured print and the
      log line. */
  method PlayAndLog(metricName: string, config: MetricConfig, value: real, extra: Extra, useColor: bool,
                    formatValue: real -> string, formatExtra: Extra -> string) returns (r: StepResult)
    ensures r == Step(Entry(metricName, config), Some(Sample(value, extra)), useColor, formatValue, formatExtra)
  {
    var notes, colors := config.notes, config.colors;
    var index := if IsCategorical(metricName) then PyMapper.Trunc(value)
                 else PyMapper.CalculateIndex(value, |notes|, 0.0, Mapper.MaxValue(metricName));
    assert index == PyMapper.ReadingIndex(metricName, value, config);
    var note := PyMapper.Subscript(notes, index);
    if note.None? {
      assert PyMapper.MapMetric(metricName, value, config) == Raised(IndexError);
      return Failed([], IndexError);
    }
    var color := PyMapper.GetColor(colors, index);
    var signal := Mapper.Signal(note.value.frequency, note.value.name, color);
    assert PyMapper.MapMetric(metricName, value, config) == Returned(signal);
    var line := LogMessage(config, value, signal, extra, formatValue, formatExtra);
    r := PlayPrintLog(signal, line, useColor);
  }

  /** The tone, the coloured print when colour is on, and the log line. */
  method PlayPrintLog(signal: Mapper.Signal, line: string, useColor: bool) returns (r: StepResult)
    ensures r == Emit(signal, line, useColor)
  {
    var events := [Played(signal.frequency)];
    if useColor {
      var colored := ColorizeLine(line, signal.color, useColor);
      if colored.Raised? {
        return Failed(events, colored.exception);
      }
      events := events + [Printed(colored.value)];
    }
    r := Emitted(events + [Logged(line)]);
  }

  /** The events of steps `i` to `k - 1`, concatenated. */
  function EventsBetween(steps: seq<StepResult>, i: nat, k: nat): seq<Event>
    requires i <= k <= |steps|
    decreases k - i
  {
    if i == k then [] else steps[i].events + EventsBetween(steps, i + 1, k)
  }

  /** When no step fails and no interrupt comes, the cycle completes and its
      events are those of every step in order. */
  lemma {:induction false} CycleCompletes(steps: seq<StepResult>, interrupt: Option<nat>, i: nat, acc: seq<Event>)
    requires i <= |steps|
    requires interrupt.None? || interrupt.value > |steps|
    requires forall k :: i <= k < |steps| ==> steps[k].Emitted?
    ensures RunFrom(steps, interrupt, i, acc) == Cycle(Completed, acc + EventsBetween(steps, i, |steps|))
    decreases |steps| - i
  {
    if i == |steps| {
      assert acc + [] == acc;
    } else {
      var events := steps[i].events;
      CycleCompletes(steps, interrupt, i + 1, acc + events);
      assert acc + events + EventsBetween(steps, i + 1, |steps|) == acc + EventsBetween(steps, i, |steps|);
    }
  }

  /** The first failing step ends the cycle: the events of the steps before
      it, what the failing step emitted, and the error; nothing of the steps
      after it. */
  lemma {:induction false} FailureAbandonsRest(steps: seq<StepResult>, interrupt: Option<nat>, i: nat, k: nat, acc: seq<Event>)
    requires i <= k < |steps|
    requires interrupt.None? || interrupt.value > k
    requires forall j :: i <= j < k ==> steps[j].Emitted?
    requires steps[k].Failed?
    ensures RunFrom(steps, interrupt, i, acc)
      == Cycle(Aborted(steps[k].exception), acc + EventsBetween(steps, i, k) + steps[k].events + [ErrorLogged(steps[k].exception)])
    decreases k - i
  {
    if i == k {
      assert acc + [] == acc;
    } else {
      var events := steps[i].events;
      FailureAbandonsRest(steps, interrupt, i + 1, k, acc + events);
      assert acc + events + EventsBetween(steps, i + 1, k) == acc + EventsBetween(steps, i, k);
    }
  }

  /** An interrupt before the first metric stops the loop with nothing
      emitted. */
  lemma InterruptFirst(entries: seq<Entry>, samples: seq<Option<Sample>>, useColor: bool,
                       formatValue: real -> string, formatExtra: Extra -> string)
    requires |samples| == |entries|
    ensures RunCycle(entries, samples, Some(0), useColor, formatValue, formatExtra) == Cycle(Interrupted, [Stopped])
  {
  }

  /** A missing sample logs a warning for that metric and the cycle goes on
      with the next one. */
  lemma MissingSampleSkipsMetric(entries: seq<Entry>, samples: seq<Option<Sample>>, interrupt: Option<nat>, useColor: bool,
                                 formatValue: real -> string, formatExtra: Extra -> string, i: nat, acc: seq<Event>)
    requires |samples| == |entries| && i < |entries|
    requires samples[i].None? && interrupt != Some(i)
    ensures var steps := Steps(entries, samples, useColor, formatValue, formatExtra);
      RunFrom(steps, interrupt, i, acc) == RunFrom(steps, interrupt, i + 1, acc + [Warned(entries[i].key)])
  {
  }

  /** A palette whose colours all decode never makes the coloured print
      raise. */
  predicate ColorsDecode(config: MetricConfig)
  {
    forall i :: 0 <= i < |config.colors| ==> HexToRgb(config.colors[i]).Some?
  }

  /** A sample never fails its step when the palette is non-empty, its
      colours decode, and a categorical reading names a note. */
  lemma StepEmits(entry: Entry, sample: Option<Sample>, useColor: bool,
                  formatValue: real -> string, formatExtra: Extra -> string)
    requires |entry.config.notes| >= 1 && |entry.config.colors| >= 1 && ColorsDecode(entry.config)
    requires sample.Some? && IsCategorical(entry.key) ==> 0.0 <= sample.value.value < |entry.config.notes| as real
    ensures Step(entry, sample, useColor, formatValue, formatExtra).Emitted?
  {
    if sample.Some? {
      var s := sample.value;
      var config := entry.config;
      var index := PyMapper.ReadingIndex(entry.key, s.value, config);
      assert 0 <= index < |config.notes|;
      var color := PyMapper.GetColor(config.colors, index);
      assert HexToRgb(color).Some?;
      var signal := Mapper.Signal(config.notes[index].frequency, config.notes[index].name, color);
      assert PyMapper.MapMetric(entry.key, s.value, config) == Returned(signal);
      var line := LogMessage(config, s.value, signal, s.extra, formatValue, formatExtra);
      ColorizeLineAgreesWhenDecodable(line, color, true);
    }
  }

  /** Every colour of the live registry decodes; so does every colour of the
      simulated one, the three written without `#` included. */
  lemma RegistryColorsDecode()
    ensures forall i :: 0 <= i < |PySoundMap()| ==> ColorsDecode(PySoundMap()[i].config)
    ensures forall i :: 0 <= i < |SimulatedSoundMap()| ==> ColorsDecode(SimulatedSoundMap()[i].config)
  {
    PySoundMapWellFormed();
    forall i, j | 0 <= i < |PySoundMap()| && 0 <= j < |PySoundMap()[i].config.colors|
      ensures HexToRgb(PySoundMap()[i].config.colors[j]).Some?
    {
      HexColorDecodes(PySoundMap()[i].config.colors[j]);
    }
    SimulatedReplicaColorsLackHash();
    var replicas := SimulatedSoundMap()[5].config.colors;
    forall j | 0 <= j < |replicas|
      ensures HexToRgb(replicas[j]).Some?
    {
      if j < 5 {
        assert replicas[j] == PySoundMap()[5].config.colors[j];
      } else {
        HexToRgbIgnoresHash(replicas[j]);
      }
    }
  }

  /** A cycle over the live registry completes, logging every metric in
      declaration order, as long as no interrupt comes and every categorical
      sample names a note. */
  lemma LiveCycleCompletes(samples: seq<Option<Sample>>, useColor: bool,
                           formatValue: real -> string, formatExtra: Extra -> string)
    requires |samples| == |PySoundMap()|
    requires forall i :: 0 <= i < |samples| && samples[i].Some? && IsCategorical(MetricOrder[i]) ==>
      0.0 <= samples[i].value.value < 4.0
    ensures var steps := Steps(PySoundMap(), samples, useColor, formatValue, formatExtra);
      RunCycle(PySoundMap(), samples, None, useColor, formatValue, formatExtra)
        == Cycle(Completed, EventsBetween(steps, 0, |steps|))
  {
    var entries := PySoundMap();
    PySoundMapWellFormed();
    RegistryColorsDecode();
    forall k | 0 <= k < |entries|
      ensures Steps(entries, samples, useColor, formatValue, formatExtra)[k].Emitted?
    {
      StepEmits(entries[k], samples[k], useColor, formatValue, formatExtra);
    }
    var steps := Steps(entries, samples, useColor, formatValue, formatExtra);
    CycleCompletes(steps, None, 0, []);
    assert [] + EventsBetween(steps, 0, |steps|) == EventsBetween(steps, 0, |steps|);
  }

  /** A cycle of the simulated copy over in-range draws always completes:
      every draw gives a sample, the categorical ones name a note, and the
      replica colours without `#` still decode. */
  lemma SimulatedCycleCompletes(draws: seq<Simulated.Draw>, samples: seq<Option<Sample>>, useColor: bool,
                                formatValue: real -> string, formatExtra: Extra -> string)
    requires |draws| == |samples| == |SimulatedSoundMap()|
    requires forall i :: 0 <= i < |draws| ==>
      Simulated.InRange(draws[i]) && samples[i] == Simulated.SimulatedData(MetricOrder[i], draws[i])
    ensures RunCycle(SimulatedSoundMap(), samples, None, useColor, formatValue, formatExtra).end == Completed
  {
    var entries := SimulatedSoundMap();
    forall k | 0 <= k < |entries|
      ensures Steps(entries, samples, useColor, formatValue, formatExtra)[k].Emitted?
    {
      SimulatedStepEmits(k, draws[k], samples[k], useColor, formatValue, formatExtra);
    }
    CycleCompletes(Steps(entries, samples, useColor, formatValue, formatExtra), None, 0, []);
  }

  lemma SimulatedStepEmits(k: nat, draw: Simulated.Draw, sample: Option<Sample>, useColor: bool,
                           formatValue: real -> string, formatExtra: Extra -> string)
    requires k < |SimulatedSoundMap()|
    requires Simulated.InRange(draw) && sample == Simulated.SimulatedData(MetricOrder[k], draw)
    ensures Step(SimulatedSoundMap()[k], sample, useColor, formatValue, formatExtra).Emitted?
  {
    var entry := SimulatedSoundMap()[k];
    assert ColorsDecode(entry.config) by { RegistryColorsDecode(); }
    assert |entry.config.notes| >= 1 && |entry.config.colors| >= 1 by {
      PySoundMapWellFormed();
      SimulatedReplicaColorsLackHash();
      assert WellFormed(PySoundMap()[k].config);
    }
    if sample.Some? && IsCategorical(entry.key) {
      assert |entry.config.notes| == 4 by {
        PySoundMapMatchesRust();
        SimulatedReplicaColorsLackHash();
        SoundMapWellFormed();
      }
      Simulated.SimulatedRanges(draw);
    }
    StepEmits(entry, sample, useColor, formatValue, formatExtra);
  }

  /** A pod status of 4 has no note: the Python cycle is abandoned at that
      metric, while the Rust mapper clamps it to the last note. */
  lemma PodStatusPastPaletteAborts(useColor: bool, formatValue: real -> string, formatExtra: Extra -> string)
    ensures Step(PySoundMap()[2], Some(Sample(4.0, map[])), useColor, formatValue, formatExtra) == Failed([], IndexError)
    ensures Mapper.MapMetric("pod_status", 4.0, GetSoundMap()) == Ok(Mapper.Resolve(PodStatus, 3))
  {
    PyPodStatusPastPalette(useColor, formatValue, formatExtra);
    RustPodStatusPastPalette();
  }

  lemma PyPodStatusPastPalette(useColor: bool, formatValue: real -> string, formatExtra: Extra -> string)
    ensures Step(PySoundMap()[2], Some(Sample(4.0, map[])), useColor, formatValue, formatExtra) == Failed([], IndexError)
  {
    assert PySoundMap()[2] == Entry("pod_status", PodStatus);
    assert PyMapper.Trunc(4.0) == 4;
  }

  lemma RustPodStatusPastPalette()
    ensures Mapper.MapMetric("pod_status", 4.0, GetSoundMap()) == Ok(Mapper.Resolve(PodStatus, 3))
  {
    SoundMapLookup();
  }

  /** The inputs of one pass of the outer loop: one sample outcome per
      registry entry, and where an interrupt arrives, if at all. */
  datatype CycleInput = CycleInput(samples: seq<Option<Sample>>, interrupt: Option<nat>)

  predicate Fits(entries: seq<Entry>, inputs: seq<CycleInput>)
  {
    forall k :: 0 <= k < |inputs| ==> |inputs[k].samples| == |entries|
  }

  /** The outer loop over the given passes: an interrupted pass ends the
      loop, a completed or abandoned one is followed by the next. */
  function LoopEvents(cycles: seq<Cycle>): seq<Event>
  {
    if cycles == [] then []
    else if cycles[0].end == Interrupted then cycles[0].events
    else cycles[0].events + LoopEvents(cycles[1..])
  }

  /** The pass of every input, in order. */
  function Cycles(entries: seq<Entry>, inputs: seq<CycleInput>, useColor: bool,
                  formatValue: real -> string, formatExtra: Extra -> string): (cycles: seq<Cycle>)
    requires Fits(entries, inputs)
    ensures |cycles| == |inputs|
  {
    seq(|inputs|, k requires 0 <= k < |inputs| =>
      RunCycle(entries, inputs[k].samples, inputs[k].interrupt, useColor, formatValue, formatExtra))
  }

  function RunLoop(entries: seq<Entry>, inputs: seq<CycleInput>, useColor: bool,
                   formatValue: real -> string, formatExtra: Extra -> string): seq<Event>
    requires Fits(entries, inputs)
  {
    LoopEvents(Cycles(entries, inputs, useColor, formatValue, formatExtra))
  }

  /** `use_color` when the caller gives none: whether `SHOW_COLOR` (default
      `"false"`) reads `"true"` in any case. */
  function ResolveUseColor(useColor: Option<bool>, env: map<string, string>): (b: bool)
    ensures useColor.Some? ==> b == useColor.value
    ensures useColor.None? && "SHOW_COLOR" !in env ==> !b
  {
    if useColor.Some? then useColor.value
    else
      assert ToLower("false") == "false";
      ToLower(if "SHOW_COLOR" in env then env["SHOW_COLOR"] else "false") == "true"
  }

  /** `sonify_k8s_metrics`: the connection attempt of the live copy (the
      simulated copy always proceeds), then the passes of `while True`. */
  method SonifyK8sMetrics(entries: seq<Entry>, connected: bool, inputs: seq<CycleInput>, useColor: bool,
                          formatValue: real -> string, formatExtra: Extra -> string) returns (events: seq<Event>)
    requires Fits(entries, inputs)
    ensures !connected ==> events == [ConnectFailed]
    ensures connected ==> events == RunLoop(entries, inputs, useColor, formatValue, formatExtra)
  {
    if !connected {
      return [ConnectFailed];
    }
    events := [];
    var k := 0;
    ghost var cycles := Cycles(entries, inputs, useColor, formatValue, formatExtra);
    while k < |inputs|
      invariant 0 <= k <= |inputs|
      invariant LoopEvents(cycles) == events + LoopEvents(cycles[k..])
    {
      var c := PollCycle(entries, inputs[k].samples, inputs[k].interrupt, useColor, formatValue, formatExtra);
      assert c == cycles[k..][0];
      events := events + c.events;
      if c.end == Interrupted {
        return;
      }
      assert cycles[k..][1..] == cycles[k + 1..];
      k := k + 1;
    }
    assert cycles[k..] == [];
    assert events + [] == events;
  }

  /** No step emits the stop event. */
  lemma StepNeverStops(entry: Entry, sample: Option<Sample>, useColor: bool,
                       formatValue: real -> string, formatExtra: Extra -> string)
    ensures Stopped !in Step(entry, sample, useColor, formatValue, formatExtra).events
  {
  }

  /** A pass emits the stop event exactly when it is interrupted, and then as
      its last event. */
  lemma {:induction false} StopMeansInterrupted(steps: seq<StepResult>, interrupt: Option<nat>, i: nat, acc: seq<Event>)
    requires i <= |steps| && Stopped !in acc
    requires forall k :: i <= k < |steps| ==> Stopped !in steps[k].events
    ensures var c := RunFrom(steps, interrupt, i, acc);
      && (Stopped in c.events <==> c.end == Interrupted)
      && (c.end == Interrupted ==> c.events[|c.events| - 1] == Stopped && Stopped !in c.events[..|c.events| - 1])
    decreases |steps| - i
  {
    if interrupt == Some(i) {
      assert (acc + [Stopped])[..|acc|] == acc;
    } else if i < |steps| {
      var events := acc + steps[i].events;
      assert Stopped !in events;
      if steps[i].Emitted? {
        StopMeansInterrupted(steps, interrupt, i + 1, events);
      } else {
        assert RunFrom(steps, interrupt, i, acc) == Cycle(Aborted(steps[i].exception), events + [ErrorLogged(steps[i].exception)]);
      }
    }
  }

  /** No step of a cycle emits the stop event. */
  lemma StepsNeverStop(entries: seq<Entry>, samples: seq<Option<Sample>>, useColor: bool,
                       formatValue: real -> string, formatExtra: Extra -> string)
    requires |samples| == |entries|
    ensures var steps := Steps(entries, samples, useColor, formatValue, formatExtra);
      forall k :: 0 <= k < |steps| ==> Stopped !in steps[k].events
  {
    forall k | 0 <= k < |entries| ensures Stopped !in Steps(entries, samples, useColor, formatValue, formatExtra)[k].events {
      StepNeverStops(entries[k], samples[k], useColor, formatValue, formatExtra);
    }
  }

  /** Each pass of the loop emits the stop event exactly when it is
      interrupted, and then as its last event. */
  predicate StopsLast(c: Cycle)
  {
    && (Stopped in c.events <==> c.end == Interrupted)
    && (c.end == Interrupted ==> c.events[|c.events| - 1] == Stopped && Stopped !in c.events[..|c.events| - 1])
  }

  /** The stop event ends the outer loop: when it occurs, it is the last
      event, and it occurs once. */
  lemma {:induction false} StopEndsLoop(cycles: seq<Cycle>)
    requires forall k :: 0 <= k < |cycles| ==> StopsLast(cycles[k])
    ensures var events := LoopEvents(cycles);
      Stopped in events ==> events[|events| - 1] == Stopped && Stopped !in events[..|events| - 1]
  {
    if cycles != [] && cycles[0].end != Interrupted {
      assert StopsLast(cycles[0]);
      StopEndsLoop(cycles[1..]);
      StopLastOfAppend(cycles[0].events, LoopEvents(cycles[1..]));
    }
  }

  lemma LoopStopsAtInterrupt(entries: seq<Entry>, inputs: seq<CycleInput>, useColor: bool,
                             formatValue: real -> string, formatExtra: Extra -> string)
    requires Fits(entries, inputs)
    ensures var events := RunLoop(entries, inputs, useColor, formatValue, formatExtra);
      Stopped in events ==> events[|events| - 1] == Stopped && Stopped !in events[..|events| - 1]
  {
    var cycles := Cycles(entries, inputs, useColor, formatValue, formatExtra);
    forall k | 0 <= k < |cycles| ensures StopsLast(cycles[k]) {
      StepsNeverStop(entries, inputs[k].samples, useColor, formatValue, formatExtra);
      StopMeansInterrupted(Steps(entries, inputs[k].samples, useColor, formatValue, formatExtra), inputs[k].interrupt, 0, []);
    }
    StopEndsLoop(cycles);
  }

  /** A stop-free prefix keeps the stop event last and single. */
  lemma StopLastOfAppend(a: seq<Event>, b: seq<Event>)
    requires Stopped !in a
    requires Stopped in b ==> b[|b| - 1] == Stopped && Stopped !in b[..|b| - 1]
    ensures Stopped in a + b ==> (a + b)[|a + b| - 1] == Stopped && Stopped !in (a + b)[..|a + b| - 1]
  {
    if Stopped in a + b {
      assert Stopped in b;
      assert (a + b)[..|a + b| - 1] == a + b[..|b| - 1];
    }
  }
}
