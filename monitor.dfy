/**
 * The Rust program's start-up overrides and one tick of its monitoring
 * loop. Each tick walks the configured metric names in order: it fetches a
 * sample through the Kubernetes client, maps it to a note and colour, plays
 * the tone, and prints and logs one line. A failure at any stage is logged
 * and the tick moves on to the next metric. What the tick does is recorded
 * as a sequence of events. The audio backend's outcome for each tone is an
 * input, and so are the renderings of a float with two decimals and of the
 * extra data in debug form.
 */
module Monitor {
  import opened Types
  import opened Text
  import opened SoundMap
  import opened Mapper
  import opened Color
  import opened Configuration
  import opened KubeClient
  import opened K8sMetrics

  /** The command-line options that override the configuration. The
      namespace option is always present: it defaults to `"default"`. */
  datatype CliArgs = CliArgs(color: bool, interval: Option<nat>, namespace: string)

  /** The configuration after the command-line overrides. */
  function CliOverridden(config: Config, args: CliArgs): Config
  {
    var useColor := if args.color then true else config.monitoring.useColor;
    var interval := if args.interval.Some? then args.interval.value else config.monitoring.pollInterval;
    config.(monitoring := config.monitoring.(useColor := useColor, pollInterval := interval),
            kubernetes := config.kubernetes.(namespace := args.namespace))
  }

  /** The overrides as `main` applies them, one field at a time. */
  method ApplyCliOverrides(config: Config, args: CliArgs) returns (c: Config)
    ensures c == CliOverridden(config, args)
  {
    c := config;
    if args.color {
      c := c.(monitoring := c.monitoring.(useColor := true));
    }
    if args.interval.Some? {
      c := c.(monitoring := c.monitoring.(pollInterval := args.interval.value));
    }
    c := c.(kubernetes := c.kubernetes.(namespace := args.namespace));
  }

  /** The colour flag can switch colour on but never off; an interval
      given on the command line wins; the namespace is always the
      command line's, so one set by `K8S_NAMESPACE` never reaches the
      client; nothing else changes. */
  lemma CliOverridesEffect(config: Config, env: map<string, string>, args: CliArgs)
    ensures var c := CliOverridden(config, args);
      && c.monitoring.useColor == (config.monitoring.useColor || args.color)
      && (args.interval.Some? ==> c.monitoring.pollInterval == args.interval.value)
      && (args.interval.None? ==> c.monitoring.pollInterval == config.monitoring.pollInterval)
      && c.kubernetes.namespace == args.namespace
      && c.kubernetes.useKubeconfig == config.kubernetes.useKubeconfig
      && c.kubernetes.apiUrl == config.kubernetes.apiUrl
      && c.monitoring.verbose == config.monitoring.verbose
      && c.audio == config.audio
      && c.metrics == config.metrics
    ensures CliOverridden(MergedEnv(config, env), args).kubernetes.namespace == args.namespace
  {
  }

  /** `AudioEngine::play_tone` up to the audio backend, whose outcome is
      `backend`: a disabled engine plays nothing and succeeds before the
      frequency is looked at; a frequency that is not positive is refused. */
  function PlayTone(enabled: bool, frequency: real, backend: Result<()>): (r: Result<()>)
    ensures !enabled ==> r == Ok(())
    ensures enabled && frequency <= 0.0 ==> r == Err(InvalidFrequency(frequency))
    ensures enabled && frequency > 0.0 ==> r == backend
  {
    if !enabled then Ok(())
    else if frequency <= 0.0 then Err(InvalidFrequency(frequency))
    else backend
  }

  /** What one tick reports, in order. */
  datatype Event =
    | NoData(metricName: string)
    | FetchFailed(metricName: string, error: SonifyError)
    | MapFailed(metricName: string, error: SonifyError)
    | ToneFailed(error: SonifyError)
    | Printed(line: string)
    | Logged(message: string)

  /** The run's display settings and the two renderings the model leaves
      abstract: a reading with two decimals, and the extra data in debug
      form (whose key order follows the hash map's iteration). */
  datatype Settings = Settings(
    audioEnabled: bool,
    useColor: bool,
    formatValue: real -> string,
    formatExtra: Extra -> string)

  /** The line printed and logged for one mapped reading. */
  function LogMessage(config: MetricConfig, value: real, signal: Signal, extra: Extra, s: Settings): string
  {
    config.metricName + ": " + s.formatValue(value) + " " + config.unit
    + " | Note: " + signal.noteName + " (" + NatToString(signal.frequency) + " Hz)"
    + " | Color: " + signal.color + " | Extra: " + s.formatExtra(extra)
  }

  /** The events of one mapped reading: a failed tone is logged and the
      line is still printed and logged. The printed line is coloured only
      when colour is on. */
  function Report(metricName: string, sample: Sample, signal: Signal, backend: Result<()>, s: Settings): seq<Event>
  {
    var tone := PlayTone(s.audioEnabled, signal.frequency as real, backend);
    var toneEvents := if tone.Err? then [ToneFailed(tone.error)] else [];
    if metricName in GetSoundMap() then
      var message := LogMessage(GetSoundMap()[metricName], sample.value, signal, sample.extra, s);
      var line := if s.useColor then Colorize(message, signal.color, true) else message;
      toneEvents + [Printed(line), Logged(message)]
    else
      toneEvents
  }

  /** The events of one metric of a tick, given what fetching it gave. */
  function MetricEvents(metricName: string, data: Result<Option<Sample>>, backend: Result<()>, s: Settings): seq<Event>
  {
    match data
    case Err(e) => [FetchFailed(metricName, e)]
    case Ok(None) => [NoData(metricName)]
    case Ok(Some(sample)) =>
      match MapMetric(metricName, sample.value, GetSoundMap())
      case Err(e) => [MapFailed(metricName, e)]
      case Ok(signal) => Report(metricName, sample, signal, backend, s)
  }

  /** The events of a tick over `metrics`, the i-th tone's backend outcome
      being `backends[i]`. */
  function TickEvents(metrics: seq<string>, connected: bool, cluster: Listings, backends: seq<Result<()>>, s: Settings): seq<Event>
    requires |backends| == |metrics|
  {
    Concat(PerMetric(metrics, connected, cluster, backends, s))
  }

  /** The events of each metric of a tick, in list order. */
  function PerMetric(metrics: seq<string>, connected: bool, cluster: Listings, backends: seq<Result<()>>, s: Settings): (parts: seq<seq<Event>>)
    requires |backends| == |metrics|
    ensures |parts| == |metrics|
  {
    seq(|metrics|, i requires 0 <= i < |metrics| => MetricEvents(metrics[i], K8sData(metrics[i], connected, cluster), backends[i], s))
  }

  /** The parts one after the other. */
  function Concat(parts: seq<seq<Event>>): seq<Event>
  {
    if parts == [] then [] else Concat(parts[..|parts| - 1]) + parts[|parts| - 1]
  }

  lemma {:induction false} ConcatAppend(a: seq<seq<Event>>, b: seq<seq<Event>>)
    ensures Concat(a + b) == Concat(a) + Concat(b)
    decreases |b|
  {
    if b == [] {
      assert a + b == a;
    } else {
      var n := |b| - 1;
      assert (a + b)[..|a| + n] == a + b[..n];
      ConcatAppend(a, b[..n]);
    }
  }

  /** An event of the concatenation comes from one of the parts. */
  lemma {:induction false} ConcatMember(parts: seq<seq<Event>>, e: Event)
    requires e in Concat(parts)
    ensures exists k :: 0 <= k < |parts| && e in parts[k]
  {
    var n := |parts| - 1;
    if e in parts[n] {
    } else {
      ConcatMember(parts[..n], e);
      var k :| 0 <= k < n && e in parts[..n][k];
      assert parts[..n][k] == parts[k];
    }
  }

  /** Parts of one event each concatenate to those events in order. */
  lemma {:induction false} ConcatSingletons(parts: seq<seq<Event>>)
    requires forall k :: 0 <= k < |parts| ==> |parts[k]| == 1
    ensures |Concat(parts)| == |parts|
    ensures forall i :: 0 <= i < |parts| ==> Concat(parts)[i] == parts[i][0]
  {
    if parts != [] {
      var n := |parts| - 1;
      ConcatSingletons(parts[..n]);
    }
  }

  /** Plays, prints and logs one mapped reading. */
  method PlayAndReport(metricName: string, sample: Sample, signal: Signal, backend: Result<()>, s: Settings)
    returns (events: seq<Event>)
    ensures events == Report(metricName, sample, signal, backend, s)
  {
    events := [];
    var tone := PlayTone(s.audioEnabled, signal.frequency as real, backend);
    if tone.Err? {
      events := events + [ToneFailed(tone.error)];
    }
    var soundMap := GetSoundMap();
    if metricName in soundMap {
      var metricConfig := soundMap[metricName];
      var message := LogMessage(metricConfig, sample.value, signal, sample.extra, s);
      if s.useColor {
        events := events + [Printed(Colorize(message, signal.color, true))];
      } else {
        events := events + [Printed(message)];
      }
      events := events + [Logged(message)];
    }
  }

  /** One tick of the monitoring loop: every metric in turn, skipping to
      the next one after a warning or an error. */
  method Tick(metrics: seq<string>, client: K8sClient, cluster: Listings, backends: seq<Result<()>>, s: Settings)
    returns (events: seq<Event>)
    requires |backends| == |metrics|
    ensures events == TickEvents(metrics, client.connected, cluster, backends, s)
  {
    var soundMap := GetSoundMap();
    SoundMapWellFormed();
    events := [];
    ghost var parts := PerMetric(metrics, client.connected, cluster, backends, s);
    for i := 0 to |metrics|
      invariant events == Concat(parts[..i])
    {
      assert Concat(parts[..i + 1]) == events + parts[i] by {
        assert parts[..i + 1][..i] == parts[..i];
      }
      var metricName := metrics[i];
      var data := GetK8sData(metricName, client, cluster);
      assert parts[i] == MetricEvents(metricName, data, backends[i], s);
      if data.Err? {
        events := events + [FetchFailed(metricName, data.error)];
        continue;
      }
      if data.value.None? {
        events := events + [NoData(metricName)];
        continue;
      }
      var sample := data.value.value;
      var mapped := MapMetric(metricName, sample.value, soundMap);
      if mapped.Err? {
        events := events + [MapFailed(metricName, mapped.error)];
        continue;
      }
      var reported := PlayAndReport(metricName, sample, mapped.value, backends[i], s);
      events := events + reported;
    }
    assert parts[..|metrics|] == parts;
  }

  /** A tick reports metric by metric: its events are those of the first
      metrics followed by those of the last. */
  lemma TickEventsAppend(metrics: seq<string>, more: seq<string>, connected: bool, cluster: Listings,
                         backends: seq<Result<()>>, moreBackends: seq<Result<()>>, s: Settings)
    requires |backends| == |metrics| && |moreBackends| == |more|
    ensures TickEvents(metrics + more, connected, cluster, backends + moreBackends, s)
      == TickEvents(metrics, connected, cluster, backends, s) + TickEvents(more, connected, cluster, moreBackends, s)
  {
    var a := PerMetric(metrics, connected, cluster, backends, s);
    var b := PerMetric(more, connected, cluster, moreBackends, s);
    assert PerMetric(metrics + more, connected, cluster, backends + moreBackends, s) == a + b;
    ConcatAppend(a, b);
  }

  /** A name the dispatch does not know is only warned about, and a known
      one is never reported as unmappable: fetching and mapping agree on the
      names they accept. */
  lemma MetricOutcomes(metricName: string, connected: bool, cluster: Listings, backend: Result<()>, s: Settings)
    ensures !Known(metricName) ==>
      MetricEvents(metricName, K8sData(metricName, connected, cluster), backend, s) == [NoData(metricName)]
    ensures forall e :: e in MetricEvents(metricName, K8sData(metricName, connected, cluster), backend, s) ==> !e.MapFailed?
  {
    var data := K8sData(metricName, connected, cluster);
    UnknownIffNoSample(metricName, connected, cluster);
    if data.Ok? && data.value.Some? {
      var sample := data.value.value;
      assert MapMetric(metricName, sample.value, GetSoundMap()).Ok? by {
        SoundMapWellFormed();
        MapMetricOnRegistry(metricName, sample.value);
      }
      ReportNeverMapFails(metricName, sample, MapMetric(metricName, sample.value, GetSoundMap()).value, backend, s);
    }
  }

  lemma ReportNeverMapFails(metricName: string, sample: Sample, signal: Signal, backend: Result<()>, s: Settings)
    ensures forall e :: e in Report(metricName, sample, signal, backend, s) ==> !e.MapFailed?
  {
  }

  /** No tick ever reports a mapping failure. */
  lemma TickNeverMapFails(metrics: seq<string>, connected: bool, cluster: Listings,
                          backends: seq<Result<()>>, s: Settings)
    requires |backends| == |metrics|
    ensures forall e :: e in TickEvents(metrics, connected, cluster, backends, s) ==> !e.MapFailed?
  {
    var parts := PerMetric(metrics, connected, cluster, backends, s);
    forall e | e in Concat(parts) ensures !e.MapFailed? {
      ConcatMember(parts, e);
      var k :| 0 <= k < |parts| && e in parts[k];
      MetricOutcomes(metrics[k], connected, cluster, backends[k], s);
    }
  }

  /** A tick on an unconnected client reports, for each known metric in
      turn, exactly one `ClientNotInitialized` failure. This describes the
      guard of `get_k8s_data`: `main` itself exits when initialisation
      fails, so its own loop never ticks unconnected. */
  lemma UnconnectedTick(metrics: seq<string>, cluster: Listings, backends: seq<Result<()>>, s: Settings)
    requires |backends| == |metrics|
    requires forall i :: 0 <= i < |metrics| ==> Known(metrics[i])
    ensures var events := TickEvents(metrics, false, cluster, backends, s);
      && |events| == |metrics|
      && forall i :: 0 <= i < |metrics| ==> events[i] == FetchFailed(metrics[i], ClientNotInitialized)
  {
    var parts := PerMetric(metrics, false, cluster, backends, s);
    forall k | 0 <= k < |parts| ensures parts[k] == [FetchFailed(metrics[k], ClientNotInitialized)] {
      UnconnectedFails(metrics[k], cluster);
    }
    ConcatSingletons(parts);
  }

  /** On the registry a mapped reading always reaches the display: a tone
      is never refused for its frequency, a backend failure is reported
      before the line, and the line is printed and then logged. */
  lemma ReportOnRegistry(metricName: string, sample: Sample, signal: Signal, backend: Result<()>, s: Settings)
    requires MapMetric(metricName, sample.value, GetSoundMap()) == Ok(signal)
    ensures metricName in GetSoundMap()
    ensures signal.frequency > 0
    ensures MetricEvents(metricName, Ok(Some(sample)), backend, s)
      == (if s.audioEnabled && backend.Err? then [ToneFailed(backend.error)] else [])
         + [Printed(if s.useColor then Colorize(LogMessage(GetSoundMap()[metricName], sample.value, signal, sample.extra, s), signal.color, true)
                    else LogMessage(GetSoundMap()[metricName], sample.value, signal, sample.extra, s)),
            Logged(LogMessage(GetSoundMap()[metricName], sample.value, signal, sample.extra, s))]
  {
    MapMetricOnRegistry(metricName, sample.value);
    assert MetricEvents(metricName, Ok(Some(sample)), backend, s) == Report(metricName, sample, signal, backend, s);
    assert PlayTone(s.audioEnabled, signal.frequency as real, backend) == (if s.audioEnabled then backend else Ok(()));
  }

  /** The printed line carries colour codes exactly when colour is on,
      wrapped around the logged text; the logged text never does. */
  lemma PrintedColouredIffColourOn(metricName: string, sample: Sample, signal: Signal, backend: Result<()>, s: Settings)
    requires MapMetric(metricName, sample.value, GetSoundMap()) == Ok(signal)
    ensures var events := MetricEvents(metricName, Ok(Some(sample)), backend, s);
      && |events| >= 2
      && events[|events| - 2].Printed? && events[|events| - 1].Logged?
      && (events[|events| - 2].line != events[|events| - 1].message <==> s.useColor)
      && (s.useColor ==> EndsWith(events[|events| - 2].line, Reset))
  {
    ReportOnRegistry(metricName, sample, signal, backend, s);
    MapMetricOnRegistry(metricName, sample.value);
    HexColorDecodes(signal.color);
    var message := LogMessage(GetSoundMap()[metricName], sample.value, signal, sample.extra, s);
    ColorizeFramesText(message, signal.color, true);
  }
}
