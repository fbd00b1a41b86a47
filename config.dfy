/**
 * The Rust configuration: its defaults, the choice between a configuration
 * file and the defaults, and the overrides read from the environment. The
 * file's contents (YAML parsing) are an input; the environment is a map
 * from variable name to value.
 */
module Configuration {
  import opened Types
  import opened Text
  import opened SoundMap

  datatype KubernetesConfig = KubernetesConfig(namespace: string, useKubeconfig: bool, apiUrl: Option<string>)
  datatype MonitoringConfig = MonitoringConfig(pollInterval: nat, verbose: bool, useColor: bool)
  datatype AudioConfig = AudioConfig(useMidi: bool, noteDuration: real, enabled: bool)
  datatype MetricsConfig = MetricsConfig(enabled: seq<string>)

  datatype Config = Config(
    kubernetes: KubernetesConfig,
    monitoring: MonitoringConfig,
    audio: AudioConfig,
    metrics: MetricsConfig)

  /** `Config::default` */
  function Default(): (c: Config)
    ensures c.kubernetes == KubernetesConfig("default", true, None)
    ensures c.monitoring == MonitoringConfig(5, false, true)
    ensures c.audio == AudioConfig(false, 0.5, true)
    ensures c.metrics.enabled == MetricOrder
  {
    Config(
      KubernetesConfig("default", true, None),
      MonitoringConfig(5, false, true),
      AudioConfig(false, 0.5, true),
      MetricsConfig(["cpu_usage", "memory_usage", "pod_status", "http_latency", "errors_per_second", "replicas", "node_pressure"]))
  }

  /** The default metric list names each registry metric once. */
  lemma DefaultMetricsAreRegistry()
    ensures forall i, j :: 0 <= i < j < |Default().metrics.enabled| ==> Default().metrics.enabled[i] != Default().metrics.enabled[j]
    ensures (set m | m in Default().metrics.enabled) == GetSoundMap().Keys
  {
    MetricOrderDistinct();
  }

  /** `Config::load`: the file when a path is given and exists (reading and
      parsing it is `fromFile`), the defaults otherwise. */
  function Load(path: Option<string>, fileExists: bool, fromFile: Result<Config>): (r: Result<Config>)
    ensures path.None? || !fileExists ==> r == Ok(Default())
    ensures path.Some? && fileExists ==> r == fromFile
  {
    if path.Some? && fileExists then fromFile else Ok(Default())
  }

  /** Whether a value reads `"true"` in any (ASCII) case. */
  predicate IsTrue(value: string)
  {
    ToLower(value) == "true"
  }

  /** The configuration after the environment overrides: the namespace from
      `K8S_NAMESPACE`; the poll interval from `POLL_INTERVAL` when it parses
      as a `u64`; kubeconfig use from `USE_KUBE_CONFIG`; audio switched off
      by a true `TEST_MODE`. */
  function MergedEnv(c: Config, env: map<string, string>): Config
  {
    var namespace := if "K8S_NAMESPACE" in env then env["K8S_NAMESPACE"] else c.kubernetes.namespace;
    var interval :=
      if "POLL_INTERVAL" in env && ParseU64(env["POLL_INTERVAL"]).Some? then ParseU64(env["POLL_INTERVAL"]).value
      else c.monitoring.pollInterval;
    var useKubeconfig := if "USE_KUBE_CONFIG" in env then IsTrue(env["USE_KUBE_CONFIG"]) else c.kubernetes.useKubeconfig;
    var enabled := if "TEST_MODE" in env && IsTrue(env["TEST_MODE"]) then false else c.audio.enabled;
    c.(kubernetes := c.kubernetes.(namespace := namespace, useKubeconfig := useKubeconfig),
       monitoring := c.monitoring.(pollInterval := interval),
       audio := c.audio.(enabled := enabled))
  }

  /** `merge_env`: the four overrides applied one after the other. */
  method MergeEnv(c: Config, env: map<string, string>) returns (r: Config)
    ensures r == MergedEnv(c, env)
  {
    r := c;
    if "K8S_NAMESPACE" in env {
      r := r.(kubernetes := r.kubernetes.(namespace := env["K8S_NAMESPACE"]));
    }
    if "POLL_INTERVAL" in env {
      var parsed := ParseU64(env["POLL_INTERVAL"]);
      if parsed.Some? {
        r := r.(monitoring := r.monitoring.(pollInterval := parsed.value));
      }
    }
    if "USE_KUBE_CONFIG" in env {
      r := r.(kubernetes := r.kubernetes.(useKubeconfig := ToLower(env["USE_KUBE_CONFIG"]) == "true"));
    }
    if "TEST_MODE" in env {
      if ToLower(env["TEST_MODE"]) == "true" {
        r := r.(audio := r.audio.(enabled := false));
      }
    }
  }

  /** What the merge leaves alone: the API URL, verbosity, colour, MIDI,
      note duration and metric list, and every field whose variable is
      unset; audio is never switched on. */
  lemma MergedEnvKeeps(c: Config, env: map<string, string>)
    ensures var r := MergedEnv(c, env);
      && r.kubernetes.apiUrl == c.kubernetes.apiUrl
      && r.monitoring.verbose == c.monitoring.verbose
      && r.monitoring.useColor == c.monitoring.useColor
      && r.audio.useMidi == c.audio.useMidi
      && r.audio.noteDuration == c.audio.noteDuration
      && r.metrics == c.metrics
      && (r.audio.enabled ==> c.audio.enabled)
      && ("K8S_NAMESPACE" !in env ==> r.kubernetes.namespace == c.kubernetes.namespace)
      && ("USE_KUBE_CONFIG" !in env ==> r.kubernetes.useKubeconfig == c.kubernetes.useKubeconfig)
      && ("POLL_INTERVAL" !in env ==> r.monitoring.pollInterval == c.monitoring.pollInterval)
      && ("TEST_MODE" !in env ==> r.audio.enabled == c.audio.enabled)
  {
  }

  /** An empty environment changes nothing, and merging twice is merging
      once. */
  lemma MergedEnvIdempotent(c: Config, env: map<string, string>)
    ensures MergedEnv(c, map[]) == c
    ensures MergedEnv(MergedEnv(c, env), env) == MergedEnv(c, env)
  {
  }

  /** An interval that is a decimal rendering of a `u64` is taken; one that
      does not parse (a sign, a letter, nothing) leaves the interval as it
      was. */
  lemma PollIntervalParsing(c: Config, n: nat)
    requires n < U64Limit
    ensures MergedEnv(c, map["POLL_INTERVAL" := NatToString(n)]).monitoring.pollInterval == n
    ensures MergedEnv(c, map["POLL_INTERVAL" := "-5"]).monitoring.pollInterval == c.monitoring.pollInterval
    ensures MergedEnv(c, map["POLL_INTERVAL" := "soon"]).monitoring.pollInterval == c.monitoring.pollInterval
    ensures MergedEnv(c, map["POLL_INTERVAL" := ""]).monitoring.pollInterval == c.monitoring.pollInterval
  {
    ParseU64RoundTrip(n);
    assert !IsDigit("-5"[0]);
    assert !IsDigit("soon"[0]);
  }

  /** `USE_KUBE_CONFIG` is true for `"true"` in any case and false for any
      other value; `TEST_MODE` likewise switches audio off only when true. */
  lemma TruthyValues(c: Config)
    ensures MergedEnv(c, map["USE_KUBE_CONFIG" := "TRUE"]).kubernetes.useKubeconfig
    ensures !MergedEnv(c, map["USE_KUBE_CONFIG" := "yes"]).kubernetes.useKubeconfig
    ensures !MergedEnv(c, map["TEST_MODE" := "True"]).audio.enabled
    ensures MergedEnv(c, map["TEST_MODE" := "1"]).audio.enabled == c.audio.enabled
  {
    assert ToLower("TRUE") == "true";
    assert ToLower("True") == "true";
    assert ToLower("yes")[0] == 'y';
    assert ToLower("1")[0] == '1';
  }
}
