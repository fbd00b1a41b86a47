# sonify-k8s in Dafny

sonify-k8s turns Kubernetes cluster metrics into sound and colour. Every
polling interval it visits a fixed list of seven metrics: CPU usage, memory
usage, pod status, HTTP latency, errors per second, replica count and node
pressure. For each one it samples a reading and maps it onto a palette index.
The index selects a note to play and a colour for the log line. The system
exists in three copies: a Rust program, a live Python script that queries the
cluster, and a simulated Python script that draws random readings.

This project models the value-to-signal engine shared by the three copies and
the code around it:

- `SoundMap` (`sound_map.dfy`) is the metric registry. It holds the Rust map
  and the two ordered Python tables.
- `Mapper` (`mapper.dfy`) is the Rust index mapper and signal resolver.
- `PyMapper` (`py_mapper.dfy`) is the Python mapper. It truncates with `int`,
  does not clamp the note index, and subscripts lists the Python way.
- `Color` (`color.dfy`) covers hex-colour decoding and ANSI wrapping. Rust
  `colorize` falls back to plain text; Python `colorize_line` can raise.
- `Cluster`, `KubeClient` and `K8sMetrics` (`cluster.dfy`, `k8s_client.dfy`,
  `k8s_metrics.dfy`) are the Rust cluster client and the metric dispatch.
  The client is a class whose `connected` field is set by `Initialize`. The
  node-pressure scan and the resource-request sums are loops proved against
  specification functions.
- `PyClient` (`py_client.dfy`) is the live Python client and its dispatch.
  API failures there become fixed fallbacks, and other exceptions become a
  missing sample.
- `Simulated` (`simulated.dfy`) is the random sampler of the simulated copy.
  One arbitrary draw stands in for each random call.
- `PyLoop` (`py_loop.dfy`) is the Python poll loop. A cycle is a trace of
  events. A missing sample skips one metric, an exception abandons the rest of
  the cycle, and an interrupt stops the loop.
- `Configuration` (`config.dfy`) covers the Rust defaults, `load` and the
  environment overrides. The environment is a map.
- `Monitor` (`monitor.dfy`) covers the Rust command-line overrides and one tick
  of the Rust monitoring loop. The tick is a method over the client, proved
  equal to a trace function.

The copies differ, and the model states each difference as a lemma:

- Past the end of a categorical palette, Rust clamps the note index while
  Python raises `IndexError`.
- Python counts a negative index from the end of the note list.
- The CPU quantity `"100mm"` is read by Rust but makes Python's `float` raise.
- The fallbacks differ: Rust estimates 30/40 usage for pods without requests,
  where Python gives 0/0. Python falls back on an API failure, where Rust
  propagates the error.
- The node-pressure reading is 0 or 1 and is used directly as the note index.
  So the registry's `"True" → 3` entry is never consulted.

The command-line namespace defaults to `"default"` and always overwrites the
configured one. So a namespace set through `K8S_NAMESPACE` never reaches the
client (`Monitor.CliOverridesEffect`).

## Model

| member | source | states |
|---|---|---|
| SoundMap.GetSoundMap | src/sonify/sound_map.rs:28-237 | The registry has exactly the seven metric keys. An entry has a status map exactly when its metric is categorical (pod status, node pressure). Every palette is non-empty. |
| SoundMap.SoundMapLookup | src/sonify/sound_map.rs:32-234 | Each of the seven keys leads to its own entry: display name, unit, notes, colours and status map. |
| SoundMap.CpuUsageWellFormed | src/sonify/sound_map.rs:32-59 | The CPU entry is well formed. It has as many colours as notes, audible frequencies and `#RRGGBB` colours. |
| SoundMap.MemoryUsageWellFormed | src/sonify/sound_map.rs:62-89 | The memory entry is well formed. |
| SoundMap.PodStatusWellFormed | src/sonify/sound_map.rs:92-118 | The pod-status entry is well formed, and every status-map value indexes its four notes. |
| SoundMap.HttpLatencyWellFormed | src/sonify/sound_map.rs:121-148 | The latency entry is well formed. |
| SoundMap.ErrorsPerSecondWellFormed | src/sonify/sound_map.rs:151-178 | The error-rate entry is well formed. |
| SoundMap.ReplicasWellFormed | src/sonify/sound_map.rs:181-208 | The replica entry is well formed. |
| SoundMap.NodePressureWellFormed | src/sonify/sound_map.rs:211-234 | The node-pressure entry is well formed, and its status values 0 and 3 index its four notes. |
| SoundMap.SoundMapWellFormed | src/sonify/sound_map.rs:37-232 | Every entry is well formed: positive frequencies, colours that are `#` plus six hex digits, and status indices inside the palette. Continuous metrics have 8 notes and 8 colours; categorical ones have 4 and 4. |
| SoundMap.CpuPaletteSpansOctave | src/sonify/sound_map.rs:38-45 | The CPU palette has 8 notes, from 262 Hz (C4) to 523 Hz (C5). |
| SoundMap.StatusMaps | src/sonify/sound_map.rs:92-97 | Pod phases Running/Succeeded/Pending/Failed/Unknown map to 3/3/1/0/0, so the values are {0, 1, 3}. Node pressure False/True maps to 0/3. |
| SoundMap.PySoundMap | src/main.py:43-184 | The live Python table lists the seven metrics in declaration order. |
| SoundMap.PySoundMapMatchesRust | src/main.py:43-184 | Key by key, the live Python table holds the Rust registry's data. No key is repeated. |
| SoundMap.PySoundMapWellFormed | src/main.py:43-184 | Every entry of the live Python table is well formed, so every colour starts with `#`. |
| SoundMap.SimulatedSoundMap | src/sonify_k8s.py:40-181 | The simulated Python table lists the same seven keys in the same order. |
| SoundMap.SimulatedReplicaColorsLackHash | src/sonify_k8s.py:163-171 | The simulated table differs from the live one only in replica colours 5-7. These lack the `#`, so that entry is not well formed. |
| SoundMap.MetricOrderDistinct | src/config.rs:61-69 | The seven metric names in their fixed order are pairwise distinct. |
| Mapper.AsUsize | src/sonify/mapper.rs:14 | `as usize` on a float truncates toward zero, and a negative value becomes 0. |
| Mapper.Normalized | src/sonify/mapper.rs:12-13 | The clamped, normalised reading lies in [0, 1]. |
| Mapper.CalculateIndex | src/sonify/mapper.rs:7-17 | For a palette of length n ≥ 1 the index is below n, and a degenerate domain (max ≤ min) gives 0. |
| Mapper.CalculateIndexIsBucket | src/sonify/mapper.rs:12-16 | The index is the bucket holding the clamped reading when the domain is cut into n - 1 equal slices: index·width ≤ offset·(n-1) < (index+1)·width. |
| Mapper.CalculateIndexClamps | src/sonify/mapper.rs:12-16 | A reading at or below the minimum gives 0, and one at or above the maximum gives n - 1. |
| Mapper.CalculateIndexMonotone | src/sonify/mapper.rs:12-16 | A larger reading never gives a lower index. |
| Mapper.NormalizedMonotone | src/sonify/mapper.rs:12-13 | Normalisation is non-decreasing in the reading. |
| Mapper.CalculateIndexExamples | src/sonify/mapper.rs:64-80 | The published vectors: 0, 100 and 50 on 8 notes over [0, 100] give 0, 7 and 3; -10 gives 0 and 110 gives 7; a degenerate domain gives 0. |
| Mapper.GetColor | src/sonify/mapper.rs:20-28 | The colour at the index, else the last colour if there are any, else `#808080`. |
| Mapper.MapMetric | src/sonify/mapper.rs:31-57 | The result is an error exactly when the name is not in the map, and that error is `InvalidMetric(name)`. Otherwise the note and the colour come from one index inside the palette. |
| Mapper.MapMetricContinuous | src/sonify/mapper.rs:42-52 | For a continuous metric the signal is the one at `CalculateIndex(value, n, 0, max)`, and the final clamp never changes it. |
| Mapper.MapMetricCategorical | src/sonify/mapper.rs:40-52 | For a categorical metric a negative reading gives the first note and an in-range reading its truncation. A reading past the palette is clamped to the last note. |
| Mapper.MapMetricOnRegistry | src/sonify/mapper.rs:31-57 | On the registry every known metric maps successfully. The frequency is positive, and the colour is a well-formed one at the same index as the note. |
| Mapper.PressureStateNeverConsulted | src/sonify/sound_map.rs:211-213 | A node-pressure reading of 0 or 1 selects note 0 or 1, never the note at index 3 that the `"True"` state names. |
| Mapper.MapMetricUnknown | src/sonify/mapper.rs:36-38 | A name outside the registry gives `InvalidMetric(name)`. |
| PyMapper.Trunc | src/main.py:338 | `int(x)` truncates toward zero, for both signs. |
| PyMapper.CalculateIndex | src/main.py:317-339 | A degenerate domain gives 0. With n ≥ 1 the index is in [0, n-1]; with n = 0 it is 0 or -1. |
| PyMapper.ScaledIndexBounds | src/main.py:336-338 | Truncating t·(n-1) for t in [0, 1] stays inside the palette, or in [-1, 0] for an empty one. |
| PyMapper.CalculateIndexAgreesWithRust | src/main.py:334-339 | On a non-empty palette the Python bucket equals the Rust bucket. |
| PyMapper.CalculateIndexExamples | test_main.py:21-37 | The published vectors, including (5, 4, 0, 10) → 1 and (10, 5, 10, 10) → 0. |
| PyMapper.SimulatedReplicaBareColors | src/sonify_k8s.py:150-172 | In the simulated copy a replica count of 4 maps to F4 with colour `00BCD4`, and a count of 5 to G4 with `0097A7`, both without `#`. |
| PyMapper.CalculateIndexEmptyPalette | src/main.py:338 | On an empty palette, a reading at or above the maximum gives -1 and any other reading gives 0. |
| PyMapper.GetColor | src/main.py:296-314 | An index in [0, len) gives that colour. Any other index, negative ones included, gives the last colour, or `#808080` when there are no colours. |
| PyMapper.GetColorAgreesWithRust | src/main.py:309-314 | For natural indices the Python and Rust colour lookups agree. |
| PyMapper.GetColorExamples | test_main.py:7-18 | The published vectors: index 1 → `#222222`, index 10 → `#333333`, an empty list → `#808080`. |
| PyMapper.Subscript | src/main.py:666 | A list subscript succeeds exactly for -len ≤ i < len. A negative index counts from the end. |
| PyMapper.MapMetric | src/main.py:645-667 | The loop's lookup raises exactly when the reading's index is outside [-len, len), and then it raises `IndexError`. Every index Python accepts yields a note. |
| PyMapper.MapMetricContinuousAgrees | src/main.py:649-667 | For continuous metrics on a non-empty palette, Python resolves every reading to the Rust signal. |
| PyMapper.MapMetricCategorical | src/main.py:647-666 | For categorical readings inside the palette both copies agree. Past the palette Python raises `IndexError` while Rust clamps to the last note. |
| PyMapper.NegativeReadingMismatch | src/main.py:647-667 | A pod status of -2 plays E4 (counted from the end) but takes the colour listed with G4. |
| PyMapper.MapMetricEmptyPaletteRaises | src/main.py:666 | An empty palette always raises `IndexError`. |
| Color.ParseHexByte | src/display/color.rs:12-14 | A pair decodes exactly when it is two hex digits or `+` and one hex digit, and then to a value below 256. |
| Color.HexToRgb | src/display/color.rs:5-17 | A decoded colour has three channels below 256 and came from six characters left after the leading `#`s. |
| Color.HexToRgbRoundTrip | src/display/color.rs:5-17 | Decoding the `#RRGGBB` rendering of any byte triple gives the triple back. |
| Color.HexColorDecodes | src/display/color.rs:5-17 | Every `#` plus six hex digits decodes. |
| Color.HexToRgbIgnoresHash | src/display/color.rs:6 | A leading `#` makes no difference to the result. |
| Color.HexToRgbOfSix | src/display/color.rs:8-16 | Six characters decode pair by pair, and any failing pair gives `None`. |
| Color.HexToRgbRed | src/display/color.rs:38 | `#FF0000` decodes to (255, 0, 0). |
| Color.HexToRgbGreen | src/display/color.rs:39 | `#00FF00` decodes to (0, 255, 0). |
| Color.HexToRgbBlue | src/display/color.rs:40 | `#0000FF` decodes to (0, 0, 255). |
| Color.HexToRgbRejectsWord | src/display/color.rs:41 | `invalid` decodes to `None`. |
| Color.Colorize | src/display/color.rs:20-30 | With colour off, or a colour that does not decode, the result is the text itself. Otherwise it is ESC`[38;2;` r`;`g`;`b `m`, the text and the reset, with r, g, b the decimal renderings of the decoded channels. |
| Color.ColorizeChannelsReadBack | src/display/color.rs:25-29 | The three fields of a coloured line's escape are decimal numerals whose values are exactly the channels `hex_to_rgb` decodes. |
| Color.ColorizeFramesText | src/display/color.rs:25-29 | The line differs from the text exactly when colour is on and the colour decodes. It then starts with ESC `[`, ends with the reset sequence and holds the text unchanged in between. |
| Color.ColorizeExamples | src/display/color.rs:45-57 | `Hello` stays plain with colour off. With colour on and `#FF0000` it becomes ESC`[38;2;255;0;0mHello`ESC`[0m`. |
| Color.PyParseHexPair | src/main.py:611 | `int(pair, 16)` agrees with the Rust pair decoder wherever that accepts. Otherwise it returns a value in (-16, 256) or raises `ValueError`. |
| Color.PyParseHexPairWhiteSpace | src/main.py:611 | Python white space around one hex digit is dropped, the ASCII separator 0x1C and the no-break space included; two white-space characters raise. |
| Color.IntToString | src/main.py:612 | `str` of an int: the decimal digits, with a minus sign for a negative value. |
| Color.ColorizeLine | src/sonify_k8s.py:373-393 | With colour off, or not exactly six characters after the `#`s, the result is the text itself. The only exception it raises is `ValueError`. |
| Color.ColorizeLineOfSix | src/sonify_k8s.py:388-393 | Six characters are wrapped with the three `int(_, 16)` channels, or the call raises `ValueError`. |
| Color.ColorizeLineAgreesWhenDecodable | src/main.py:592-612 | Wherever the Rust decoder accepts a colour, the Python line equals the Rust line. |
| Color.ColorizeLineRaisesOnNonHex | src/sonify_k8s.py:392 | `#GG0000` leaves Rust's line plain but raises `ValueError` in Python. |
| Color.ColorizeLineNegativeChannel | src/main.py:611-612 | `#-F0000` leaves Rust's line plain, while Python prints a red channel of -15. |
| Cluster.TotalReplicasBounds | src/k8s/client.rs:104-109 | If every replica count lies in [lo, hi], the sum lies in [n·lo, n·hi]. |
| Cluster.TotalReplicasAppend | src/k8s/client.rs:104-109 | The replica sum adds up over a concatenation of deployment lists. |
| KubeClient.ParseCpuMillicores | src/k8s/client.rs:235-245 | `n` followed by `m`, or by `mm`, is n/1000 cores. |
| KubeClient.ParseCpuCores | src/k8s/client.rs:242-244 | A plain number is that many cores. |
| KubeClient.ParseMemoryUnits | src/k8s/client.rs:248-263 | `nMi` is n, `nGi` is 1024·n, and `nKi` (any other unit) is 0. |
| KubeClient.ParseUnparsable | src/k8s/client.rs:235-263 | A quantity that does not start with a digit, a sign or a point counts 0 in both parsers, whatever unit it ends with. |
| KubeClient.PhaseIndexMatchesRegistry | src/k8s/client.rs:74-80 | The phase match equals the registry's pod-status map, with 0 for unlisted phases. Its values are {0, 1, 3}. |
| KubeClient.PodsStatusReading | src/k8s/client.rs:58-86 | No pods gives 0 with status `Unknown` and count `"0"`. Otherwise the value is the first pod's phase index, with its phase and the pod count as extras. |
| KubeClient.ReplicasReading | src/k8s/client.rs:96-124 | No deployments gives 1. Otherwise the value times the deployment count is the replica sum, a missing count counting 0. |
| KubeClient.ReplicasReadingBounds | src/k8s/client.rs:111-115 | The mean lies within any bounds that every count lies within. |
| KubeClient.PressureReadingLevel | src/k8s/client.rs:134-169 | The level is 1 exactly when some node has a pressure-type condition with status `"True"`, and 0 exactly otherwise, an empty list included. |
| KubeClient.PressureTextCase | src/k8s/client.rs:134-173 | A calm cluster and an empty one both read 0. The pressure text is `"false"` for the first and `"False"` for the second. |
| KubeClient.UsageEstimate | src/k8s/client.rs:185-230 | Both readings are capped at 100. No pods gives 0/0, and pods without requests give 30/40. |
| KubeClient.UsageCountsContainers | src/k8s/client.rs:193-215 | The divisor counts containers with requests, not pods: one pod with two containers averages their two requests. |
| KubeClient.Listed | src/k8s/client.rs:45-56 | An unconnected client fails with `ClientNotInitialized`. A connected one returns what the list call returned. |
| KubeClient.AddRequests | src/k8s/client.rs:199-208 | A request map adds its parsed `cpu` and `memory` entries to the sums; a missing entry adds nothing. |
| KubeClient.SumRequests | src/k8s/client.rs:189-215 | The outer loop's CPU sum, memory sum and count are those of every request map of every pod, in listing order. |
| KubeClient.AddContainer | src/k8s/client.rs:196-210 | One container adds its CPU and memory requests and counts once when it has requests, and changes nothing otherwise. |
| KubeClient.AddContainers | src/k8s/client.rs:195-213 | The inner loop extends the CPU sum, the memory sum and the count by exactly this pod's request maps. |
| KubeClient.K8sClient.constructor | src/k8s/client.rs:15-20 | A new client keeps its namespace and is not connected. |
| KubeClient.K8sClient.Initialize | src/k8s/client.rs:23-43 | It returns the connection outcome. A success connects the client, and a failure leaves it as it was. |
| KubeClient.K8sClient.Guard | src/k8s/client.rs:45-49 | It is Ok exactly when the client is connected, and `ClientNotInitialized` otherwise. |
| KubeClient.K8sClient.GetPodsStatus | src/k8s/client.rs:52-87 | The guard's error, then the list call's error, else the pod-status reading. |
| KubeClient.K8sClient.GetDeploymentReplicas | src/k8s/client.rs:90-125 | The guard's error, then the list call's error, else the replica reading. |
| KubeClient.K8sClient.GetNodePressure | src/k8s/client.rs:128-176 | The nested scan with breaks equals the pressure specification. Its level is 1 exactly when some node is under pressure. |
| KubeClient.K8sClient.GetResourceUsage | src/k8s/client.rs:179-231 | The accumulation loops equal the usage specification, and both readings are at most 100. |
| K8sMetrics.GetK8sData | src/k8s/metrics.rs:7-69 | The dispatch method equals the per-metric specification of which query answers each name. |
| K8sMetrics.UnknownIffNoSample | src/k8s/metrics.rs:64-67 | The result is `Ok(None)` exactly for names outside the seven. |
| K8sMetrics.UnconnectedFails | src/k8s/metrics.rs:11-63 | On an unconnected client every known metric fails with `ClientNotInitialized`. |
| K8sMetrics.ListingErrorPropagates | src/k8s/metrics.rs:13-60 | A failing list call fails every metric with that same error, never `None`. |
| K8sMetrics.LatencyLevels | src/k8s/metrics.rs:31-38 | Latency is 50 exactly for a running or succeeded first pod and 250 exactly for a pending one. Its only values are {50, 250, 350}. |
| K8sMetrics.ErrorsMatchLatency | src/k8s/metrics.rs:40-51 | The error rate is 0 exactly when the latency is 50, and is otherwise 5. |
| K8sMetrics.UsageReadings | src/k8s/metrics.rs:12-24 | CPU and memory take the two components of one usage estimate, tagged `cpu`/`memory`, each at most 100. |
| PyClient.PyParseCpuCores | src/main.py:505-506 | Plain cores are read as in Rust. |
| PyClient.PyParseCpuMillicores | src/main.py:503-504 | `nm` is read as in Rust. |
| PyClient.PyParseCpuDoubledUnit | src/main.py:503-504 | `nmm` makes `float` raise `ValueError`, where Rust reads n/1000. |
| PyClient.UsageOutcomeCapped | src/main.py:517-526 | Every usage the query returns is at most 100. |
| PyClient.UsageWithoutRequests | src/main.py:517-519 | A pod whose container has no requests reads 0/0 here and 30/40 in Rust. |
| PyClient.EmptyRequestsSkipped | src/main.py:497 | An empty requests map is skipped, where Rust counts it. |
| PyClient.ContainersRaisePropagates | src/main.py:495-515 | A raise among the first containers is the outcome of the whole pod. |
| PyClient.PodsRaisePropagates | src/main.py:494-515 | A raise among the first pods is the outcome of the whole list. |
| PyClient.ScanFindsPressure | src/main.py:452-461 | A completed scan reports exactly whether some node is under pressure. It completes whenever every node has a status. |
| PyClient.PyK8sClient.constructor | src/main.py:346-351 | A new client is not initialised. |
| PyClient.PyK8sClient.Initialize | src/main.py:353-380 | It returns the connection outcome, and the flag becomes that outcome (a failure clears it). |
| PyClient.PyK8sClient.GetNodePressure | src/main.py:436-466 | The loops with their two breaks equal the pressure specification. The level is 1 exactly when some node is under pressure. |
| PyClient.PyK8sClient.GetResourceUsage | src/main.py:468-526 | The nested loops equal the usage specification, including its raises and fallbacks. |
| PyClient.AddOneContainer | src/main.py:497-515 | One container's contribution equals its specification: skipped, added and counted, or raised. |
| PyClient.AddPodContainers | src/main.py:496-515 | The inner loop equals the container fold, stopping at the first raise. |
| PyClient.GetK8sData | src/main.py:534-589 | The dispatch method equals its specification: the initialisation guard, the per-metric queries, and any raise turned into no sample. |
| PyClient.NoSampleWhenUninitialisedOrUnknown | src/main.py:546-589 | An uninitialised client or an unknown name gives no sample. |
| PyClient.ApiFailureFallbacks | src/main.py:404-526 | On API failures the queries read pod status 0, latency 350, errors 5, replicas 1, pressure 0 and usage 30/40. |
| PyClient.PodMetricsAgreeWithRust | src/main.py:559-575 | On pods that all have a status, pod status, latency and error rate equal Rust's. |
| PyClient.ReplicasAgreeWithRust | src/main.py:418-430 | On deployments that all have a spec, the mean replica count equals Rust's. |
| PyClient.PressureAgreesWithRust | src/main.py:443-462 | Under pressure, the level equals Rust's (1). The text is `"True"` here and `"true"` in Rust. |
| Simulated.SimulatedData | src/sonify_k8s.py:340-370 | There is a sample exactly for the seven known names. |
| Simulated.SimulatedRanges | src/sonify_k8s.py:353-368 | For draws in range, CPU and memory lie in [0, 100] and pod status in {0, 1, 3} with a `status` extra. Latency is ≥ 0, errors lie in [0, 5], replicas in [1, 5], and pressure in {0, 1} with a `pressure` extra. |
| Simulated.SimulatedPodStatusCoversMap | src/sonify_k8s.py:357-360 | Every value of the status map is produced by some phase. |
| Simulated.PressureTextIndependent | src/sonify_k8s.py:367-368 | The pressure level and its text are drawn independently, so they can disagree. |
| PyLoop.PollCycle | src/main.py:636-692 | One pass of the loop equals the cycle specification. |
| PyLoop.PlayAndLog | src/main.py:643-682 | The per-metric body equals the step specification. |
| PyLoop.PlayPrintLog | src/main.py:669-682 | Playing, the coloured print and the log line equal the emit specification. |
| PyLoop.CycleCompletes | src/main.py:638-685 | With no failing step and no interrupt, the cycle completes with every metric's events in registry order. |
| PyLoop.FailureAbandonsRest | src/main.py:690-692 | The first failing step ends the cycle: earlier metrics' events, that step's events and the logged error, then nothing more. |
| PyLoop.InterruptFirst | src/main.py:687-689 | An interrupt before the first metric stops with nothing emitted. |
| PyLoop.MissingSampleSkipsMetric | src/main.py:640-642 | A missing sample logs a warning and the cycle continues with the next metric. |
| PyLoop.StepEmits | src/main.py:643-682 | A step never fails if its palette is non-empty, its colours decode and a categorical reading names a note. |
| PyLoop.RegistryColorsDecode | src/sonify_k8s.py:388-392 | Every colour of both Python tables decodes in `colorize_line`, the three without `#` included. |
| PyLoop.LiveCycleCompletes | src/main.py:638-685 | A live cycle with categorical samples in [0, 4) and no interrupt completes in declaration order. |
| PyLoop.SimulatedCycleCompletes | src/sonify_k8s.py:416-465 | A simulated cycle over in-range draws always completes. |
| PyLoop.PodStatusPastPaletteAborts | src/main.py:647-666 | A pod status of 4 aborts the Python cycle with `IndexError`, while Rust clamps it to the last note. |
| PyLoop.ResolveUseColor | src/main.py:624-625 | An explicit flag wins. Otherwise `SHOW_COLOR` decides, and colour is off when it is unset. |
| PyLoop.SonifyK8sMetrics | src/main.py:616-692 | A failed connection ends the run at once. Otherwise the events are the loop's passes, each one completed, abandoned or interrupted. |
| PyLoop.StepNeverStops | src/main.py:687-689 | No metric step emits the stop event. |
| PyLoop.StopMeansInterrupted | src/main.py:687-689 | A pass emits the stop event exactly when it is interrupted, and then as its last event. |
| PyLoop.StopEndsLoop | src/main.py:636-692 | In any run of passes that each stop last, the stop event is the run's last event and occurs once. |
| PyLoop.LoopStopsAtInterrupt | src/main.py:636-692 | When the stop event occurs it is the run's last event, and it occurs once. |
| Configuration.Default | src/config.rs:42-73 | Namespace `default`, kubeconfig on, no API URL, interval 5, not verbose, colour on, no MIDI, note duration 0.5, audio on, and the seven metrics in order. |
| Configuration.DefaultMetricsAreRegistry | src/config.rs:60-69 | The default metric list names each registry key exactly once. |
| Configuration.Load | src/config.rs:84-91 | No path or a missing file gives the defaults. An existing file gives what reading it gives. |
| Configuration.MergeEnv | src/config.rs:94-112 | The four sequential field updates equal the merged-environment specification. |
| Configuration.MergedEnvKeeps | src/config.rs:94-112 | The API URL, verbosity, colour, MIDI, note duration and metrics never change, and neither does any field whose variable is unset. Audio is never switched on. |
| Configuration.MergedEnvIdempotent | src/config.rs:94-112 | An empty environment changes nothing, and merging twice equals merging once. |
| Configuration.PollIntervalParsing | src/config.rs:98-102 | A decimal `u64` is taken as the interval. `-5`, `soon` and the empty string leave it as it was. |
| Configuration.TruthyValues | src/config.rs:103-110 | `TRUE` enables kubeconfig and `yes` disables it. `True` switches audio off, and `1` leaves it as it was. |
| Text.ParseU64RoundTrip | src/config.rs:99 | Parsing the decimal rendering of any 64-bit number gives it back. |
| Text.ParseU64 | src/config.rs:99 | A parsed interval is below 2^64. |
| Text.ToLower | src/config.rs:104 | Lower-casing keeps the length and maps each character on its own. |
| Text.TrimStart | src/display/color.rs:6 | It strips exactly the leading run of `#`. What remains is a suffix that does not start with `#`. |
| Text.TrimEnd | src/k8s/client.rs:238 | It strips exactly the trailing run of `m`, so `100mm` becomes `100`. |
| Text.TrimEndSuffix | src/k8s/client.rs:251 | It strips repeated trailing `Mi` (or `Gi`) and leaves a prefix that no longer ends with the suffix. |
| Text.ParseDecimalRejectsLetter | src/k8s/client.rs:239 | A quantity starting with something other than a digit, a sign or a point does not parse. |
| Text.ParseDecimalOfNat | src/k8s/client.rs:243 | The decimal rendering of a natural number parses to that number. |
| Monitor.ApplyCliOverrides | src/main.rs:58-64 | The three field updates equal the override specification. |
| Monitor.CliOverridesEffect | src/main.rs:58-64 | `--color` can switch colour on but never off, and a given interval wins. The namespace is always the command line's, even over `K8S_NAMESPACE`. Nothing else changes. |
| Monitor.PlayTone | src/audio/engine.rs:74-82 | A disabled engine succeeds. An enabled one fails with `InvalidFrequency` for a frequency ≤ 0 and otherwise returns the backend's outcome. |
| Monitor.PlayAndReport | src/main.rs:119-145 | Playing, printing and logging one mapped reading equals the report specification. |
| Monitor.Tick | src/main.rs:93-146 | The loop over the enabled metrics, with its `continue`s, equals the tick specification. |
| Monitor.TickEventsAppend | src/main.rs:93 | A tick's events are the events of its metrics concatenated in list order. |
| Monitor.MetricOutcomes | src/main.rs:95-117 | An unknown name only logs a warning, and a fetched metric is never reported as unmappable. |
| Monitor.TickNeverMapFails | src/main.rs:110-117 | No tick reports a mapping failure. |
| Monitor.UnconnectedTick | src/main.rs:95-105 | On an unconnected client each known metric yields exactly one `ClientNotInitialized` error, in order. This is the `get_k8s_data` guard; `main` exits before its loop when initialisation fails. |
| Monitor.ReportOnRegistry | src/main.rs:119-145 | A mapped reading has a positive frequency. A backend failure is logged first, and the line is then printed and logged. |
| Monitor.PrintedColouredIffColourOn | src/main.rs:137-144 | The printed line differs from the logged one exactly when colour is on. It then ends with the reset sequence. |

## Left out

- Audio synthesis and playback are not modelled: tone generation, the envelope, the audio streams, and Python's `play_note`/`play_midi_note`. A played tone is an event. The Rust backend's outcome is a parameter of `PlayTone`, after the disabled and frequency checks.
- The Kubernetes API is not modelled. Every list call is an input outcome, and so are the connection attempts of both `initialize` methods. Repeated list calls within one tick see one cluster snapshot.
- Time is not modelled: the sleeps, the tokio interval, and the real delivery of a keyboard interrupt. An interrupt is an input position at a metric boundary or during the closing sleep. An interrupt during the recovery sleep after an error would escape the Python loop; that case is not modelled.
- The loops run over finitely many given passes instead of forever. The Rust tick is modelled once, without its outer `loop`.
- Randomness is not modelled. Each random call of the simulated sampler is an arbitrary draw in the range the random module guarantees.
- Command-line parsing, logging setup, module-level environment reads and `Config::from_file` (file reading and YAML) are not modelled. The file's outcome is the `fromFile` input of `Load`.
- Rendering a float with two decimals and rendering the extra data (the Python dict repr, the Rust `{:?}` of a hash map) are function parameters.
- KubeClient.ReplicasReading: the `replicas` extra holds the mean as a number, not as Rust's `f64::to_string` text.
- Text.ParseDecimal: it accepts a sign, digits and an optional fraction. Exponents, `inf`, `nan`, white space and underscores are not modelled, so quantities using them are read as unparsable.
- Mapper.AsUsize: NaN, infinities and the saturation at the largest `usize` are not modelled. Readings are unbounded reals.
- Cluster.TotalReplicas: replica counts are unbounded integers, so an `i32` overflow of the Rust sum is not modelled.
- Color.HexToRgb: colours are character sequences, so Rust's byte slicing of non-ASCII text (which can panic) is not modelled.
- Color.PyParseHexPair: Python's `int(_, 16)` also reads non-ASCII decimal digits (such as Arabic-Indic digits) as digits; the model accepts only ASCII hex digits. The colour tables hold only ASCII, so their pairs are unaffected.
- Text.ToLower: lower-casing is ASCII only; Unicode case mapping is not modelled.
- The `midi`, `verbose` and `config` command-line options and the audio engine's start-up are not modelled. They affect only logging, the choice of audio backend and the file path.

## Findings

| source | as written | input that shows it | evidently intended | confidence | as-written member | corrected member |
|---|---|---|---|---|---|---|
| src/sonify_k8s.py:169-171 | The simulated table writes replica colours 5-7 as `00BCD4`, `00ACC1`, `0097A7`, without the `#` that every other colour has. | A replica reading of 4 in the simulated copy gives index `int(0.8 * 7)` = 5, so `get_color` returns `00BCD4`, which is logged without `#`; a reading of 5 gives index 7 and `0097A7`. `PyMapper.SimulatedReplicaBareColors` states both. | `#00BCD4`, `#00ACC1`, `#0097A7`, as in the live copy (src/main.py:172-174) and the Rust registry. | not executed | SoundMap.SimulatedReplicaColorsLackHash | SoundMap.PySoundMapWellFormed |
