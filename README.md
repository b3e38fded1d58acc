# Datadog backend listener for JMeter — a Dafny model

The listener plugs into JMeter's backend-listener interface. For every
sample result whose label matches the configured samplers pattern it records
metrics in an in-memory aggregator:

- a `jmeter.responses_count` counter;
- four histograms: response time, bytes sent, bytes received and latency;
- all tagged with the response code, the sample label and the outcome.

When logs are enabled, each result is also appended to a log buffer. The
buffer is submitted as one payload when it reaches the logs batch size. On a
fixed schedule, and once more at teardown, the listener records five
thread-count gauges, flushes the aggregator and submits the flushed records
in batches of `metricsMaxBatchSize`.

This project models that core in Dafny 4.11:

- `metric_context.dfy` (`MetricContexts`): the metric identity (name plus
  ordered tags), its `equals` and its `hashCode`.
- `metric.dfy` (`Metrics`): the flushed record.
- `sketch.dfy` (`Sketches`): the count/sum sketch wrapper, as a class.
- `store.dfy` (`Store`): the three per-window maps and the single step each
  aggregator operation makes on them. Also the counter and gauge blocks of a
  flush, with the loops that build them.
- `aggregation.dfy` (`Aggregation`): the revision of `ConcurrentAggregator` in
  the `aggregation` package, as a class. A sketch flushes to seven records.
- `plugins_aggregation.dfy` (`PluginsAggregation`): the earlier revision in
  the plugin's top-level package, as a class. A sketch flushes to six
  records. This is the revision the listener uses.
- `common_utils.dfy` (`CommonUtils`): thread-group extraction.
- `configuration.dfy` (`Configuration`): the declared options, and the
  validation that turns parameters into a configuration or an error.
- `batching.dfy` (`Batching`): `groupingBy(index / metricsBatchSize)`, using
  Java's truncating integer division.
- `backend_client.dfy` (`BackendClient`): the listener, as a class. Its pure
  specification functions cover result selection, per-result metrics, the log
  buffer and the periodic send.
- `java_ints.dfy` (`JavaInts`) and `wrappers.dfy` (`Wrappers`): helpers for
  Java's `int`/`long` wrap-around and truncating division, and for
  `Option`/`Result`.

Modelling choices:

- **Sketch estimates.** The DDSketch library sketch is represented by the
  values it has accepted. Its min, max and quantile estimates come from a
  `Summary` function that the flush takes as a parameter.
- **Hash-map iteration order.** Where the source depends on it, the order is
  a ghost sequence that lists every key exactly once. This applies to the
  three aggregator maps and to the map of batches.
- **HTTP client.** Its calls are recorded as the sequence of payloads
  submitted so far (`submittedLogs`, `submittedMetrics`).
- **Thread counts.** JMeter's thread statistics are passed in as a
  `ThreadCounts` value.
- **Samplers pattern.** It is a predicate on the label: whether the pattern
  finds a match.

Behaviour of the code as written that the model keeps:

- In the listener, `setupTest` never assigns `includeSubResults`, so it keeps
  its default `false`. Sub-results are never extracted on their own, and
  `DatadogBackendClient.SetupTest` states this.
- For every sub-result, the responses counter is incremented again with the
  parent's delta. The parent's delta is `sampleCount - errorCount` in 32-bit
  `int` arithmetic when the result is successful, otherwise `errorCount`.
- With `metricsBatchSize == 0`, the division in `sendMetrics` throws after the
  aggregator has been flushed. The flushed records are lost, nothing is
  submitted, and at teardown the pending log entries are not flushed either.
- A batch size of 2^31 or more reads back from `Integer.parseUnsignedInt` as a
  negative `int`. It then groups records like its absolute value does, under
  negated keys.
- A logs batch size below 1 submits the buffer after every entry.

## Model

| member | source | states |
|---|---|---|
| MetricContexts.TagsEqualIffSame | src/main/java/org/datadog/jmeter/plugins/metrics/DatadogMetricContext.java:30 | `Arrays.equals` on two tag arrays holds exactly when they are the same sequence of strings |
| MetricContexts.EqualsIffSameValue | src/main/java/org/datadog/jmeter/plugins/metrics/DatadogMetricContext.java:24-31 | `equals` between two contexts holds exactly when name and tags are equal, in order |
| MetricContexts.EqualsIsAnEquivalence | src/main/java/org/datadog/jmeter/plugins/metrics/DatadogMetricContext.java:24-31 | `equals` is reflexive, symmetric and transitive, and is false for null and for objects of another class |
| MetricContexts.EqualsImpliesSameHash | src/main/java/org/datadog/jmeter/plugins/metrics/DatadogMetricContext.java:33-40 | equal contexts have equal 32-bit `hashCode`s (31-based combination of `String.hashCode` and `Arrays.hashCode`), so they are interchangeable map keys |
| MetricContexts.DifferentFieldsUnequal | src/main/java/org/datadog/jmeter/plugins/metrics/DatadogMetricContext.java:28-30 | a different name or different tags make two contexts unequal |
| MetricContexts.TagOrderMatters | src/main/java/org/datadog/jmeter/plugins/metrics/DatadogMetricContext.java:30 | swapping two distinct tags gives an unequal context |
| Metrics.NewMetric | src/main/java/org/datadog/jmeter/plugins/metrics/DatadogMetric.java:13-33 | every getter of a new record returns the name, type, value and tags it was built from |
| Sketches.Mean | src/main/java/org/datadog/jmeter/plugins/aggregation/DatadogSketch.java:33-35 | the average times the number of values is the sum of the values |
| Sketches.SumIntRange | src/test/java/org/datadog/jmeter/plugins/aggregation/DatadogSketchTest.java:20-25 | closed form of the sum of a run of consecutive integers, by induction |
| Sketches.DatadogSketch.constructor | src/main/java/org/datadog/jmeter/plugins/aggregation/DatadogSketch.java:15-20 | a new sketch has count 0, sum 0 and no accepted values |
| Sketches.DatadogSketch.Accept | src/main/java/org/datadog/jmeter/plugins/aggregation/DatadogSketch.java:22-27 | `accept` adds one to the count, adds the value to the sum, forwards the value to the library sketch, and keeps count and sum in agreement with the accepted values |
| Sketches.DatadogSketch.CountValue | src/main/java/org/datadog/jmeter/plugins/aggregation/DatadogSketch.java:29-31 | the count is the number of accepted values |
| Sketches.DatadogSketch.AverageValue | src/main/java/org/datadog/jmeter/plugins/aggregation/DatadogSketch.java:33-35 | the average is the exact mean of the accepted values; there is none (Java's NaN) exactly when nothing was accepted |
| Sketches.AcceptRangeScenario | src/test/java/org/datadog/jmeter/plugins/aggregation/DatadogSketchTest.java:16-26 | accepting -10 to 119 gives a count of 130 and an average of 54.5 |
| Store.IncrementedChangesOneCounter | src/main/java/org/datadog/jmeter/plugins/aggregation/ConcurrentAggregator.java:31-40 | an increment adds the key if absent, moves that counter by the delta modulo 2^64 from a default of 0, and leaves every other counter as it was |
| Store.IncrementsAccumulate | src/main/java/org/datadog/jmeter/plugins/aggregation/ConcurrentAggregator.java:31-40 | n increments by d move a counter by exactly n*d in 64-bit wrap-around arithmetic (no increment is lost); no other counter changes |
| Store.GaugeLastWriteWins | src/main/java/org/datadog/jmeter/plugins/aggregation/ConcurrentAggregator.java:45-51 | a later `addGauge` on the same context overwrites an earlier one |
| Store.ObservedAddsOneValue | src/main/java/org/datadog/jmeter/plugins/aggregation/ConcurrentAggregator.java:56-69 | `histogram` creates the sketch when absent and adds exactly one value to it; all other sketches are unchanged, and no sketch is ever empty |
| Store.Incremented | src/main/java/org/datadog/jmeter/plugins/aggregation/ConcurrentAggregator.java:31-40 | the counters after one `incrementCounter`; its effect on every key is stated by `IncrementedChangesOneCounter` and `IncrementsAccumulate` |
| Store.WithGauge | src/main/java/org/datadog/jmeter/plugins/aggregation/ConcurrentAggregator.java:45-51 | the gauges after one `addGauge`; its last-write-wins effect is stated by `GaugeLastWriteWins` |
| Store.Observed | src/main/java/org/datadog/jmeter/plugins/aggregation/ConcurrentAggregator.java:56-69 | the sketches after one `histogram`; its effect is stated by `ObservedAddsOneValue` |
| Store.EnumerationLength | src/main/java/org/datadog/jmeter/plugins/aggregation/ConcurrentAggregator.java:83 | an iteration over a map's key set visits as many keys as the map holds |
| Store.EmptyEnumeration | src/main/java/org/datadog/jmeter/plugins/aggregation/ConcurrentAggregator.java:83-100 | iterating over an empty map visits nothing |
| Store.CounterRecords | src/main/java/org/datadog/jmeter/plugins/aggregation/ConcurrentAggregator.java:83-86 | the counter block has one "count" record per key in iteration order, carrying the key's name, tags and sum |
| Store.GaugeRecords | src/main/java/org/datadog/jmeter/plugins/aggregation/ConcurrentAggregator.java:87-90 | the gauge block has one "gauge" record per key in iteration order, carrying the key's name, tags and last value |
| Store.ConcatUniform | src/main/java/org/datadog/jmeter/plugins/aggregation/ConcurrentAggregator.java:91-100 | blocks of equal width laid end to end put record j of block i at the block's offset plus j, each block lying wholly before the next; with `OffsetIsProduct` the offset of block i is width*i |
| Store.ConcatAppend | src/main/java/org/datadog/jmeter/plugins/aggregation/ConcurrentAggregator.java:82-102 | laying two runs of blocks end to end gives the two concatenations one after the other |
| Store.EnumerationWithout | src/main/java/org/datadog/jmeter/plugins/aggregation/ConcurrentAggregator.java:83 | dropping one key from an iteration over a key set iterates over the remaining keys |
| Store.CollectCounters | src/main/java/org/datadog/jmeter/plugins/aggregation/ConcurrentAggregator.java:83-86 | the counter loop visits every key once and produces exactly the counter block in that order |
| Store.CollectGauges | src/main/java/org/datadog/jmeter/plugins/aggregation/ConcurrentAggregator.java:87-90 | the gauge loop visits every key once and produces exactly the gauge block in that order |
| Aggregation.SketchRecords | src/main/java/org/datadog/jmeter/plugins/aggregation/ConcurrentAggregator.java:92-99 | a sketch flushes to seven records |
| Aggregation.SketchRecordsShape | src/main/java/org/datadog/jmeter/plugins/aggregation/ConcurrentAggregator.java:92-99 | the seven records are named name.max, .min, .p99, .p95, .p90, .avg, .count with the context's tags; the last is a "count" of the accepted values, the others are gauges; .avg is the exact mean and the others are the library's estimates |
| Aggregation.HistogramBlockLayout | src/main/java/org/datadog/jmeter/plugins/aggregation/ConcurrentAggregator.java:91-100 | the histogram block is 7 records per sketch, record j of sketch i at 7*i+j, in iteration order |
| Aggregation.HistogramRecords | src/main/java/org/datadog/jmeter/plugins/aggregation/ConcurrentAggregator.java:91-100 | the sketch block of a flush: the seven records of each sketch, sketch after sketch in iteration order; its layout is stated by `HistogramBlockLayout` |
| Aggregation.FlushRecords | src/main/java/org/datadog/jmeter/plugins/aggregation/ConcurrentAggregator.java:82-102 | the list `flushMetrics` returns; its layout (counter block, gauge block, sketch block) is stated by `FlushLayout` and by `FlushOfEmptyStore`, `FlushOfOneSketch` and `FlushOfOneCounter` |
| Aggregation.FlushLayout | src/main/java/org/datadog/jmeter/plugins/aggregation/ConcurrentAggregator.java:82-102 | a flush returns \|counters\| + \|gauges\| + 7*\|histograms\| records: the counter block, then the gauge block, then the histogram block |
| Aggregation.FlushOfEmptyStore | src/main/java/org/datadog/jmeter/plugins/aggregation/ConcurrentAggregator.java:71-103 | flushing empty maps returns no records |
| Aggregation.CollectHistograms | src/main/java/org/datadog/jmeter/plugins/aggregation/ConcurrentAggregator.java:91-100 | the sketch loop visits every key once and produces exactly the histogram block in that order |
| Aggregation.ConcurrentAggregator.constructor | src/main/java/org/datadog/jmeter/plugins/aggregation/ConcurrentAggregator.java:22-24 | a new aggregator holds three empty maps |
| Aggregation.ConcurrentAggregator.IncrementCounter | src/main/java/org/datadog/jmeter/plugins/aggregation/ConcurrentAggregator.java:31-40 | `incrementCounter` sets the counter to the `long` sum of its previous value (0 if absent) and the delta; gauges and sketches are unchanged |
| Aggregation.ConcurrentAggregator.IncrementCounterNamed | src/main/java/org/datadog/jmeter/plugins/aggregation/ConcurrentAggregator.java:28-30 | the name/tags overload increments the counter of the context built from them |
| Aggregation.ConcurrentAggregator.AddGauge | src/main/java/org/datadog/jmeter/plugins/aggregation/ConcurrentAggregator.java:45-51 | `addGauge` overwrites the gauge with the value; counters and sketches are unchanged |
| Aggregation.ConcurrentAggregator.AddGaugeNamed | src/main/java/org/datadog/jmeter/plugins/aggregation/ConcurrentAggregator.java:42-44 | the name/tags overload sets the gauge of the context built from them |
| Aggregation.ConcurrentAggregator.Histogram | src/main/java/org/datadog/jmeter/plugins/aggregation/ConcurrentAggregator.java:56-69 | `histogram` creates the sketch on first use and adds the value to it; counters and gauges are unchanged; no sketch is empty |
| Aggregation.ConcurrentAggregator.HistogramNamed | src/main/java/org/datadog/jmeter/plugins/aggregation/ConcurrentAggregator.java:53-55 | the name/tags overload observes the value on the context built from them |
| Aggregation.ConcurrentAggregator.FlushMetrics | src/main/java/org/datadog/jmeter/plugins/aggregation/ConcurrentAggregator.java:71-103 | `flushMetrics` leaves three empty maps and returns the records of the detached maps, in their iteration orders |
| Aggregation.FlushOfOneSketch | src/main/java/org/datadog/jmeter/plugins/aggregation/ConcurrentAggregator.java:91-100 | a window holding one sketch flushes to exactly that sketch's seven records |
| Aggregation.FlushOfOneCounter | src/main/java/org/datadog/jmeter/plugins/aggregation/ConcurrentAggregator.java:83-86 | a window holding one counter flushes to exactly its one "count" record |
| Aggregation.WindowScenario | src/main/java/org/datadog/jmeter/plugins/aggregation/ConcurrentAggregator.java:71-103 | values recorded before a flush appear in it; a second flush in a row is empty; values recorded afterwards appear only in the next flush |
| PluginsAggregation.SketchRecords | src/main/java/org/datadog/jmeter/plugins/ConcurrentAggregator.java:87-93 | a sketch flushes to six records |
| PluginsAggregation.SketchRecordsShape | src/main/java/org/datadog/jmeter/plugins/ConcurrentAggregator.java:87-93 | the six records are the gauges name.max, .min, .p99, .p95, .p90, .p50 with the context's tags, each holding the library's estimate for its suffix |
| PluginsAggregation.HistogramBlockLayout | src/main/java/org/datadog/jmeter/plugins/ConcurrentAggregator.java:86-94 | the histogram block is 6 records per sketch, record j of sketch i at 6*i+j, in iteration order |
| PluginsAggregation.HistogramRecords | src/main/java/org/datadog/jmeter/plugins/ConcurrentAggregator.java:86-94 | the sketch block of a flush: the six records of each sketch, sketch after sketch in iteration order; its layout is stated by `HistogramBlockLayout` |
| PluginsAggregation.FlushRecords | src/main/java/org/datadog/jmeter/plugins/ConcurrentAggregator.java:77-96 | the list `flushMetrics` returns; its layout is stated by `FlushLayout` and by the one-entry and scenario lemmas below |
| PluginsAggregation.FlushLayout | src/main/java/org/datadog/jmeter/plugins/ConcurrentAggregator.java:77-96 | a flush returns \|counters\| + \|gauges\| + 6*\|histograms\| records: counter block, then gauge block, then histogram block |
| PluginsAggregation.FlushOfEmptyStore | src/main/java/org/datadog/jmeter/plugins/ConcurrentAggregator.java:66-97 | flushing empty maps returns no records |
| PluginsAggregation.CollectHistograms | src/main/java/org/datadog/jmeter/plugins/ConcurrentAggregator.java:86-94 | the sketch loop visits every key once and produces exactly the six-record histogram block in that order |
| PluginsAggregation.ConcurrentAggregator.constructor | src/main/java/org/datadog/jmeter/plugins/ConcurrentAggregator.java:17-19 | a new aggregator holds three empty maps |
| PluginsAggregation.ConcurrentAggregator.IncrementCounter | src/main/java/org/datadog/jmeter/plugins/ConcurrentAggregator.java:26-35 | `incrementCounter` sets the counter to the `long` sum of its previous value (0 if absent) and the delta; gauges and sketches are unchanged |
| PluginsAggregation.ConcurrentAggregator.IncrementCounterNamed | src/main/java/org/datadog/jmeter/plugins/ConcurrentAggregator.java:23-25 | the name/tags overload increments the counter of the context built from them |
| PluginsAggregation.ConcurrentAggregator.AddGauge | src/main/java/org/datadog/jmeter/plugins/ConcurrentAggregator.java:40-46 | `addGauge` overwrites the gauge; counters and sketches are unchanged |
| PluginsAggregation.ConcurrentAggregator.AddGaugeNamed | src/main/java/org/datadog/jmeter/plugins/ConcurrentAggregator.java:37-39 | the name/tags overload sets the gauge of the context built from them |
| PluginsAggregation.ConcurrentAggregator.Histogram | src/main/java/org/datadog/jmeter/plugins/ConcurrentAggregator.java:51-64 | `histogram` creates the sketch on first use and adds the value to it; counters and gauges are unchanged; no sketch is empty |
| PluginsAggregation.ConcurrentAggregator.HistogramNamed | src/main/java/org/datadog/jmeter/plugins/ConcurrentAggregator.java:48-50 | the name/tags overload observes the value on the context built from them |
| PluginsAggregation.ConcurrentAggregator.FlushMetrics | src/main/java/org/datadog/jmeter/plugins/ConcurrentAggregator.java:66-97 | `flushMetrics` leaves three empty maps and returns the records of the detached maps, in their iteration orders |
| PluginsAggregation.FlushOfOneSketch | src/main/java/org/datadog/jmeter/plugins/ConcurrentAggregator.java:86-94 | a window holding one sketch flushes to exactly that sketch's six records |
| PluginsAggregation.FlushOfOneCounter | src/main/java/org/datadog/jmeter/plugins/ConcurrentAggregator.java:78-81 | a window holding one counter flushes to exactly its one "count" record |
| PluginsAggregation.FlushOfOneGauge | src/main/java/org/datadog/jmeter/plugins/ConcurrentAggregator.java:82-85 | a window holding one gauge flushes to exactly its one "gauge" record |
| PluginsAggregation.CounterScenario | src/test/java/org/datadog/jmeter/plugins/ConcurrentAggregatorTest.java:32-50 | n increments by 1 of one context flush as one "count" record of value n (none for n = 0) |
| PluginsAggregation.GaugeScenario | src/test/java/org/datadog/jmeter/plugins/ConcurrentAggregatorTest.java:52-70 | n writes of one gauge value flush as one "gauge" record of that value (none for n = 0) |
| PluginsAggregation.SketchScenario | src/test/java/org/datadog/jmeter/plugins/ConcurrentAggregatorTest.java:72-96 | observing 1..n on one context flushes as the six gauges .max, .min, .p99, .p95, .p90, .p50 of those values |
| CommonUtils.LastIndexOf | src/main/java/org/datadog/jmeter/plugins/util/CommonUtils.java:7 | `lastIndexOf` gives -1 exactly when the character is absent, and otherwise a position holding it with none after it |
| CommonUtils.ParseThreadGroup | src/main/java/org/datadog/jmeter/plugins/util/CommonUtils.java:5-8 | the group is a prefix of the thread name: empty without a space, otherwise everything before the last space |
| CommonUtils.ThreadGroupExample | src/main/java/org/datadog/jmeter/plugins/util/CommonUtils.java:7 | the thread "bar baz" belongs to the group "bar" |
| Configuration.ParseUnsignedInt | src/main/java/org/datadog/jmeter/plugins/DatadogConfiguration.java:129-141 | `Integer.parseUnsignedInt` succeeds exactly on an optional '+' followed by digits whose value is below 2^32; the result equals that value modulo 2^32, and equals it when below 2^31 |
| Configuration.Decimal | src/main/java/org/datadog/jmeter/plugins/DatadogConfiguration.java:106-107 | `String.valueOf` of a number is a non-empty string of digits |
| Configuration.DecimalRoundTrip | src/main/java/org/datadog/jmeter/plugins/DatadogConfiguration.java:129-131 | reading the digits written by `String.valueOf` gives the number back |
| Configuration.ParseUnsignedIntOfDecimal | src/main/java/org/datadog/jmeter/plugins/DatadogConfiguration.java:129-141 | `parseUnsignedInt(String.valueOf(n))` is n for every non-negative `int` |
| Configuration.GetParameter | src/main/java/org/datadog/jmeter/plugins/DatadogConfiguration.java:119-159 | `getParameter(name, default)`: the supplied text, or the default when the option is absent; its use is stated by `ParsesToDefaults` and `ParsesSupplied` |
| Configuration.LowerAscii | src/main/java/org/datadog/jmeter/plugins/DatadogConfiguration.java:144 | `toLowerCase` keeps the length and maps each upper-case ASCII letter to its lower case |
| Configuration.IsBooleanText | src/main/java/org/datadog/jmeter/plugins/DatadogConfiguration.java:144-152 | the "true"/"false" check in any case; `BooleanTextRoundTrip` states that the text of every boolean passes it |
| Configuration.ParseBoolean | src/main/java/org/datadog/jmeter/plugins/DatadogConfiguration.java:147-153 | `Boolean.parseBoolean`, true exactly for "true" in any case; `BooleanTextRoundTrip` states that it reads back the text of every boolean |
| Configuration.BooleanTextRoundTrip | src/main/java/org/datadog/jmeter/plugins/DatadogConfiguration.java:143-153 | the text of a boolean passes the "true"/"false" check and parses back to that boolean |
| Configuration.SplitOnComma | src/main/java/org/datadog/jmeter/plugins/DatadogConfiguration.java:162 | splitting on commas gives at least one piece and no piece contains a comma |
| Configuration.SplitJoinRoundTrip | src/main/java/org/datadog/jmeter/plugins/DatadogConfiguration.java:162 | joining the pieces with commas gives back the string: splitting loses nothing |
| Configuration.DropTrailingEmpty | src/main/java/org/datadog/jmeter/plugins/DatadogConfiguration.java:162 | `split` keeps a prefix of the pieces that does not end with an empty piece, and drops only empty pieces |
| Configuration.ParseCustomTags | src/main/java/org/datadog/jmeter/plugins/DatadogConfiguration.java:159-169 | no tags for the empty text; the whole text when it has no comma; otherwise the comma-separated pieces without trailing empty ones; no tag contains a comma |
| Configuration.TrailingCommasDropped | src/main/java/org/datadog/jmeter/plugins/DatadogConfiguration.java:159-169 | "a,b,," gives the tags "a" and "b" |
| Configuration.LeadingEmptyTagKept | src/main/java/org/datadog/jmeter/plugins/DatadogConfiguration.java:159-169 | ",a" gives the tags "" and "a" |
| Configuration.ParseConfiguration | src/main/java/org/datadog/jmeter/plugins/DatadogConfiguration.java:116-172 | `parseConfiguration`, with its five error cases in source order; stated by `MissingApiKeyFails`, `ParseErrorPrecedence`, `ParsesToDefaults`, `ParsesSupplied`, `OnlyApiKeyGivesDefaults` and `DeclaredDefaultsAgreeWithParsing` |
| Configuration.PluginArguments | src/main/java/org/datadog/jmeter/plugins/DatadogConfiguration.java:101-114 | ten options are declared, under distinct names |
| Configuration.DeclaredDefaultsAgreeWithParsing | src/main/java/org/datadog/jmeter/plugins/DatadogConfiguration.java:89-172 | supplying every declared default explicitly, with an API key, parses to the same configuration as leaving all of them out |
| Configuration.MissingApiKeyFails | src/main/java/org/datadog/jmeter/plugins/DatadogConfiguration.java:119-122 | without an API key, parsing fails with the missing-key error |
| Configuration.ParseErrorPrecedence | src/main/java/org/datadog/jmeter/plugins/DatadogConfiguration.java:116-153 | with an API key, the first failing check decides the error: metricsMaxBatchSize, then logsBatchSize, then sendResultsAsLogs, then includeSubresults; parsing succeeds exactly when all four pass |
| Configuration.ParsesToDefaults | src/main/java/org/datadog/jmeter/plugins/DatadogConfiguration.java:116-172 | parameters whose options all read as their defaults parse to the default configuration |
| Configuration.OnlyApiKeyGivesDefaults | src/test/java/org/datadog/jmeter/plugins/DatadogConfigurationTest.java:76-84 | an API key alone parses to the configuration with every default |
| Configuration.ParsesSupplied | src/main/java/org/datadog/jmeter/plugins/DatadogConfiguration.java:116-172 | parameters with an API key whose sizes are decimal texts below 2^31 and whose booleans are "true"/"false" parse successfully to exactly those values, the other texts as given and the custom tags split |
| Configuration.SuppliedValuesComeBack | src/main/java/org/datadog/jmeter/plugins/DatadogConfiguration.java:174-212 | valid values supplied for every option come back unchanged from the getters |
| Batching.Group | src/main/java/org/datadog/jmeter/plugins/DatadogBackendClient.java:357 | a group never holds more records than the list |
| Batching.Batches | src/main/java/org/datadog/jmeter/plugins/DatadogBackendClient.java:356-357 | `groupingBy(index / metricsBatchSize)` with Java truncating division; stated by `GroupIsSlice`, `BatchKeysRange`, `BatchesAreSlices`, `NegativeSizeBatches`, `BatchCount`, `BatchesCoverInOrder` and `BackendClient.BatchCallsCover` |
| Batching.GroupIsSlice | src/main/java/org/datadog/jmeter/plugins/DatadogBackendClient.java:356-357 | with a positive size, group k is the records from k*size up to k*size+size, cut at the end of the list; negative keys are empty |
| Batching.NegativeSizeMirrors | src/main/java/org/datadog/jmeter/plugins/DatadogBackendClient.java:357 | with a negative size, the group under key k is the group under key -k for the absolute size |
| Batching.BatchKeysRange | src/main/java/org/datadog/jmeter/plugins/DatadogBackendClient.java:357 | with a positive size, k is a batch key exactly when 0 <= k and k*size < n |
| Batching.BatchesAreSlices | src/main/java/org/datadog/jmeter/plugins/DatadogBackendClient.java:356-359 | with a positive size, every batch is a non-empty run of consecutive records starting at k*size, of at most size records |
| Batching.NegativeSizeBatches | src/main/java/org/datadog/jmeter/plugins/DatadogBackendClient.java:356-359 | a negative size gives the same batches as its absolute value, under negated keys |
| Batching.BatchCount | src/main/java/org/datadog/jmeter/plugins/DatadogBackendClient.java:356-359 | with a positive size, the keys are exactly 0 .. ceil(n/size)-1 |
| Batching.BatchesCoverInOrder | src/main/java/org/datadog/jmeter/plugins/DatadogBackendClient.java:356-359 | with a positive size, the batches laid end to end in key order give back the flushed list: no record is lost, repeated or reordered |
| BackendClient.SelectedMembers | src/main/java/org/datadog/jmeter/plugins/DatadogBackendClient.java:235-250 | a result is extracted exactly when it is a parent whose label matches (without sub-results), or a direct sub-result of such a parent (with them) |
| BackendClient.Chosen | src/main/java/org/datadog/jmeter/plugins/DatadogBackendClient.java:237-248 | what one element of the list contributes: nothing when its label does not match, else its direct sub-results or itself; stated by `SelectedMembers` |
| BackendClient.Selected | src/main/java/org/datadog/jmeter/plugins/DatadogBackendClient.java:235-250 | the results `handleSampleResults` extracts, in order; stated by `SelectedMembers`, `SelectedAllParents` and `SelectedNoneMatching` |
| BackendClient.SelectedAllParents | src/main/java/org/datadog/jmeter/plugins/DatadogBackendClient.java:236-248 | without sub-results, a list whose labels all match is extracted as it is, in order |
| BackendClient.SelectedNoneMatching | src/main/java/org/datadog/jmeter/plugins/DatadogBackendClient.java:237-240 | a list in which no label matches extracts nothing |
| BackendClient.NonMatchingIgnored | src/main/java/org/datadog/jmeter/plugins/DatadogBackendClient.java:235-250 | handling a list in which no label matches leaves the listener's metrics, buffer and submissions as they were |
| BackendClient.Handled | src/main/java/org/datadog/jmeter/plugins/DatadogBackendClient.java:235-250 | the listener after `handleSampleResults`; stated by `NonMatchingIgnored`, `HandledLogsConserved` and `HandledLogBatchesFull` |
| BackendClient.ProcessedAppend | src/main/java/org/datadog/jmeter/plugins/DatadogBackendClient.java:242-244 | extracting one run of results and then another is the same as extracting them all in turn |
| BackendClient.HandledIsProcessedSelected | src/main/java/org/datadog/jmeter/plugins/DatadogBackendClient.java:235-250 | handling a list is extracting, in order, exactly the results it selects, so the metrics and log effects of each extraction carry over to the whole list |
| BackendClient.HandledLogsConserved | src/main/java/org/datadog/jmeter/plugins/DatadogBackendClient.java:235-267 | after handling a list, the submitted log payloads followed by the buffer are the earlier ones followed by exactly the selected results in order (with logs on), and no log changes with logs off |
| BackendClient.HandledLogBatchesFull | src/main/java/org/datadog/jmeter/plugins/DatadogBackendClient.java:235-267 | handling a list keeps the buffer below the threshold, keeps every earlier payload, and submits only payloads of exactly threshold entries |
| BackendClient.TagsDetermineOutcome | src/main/java/org/datadog/jmeter/plugins/DatadogBackendClient.java:274-277 | a result has three tags, and two results share their tags exactly when they share response code, label and outcome |
| BackendClient.ResultTags | src/main/java/org/datadog/jmeter/plugins/DatadogBackendClient.java:274-277 | the three tags of a result's metrics; stated by `TagsDetermineOutcome` |
| BackendClient.ResponsesDelta | src/main/java/org/datadog/jmeter/plugins/DatadogBackendClient.java:279-290 | the `jmeter.responses_count` delta: `sampleCount - errorCount` as an `int` on success, else `errorCount`; stated by `ResponsesCountExample` |
| BackendClient.MetricsExtractedEffect | src/main/java/org/datadog/jmeter/plugins/DatadogBackendClient.java:273-299 | one result moves its responses counter by (1 + number of sub-results) times the parent's delta, modulo 2^64, and the counter is present afterwards even for a zero delta (so the next flush emits its `count` record); it adds exactly one value to each of its four histograms (time/1000, sent bytes, bytes, latency/1000); it adds no other counter key and changes no other counter, no other sketch, no gauge and no log |
| BackendClient.MetricsExtracted | src/main/java/org/datadog/jmeter/plugins/DatadogBackendClient.java:273-299 | the listener after `extractMetrics`; its effect is stated by `MetricsExtractedEffect` |
| BackendClient.ResponsesCountExample | src/main/java/org/datadog/jmeter/plugins/DatadogBackendClient.java:279-291 | a successful result with 10 samples and 1 error adds 9; with two sub-results it adds 27 |
| BackendClient.LogStepConserved | src/main/java/org/datadog/jmeter/plugins/DatadogBackendClient.java:256-267 | one extraction appends its result to the submitted-then-pending log entries when logs are on, and touches no log when they are off |
| BackendClient.LogsExtracted | src/main/java/org/datadog/jmeter/plugins/DatadogBackendClient.java:261-265 | append the entry, then submit and clear the buffer once it reaches the batch size; stated by `LogStepConserved` and `LogBufferBelowThreshold` |
| BackendClient.DataExtracted | src/main/java/org/datadog/jmeter/plugins/DatadogBackendClient.java:256-267 | the listener after `extractData`: the metrics, then the log entry when logs are on; stated by `MetricsExtractedEffect`, `LogStepConserved` and `LogBufferBelowThreshold` |
| BackendClient.Processed | src/main/java/org/datadog/jmeter/plugins/DatadogBackendClient.java:242-247 | the listener after extracting several results in turn; stated by `LogsConserved` and `LogBatchesFull` |
| BackendClient.LogsConserved | src/main/java/org/datadog/jmeter/plugins/DatadogBackendClient.java:256-267 | after any run of extractions, the submitted payloads followed by the buffer are the earlier ones followed by every extracted result in order: no log entry is lost or repeated |
| BackendClient.LogBatchesFull | src/main/java/org/datadog/jmeter/plugins/DatadogBackendClient.java:262-265 | the buffer stays below the threshold (the batch size, or 1 if smaller); earlier payloads are kept, and every payload submitted on the way holds exactly threshold entries |
| BackendClient.LogBufferBelowThreshold | src/main/java/org/datadog/jmeter/plugins/DatadogBackendClient.java:260-266 | with logs on, the buffer holds fewer entries than the threshold after any extraction |
| BackendClient.DatadogBackendClient.constructor | src/main/java/org/datadog/jmeter/plugins/DatadogBackendClient.java:84-107 | a new listener has an empty aggregator and buffer, the default batch sizes 200 and 500, logs on and sub-results off |
| BackendClient.DatadogBackendClient.SetupTest | src/main/java/org/datadog/jmeter/plugins/DatadogBackendClient.java:181-196 | `setupTest` stores the metrics batch size, the logs batch size, the logs switch and the samplers pattern, and leaves `includeSubResults` as it was |
| BackendClient.DatadogBackendClient.CountResponses | src/main/java/org/datadog/jmeter/plugins/DatadogBackendClient.java:279-291 | the counter loop increments the responses counter with the parent's delta once, then once per sub-result |
| BackendClient.DatadogBackendClient.ExtractMetrics | src/main/java/org/datadog/jmeter/plugins/DatadogBackendClient.java:273-299 | `extractMetrics` makes exactly the counter and histogram steps whose effect `MetricsExtractedEffect` states |
| BackendClient.DatadogBackendClient.ExtractData | src/main/java/org/datadog/jmeter/plugins/DatadogBackendClient.java:256-267 | `extractData` records the metrics and, with logs on, appends the result and submits the buffer once it reaches the batch size; the buffer then stays below the threshold |
| BackendClient.DatadogBackendClient.ExtractEach | src/main/java/org/datadog/jmeter/plugins/DatadogBackendClient.java:242-244 | the sub-result loop leaves the listener exactly as extracting each sub-result in turn, in list order, would; the settings and metric submissions are unchanged |
| BackendClient.DatadogBackendClient.HandleSampleResults | src/main/java/org/datadog/jmeter/plugins/DatadogBackendClient.java:235-250 | `handleSampleResults` leaves the listener exactly as processing, element by element, the results each element contributes (none when its label does not match, its direct sub-results or itself otherwise) would; the settings and metric submissions are unchanged |
| BackendClient.DatadogBackendClient.FlushWithThreadGauges | src/main/java/org/datadog/jmeter/plugins/DatadogBackendClient.java:345-354 | the five untagged thread gauges are recorded, then the aggregator is flushed; the flush is never empty |
| BackendClient.WithThreadGauges | src/main/java/org/datadog/jmeter/plugins/DatadogBackendClient.java:348-352 | the gauges after the five `addGauge` calls of a send; stated by `ThreadGaugesRecorded` |
| BackendClient.ThreadGaugesRecorded | src/main/java/org/datadog/jmeter/plugins/DatadogBackendClient.java:347-352 | the five untagged thread gauges hold the minimum, maximum and mean active threads and the finished and started threads; every other gauge, tagged or not, keeps its value; no other key is added |
| BackendClient.DatadogBackendClient.SubmitBatches | src/main/java/org/datadog/jmeter/plugins/DatadogBackendClient.java:356-359 | one metrics submission per batch of the grouping, every batch exactly once |
| BackendClient.CallsReordered | src/main/java/org/datadog/jmeter/plugins/DatadogBackendClient.java:357-359 | the batches handed over in two different orders of the same keys hold the same records, as often |
| BackendClient.PositiveSizeCallsCover | src/main/java/org/datadog/jmeter/plugins/DatadogBackendClient.java:356-359 | with a positive batch size, the batches in any key order together hold each flushed record exactly as often as the flush does |
| BackendClient.NegativeSizeCallsCover | src/main/java/org/datadog/jmeter/plugins/DatadogBackendClient.java:356-359 | the same for a negative batch size (a wrapped-around parse of a size of 2^31 or more) |
| BackendClient.BatchCallsCover | src/main/java/org/datadog/jmeter/plugins/DatadogBackendClient.java:356-359 | for any non-zero batch size and any order of the grouping map, the submitted batches together hold each flushed record exactly as often as the flush does: none is lost and none is sent twice |
| BackendClient.DatadogBackendClient.SendMetrics | src/main/java/org/datadog/jmeter/plugins/DatadogBackendClient.java:345-360 | `sendMetrics` empties the aggregator and submits the flushed records (thread gauges included) as the batches of `index / metricsBatchSize`, so that the submissions together hold each flushed record exactly once; with a zero batch size it fails (Java's `ArithmeticException`) and submits nothing; the logs are untouched |
| BackendClient.DatadogBackendClient.TeardownTest | src/main/java/org/datadog/jmeter/plugins/DatadogBackendClient.java:209-227 | `teardownTest` sends the metrics exactly as `sendMetrics` does (the flushed records, submitted in batches, each once; nothing submitted when the send fails), then submits a non-empty buffer as one last payload and clears it; when the send fails, the pending log entries stay pending; the settings are unchanged |

## Left out

- The `ReentrantLock` and `testOnlyBlocker` of both aggregators: concurrency is not modelled, and each aggregator method is one atomic step.
- The DDSketch library internals (index mapping, dense store, 1% relative accuracy): its estimates are the `Summary` parameter, an arbitrary function of the accepted values.
- Floating point: `double` and `float` values are exact reals. This covers `/ 1000f`, the sum in `DatadogSketch`, and the `long`-to-`double` conversion of counter values, which rounds above 2^53.
- Sketches.DatadogSketch.AverageValue: the NaN of an empty sketch is `None`.
- Sketches.DatadogSketch.CountValue: the count is an unbounded `nat`; a `long` overflow after 2^63 accepted values is not modelled.
- Null references: names, tags and strings are never null in the model, so the null branches of `hashCode` are not modelled. The `this == obj` shortcut of `equals` agrees with value equality and is not modelled separately.
- Configuration.ParseUnsignedInt: only ASCII digits are accepted. Java also accepts other Unicode decimal digits.
- Configuration.LowerAscii: only ASCII letters are lower-cased; `toLowerCase` is Unicode- and locale-aware.
- Regular expressions: `Pattern.compile` and its `PatternSyntaxException` are not modelled. The configuration keeps `samplersRegex` and `excludeLogsResponseCodeRegex` as text, and the listener takes the samplers pattern as a predicate "the pattern finds a match in the label".
- `DatadogConfigurationException` is the `ConfigurationError` variant that carries the message's operand.
- BackendClient.DatadogBackendClient.constructor: before `setupTest`, Java's `samplersRegex` is null and `handleSampleResults` would throw; the model's listener matches every label instead.
- The checks of `setupTest` (API key present, `validateConnection`, the parse errors of `metricsBatchSize`, `logsBatchSize` and `sendResultsAsLogs`) are not modelled, and neither is the wrong option name in its logs-batch-size message. Only the assignments it makes after passing them are modelled. `Configuration.ParseConfiguration` models the similar but different checks of `DatadogConfiguration.parseConfiguration`: the API key and the parse errors, under the option name `metricsMaxBatchSize`, plus an `includeSubresults` check. `validateConnection` is not modelled anywhere.
- The scheduler, `run`, `getDefaultParameters`, `awaitTermination` and `datadogClient = null` at teardown: scheduling and JMeter's plugin plumbing are outside the model.
- `DatadogHttpClient` is not part of this model. Its `submitMetrics` and `submitLogs` calls are recorded as payload sequences, and the payload is a snapshot of the buffer; the aliasing of the cleared list is not modelled.
- `extractLogs` builds a JSON log entry: the model's log entry is the sample result itself.
- `UserMetric` is not part of this model: the thread statistics are the `ThreadCounts` parameter, and `userMetrics.add` is left out.
- BackendClient.DatadogBackendClient.SubmitBatches: the order in which the grouping map hands over its batches is an arbitrary enumeration of the keys, not the hash map's actual order.
- The aggregators' iteration order over `HashMap` key sets is an arbitrary enumeration of the keys (the ghost `order` outputs), not Java's bucket order.
- MetricContexts.StringHash: the hash folds over Unicode scalar values, while Java's `String.hashCode` folds over UTF-16 code units; the two differ for characters above U+FFFF. `EqualsImpliesSameHash` does not depend on this.
- `src/main/java/org/datadog/jmeter/plugins/datadog/DatadogMetric.java` duplicates the metric record and is not modelled separately.
- Aggregation.SketchRecords and PluginsAggregation.SketchRecords: their own contract states only the record count; the names, types and values are stated by the matching `SketchRecordsShape` lemmas.
- Test expectations written for other revisions of the listener (extra tags, `.avg`/`.count` records, a responses count of 10 for the dummy result) do not hold for this revision's code and are not modelled. The model follows the code, which counts 9 for that result.
