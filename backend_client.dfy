/**
 * The per-sample rules of the JMeter backend listener: which results are
 * looked at, the metrics and log entries each one produces, the log buffer
 * that is submitted once it reaches its threshold, and the periodic send of
 * the aggregated metrics in batches. Calls to the HTTP client are recorded as
 * the lists of payloads submitted so far.
 */
module BackendClient {
  import opened JavaInts
  import opened MetricContexts
  import opened Metrics
  import opened Sketches
  import opened Store
  import opened Batching
  import opened PluginsAggregation

  const RESPONSES_COUNT: String := "jmeter.responses_count"
  const RESPONSE_TIME: String := "jmeter.response_time"
  const BYTES_SENT: String := "jmeter.bytes_sent"
  const BYTES_RECEIVED: String := "jmeter.bytes_received"
  const LATENCY: String := "jmeter.latency"

  const DEFAULT_METRICS_BATCH_SIZE: Int32 := 200
  const DEFAULT_LOGS_BATCH_SIZE: Int32 := 500
  const DEFAULT_SEND_RESULTS_AS_LOGS: bool := true
  const DEFAULT_INCLUDE_SUB_RESULTS: bool := false

  /** The parts of a JMeter sample result that the listener reads. */
  datatype SampleResult = SampleResult(
    sampleLabel: String,
    responseCode: String,
    successful: bool,
    sampleCount: Int32,
    errorCount: Int32,
    time: Int64,
    sentBytes: Int64,
    bytes: Int64,
    latency: Int64,
    subResults: seq<SampleResult>)

  /** The thread statistics that a send turns into gauges. */
  datatype ThreadCounts = ThreadCounts(minActive: Int32, maxActive: Int32, meanActive: real,
                                       finished: Int32, started: Int32)

  /** The aggregator's three maps, the pending log entries and the log payloads submitted so far. */
  datatype Listener = Listener(
    counters: map<Context, Int64>,
    gauges: map<Context, real>,
    histograms: map<Context, seq<real>>,
    logsBuffer: seq<SampleResult>,
    submittedLogs: seq<seq<SampleResult>>)

  // ----- which results are extracted -----

  /** What one result of the list contributes: nothing if its label does not match, else its sub-results or itself. */
  function Chosen(r: SampleResult, includeSubResults: bool, matches: String -> bool): seq<SampleResult>
  {
    if !matches(r.sampleLabel) then [] else if includeSubResults then r.subResults else [r]
  }

  /** The results `handleSampleResults` extracts, in order. */
  function Selected(list: seq<SampleResult>, includeSubResults: bool, matches: String -> bool): seq<SampleResult>
  {
    if list == [] then []
    else Selected(list[..|list| - 1], includeSubResults, matches) + Chosen(list[|list| - 1], includeSubResults, matches)
  }

  /**
   * A result is extracted exactly when it is a matching parent (without
   * sub-results) or a direct sub-result of a matching parent (with them).
   */
  lemma {:induction false} SelectedMembers(list: seq<SampleResult>, includeSubResults: bool,
                                           matches: String -> bool, x: SampleResult)
    ensures x in Selected(list, includeSubResults, matches) <==>
      exists i :: 0 <= i < |list| && matches(list[i].sampleLabel) &&
        (if includeSubResults then x in list[i].subResults else x == list[i])
  {
    if list != [] {
      var init := list[..|list| - 1];
      SelectedMembers(init, includeSubResults, matches, x);
      var last := list[|list| - 1];
      if exists i :: 0 <= i < |init| && matches(init[i].sampleLabel) &&
           (if includeSubResults then x in init[i].subResults else x == init[i]) {
        var i :| 0 <= i < |init| && matches(init[i].sampleLabel) &&
           (if includeSubResults then x in init[i].subResults else x == init[i]);
        assert list[i] == init[i];
      }
      if exists i :: 0 <= i < |list| && matches(list[i].sampleLabel) &&
           (if includeSubResults then x in list[i].subResults else x == list[i]) {
        var i :| 0 <= i < |list| && matches(list[i].sampleLabel) &&
           (if includeSubResults then x in list[i].subResults else x == list[i]);
        if i < |init| {
          assert init[i] == list[i];
        }
      }
    }
  }

  /** Without sub-results, a list whose labels all match is extracted as it is. */
  lemma {:induction false} SelectedAllParents(list: seq<SampleResult>, matches: String -> bool)
    requires forall i :: 0 <= i < |list| ==> matches(list[i].sampleLabel)
    ensures Selected(list, false, matches) == list
  {
    if list != [] {
      SelectedAllParents(list[..|list| - 1], matches);
      assert list[..|list| - 1] + [list[|list| - 1]] == list;
    }
  }

  /** A list in which no label matches is extracted as nothing. */
  lemma {:induction false} SelectedNoneMatching(list: seq<SampleResult>, includeSubResults: bool, matches: String -> bool)
    requires forall i :: 0 <= i < |list| ==> !matches(list[i].sampleLabel)
    ensures Selected(list, includeSubResults, matches) == []
  {
    if list != [] {
      SelectedNoneMatching(list[..|list| - 1], includeSubResults, matches);
    }
  }

  // ----- the metrics of one result -----

  /** The tags every metric of a result carries: its response code, its label and its outcome. */
  function ResultTags(r: SampleResult): seq<String>
  {
    ["response_code:" + r.responseCode, "sample_label:" + r.sampleLabel, "result:" + (if r.successful then "ok" else "ko")]
  }

  /** Two results share their tags exactly when they share response code, label and outcome. */
  lemma TagsDetermineOutcome(a: SampleResult, b: SampleResult)
    ensures |ResultTags(a)| == 3
    ensures ResultTags(a) == ResultTags(b) <==>
      a.responseCode == b.responseCode && a.sampleLabel == b.sampleLabel && a.successful == b.successful
  {
    var ta, tb := ResultTags(a), ResultTags(b);
    if ta == tb {
      assert ta[0][14..] == a.responseCode && tb[0][14..] == b.responseCode;
      assert ta[1][13..] == a.sampleLabel && tb[1][13..] == b.sampleLabel;
      assert ta[2][7] == (if a.successful then 'o' else 'k');
      assert tb[2][7] == (if b.successful then 'o' else 'k');
    }
  }

  /** The `jmeter.responses_count` delta: `sampleCount - errorCount` (an `int` subtraction) on success, else `errorCount`. */
  function ResponsesDelta(r: SampleResult): Int32
  {
    if r.successful then WrapInt(r.sampleCount - r.errorCount) else r.errorCount
  }

  function Observed4(histograms: map<Context, seq<real>>, tags: seq<String>, r: SampleResult): map<Context, seq<real>>
  {
    var h1 := Observed(histograms, Context(RESPONSE_TIME, tags), r.time as real / 1000.0);
    var h2 := Observed(h1, Context(BYTES_SENT, tags), r.sentBytes as real);
    var h3 := Observed(h2, Context(BYTES_RECEIVED, tags), r.bytes as real);
    Observed(h3, Context(LATENCY, tags), r.latency as real / 1000.0)
  }

  /** `extractMetrics`: the counter step, once plus once per sub-result, then four histogram values. */
  function MetricsExtracted(s: Listener, r: SampleResult): Listener
  {
    var tags := ResultTags(r);
    s.(counters := IncrementedTimes(s.counters, Context(RESPONSES_COUNT, tags), ResponsesDelta(r), 1 + |r.subResults|),
       histograms := Observed4(s.histograms, tags, r))
  }

  /**
   * One result moves its responses counter by `(1 + |subResults|)` times the
   * parent's delta and puts that counter in the map even for a zero delta,
   * adds exactly one value to each of its four histograms, and changes no
   * other counter, sketch, gauge or log.
   */
  lemma MetricsExtractedEffect(s: Listener, r: SampleResult)
    requires NoEmptySketch(s.histograms)
    ensures var t := MetricsExtracted(s, r);
      var tags := ResultTags(r);
      && NoEmptySketch(t.histograms)
      && CounterValue(t.counters, Context(RESPONSES_COUNT, tags))
         == WrapLong(CounterValue(s.counters, Context(RESPONSES_COUNT, tags)) + (1 + |r.subResults|) * ResponsesDelta(r))
      && (forall k :: k != Context(RESPONSES_COUNT, tags) ==> CounterValue(t.counters, k) == CounterValue(s.counters, k))
      && Accepted(t.histograms, Context(RESPONSE_TIME, tags)) == Accepted(s.histograms, Context(RESPONSE_TIME, tags)) + [r.time as real / 1000.0]
      && Accepted(t.histograms, Context(BYTES_SENT, tags)) == Accepted(s.histograms, Context(BYTES_SENT, tags)) + [r.sentBytes as real]
      && Accepted(t.histograms, Context(BYTES_RECEIVED, tags)) == Accepted(s.histograms, Context(BYTES_RECEIVED, tags)) + [r.bytes as real]
      && Accepted(t.histograms, Context(LATENCY, tags)) == Accepted(s.histograms, Context(LATENCY, tags)) + [r.latency as real / 1000.0]
      && (forall k :: k !in {Context(RESPONSE_TIME, tags), Context(BYTES_SENT, tags), Context(BYTES_RECEIVED, tags), Context(LATENCY, tags)}
            ==> Accepted(t.histograms, k) == Accepted(s.histograms, k))
      && t.counters.Keys == s.counters.Keys + {Context(RESPONSES_COUNT, tags)}
      && t.gauges == s.gauges && t.logsBuffer == s.logsBuffer && t.submittedLogs == s.submittedLogs
  {
    var tags := ResultTags(r);
    var t := MetricsExtracted(s, r);
    assert t.histograms == Observed4(s.histograms, tags, r);
    Observed4Effect(s.histograms, tags, r);
    IncrementsAccumulate(s.counters, Context(RESPONSES_COUNT, tags), ResponsesDelta(r), 1 + |r.subResults|);
    IncrementedTimesKeys(s.counters, Context(RESPONSES_COUNT, tags), ResponsesDelta(r), 1 + |r.subResults|);
  }

  /** The four histogram steps of one result, each adding one value to its own sketch. */
  lemma Observed4Effect(histograms: map<Context, seq<real>>, tags: seq<String>, r: SampleResult)
    requires NoEmptySketch(histograms)
    ensures var h := Observed4(histograms, tags, r);
      && NoEmptySketch(h)
      && Accepted(h, Context(RESPONSE_TIME, tags)) == Accepted(histograms, Context(RESPONSE_TIME, tags)) + [r.time as real / 1000.0]
      && Accepted(h, Context(BYTES_SENT, tags)) == Accepted(histograms, Context(BYTES_SENT, tags)) + [r.sentBytes as real]
      && Accepted(h, Context(BYTES_RECEIVED, tags)) == Accepted(histograms, Context(BYTES_RECEIVED, tags)) + [r.bytes as real]
      && Accepted(h, Context(LATENCY, tags)) == Accepted(histograms, Context(LATENCY, tags)) + [r.latency as real / 1000.0]
      && (forall k :: k !in {Context(RESPONSE_TIME, tags), Context(BYTES_SENT, tags), Context(BYTES_RECEIVED, tags), Context(LATENCY, tags)}
            ==> Accepted(h, k) == Accepted(histograms, k))
  {
    assert |RESPONSE_TIME| == 20 && |BYTES_SENT| == 17 && |BYTES_RECEIVED| == 21 && |LATENCY| == 14;
  }

  // ----- the log buffer -----

  /** `extractLogs` then the threshold check: append, and submit then clear once the size reaches the batch size. */
  function LogsExtracted(s: Listener, r: SampleResult, logsBatchSize: Int32): Listener
  {
    var buffer := s.logsBuffer + [r];
    if |buffer| >= logsBatchSize then s.(logsBuffer := [], submittedLogs := s.submittedLogs + [buffer])
    else s.(logsBuffer := buffer)
  }

  /** `extractData`: the metrics, then the log entry when results are sent as logs. */
  function DataExtracted(s: Listener, r: SampleResult, sendResultsAsLogs: bool, logsBatchSize: Int32): Listener
  {
    var t := MetricsExtracted(s, r);
    if sendResultsAsLogs then LogsExtracted(t, r, logsBatchSize) else t
  }

  /** The listener after extracting each of `rs` in turn. */
  function Processed(s: Listener, rs: seq<SampleResult>, sendResultsAsLogs: bool, logsBatchSize: Int32): Listener
  {
    if rs == [] then s
    else DataExtracted(Processed(s, rs[..|rs| - 1], sendResultsAsLogs, logsBatchSize), rs[|rs| - 1],
                       sendResultsAsLogs, logsBatchSize)
  }

  lemma ProcessedPrefix(s: Listener, rs: seq<SampleResult>, j: nat, sendResultsAsLogs: bool, logsBatchSize: Int32)
    requires j < |rs|
    ensures Processed(s, rs[..j + 1], sendResultsAsLogs, logsBatchSize)
         == DataExtracted(Processed(s, rs[..j], sendResultsAsLogs, logsBatchSize), rs[j], sendResultsAsLogs, logsBatchSize)
  {
    assert rs[..j + 1][..j] == rs[..j];
  }

  /** The buffer bound: a batch size below 1 behaves as 1. */
  function LogThreshold(logsBatchSize: Int32): nat
  {
    if logsBatchSize < 1 then 1 else logsBatchSize
  }

  /**
   * No log entry is lost or repeated: the submitted payloads followed by the
   * buffer are the earlier ones followed by every extracted result, in
   * order, when results are sent as logs, and are untouched otherwise.
   */
  lemma {:induction false} LogsConserved(s: Listener, rs: seq<SampleResult>, sendResultsAsLogs: bool, logsBatchSize: Int32)
    ensures var t := Processed(s, rs, sendResultsAsLogs, logsBatchSize);
      Concat(t.submittedLogs) + t.logsBuffer
        == Concat(s.submittedLogs) + s.logsBuffer + (if sendResultsAsLogs then rs else [])
    ensures !sendResultsAsLogs ==>
      var t := Processed(s, rs, sendResultsAsLogs, logsBatchSize);
      t.logsBuffer == s.logsBuffer && t.submittedLogs == s.submittedLogs
  {
    var before := Concat(s.submittedLogs) + s.logsBuffer;
    if rs == [] {
      assert before + [] == before;
    } else {
      var init := rs[..|rs| - 1];
      var r := rs[|rs| - 1];
      assert init + [r] == rs;
      LogsConserved(s, init, sendResultsAsLogs, logsBatchSize);
      var p := Processed(s, init, sendResultsAsLogs, logsBatchSize);
      LogStepConserved(p, r, sendResultsAsLogs, logsBatchSize);
      if sendResultsAsLogs {
        assert (before + init) + [r] == before + rs;
      }
    }
  }

  /** One extraction appends its result to the log entries, or nothing when logs are off. */
  lemma LogStepConserved(p: Listener, r: SampleResult, sendResultsAsLogs: bool, logsBatchSize: Int32)
    ensures var t := DataExtracted(p, r, sendResultsAsLogs, logsBatchSize);
      Concat(t.submittedLogs) + t.logsBuffer
        == Concat(p.submittedLogs) + p.logsBuffer + (if sendResultsAsLogs then [r] else [])
    ensures !sendResultsAsLogs ==>
      var t := DataExtracted(p, r, sendResultsAsLogs, logsBatchSize);
      t.logsBuffer == p.logsBuffer && t.submittedLogs == p.submittedLogs
  {
    var t := DataExtracted(p, r, sendResultsAsLogs, logsBatchSize);
    var buffer := p.logsBuffer + [r];
    if sendResultsAsLogs && |buffer| >= logsBatchSize {
      assert t.submittedLogs == p.submittedLogs + [buffer];
      assert (p.submittedLogs + [buffer])[..|p.submittedLogs|] == p.submittedLogs;
      assert Concat(t.submittedLogs) + t.logsBuffer == Concat(p.submittedLogs) + buffer;
    } else if !sendResultsAsLogs {
      assert Concat(p.submittedLogs) + p.logsBuffer + [] == Concat(p.submittedLogs) + p.logsBuffer;
    }
  }

  /**
   * The buffer never reaches its threshold: if it starts below it, it stays
   * below it, and every payload submitted on the way holds exactly the
   * threshold's number of entries; earlier payloads are kept as they were.
   */
  lemma {:induction false} LogBatchesFull(s: Listener, rs: seq<SampleResult>, sendResultsAsLogs: bool, logsBatchSize: Int32)
    requires |s.logsBuffer| < LogThreshold(logsBatchSize)
    ensures var t := Processed(s, rs, sendResultsAsLogs, logsBatchSize);
      && |t.logsBuffer| < LogThreshold(logsBatchSize)
      && |s.submittedLogs| <= |t.submittedLogs|
      && t.submittedLogs[..|s.submittedLogs|] == s.submittedLogs
      && (forall i :: |s.submittedLogs| <= i < |t.submittedLogs| ==> |t.submittedLogs[i]| == LogThreshold(logsBatchSize))
  {
    if rs != [] {
      var init := rs[..|rs| - 1];
      LogBatchesFull(s, init, sendResultsAsLogs, logsBatchSize);
      var p := Processed(s, init, sendResultsAsLogs, logsBatchSize);
      var t := Processed(s, rs, sendResultsAsLogs, logsBatchSize);
      if sendResultsAsLogs && |p.logsBuffer| + 1 >= logsBatchSize {
        assert t.submittedLogs == p.submittedLogs + [p.logsBuffer + [rs[|rs| - 1]]];
        assert t.submittedLogs[..|p.submittedLogs|] == p.submittedLogs;
      }
    }
  }

  /** With logs on, the buffer holds fewer entries than the threshold after any extraction, whatever it held before. */
  lemma LogBufferBelowThreshold(s: Listener, r: SampleResult, logsBatchSize: Int32)
    ensures |DataExtracted(s, r, true, logsBatchSize).logsBuffer| < LogThreshold(logsBatchSize)
  {
  }

  /** The listener after `handleSampleResults`: the results each element of `list` contributes are extracted in turn. */
  function Handled(s: Listener, list: seq<SampleResult>, includeSubResults: bool, matches: String -> bool,
                   sendResultsAsLogs: bool, logsBatchSize: Int32): Listener
  {
    if list == [] then s
    else Processed(Handled(s, list[..|list| - 1], includeSubResults, matches, sendResultsAsLogs, logsBatchSize),
                   Chosen(list[|list| - 1], includeSubResults, matches), sendResultsAsLogs, logsBatchSize)
  }

  lemma HandledStep(s: Listener, list: seq<SampleResult>, i: nat, includeSubResults: bool, matches: String -> bool,
                    sendResultsAsLogs: bool, logsBatchSize: Int32)
    requires i < |list|
    ensures Handled(s, list[..i + 1], includeSubResults, matches, sendResultsAsLogs, logsBatchSize)
         == Processed(Handled(s, list[..i], includeSubResults, matches, sendResultsAsLogs, logsBatchSize),
                      Chosen(list[i], includeSubResults, matches), sendResultsAsLogs, logsBatchSize)
  {
    assert list[..i + 1][..i] == list[..i];
  }

  /** Extracting one run of results and then another is extracting them all in turn. */
  lemma {:induction false} ProcessedAppend(s: Listener, xs: seq<SampleResult>, ys: seq<SampleResult>,
                                           sendResultsAsLogs: bool, logsBatchSize: Int32)
    ensures Processed(s, xs + ys, sendResultsAsLogs, logsBatchSize)
         == Processed(Processed(s, xs, sendResultsAsLogs, logsBatchSize), ys, sendResultsAsLogs, logsBatchSize)
    decreases |ys|
  {
    if ys == [] {
      assert xs + ys == xs;
    } else {
      var init := ys[..|ys| - 1];
      assert (xs + ys)[..|xs + ys| - 1] == xs + init;
      assert (xs + ys)[|xs + ys| - 1] == ys[|ys| - 1];
      ProcessedAppend(s, xs, init, sendResultsAsLogs, logsBatchSize);
    }
  }

  /**
   * Handling a list is extracting, in order, exactly the results it selects,
   * so the effect of each extraction (metrics and logs alike) carries over.
   */
  lemma {:induction false} HandledIsProcessedSelected(s: Listener, list: seq<SampleResult>, includeSubResults: bool,
                                                      matches: String -> bool, sendResultsAsLogs: bool, logsBatchSize: Int32)
    ensures Handled(s, list, includeSubResults, matches, sendResultsAsLogs, logsBatchSize)
         == Processed(s, Selected(list, includeSubResults, matches), sendResultsAsLogs, logsBatchSize)
  {
    if list != [] {
      var init := list[..|list| - 1];
      HandledIsProcessedSelected(s, init, includeSubResults, matches, sendResultsAsLogs, logsBatchSize);
      ProcessedAppend(s, Selected(init, includeSubResults, matches), Chosen(list[|list| - 1], includeSubResults, matches),
                      sendResultsAsLogs, logsBatchSize);
    }
  }

  /**
   * No log entry of a handled list is lost or repeated: the submitted
   * payloads followed by the buffer gain exactly the selected results, in
   * order, when results are sent as logs, and are untouched otherwise.
   */
  lemma {:induction false} HandledLogsConserved(s: Listener, list: seq<SampleResult>, includeSubResults: bool,
                                                matches: String -> bool, sendResultsAsLogs: bool, logsBatchSize: Int32)
    ensures var t := Handled(s, list, includeSubResults, matches, sendResultsAsLogs, logsBatchSize);
      Concat(t.submittedLogs) + t.logsBuffer
        == Concat(s.submittedLogs) + s.logsBuffer + (if sendResultsAsLogs then Selected(list, includeSubResults, matches) else [])
    ensures !sendResultsAsLogs ==>
      var t := Handled(s, list, includeSubResults, matches, sendResultsAsLogs, logsBatchSize);
      t.logsBuffer == s.logsBuffer && t.submittedLogs == s.submittedLogs
  {
    if list == [] {
      assert Concat(s.submittedLogs) + s.logsBuffer + [] == Concat(s.submittedLogs) + s.logsBuffer;
    } else {
      var init := list[..|list| - 1];
      var chosen := Chosen(list[|list| - 1], includeSubResults, matches);
      HandledLogsConserved(s, init, includeSubResults, matches, sendResultsAsLogs, logsBatchSize);
      var p := Handled(s, init, includeSubResults, matches, sendResultsAsLogs, logsBatchSize);
      LogsConserved(p, chosen, sendResultsAsLogs, logsBatchSize);
      if sendResultsAsLogs {
        var before := Concat(s.submittedLogs) + s.logsBuffer;
        var front := Selected(init, includeSubResults, matches);
        assert Selected(list, includeSubResults, matches) == front + chosen;
        assert (before + front) + chosen == before + (front + chosen);
      }
    }
  }

  /**
   * Handling a list keeps the buffer below its threshold, keeps every
   * earlier payload, and submits only payloads of exactly the threshold's
   * number of entries.
   */
  lemma {:induction false} HandledLogBatchesFull(s: Listener, list: seq<SampleResult>, includeSubResults: bool,
                                                 matches: String -> bool, sendResultsAsLogs: bool, logsBatchSize: Int32)
    requires |s.logsBuffer| < LogThreshold(logsBatchSize)
    ensures var t := Handled(s, list, includeSubResults, matches, sendResultsAsLogs, logsBatchSize);
      && |t.logsBuffer| < LogThreshold(logsBatchSize)
      && |s.submittedLogs| <= |t.submittedLogs|
      && t.submittedLogs[..|s.submittedLogs|] == s.submittedLogs
      && (forall i :: |s.submittedLogs| <= i < |t.submittedLogs| ==> |t.submittedLogs[i]| == LogThreshold(logsBatchSize))
  {
    if list != [] {
      var init := list[..|list| - 1];
      HandledLogBatchesFull(s, init, includeSubResults, matches, sendResultsAsLogs, logsBatchSize);
      var p := Handled(s, init, includeSubResults, matches, sendResultsAsLogs, logsBatchSize);
      var chosen := Chosen(list[|list| - 1], includeSubResults, matches);
      LogBatchesFull(p, chosen, sendResultsAsLogs, logsBatchSize);
      var t := Processed(p, chosen, sendResultsAsLogs, logsBatchSize);
      assert t.submittedLogs[..|p.submittedLogs|][..|s.submittedLogs|] == t.submittedLogs[..|s.submittedLogs|];
    }
  }

  /** A list whose labels all fail to match leaves the listener as it was. */
  lemma {:induction false} NonMatchingIgnored(s: Listener, list: seq<SampleResult>, includeSubResults: bool,
                                              matches: String -> bool, sendResultsAsLogs: bool, logsBatchSize: Int32)
    requires forall i :: 0 <= i < |list| ==> !matches(list[i].sampleLabel)
    ensures Handled(s, list, includeSubResults, matches, sendResultsAsLogs, logsBatchSize) == s
  {
    if list != [] {
      NonMatchingIgnored(s, list[..|list| - 1], includeSubResults, matches, sendResultsAsLogs, logsBatchSize);
    }
  }

  /**
   * A successful result with ten samples of which one failed moves its
   * responses counter by nine; with two sub-results, by twenty-seven.
   */
  lemma ResponsesCountExample(s: Listener, sampleLabel: String, code: String, subs: seq<SampleResult>)
    requires |subs| == 0 || |subs| == 2
    ensures var r := SampleResult(sampleLabel, code, true, 10, 1, 0, 0, 0, 0, subs);
      var ctx := Context(RESPONSES_COUNT, ResultTags(r));
      CounterValue(MetricsExtracted(s, r).counters, ctx) == WrapLong(CounterValue(s.counters, ctx) + (if subs == [] then 9 else 27))
  {
    var r := SampleResult(sampleLabel, code, true, 10, 1, 0, 0, 0, 0, subs);
    IncrementsAccumulate(s.counters, Context(RESPONSES_COUNT, ResultTags(r)), ResponsesDelta(r), 1 + |subs|);
  }

  // ----- the periodic send -----

  /** The five thread gauges a send records first, all without tags. */
  function WithThreadGauges(gauges: map<Context, real>, threads: ThreadCounts): map<Context, real>
  {
    var g1 := WithGauge(gauges, Context("jmeter.active_threads.min", []), threads.minActive as real);
    var g2 := WithGauge(g1, Context("jmeter.active_threads.max", []), threads.maxActive as real);
    var g3 := WithGauge(g2, Context("jmeter.active_threads.avg", []), threads.meanActive);
    var g4 := WithGauge(g3, Context("jmeter.threads.finished", []), threads.finished as real);
    WithGauge(g4, Context("jmeter.threads.started", []), threads.started as real)
  }

  /**
   * The five untagged thread gauges hold the thread counts afterwards, every
   * other gauge keeps its value, and no other key is added.
   */
  lemma ThreadGaugesRecorded(gauges: map<Context, real>, threads: ThreadCounts)
    ensures var g := WithThreadGauges(gauges, threads);
      && g.Keys == gauges.Keys + {Context("jmeter.active_threads.min", []), Context("jmeter.active_threads.max", []),
                                  Context("jmeter.active_threads.avg", []), Context("jmeter.threads.finished", []),
                                  Context("jmeter.threads.started", [])}
      && g[Context("jmeter.active_threads.min", [])] == threads.minActive as real
      && g[Context("jmeter.active_threads.max", [])] == threads.maxActive as real
      && g[Context("jmeter.active_threads.avg", [])] == threads.meanActive
      && g[Context("jmeter.threads.finished", [])] == threads.finished as real
      && g[Context("jmeter.threads.started", [])] == threads.started as real
    ensures forall k :: (k in gauges && k !in {Context("jmeter.active_threads.min", []), Context("jmeter.active_threads.max", []),
                                               Context("jmeter.active_threads.avg", []), Context("jmeter.threads.finished", []),
                                               Context("jmeter.threads.started", [])}
                         ==> WithThreadGauges(gauges, threads)[k] == gauges[k])
  {
    var n1, n2, n3 := "jmeter.active_threads.min", "jmeter.active_threads.max", "jmeter.active_threads.avg";
    var n4, n5 := "jmeter.threads.finished", "jmeter.threads.started";
    assert n1[7] == 'a' && n2[7] == 'a' && n3[7] == 'a' && n4[7] == 't' && n5[7] == 't';
    assert n1[23] == 'i' && n2[23] == 'a' && n3[23] == 'v';
    assert n4[15] == 'f' && n5[15] == 's';
  }

  /** The batches of a send, one API call each, in the order given. */
  function BatchCalls(batches: map<int, seq<Metric>>, order: seq<int>): seq<seq<Metric>>
    requires forall i :: 0 <= i < |order| ==> order[i] in batches
  {
    seq(|order|, j requires 0 <= j < |order| => batches[order[j]])
  }

  lemma BatchCallsAppend(batches: map<int, seq<Metric>>, x: seq<int>, y: seq<int>)
    requires forall i :: 0 <= i < |x| ==> x[i] in batches
    requires forall i :: 0 <= i < |y| ==> y[i] in batches
    ensures BatchCalls(batches, x + y) == BatchCalls(batches, x) + BatchCalls(batches, y)
  {
  }

  /** Leaving out the call at position p leaves out exactly that batch's records. */
  lemma CallsWithout(batches: map<int, seq<Metric>>, order: seq<int>, p: nat)
    requires forall i :: 0 <= i < |order| ==> order[i] in batches
    requires p < |order|
    ensures multiset(Concat(BatchCalls(batches, order)))
         == multiset(Concat(BatchCalls(batches, order[..p] + order[p + 1..]))) + multiset(batches[order[p]])
  {
    var front, back := order[..p], order[p + 1..];
    var a, c := BatchCalls(batches, front), BatchCalls(batches, back);
    var one := [batches[order[p]]];
    assert order == front + ([order[p]] + back);
    BatchCallsAppend(batches, [order[p]], back);
    BatchCallsAppend(batches, front, [order[p]] + back);
    BatchCallsAppend(batches, front, back);
    assert BatchCalls(batches, [order[p]]) == one;
    ConcatAppend(a, one + c);
    ConcatAppend(one, c);
    ConcatAppend(a, c);
    assert Concat(one) == Concat<Metric>([]) + batches[order[p]];
  }

  /** Any two orders of the same keys submit the same records, each as often. */
  lemma {:induction false} CallsReordered(batches: map<int, seq<Metric>>, o1: seq<int>, o2: seq<int>, keys: set<int>)
    requires keys <= batches.Keys
    requires IsEnumeration(o1, keys) && IsEnumeration(o2, keys)
    ensures multiset(Concat(BatchCalls(batches, o1))) == multiset(Concat(BatchCalls(batches, o2)))
    decreases |o1|
  {
    if o1 == [] {
      assert o2 == [] by {
        EnumerationLength(o1, keys);
        EnumerationLength(o2, keys);
      }
    } else {
      var n := |o1|;
      var k := o1[n - 1];
      assert k in o2;
      var p :| 0 <= p < |o2| && o2[p] == k;
      var r1, r2 := o1[..n - 1] + o1[n..], o2[..p] + o2[p + 1..];
      EnumerationWithout(o1, keys, n - 1);
      EnumerationWithout(o2, keys, p);
      CallsReordered(batches, r1, r2, keys - {k});
      CallsWithoutBoth(batches, o1, o2, n - 1, p);
    }
  }

  /** Two orders that agree on the records once one common key is left out of each agree on all of them. */
  lemma CallsWithoutBoth(batches: map<int, seq<Metric>>, o1: seq<int>, o2: seq<int>, p1: nat, p2: nat)
    requires forall i :: 0 <= i < |o1| ==> o1[i] in batches
    requires forall i :: 0 <= i < |o2| ==> o2[i] in batches
    requires p1 < |o1| && p2 < |o2| && o1[p1] == o2[p2]
    requires multiset(Concat(BatchCalls(batches, o1[..p1] + o1[p1 + 1..])))
          == multiset(Concat(BatchCalls(batches, o2[..p2] + o2[p2 + 1..])))
    ensures multiset(Concat(BatchCalls(batches, o1))) == multiset(Concat(BatchCalls(batches, o2)))
  {
    CallsWithout(batches, o1, p1);
    CallsWithout(batches, o2, p2);
  }

  /** The keys 0 .. count-1 in increasing order. */
  function Upto(count: nat): (r: seq<int>)
    ensures |r| == count && forall i :: 0 <= i < count ==> r[i] == i
  {
    seq(count, i requires 0 <= i < count => i)
  }

  lemma UptoEnumeratesBatches(ms: seq<Metric>, size: int)
    requires size > 0
    ensures IsEnumeration(Upto((|ms| + size - 1) / size), Batches(ms, size).Keys)
  {
    BatchCount(|ms|, size);
    var keys := Upto((|ms| + size - 1) / size);
    assert forall k :: k in Batches(ms, size) ==> keys[k] == k;
  }

  lemma UptoCallsInOrder(ms: seq<Metric>, size: int)
    requires size > 0
    ensures var count := (|ms| + size - 1) / size;
      (forall k :: 0 <= k < count ==> k in Batches(ms, size))
      && Concat(BatchCalls(Batches(ms, size), Upto(count))) == ms
  {
    var count := (|ms| + size - 1) / size;
    var b := Batches(ms, size);
    BatchesCoverInOrder(ms, size);
    assert BatchCalls(b, Upto(count)) == seq(count, k requires 0 <= k < count => b[k]);
  }

  /** With a positive size, the batches in any order hold every flushed record exactly as often as the flush does. */
  lemma PositiveSizeCallsCover(ms: seq<Metric>, size: int, order: seq<int>)
    requires size > 0
    requires IsEnumeration(order, Batches(ms, size).Keys)
    ensures multiset(Concat(BatchCalls(Batches(ms, size), order))) == multiset(ms)
  {
    UptoEnumeratesBatches(ms, size);
    UptoCallsInOrder(ms, size);
    CallsReordered(Batches(ms, size), order, Upto((|ms| + size - 1) / size), Batches(ms, size).Keys);
  }

  /** Every key negated. */
  function Mirror(order: seq<int>): (r: seq<int>)
    ensures |r| == |order| && forall i :: 0 <= i < |order| ==> r[i] == -order[i]
  {
    seq(|order|, i requires 0 <= i < |order| => -order[i])
  }

  /** With a negative size, the batch keys are 0, -1, … down to the negated key count of the absolute size. */
  lemma NegativeKeys(ms: seq<Metric>, size: int)
    requires size < 0
    ensures IsEnumeration(Mirror(Upto((|ms| + -size - 1) / -size)), Batches(ms, size).Keys)
  {
    var count := (|ms| + -size - 1) / -size;
    var b, m := Batches(ms, size), Mirror(Upto(count));
    BatchCount(|ms|, -size);
    forall i | 0 <= i < count
      ensures m[i] in b
    {
      NegativeSizeBatches(ms, size, m[i]);
    }
    forall k | k in b
      ensures k in m
    {
      NegativeSizeBatches(ms, size, k);
      assert m[-k] == k;
    }
  }

  /** With a negative size, the calls in some order are the calls of the absolute size in the negated order. */
  lemma MirrorCalls(ms: seq<Metric>, size: int, order: seq<int>)
    requires size < 0
    requires forall i :: 0 <= i < |order| ==> order[i] in Batches(ms, size)
    ensures forall i :: 0 <= i < |order| ==> Mirror(order)[i] in Batches(ms, -size)
    ensures BatchCalls(Batches(ms, size), order) == BatchCalls(Batches(ms, -size), Mirror(order))
  {
    forall i | 0 <= i < |order|
      ensures Mirror(order)[i] in Batches(ms, -size) && Batches(ms, size)[order[i]] == Batches(ms, -size)[Mirror(order)[i]]
    {
      NegativeSizeBatches(ms, size, order[i]);
    }
  }

  /**
   * Every flushed record is submitted exactly once: whatever order the
   * grouping map hands its batches over in, the calls together hold each
   * record as often as the flush does, for any non-zero batch size.
   */
  lemma BatchCallsCover(ms: seq<Metric>, size: int, order: seq<int>)
    requires size != 0
    requires IsEnumeration(order, Batches(ms, size).Keys)
    ensures multiset(Concat(BatchCalls(Batches(ms, size), order))) == multiset(ms)
  {
    if size > 0 {
      PositiveSizeCallsCover(ms, size, order);
    } else {
      NegativeSizeCallsCover(ms, size, order);
    }
  }

  /** With a negative size, the batches in any order hold every flushed record exactly as often as the flush does. */
  lemma NegativeSizeCallsCover(ms: seq<Metric>, size: int, order: seq<int>)
    requires size < 0
    requires IsEnumeration(order, Batches(ms, size).Keys)
    ensures multiset(Concat(BatchCalls(Batches(ms, size), order))) == multiset(ms)
  {
    var b, b2 := Batches(ms, size), Batches(ms, -size);
    var count := (|ms| + -size - 1) / -size;
    var m := Mirror(Upto(count));
    assert multiset(Concat(BatchCalls(b, order))) == multiset(Concat(BatchCalls(b, m))) by {
      NegativeKeys(ms, size);
      CallsReordered(b, order, m, b.Keys);
    }
    assert BatchCalls(b, m) == BatchCalls(b2, Upto(count)) by {
      NegativeKeys(ms, size);
      MirrorCalls(ms, size, m);
      assert Mirror(m) == Upto(count);
    }
    assert Concat(BatchCalls(b2, Upto(count))) == ms by {
      UptoCallsInOrder(ms, -size);
    }
  }

  /** The listener's settings: metricsBatchSize, logsBatchSize, sendResultsAsLogs, includeSubResults, samplersRegex. */
  datatype Settings = Settings(metricsBatchSize: Int32, logsBatchSize: Int32, sendResultsAsLogs: bool,
                               includeSubResults: bool, samplersRegex: String -> bool)

  /** The listener's own state: an aggregator, the log buffer, the settings, and what has been submitted. */
  class DatadogBackendClient {
    const aggregator: ConcurrentAggregator
    var logsBuffer: seq<SampleResult>
    var metricsBatchSize: Int32
    var logsBatchSize: Int32
    var sendResultsAsLogs: bool
    var includeSubResults: bool
    /** Whether the samplers pattern finds a match in a label. */
    var samplersRegex: String -> bool
    /** Each `submitLogs` call's payload, in call order. */
    var submittedLogs: seq<seq<SampleResult>>
    /** Each `submitMetrics` call's payload, in call order. */
    var submittedMetrics: seq<seq<Metric>>

    ghost predicate Valid()
      reads this, aggregator
    {
      aggregator.Valid()
    }

    ghost function State(): Listener
      reads this, aggregator
    {
      Listener(aggregator.counters, aggregator.gauges, aggregator.histograms, logsBuffer, submittedLogs)
    }

    ghost function Config(): Settings
      reads this
    {
      Settings(metricsBatchSize, logsBatchSize, sendResultsAsLogs, includeSubResults, samplersRegex)
    }

    /** A new listener: an empty aggregator, an empty log buffer, the default settings, and a pattern that matches every label. */
    constructor ()
      ensures Valid() && fresh(aggregator)
      ensures State() == Listener(map[], map[], map[], [], [])
      ensures submittedMetrics == []
      ensures metricsBatchSize == DEFAULT_METRICS_BATCH_SIZE && logsBatchSize == DEFAULT_LOGS_BATCH_SIZE
      ensures sendResultsAsLogs == DEFAULT_SEND_RESULTS_AS_LOGS && includeSubResults == DEFAULT_INCLUDE_SUB_RESULTS
      ensures forall name :: samplersRegex(name)
    {
      aggregator := new ConcurrentAggregator();
      logsBuffer := [];
      metricsBatchSize := DEFAULT_METRICS_BATCH_SIZE;
      logsBatchSize := DEFAULT_LOGS_BATCH_SIZE;
      sendResultsAsLogs := DEFAULT_SEND_RESULTS_AS_LOGS;
      includeSubResults := DEFAULT_INCLUDE_SUB_RESULTS;
      samplersRegex := (name: String) => true;
      submittedLogs := [];
      submittedMetrics := [];
    }

    /** What `setupTest` stores once its checks have passed; `includeSubResults` is not among them. */
    method SetupTest(metricsBatchSize: Int32, logsBatchSize: Int32, sendResultsAsLogs: bool, samplersRegex: String -> bool)
      modifies this
      ensures Config() == Settings(metricsBatchSize, logsBatchSize, sendResultsAsLogs,
                                   old(includeSubResults), samplersRegex)
      ensures logsBuffer == old(logsBuffer) && submittedLogs == old(submittedLogs)
      ensures submittedMetrics == old(submittedMetrics)
    {
      this.metricsBatchSize := metricsBatchSize;
      this.logsBatchSize := logsBatchSize;
      this.sendResultsAsLogs := sendResultsAsLogs;
      this.samplersRegex := samplersRegex;
    }

    /** The responses counter step of `extractMetrics`: once, then once per sub-result. */
    method CountResponses(r: SampleResult)
      requires Valid()
      modifies aggregator
      ensures Valid()
      ensures aggregator.counters ==
        IncrementedTimes(old(aggregator.counters), Context(RESPONSES_COUNT, ResultTags(r)), ResponsesDelta(r), 1 + |r.subResults|)
      ensures aggregator.gauges == old(aggregator.gauges) && aggregator.histograms == old(aggregator.histograms)
    {
      var tags := ResultTags(r);
      var delta := if r.successful then WrapInt(r.sampleCount - r.errorCount) else r.errorCount;
      aggregator.IncrementCounterNamed(RESPONSES_COUNT, tags, delta);
      for i := 0 to |r.subResults|
        invariant Valid()
        invariant aggregator.counters ==
          IncrementedTimes(old(aggregator.counters), Context(RESPONSES_COUNT, tags), delta, 1 + i)
        invariant aggregator.gauges == old(aggregator.gauges) && aggregator.histograms == old(aggregator.histograms)
      {
        aggregator.IncrementCounterNamed(RESPONSES_COUNT, tags, delta);
      }
    }

    /** `extractMetrics`. */
    method ExtractMetrics(r: SampleResult)
      requires Valid()
      modifies aggregator
      ensures Valid()
      ensures State() == MetricsExtracted(old(State()), r)
    {
      CountResponses(r);
      var tags := ResultTags(r);
      aggregator.HistogramNamed(RESPONSE_TIME, tags, r.time as real / 1000.0);
      aggregator.HistogramNamed(BYTES_SENT, tags, r.sentBytes as real);
      aggregator.HistogramNamed(BYTES_RECEIVED, tags, r.bytes as real);
      aggregator.HistogramNamed(LATENCY, tags, r.latency as real / 1000.0);
      assert aggregator.histograms == Observed4(old(aggregator.histograms), tags, r);
    }

    /** `extractData`. */
    method ExtractData(r: SampleResult)
      requires Valid()
      modifies this, aggregator
      ensures Valid()
      ensures State() == DataExtracted(old(State()), r, sendResultsAsLogs, logsBatchSize)
      ensures sendResultsAsLogs ==> |logsBuffer| < LogThreshold(logsBatchSize)
      ensures Config() == old(Config()) && submittedMetrics == old(submittedMetrics)
    {
      ExtractMetrics(r);
      if sendResultsAsLogs {
        logsBuffer := logsBuffer + [r];
        if |logsBuffer| >= logsBatchSize {
          submittedLogs := submittedLogs + [logsBuffer];
          logsBuffer := [];
        }
      }
    }

    /** The loop of `handleSampleResults` over the sub-results of one result. */
    method ExtractEach(rs: seq<SampleResult>)
      requires Valid()
      modifies this, aggregator
      ensures Valid()
      ensures State() == Processed(old(State()), rs, sendResultsAsLogs, logsBatchSize)
      ensures Config() == old(Config()) && submittedMetrics == old(submittedMetrics)
    {
      for j := 0 to |rs|
        invariant Valid()
        invariant State() == Processed(old(State()), rs[..j], sendResultsAsLogs, logsBatchSize)
        invariant Config() == old(Config()) && submittedMetrics == old(submittedMetrics)
      {
        ExtractData(rs[j]);
        ProcessedPrefix(old(State()), rs, j, sendResultsAsLogs, logsBatchSize);
      }
      assert rs[..|rs|] == rs;
    }

    /** `handleSampleResults`. */
    method HandleSampleResults(list: seq<SampleResult>)
      requires Valid()
      modifies this, aggregator
      ensures Valid()
      ensures State() == Handled(old(State()), list, includeSubResults, samplersRegex, sendResultsAsLogs, logsBatchSize)
      ensures Config() == old(Config()) && submittedMetrics == old(submittedMetrics)
    {
      for i := 0 to |list|
        invariant Valid()
        invariant State() == Handled(old(State()), list[..i], includeSubResults, samplersRegex, sendResultsAsLogs, logsBatchSize)
        invariant Config() == old(Config()) && submittedMetrics == old(submittedMetrics)
      {
        var r := list[i];
        HandledStep(old(State()), list, i, includeSubResults, samplersRegex, sendResultsAsLogs, logsBatchSize);
        ghost var before := State();
        if !samplersRegex(r.sampleLabel) {
          continue;
        }
        if includeSubResults {
          ExtractEach(r.subResults);
        } else {
          ExtractData(r);
          assert [r][..0] == [];
          assert Processed(before, [r], sendResultsAsLogs, logsBatchSize)
              == DataExtracted(before, r, sendResultsAsLogs, logsBatchSize);
        }
      }
      assert list[..|list|] == list;
    }

    /** The gauges and the flush of `sendMetrics`. */
    method FlushWithThreadGauges(threads: ThreadCounts, summary: Summary)
      returns (metrics: seq<Metric>, ghost counterOrder: seq<Context>, ghost gaugeOrder: seq<Context>,
               ghost histogramOrder: seq<Context>)
      requires Valid()
      modifies aggregator
      ensures Valid()
      ensures aggregator.counters == map[] && aggregator.gauges == map[] && aggregator.histograms == map[]
      ensures IsEnumeration(counterOrder, old(aggregator.counters).Keys)
      ensures IsEnumeration(gaugeOrder, WithThreadGauges(old(aggregator.gauges), threads).Keys)
      ensures IsEnumeration(histogramOrder, old(aggregator.histograms).Keys)
      ensures NoEmptySketch(old(aggregator.histograms))
      ensures metrics == FlushRecords(old(aggregator.counters), WithThreadGauges(old(aggregator.gauges), threads),
                                      old(aggregator.histograms), counterOrder, gaugeOrder, histogramOrder, summary)
      ensures |metrics| > 0
    {
      aggregator.AddGaugeNamed("jmeter.active_threads.min", [], threads.minActive as real);
      aggregator.AddGaugeNamed("jmeter.active_threads.max", [], threads.maxActive as real);
      aggregator.AddGaugeNamed("jmeter.active_threads.avg", [], threads.meanActive);
      aggregator.AddGaugeNamed("jmeter.threads.finished", [], threads.finished as real);
      aggregator.AddGaugeNamed("jmeter.threads.started", [], threads.started as real);
      ghost var gauges := aggregator.gauges;
      assert gauges == WithThreadGauges(old(aggregator.gauges), threads);
      assert Context("jmeter.threads.started", []) in gauges;
      metrics, counterOrder, gaugeOrder, histogramOrder := aggregator.FlushMetrics(summary);
      FlushLayout(old(aggregator.counters), gauges, old(aggregator.histograms),
                  counterOrder, gaugeOrder, histogramOrder, summary);
      assert Context("jmeter.threads.started", []) in gaugeOrder;
    }

    /** The submission of `sendMetrics`: one call per group of `groupingBy(index / metricsBatchSize)`. */
    method SubmitBatches(metrics: seq<Metric>) returns (ghost order: seq<int>)
      requires metricsBatchSize != 0
      modifies this`submittedMetrics
      ensures IsEnumeration(order, Batches(metrics, metricsBatchSize).Keys)
      ensures submittedMetrics == old(submittedMetrics) + BatchCalls(Batches(metrics, metricsBatchSize), order)
    {
      order := [];
      var batches := Batches(metrics, metricsBatchSize);
      var remaining := batches.Keys;
      while remaining != {}
        invariant remaining <= batches.Keys
        invariant forall i, j :: 0 <= i < j < |order| ==> order[i] != order[j]
        invariant forall i :: 0 <= i < |order| ==> order[i] in batches && order[i] !in remaining
        invariant forall k :: k in batches ==> k in remaining || k in order
        invariant submittedMetrics == old(submittedMetrics) + BatchCalls(batches, order)
        decreases remaining
      {
        var k :| k in remaining;
        submittedMetrics := submittedMetrics + [batches[k]];
        order := order + [k];
        remaining := remaining - {k};
      }
    }

    /**
     * `sendMetrics`: record the five thread gauges, flush the aggregator, and
     * submit the records grouped by `index / metricsBatchSize`. A zero batch
     * size throws before any call, losing the flushed records; the grouping
     * map hands its groups over in `order`.
     */
    method SendMetrics(threads: ThreadCounts, summary: Summary)
      returns (ok: bool, metrics: seq<Metric>, ghost counterOrder: seq<Context>, ghost gaugeOrder: seq<Context>,
               ghost histogramOrder: seq<Context>, ghost order: seq<int>)
      requires Valid()
      modifies this, aggregator
      ensures Valid()
      ensures aggregator.counters == map[] && aggregator.gauges == map[] && aggregator.histograms == map[]
      ensures IsEnumeration(counterOrder, old(aggregator.counters).Keys)
      ensures IsEnumeration(gaugeOrder, WithThreadGauges(old(aggregator.gauges), threads).Keys)
      ensures IsEnumeration(histogramOrder, old(aggregator.histograms).Keys)
      ensures NoEmptySketch(old(aggregator.histograms))
      ensures metrics == FlushRecords(old(aggregator.counters), WithThreadGauges(old(aggregator.gauges), threads),
                                      old(aggregator.histograms), counterOrder, gaugeOrder, histogramOrder, summary)
      ensures ok <==> metricsBatchSize != 0
      ensures !ok ==> submittedMetrics == old(submittedMetrics)
      ensures ok ==> IsEnumeration(order, Batches(metrics, metricsBatchSize).Keys)
      ensures ok ==> submittedMetrics == old(submittedMetrics) + BatchCalls(Batches(metrics, metricsBatchSize), order)
      ensures ok ==> multiset(Concat(submittedMetrics[|old(submittedMetrics)|..])) == multiset(metrics)
      ensures logsBuffer == old(logsBuffer) && submittedLogs == old(submittedLogs)
      ensures Config() == old(Config())
    {
      metrics, counterOrder, gaugeOrder, histogramOrder := FlushWithThreadGauges(threads, summary);
      order := [];
      if metricsBatchSize == 0 {
        ok := false;
        return;
      }
      ok := true;
      order := SubmitBatches(metrics);
      BatchCallsCover(metrics, metricsBatchSize, order);
      assert submittedMetrics[|old(submittedMetrics)|..] == BatchCalls(Batches(metrics, metricsBatchSize), order);
    }

    /**
     * `teardownTest`: a last send, then the pending log entries are submitted
     * if there are any, and the buffer is cleared. When the send throws, the
     * log entries stay pending.
     */
    method TeardownTest(threads: ThreadCounts, summary: Summary)
      returns (ok: bool, metrics: seq<Metric>, ghost counterOrder: seq<Context>, ghost gaugeOrder: seq<Context>,
               ghost histogramOrder: seq<Context>, ghost order: seq<int>)
      requires Valid()
      modifies this, aggregator
      ensures Valid()
      ensures aggregator.counters == map[] && aggregator.gauges == map[] && aggregator.histograms == map[]
      ensures IsEnumeration(counterOrder, old(aggregator.counters).Keys)
      ensures IsEnumeration(gaugeOrder, WithThreadGauges(old(aggregator.gauges), threads).Keys)
      ensures IsEnumeration(histogramOrder, old(aggregator.histograms).Keys)
      ensures NoEmptySketch(old(aggregator.histograms))
      ensures metrics == FlushRecords(old(aggregator.counters), WithThreadGauges(old(aggregator.gauges), threads),
                                      old(aggregator.histograms), counterOrder, gaugeOrder, histogramOrder, summary)
      ensures ok <==> metricsBatchSize != 0
      ensures !ok ==> submittedMetrics == old(submittedMetrics)
      ensures ok ==> IsEnumeration(order, Batches(metrics, metricsBatchSize).Keys)
      ensures ok ==> submittedMetrics == old(submittedMetrics) + BatchCalls(Batches(metrics, metricsBatchSize), order)
      ensures ok ==> multiset(Concat(submittedMetrics[|old(submittedMetrics)|..])) == multiset(metrics)
      ensures ok ==> logsBuffer == []
      ensures ok ==> submittedLogs == old(submittedLogs) + (if old(logsBuffer) != [] then [old(logsBuffer)] else [])
      ensures !ok ==> logsBuffer == old(logsBuffer) && submittedLogs == old(submittedLogs)
      ensures Config() == old(Config())
    {
      ok, metrics, counterOrder, gaugeOrder, histogramOrder, order := SendMetrics(threads, summary);
      if !ok {
        return;
      }
      if |logsBuffer| > 0 {
        submittedLogs := submittedLogs + [logsBuffer];
        logsBuffer := [];
      }
    }
  }
}
