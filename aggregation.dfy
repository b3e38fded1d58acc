/**
 * The aggregator of the `aggregation` package: counters, gauges and
 * count/sum sketches per metric identity, flushed as seven records per sketch.
 * Each method is one atomic step; the lock that makes it so in the source is
 * not modelled.
 */
module Aggregation {
  import opened JavaInts
  import opened MetricContexts
  import opened Metrics
  import opened Sketches
  import opened Store

  /** Name suffixes of the seven records a sketch flushes to, in emission order. */
  const SUFFIXES: seq<String> := [".max", ".min", ".p99", ".p95", ".p90", ".avg", ".count"]

  /**
   * The seven records of one sketch: five library estimates and the exact
   * average as gauges, then the exact count as a count.
   */
  function SketchRecords(ctx: Context, values: seq<real>, summary: Summary): (r: seq<Metric>)
    requires |values| > 0
    ensures |r| == 7
  {
    [ NewMetric(ctx.name + ".max", "gauge", summary(values, MaxValue), ctx.tags),
      NewMetric(ctx.name + ".min", "gauge", summary(values, MinValue), ctx.tags),
      NewMetric(ctx.name + ".p99", "gauge", summary(values, ValueAtQuantile(0.99)), ctx.tags),
      NewMetric(ctx.name + ".p95", "gauge", summary(values, ValueAtQuantile(0.95)), ctx.tags),
      NewMetric(ctx.name + ".p90", "gauge", summary(values, ValueAtQuantile(0.90)), ctx.tags),
      NewMetric(ctx.name + ".avg", "gauge", Mean(values), ctx.tags),
      NewMetric(ctx.name + ".count", "count", |values| as real, ctx.tags) ]
  }

  /**
   * Shape of a sketch's records: names are the context's name plus the
   * suffixes in order, all carry the context's tags, the last is a count of
   * the accepted values and the others are gauges; the average record is
   * the exact mean of the accepted values.
   */
  lemma SketchRecordsShape(ctx: Context, values: seq<real>, summary: Summary)
    requires |values| > 0
    ensures var r := SketchRecords(ctx, values, summary);
      && (forall j :: 0 <= j < 7 ==>
            r[j].Name() == ctx.name + SUFFIXES[j] && r[j].Tags() == ctx.tags &&
            r[j].metricType == (if j == 6 then "count" else "gauge"))
      && r[0].value == summary(values, MaxValue) && r[1].value == summary(values, MinValue)
      && r[2].value == summary(values, ValueAtQuantile(0.99))
      && r[3].value == summary(values, ValueAtQuantile(0.95))
      && r[4].value == summary(values, ValueAtQuantile(0.90))
      && r[5].value == Mean(values)
      && r[6].value == |values| as real
  {
  }

  /** The histogram block of a flush: seven records per sketch, in iteration order. */
  function HistogramRecords(histograms: map<Context, seq<real>>, order: seq<Context>, summary: Summary): seq<Metric>
    requires NoEmptySketch(histograms)
    requires forall i :: 0 <= i < |order| ==> order[i] in histograms
  {
    Concat(seq(|order|, i requires 0 <= i < |order| => SketchRecords(order[i], histograms[order[i]], summary)))
  }

  /** Everything a flush returns: the counter block, then the gauge block, then the histogram block. */
  function FlushRecords(counters: map<Context, Int64>, gauges: map<Context, real>,
                        histograms: map<Context, seq<real>>,
                        counterOrder: seq<Context>, gaugeOrder: seq<Context>, histogramOrder: seq<Context>,
                        summary: Summary): seq<Metric>
    requires NoEmptySketch(histograms)
    requires IsEnumeration(counterOrder, counters.Keys)
    requires IsEnumeration(gaugeOrder, gauges.Keys)
    requires IsEnumeration(histogramOrder, histograms.Keys)
  {
    CounterRecords(counters, counterOrder) + GaugeRecords(gauges, gaugeOrder)
      + HistogramRecords(histograms, histogramOrder, summary)
  }

  /** The histogram block holds seven consecutive records per sketch, in iteration order. */
  lemma HistogramBlockLayout(histograms: map<Context, seq<real>>, order: seq<Context>, summary: Summary)
    requires NoEmptySketch(histograms)
    requires forall i :: 0 <= i < |order| ==> order[i] in histograms
    ensures |HistogramRecords(histograms, order, summary)| == 7 * |order|
    ensures forall i, j :: 0 <= i < |order| && 0 <= j < 7 ==>
      HistogramRecords(histograms, order, summary)[7 * i + j]
      == SketchRecords(order[i], histograms[order[i]], summary)[j]
  {
    var blocks := seq(|order|, i requires 0 <= i < |order| =>
      SketchRecords(order[i], histograms[order[i]], summary));
    ConcatUniform(blocks, 7);
    OffsetIsProduct(7, |order|);
    var c := HistogramRecords(histograms, order, summary);
    assert c == Concat(blocks);
    forall i, j | 0 <= i < |order| && 0 <= j < 7
      ensures c[7 * i + j] == SketchRecords(order[i], histograms[order[i]], summary)[j]
    {
      OffsetIsProduct(7, i);
      assert blocks[i] == SketchRecords(order[i], histograms[order[i]], summary);
    }
  }

  /**
   * Layout of a flush: |counters| + |gauges| + 7 * |histograms| records; the
   * counter block first, then the gauge block, then the histogram block.
   */
  lemma FlushLayout(counters: map<Context, Int64>, gauges: map<Context, real>,
                    histograms: map<Context, seq<real>>,
                    counterOrder: seq<Context>, gaugeOrder: seq<Context>, histogramOrder: seq<Context>,
                    summary: Summary)
    requires NoEmptySketch(histograms)
    requires IsEnumeration(counterOrder, counters.Keys)
    requires IsEnumeration(gaugeOrder, gauges.Keys)
    requires IsEnumeration(histogramOrder, histograms.Keys)
    ensures var r := FlushRecords(counters, gauges, histograms, counterOrder, gaugeOrder, histogramOrder, summary);
      && |r| == |counters| + |gauges| + 7 * |histograms|
      && r[..|counters|] == CounterRecords(counters, counterOrder)
      && r[|counters|..|counters| + |gauges|] == GaugeRecords(gauges, gaugeOrder)
      && r[|counters| + |gauges|..] == HistogramRecords(histograms, histogramOrder, summary)
  {
    EnumerationLength(counterOrder, counters.Keys);
    EnumerationLength(gaugeOrder, gauges.Keys);
    EnumerationLength(histogramOrder, histograms.Keys);
    HistogramBlockLayout(histograms, histogramOrder, summary);
    var a := CounterRecords(counters, counterOrder);
    var b := GaugeRecords(gauges, gaugeOrder);
    var c := HistogramRecords(histograms, histogramOrder, summary);
    var r := a + b + c;
    assert r == FlushRecords(counters, gauges, histograms, counterOrder, gaugeOrder, histogramOrder, summary);
    assert r[..|a|] == a;
    assert r[|a|..|a| + |b|] == b;
    assert r[|a| + |b|..] == c;
  }

  /** With nothing recorded, a flush returns no records: a second flush in a row is empty. */
  lemma FlushOfEmptyStore(counterOrder: seq<Context>, gaugeOrder: seq<Context>, histogramOrder: seq<Context>,
                          summary: Summary)
    requires IsEnumeration(counterOrder, {}) && IsEnumeration(gaugeOrder, {}) && IsEnumeration(histogramOrder, {})
    ensures FlushRecords(map[], map[], map[], counterOrder, gaugeOrder, histogramOrder, summary) == []
  {
    EmptyEnumeration(counterOrder);
    EmptyEnumeration(gaugeOrder);
    EmptyEnumeration(histogramOrder);
  }

  /** Loop of a flush over the detached sketch map: seven records per entry, in iteration order. */
  method CollectHistograms(histograms: map<Context, seq<real>>, summary: Summary)
    returns (records: seq<Metric>, ghost order: seq<Context>)
    requires NoEmptySketch(histograms)
    ensures IsEnumeration(order, histograms.Keys)
    ensures records == HistogramRecords(histograms, order, summary)
  {
    records, order := [], [];
    var remaining := histograms.Keys;
    while remaining != {}
      invariant remaining <= histograms.Keys
      invariant forall i, j :: 0 <= i < j < |order| ==> order[i] != order[j]
      invariant forall i :: 0 <= i < |order| ==> order[i] in histograms && order[i] !in remaining
      invariant forall k :: k in histograms ==> k in remaining || k in order
      invariant records == HistogramRecords(histograms, order, summary)
      decreases remaining
    {
      var ctx :| ctx in remaining;
      ghost var blocks := seq(|order|, i requires 0 <= i < |order| =>
        SketchRecords(order[i], histograms[order[i]], summary));
      records := records + SketchRecords(ctx, histograms[ctx], summary);
      order := order + [ctx];
      assert seq(|order|, i requires 0 <= i < |order| => SketchRecords(order[i], histograms[order[i]], summary))
        == blocks + [SketchRecords(ctx, histograms[ctx], summary)];
      remaining := remaining - {ctx};
    }
  }

  /** The in-memory store: three maps per window, swapped for empty ones by a flush. */
  class ConcurrentAggregator {
    var counters: map<Context, Int64>
    var gauges: map<Context, real>
    /** Each sketch, as the values it has accepted. */
    var histograms: map<Context, seq<real>>

    /** A sketch only exists once a value has been put into it. */
    ghost predicate Valid()
      reads this
    {
      NoEmptySketch(histograms)
    }

    constructor ()
      ensures Valid() && counters == map[] && gauges == map[] && histograms == map[]
    {
      counters, gauges, histograms := map[], map[], map[];
    }

    /** `incrementCounter(context, incrementValue)`. */
    method IncrementCounter(ctx: Context, delta: Int32)
      requires Valid()
      modifies this
      ensures Valid()
      ensures counters == Incremented(old(counters), ctx, delta)
      ensures gauges == old(gauges) && histograms == old(histograms)
    {
      var previous := if ctx in counters then counters[ctx] else 0;
      counters := counters[ctx := WrapLong(previous + delta)];
    }

    /** `incrementCounter(name, tags, incrementValue)`: the same, on a new context. */
    method IncrementCounterNamed(name: String, tags: seq<String>, delta: Int32)
      requires Valid()
      modifies this
      ensures Valid()
      ensures counters == Incremented(old(counters), Context(name, tags), delta)
      ensures gauges == old(gauges) && histograms == old(histograms)
    {
      IncrementCounter(Context(name, tags), delta);
    }

    /** `addGauge(context, value)`. */
    method AddGauge(ctx: Context, value: real)
      requires Valid()
      modifies this
      ensures Valid()
      ensures gauges == WithGauge(old(gauges), ctx, value)
      ensures counters == old(counters) && histograms == old(histograms)
    {
      gauges := gauges[ctx := value];
    }

    /** `addGauge(name, tags, value)`: the same, on a new context. */
    method AddGaugeNamed(name: String, tags: seq<String>, value: real)
      requires Valid()
      modifies this
      ensures Valid()
      ensures gauges == WithGauge(old(gauges), Context(name, tags), value)
      ensures counters == old(counters) && histograms == old(histograms)
    {
      AddGauge(Context(name, tags), value);
    }

    /** `histogram(context, value)`: create the sketch on first use, then accept the value. */
    method Histogram(ctx: Context, value: real)
      requires Valid()
      modifies this
      ensures Valid()
      ensures histograms == Observed(old(histograms), ctx, value)
      ensures counters == old(counters) && gauges == old(gauges)
    {
      if ctx !in histograms {
        histograms := histograms[ctx := []];
      }
      histograms := histograms[ctx := histograms[ctx] + [value]];
    }

    /** `histogram(name, tags, value)`: the same, on a new context. */
    method HistogramNamed(name: String, tags: seq<String>, value: real)
      requires Valid()
      modifies this
      ensures Valid()
      ensures histograms == Observed(old(histograms), Context(name, tags), value)
      ensures counters == old(counters) && gauges == old(gauges)
    {
      Histogram(Context(name, tags), value);
    }

    /**
     * `flushMetrics`: detach the three maps, install empty ones, and turn the
     * detached maps into records. The ghost orders are the hash maps'
     * iteration orders.
     */
    method FlushMetrics(summary: Summary)
      returns (metrics: seq<Metric>, ghost counterOrder: seq<Context>, ghost gaugeOrder: seq<Context>,
               ghost histogramOrder: seq<Context>)
      requires Valid()
      modifies this
      ensures Valid()
      ensures counters == map[] && gauges == map[] && histograms == map[]
      ensures IsEnumeration(counterOrder, old(counters).Keys)
      ensures IsEnumeration(gaugeOrder, old(gauges).Keys)
      ensures IsEnumeration(histogramOrder, old(histograms).Keys)
      ensures NoEmptySketch(old(histograms))
      ensures metrics == FlushRecords(old(counters), old(gauges), old(histograms),
                                      counterOrder, gaugeOrder, histogramOrder, summary)
    {
      var countersPtr, gaugesPtr, histogramsPtr := counters, gauges, histograms;
      counters, gauges, histograms := map[], map[], map[];

      var counterRecords, gaugeRecords, histogramRecords;
      counterRecords, counterOrder := CollectCounters(countersPtr);
      gaugeRecords, gaugeOrder := CollectGauges(gaugesPtr);
      histogramRecords, histogramOrder := CollectHistograms(histogramsPtr, summary);
      metrics := counterRecords + gaugeRecords + histogramRecords;
    }
  }

  /** A window holding one sketch flushes to exactly that sketch's seven records. */
  lemma FlushOfOneSketch(ctx: Context, values: seq<real>,
                         counterOrder: seq<Context>, gaugeOrder: seq<Context>, histogramOrder: seq<Context>,
                         summary: Summary)
    requires |values| > 0
    requires IsEnumeration(counterOrder, {}) && IsEnumeration(gaugeOrder, {})
    requires IsEnumeration(histogramOrder, {ctx})
    ensures FlushRecords(map[], map[], map[ctx := values], counterOrder, gaugeOrder, histogramOrder, summary)
            == SketchRecords(ctx, values, summary)
  {
    EmptyEnumeration(counterOrder);
    EmptyEnumeration(gaugeOrder);
    EnumerationLength(histogramOrder, {ctx});
    assert histogramOrder == [ctx] by { assert histogramOrder[0] in {ctx}; }
    var blocks := [SketchRecords(ctx, values, summary)];
    assert Concat(blocks) == Concat([]) + blocks[0];
  }

  /** A window holding one counter flushes to exactly that counter's record. */
  lemma FlushOfOneCounter(ctx: Context, value: Int64,
                          counterOrder: seq<Context>, gaugeOrder: seq<Context>, histogramOrder: seq<Context>,
                          summary: Summary)
    requires IsEnumeration(counterOrder, {ctx})
    requires IsEnumeration(gaugeOrder, {}) && IsEnumeration(histogramOrder, {})
    ensures FlushRecords(map[ctx := value], map[], map[], counterOrder, gaugeOrder, histogramOrder, summary)
            == [CounterRecord(ctx, value)]
  {
    EmptyEnumeration(gaugeOrder);
    EmptyEnumeration(histogramOrder);
    EnumerationLength(counterOrder, {ctx});
    assert counterOrder == [ctx] by { assert counterOrder[0] in {ctx}; }
  }

  /**
   * One window after another: values recorded before a flush appear in it,
   * a flush right after a flush is empty, and values recorded after a flush
   * appear only in the next one.
   */
  method WindowScenario(ctx: Context, other: Context, value: real, summary: Summary)
    returns (first: seq<Metric>, second: seq<Metric>, third: seq<Metric>)
    ensures first == SketchRecords(ctx, [value], summary)
    ensures second == []
    ensures third == [CounterRecord(other, 1)]
  {
    var aggregator := new ConcurrentAggregator();
    aggregator.Histogram(ctx, value);
    assert Accepted(map[], ctx) + [value] == [value];
    assert aggregator.histograms == map[ctx := [value]];
    ghost var co, go, ho;
    first, co, go, ho := aggregator.FlushMetrics(summary);
    FlushOfOneSketch(ctx, [value], co, go, ho, summary);
    assert first == SketchRecords(ctx, [value], summary);

    second, co, go, ho := aggregator.FlushMetrics(summary);
    FlushOfEmptyStore(co, go, ho, summary);

    aggregator.IncrementCounter(other, 1);
    assert aggregator.counters == map[other := 1];
    third, co, go, ho := aggregator.FlushMetrics(summary);
    FlushOfOneCounter(other, 1, co, go, ho, summary);
  }
}
