/**
 * The three per-window maps that both aggregator revisions keep, the single
 * step each write operation makes on them, and the records a flush turns the
 * counter and gauge maps into. The aggregator classes are proved to make
 * exactly these steps.
 */
module Store {
  import opened JavaInts
  import opened MetricContexts
  import opened Metrics

  /** `counters.getOrDefault(context, 0)`. */
  function CounterValue(counters: map<Context, Int64>, ctx: Context): Int64
  {
    if ctx in counters then counters[ctx] else 0
  }

  /** The counters after `incrementCounter(ctx, delta)`: a `long` read-modify-write add. */
  function Incremented(counters: map<Context, Int64>, ctx: Context, delta: Int32): map<Context, Int64>
  {
    counters[ctx := WrapLong(CounterValue(counters, ctx) + delta)]
  }

  /** The gauges after `addGauge(ctx, value)`: the value overwrites. */
  function WithGauge(gauges: map<Context, real>, ctx: Context, value: real): map<Context, real>
  {
    gauges[ctx := value]
  }

  /** The values a sketch of `histograms` has accepted (none if it does not exist yet). */
  function Accepted(histograms: map<Context, seq<real>>, ctx: Context): seq<real>
  {
    if ctx in histograms then histograms[ctx] else []
  }

  /** The sketches after `histogram(ctx, value)`: created if absent, then given one value. */
  function Observed(histograms: map<Context, seq<real>>, ctx: Context, value: real): map<Context, seq<real>>
  {
    histograms[ctx := Accepted(histograms, ctx) + [value]]
  }

  /** Every sketch in the store has accepted at least one value. */
  ghost predicate NoEmptySketch(histograms: map<Context, seq<real>>)
  {
    forall k :: k in histograms ==> |histograms[k]| > 0
  }

  /** An increment changes one counter, by the delta, counting an absent key as 0. */
  lemma IncrementedChangesOneCounter(counters: map<Context, Int64>, ctx: Context, delta: Int32)
    ensures var r := Incremented(counters, ctx, delta);
      && r.Keys == counters.Keys + {ctx}
      && (CounterValue(r, ctx) - (CounterValue(counters, ctx) + delta)) % TWO_64 == 0
      && (forall k :: k in counters && k != ctx ==> r[k] == counters[k])
  {
  }

  /** The counters after `n` calls of `incrementCounter(ctx, delta)`. */
  function IncrementedTimes(counters: map<Context, Int64>, ctx: Context, delta: Int32, n: nat): map<Context, Int64>
  {
    if n == 0 then counters else Incremented(IncrementedTimes(counters, ctx, delta, n - 1), ctx, delta)
  }

  lemma WrapLongAbsorbs(x: int, d: int)
    ensures WrapLong(WrapLong(x) + d) == WrapLong(x + d)
  {
    var w := WrapLong(x);
    assert (w - x) % TWO_64 == 0;
    var k := (w - x) / TWO_64;
    assert w + d == (x + d) + k * TWO_64;
    assert (w + d + 0x8000_0000_0000_0000) % TWO_64 == (x + d + 0x8000_0000_0000_0000) % TWO_64 by {
      ModShift(x + d + 0x8000_0000_0000_0000, k);
    }
  }

  lemma ModShift(a: int, k: int)
    ensures (a + k * TWO_64) % TWO_64 == a % TWO_64
  {
  }

  /**
   * No increment is lost: n increments by delta move the counter by n * delta
   * (in 64-bit two's-complement arithmetic), and no other counter changes.
   */
  lemma IncrementsAccumulate(counters: map<Context, Int64>, ctx: Context, delta: Int32, n: nat)
    ensures CounterValue(IncrementedTimes(counters, ctx, delta, n), ctx)
            == WrapLong(CounterValue(counters, ctx) + n * delta)
    ensures forall k :: k != ctx ==> CounterValue(IncrementedTimes(counters, ctx, delta, n), k) == CounterValue(counters, k)
  {
    RepeatedIncrements(counters, ctx, delta, n);
    RepeatedIsProduct(n, delta);
    OtherCountersKept(counters, ctx, delta, n);
  }

  /** One increment or more puts the key in the counters (a zero delta included); no other key is added. */
  lemma {:induction false} IncrementedTimesKeys(counters: map<Context, Int64>, ctx: Context, delta: Int32, n: nat)
    ensures IncrementedTimes(counters, ctx, delta, n).Keys == if n == 0 then counters.Keys else counters.Keys + {ctx}
  {
    if n > 0 {
      IncrementedTimesKeys(counters, ctx, delta, n - 1);
    }
  }

  /** `delta` added `n` times. */
  function Repeated(n: nat, delta: int): int
  {
    if n == 0 then 0 else Repeated(n - 1, delta) + delta
  }

  lemma {:induction false} RepeatedIsProduct(n: nat, delta: int)
    ensures Repeated(n, delta) == n * delta
  {
    if n > 0 {
      RepeatedIsProduct(n - 1, delta);
      OneMoreStep(n, delta);
    }
  }

  lemma OneMoreStep(n: int, delta: int)
    ensures (n - 1) * delta + delta == n * delta
  {
  }

  lemma {:induction false} RepeatedIncrements(counters: map<Context, Int64>, ctx: Context, delta: Int32, n: nat)
    ensures CounterValue(IncrementedTimes(counters, ctx, delta, n), ctx)
            == WrapLong(CounterValue(counters, ctx) + Repeated(n, delta))
  {
    if n > 0 {
      RepeatedIncrements(counters, ctx, delta, n - 1);
      var before := IncrementedTimes(counters, ctx, delta, n - 1);
      assert IncrementedTimes(counters, ctx, delta, n) == Incremented(before, ctx, delta);
      AccumulateStep(CounterValue(counters, ctx), Repeated(n - 1, delta), delta, CounterValue(before, ctx));
    }
  }

  /** One more wrapped add of `delta` to a wrapped running total. */
  lemma AccumulateStep(start: int, sofar: int, delta: int, prev: int)
    requires prev == WrapLong(start + sofar)
    ensures WrapLong(prev + delta) == WrapLong(start + (sofar + delta))
  {
    WrapLongAbsorbs(start + sofar, delta);
  }

  lemma {:induction false} OtherCountersKept(counters: map<Context, Int64>, ctx: Context, delta: Int32, n: nat)
    ensures forall k :: k != ctx ==> CounterValue(IncrementedTimes(counters, ctx, delta, n), k) == CounterValue(counters, k)
  {
    if n > 0 {
      OtherCountersKept(counters, ctx, delta, n - 1);
    }
  }

  /** Last write wins: a later `addGauge` on the same context hides every earlier one. */
  lemma GaugeLastWriteWins(gauges: map<Context, real>, ctx: Context, first: real, second: real)
    ensures WithGauge(WithGauge(gauges, ctx, first), ctx, second) == WithGauge(gauges, ctx, second)
    ensures WithGauge(gauges, ctx, second)[ctx] == second
  {
  }

  /** A histogram write adds exactly one value to one sketch and keeps every sketch non-empty. */
  lemma ObservedAddsOneValue(histograms: map<Context, seq<real>>, ctx: Context, value: real)
    requires NoEmptySketch(histograms)
    ensures var r := Observed(histograms, ctx, value);
      && NoEmptySketch(r)
      && r.Keys == histograms.Keys + {ctx}
      && r[ctx] == Accepted(histograms, ctx) + [value]
      && (forall k :: k in histograms && k != ctx ==> r[k] == histograms[k])
  {
  }

  // ----- records of a flush -----

  /** `order` lists every key of `keys` exactly once: the order a hash map iterates them in. */
  ghost predicate IsEnumeration<K>(order: seq<K>, keys: set<K>)
  {
    && (forall i, j :: 0 <= i < j < |order| ==> order[i] != order[j])
    && (forall i :: 0 <= i < |order| ==> order[i] in keys)
    && (forall k :: k in keys ==> k in order)
  }

  /** An enumeration is as long as the key set. */
  lemma {:induction false} EnumerationLength<K>(order: seq<K>, keys: set<K>)
    requires IsEnumeration(order, keys)
    ensures |order| == |keys|
    decreases |order|
  {
    if order == [] {
      assert forall k :: k !in keys;
    } else {
      var last := order[|order| - 1];
      var init := order[..|order| - 1];
      assert last !in init;
      assert IsEnumeration(init, keys - {last}) by {
        forall k | k in keys - {last} ensures k in init {
          assert k in order;
          var i :| 0 <= i < |order| && order[i] == k;
          assert i < |order| - 1;
          assert init[i] == k;
        }
      }
      EnumerationLength(init, keys - {last});
    }
  }

  /** The only enumeration of an empty map's keys is the empty sequence. */
  lemma EmptyEnumeration(order: seq<Context>)
    requires IsEnumeration(order, {})
    ensures order == []
  {
    EnumerationLength(order, {});
  }

  /** A counter flushes as one record of type "count" carrying its sum. */
  function CounterRecord(ctx: Context, value: Int64): Metric
  {
    NewMetric(ctx.name, "count", value as real, ctx.tags)
  }

  /** A gauge flushes as one record of type "gauge" carrying its last value. */
  function GaugeRecord(ctx: Context, value: real): Metric
  {
    NewMetric(ctx.name, "gauge", value, ctx.tags)
  }

  /** The counter block of a flush, one record per key in iteration order. */
  function CounterRecords(counters: map<Context, Int64>, order: seq<Context>): (r: seq<Metric>)
    requires forall i :: 0 <= i < |order| ==> order[i] in counters
    ensures |r| == |order|
    ensures forall i :: 0 <= i < |order| ==>
      r[i].Name() == order[i].name && r[i].Tags() == order[i].tags &&
      r[i].metricType == "count" && r[i].value == counters[order[i]] as real
  {
    seq(|order|, i requires 0 <= i < |order| => CounterRecord(order[i], counters[order[i]]))
  }

  /** The gauge block of a flush, one record per key in iteration order. */
  function GaugeRecords(gauges: map<Context, real>, order: seq<Context>): (r: seq<Metric>)
    requires forall i :: 0 <= i < |order| ==> order[i] in gauges
    ensures |r| == |order|
    ensures forall i :: 0 <= i < |order| ==>
      r[i].Name() == order[i].name && r[i].Tags() == order[i].tags &&
      r[i].metricType == "gauge" && r[i].value == gauges[order[i]]
  {
    seq(|order|, i requires 0 <= i < |order| => GaugeRecord(order[i], gauges[order[i]]))
  }

  /** Blocks laid end to end: the record blocks of a flush, or the log payloads of a run. */
  function Concat<T>(blocks: seq<seq<T>>): seq<T>
  {
    if blocks == [] then [] else Concat(blocks[..|blocks| - 1]) + blocks[|blocks| - 1]
  }

  lemma {:induction false} ConcatAppend<T>(a: seq<seq<T>>, b: seq<seq<T>>)
    ensures Concat(a + b) == Concat(a) + Concat(b)
    decreases |b|
  {
    if b == [] {
      assert a + b == a;
    } else {
      var init, last := b[..|b| - 1], b[|b| - 1];
      assert (a + b)[..|a + b| - 1] == a + init;
      assert (a + b)[|a + b| - 1] == last;
      ConcatAppend(a, init);
      calc {
        Concat(a + b);
        Concat(a + init) + last;
        Concat(a) + Concat(init) + last;
        Concat(a) + (Concat(init) + last);
      }
    }
  }

  /** Dropping one key from an enumeration enumerates the other keys. */
  lemma EnumerationWithout<K>(order: seq<K>, keys: set<K>, p: nat)
    requires IsEnumeration(order, keys) && p < |order|
    ensures IsEnumeration(order[..p] + order[p + 1..], keys - {order[p]})
  {
    var r := order[..p] + order[p + 1..];
    assert |r| == |order| - 1;
    assert forall i :: 0 <= i < |r| ==> r[i] == (if i < p then order[i] else order[i + 1]);
    forall k | k in keys - {order[p]}
      ensures k in r
    {
      var i :| 0 <= i < |order| && order[i] == k;
      if i < p {
        assert r[i] == k;
      } else {
        assert r[i - 1] == k;
      }
    }
  }

  /** Where block i starts when every block has `width` records. */
  function Offset(width: nat, i: nat): nat
  {
    if i == 0 then 0 else Offset(width, i - 1) + width
  }

  lemma {:induction false} OffsetIsProduct(width: nat, i: nat)
    ensures Offset(width, i) == width * i
  {
    if i > 0 {
      OffsetIsProduct(width, i - 1);
      WidthStep(width, i);
    }
  }

  lemma WidthStep(width: int, n: int)
    ensures width * (n - 1) + width == width * n
  {
  }

  /** A block ends no later than any later block starts. */
  lemma {:induction false} OffsetMonotone(width: nat, i: nat, k: nat)
    requires i < k
    ensures Offset(width, i) + width <= Offset(width, k)
  {
    if i < k - 1 {
      OffsetMonotone(width, i, k - 1);
    }
  }

  /** When every block has `width` records, record j of block i sits at the block's offset plus j. */
  lemma {:induction false} ConcatUniform(blocks: seq<seq<Metric>>, width: nat)
    requires forall i :: 0 <= i < |blocks| ==> |blocks[i]| == width
    ensures |Concat(blocks)| == Offset(width, |blocks|)
    ensures forall i :: 0 <= i < |blocks| ==> Offset(width, i) + width <= |Concat(blocks)|
    ensures forall i, j :: 0 <= i < |blocks| && 0 <= j < width ==>
      Concat(blocks)[Offset(width, i) + j] == blocks[i][j]
  {
    if blocks != [] {
      var n := |blocks|;
      var init := blocks[..n - 1];
      assert forall i :: 0 <= i < |init| ==> |init[i]| == width;
      ConcatUniform(init, width);
      assert Concat(blocks) == Concat(init) + blocks[n - 1];
      forall i | 0 <= i < n - 1
        ensures Offset(width, i) + width <= |Concat(init)|
      {
        OffsetMonotone(width, i, n - 1);
      }
      forall i, j | 0 <= i < n && 0 <= j < width
        ensures Concat(blocks)[Offset(width, i) + j] == blocks[i][j]
      {
        if i < n - 1 {
          assert init[i] == blocks[i];
        }
      }
    }
  }

  /** Loop of a flush over the detached counter map: one record per entry, in iteration order. */
  method CollectCounters(counters: map<Context, Int64>) returns (records: seq<Metric>, ghost order: seq<Context>)
    ensures IsEnumeration(order, counters.Keys)
    ensures records == CounterRecords(counters, order)
  {
    records, order := [], [];
    var remaining := counters.Keys;
    while remaining != {}
      invariant remaining <= counters.Keys
      invariant forall i, j :: 0 <= i < j < |order| ==> order[i] != order[j]
      invariant forall i :: 0 <= i < |order| ==> order[i] in counters && order[i] !in remaining
      invariant forall k :: k in counters ==> k in remaining || k in order
      invariant records == CounterRecords(counters, order)
      decreases remaining
    {
      var ctx :| ctx in remaining;
      records := records + [CounterRecord(ctx, counters[ctx])];
      order := order + [ctx];
      remaining := remaining - {ctx};
    }
  }

  /** Loop of a flush over the detached gauge map: one record per entry, in iteration order. */
  method CollectGauges(gauges: map<Context, real>) returns (records: seq<Metric>, ghost order: seq<Context>)
    ensures IsEnumeration(order, gauges.Keys)
    ensures records == GaugeRecords(gauges, order)
  {
    records, order := [], [];
    var remaining := gauges.Keys;
    while remaining != {}
      invariant remaining <= gauges.Keys
      invariant forall i, j :: 0 <= i < j < |order| ==> order[i] != order[j]
      invariant forall i :: 0 <= i < |order| ==> order[i] in gauges && order[i] !in remaining
      invariant forall k :: k in gauges ==> k in remaining || k in order
      invariant records == GaugeRecords(gauges, order)
      decreases remaining
    {
      var ctx :| ctx in remaining;
      records := records + [GaugeRecord(ctx, gauges[ctx])];
      order := order + [ctx];
      remaining := remaining - {ctx};
    }
  }
}
