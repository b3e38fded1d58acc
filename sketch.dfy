/**
 * The count/sum wrapper around the quantile sketch. The library sketch itself
 * is represented by the sequence of values it has accepted; its minimum,
 * maximum and quantile estimates are queries on that sequence answered by
 * the library (see Query).
 */
module Sketches {
  import opened Wrappers

  /** The estimates the library sketch answers. */
  datatype Query = MaxValue | MinValue | ValueAtQuantile(q: real)

  /**
   * The library sketch's answer to a query, as a function of the values it
   * has accepted. Its bucketing and accuracy are not part of this model.
   */
  type Summary = (seq<real>, Query) -> real

  /** Total of a sequence of observations. */
  function Sum(values: seq<real>): real
  {
    if values == [] then 0.0 else Sum(values[..|values| - 1]) + values[|values| - 1]
  }

  /** Arithmetic mean of a non-empty sequence of observations. */
  function Mean(values: seq<real>): (r: real)
    requires |values| > 0
    ensures r * |values| as real == Sum(values)
  {
    Sum(values) / |values| as real
  }

  /** The integers lo, lo + 1, ..., hi - 1 as observations. */
  function IntRange(lo: int, hi: int): (r: seq<real>)
    decreases hi - lo
    ensures |r| == if lo <= hi then hi - lo else 0
    ensures forall i :: 0 <= i < |r| ==> r[i] == (lo + i) as real
  {
    if lo >= hi then [] else IntRange(lo, hi - 1) + [(hi - 1) as real]
  }

  /** Closed form of the total of a run of consecutive integers. */
  lemma {:induction false} SumIntRange(lo: int, hi: int)
    requires lo <= hi
    ensures 2.0 * Sum(IntRange(lo, hi)) == ((hi - lo) * (lo + hi - 1)) as real
    decreases hi - lo
  {
    if lo < hi {
      var r := IntRange(lo, hi);
      var front := IntRange(lo, hi - 1);
      assert r == front + [(hi - 1) as real];
      assert r[..|r| - 1] == front;
      SumIntRange(lo, hi - 1);
      HalfSumStep(Sum(front), (hi - 1 - lo) * (lo + hi - 2), hi - 1);
      SumStep(lo, hi);
    }
  }

  lemma HalfSumStep(a: real, twice: int, x: int)
    requires 2.0 * a == twice as real
    ensures 2.0 * (a + x as real) == (twice + 2 * x) as real
  {
  }

  lemma SumStep(lo: int, hi: int)
    ensures (hi - 1 - lo) * (lo + hi - 2) + 2 * (hi - 1) == (hi - lo) * (lo + hi - 1)
  {
    var n := hi - lo;
    var m := lo + hi - 1;
    assert (n - 1) * (m - 1) == n * m - n - m + 1;
  }

  /** A sketch that keeps an exact count and an exact sum beside the library sketch. */
  class DatadogSketch {
    var count: nat
    var sum: real
    /** The library sketch's state: every value accepted so far, in order. */
    var accepted: seq<real>

    /** count and sum agree with the accepted values. */
    ghost predicate Valid()
      reads this
    {
      count == |accepted| && sum == Sum(accepted)
    }

    /** A new sketch has count 0, sum 0 and no accepted values. */
    constructor ()
      ensures Valid() && count == 0 && sum == 0.0 && accepted == []
    {
      count := 0;
      sum := 0.0;
      accepted := [];
    }

    /** `accept`: one more observation, counted, summed and forwarded to the library sketch. */
    method Accept(value: real)
      requires Valid()
      modifies this
      ensures Valid()
      ensures accepted == old(accepted) + [value]
      ensures count == old(count) + 1 && sum == old(sum) + value
    {
      count := count + 1;
      sum := sum + value;
      accepted := accepted + [value];
    }

    /** `getCountValue`: the number of accepted values. */
    function CountValue(): (r: nat)
      reads this
      requires Valid()
      ensures r == |accepted|
    {
      count
    }

    /**
     * `getAverageValue`: sum / count. `None` stands for the NaN that Java's
     * 0.0 / 0 gives on a sketch that has accepted nothing.
     */
    function AverageValue(): (r: Option<real>)
      reads this
      requires Valid()
      ensures |accepted| == 0 <==> r == None
      ensures |accepted| > 0 ==> r == Some(Mean(accepted))
    {
      if count == 0 then None else Some(sum / count as real)
    }
  }

  /** Accepting -10 .. 119 gives a count of 130 and an average of 54.5. */
  method AcceptRangeScenario() returns (count: nat, average: Option<real>)
    ensures count == 130 && average == Some(54.5)
  {
    var sketch := new DatadogSketch();
    var i := -10;
    while i < 120
      invariant -10 <= i <= 120
      invariant sketch.Valid() && sketch.accepted == IntRange(-10, i)
    {
      sketch.Accept(i as real);
      i := i + 1;
    }
    count := sketch.CountValue();
    average := sketch.AverageValue();
    SumIntRange(-10, 120);
  }
}
