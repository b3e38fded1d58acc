/**
 * How the backend listener splits the records of one flush into API calls:
 * the records are grouped by `index / metricsBatchSize` (Java's truncating
 * `int` division), and each group is submitted in one call.
 */
module Batching {
  import opened JavaInts
  import opened Metrics
  import opened Store

  function Min(a: int, b: int): int
  {
    if a <= b then a else b
  }

  /** The records whose index divides to `key`, in index order. */
  function Group(ms: seq<Metric>, size: int, key: int): (r: seq<Metric>)
    requires size != 0
    ensures |r| <= |ms|
  {
    if ms == [] then []
    else
      Group(ms[..|ms| - 1], size, key) + (if JavaDiv(|ms| - 1, size) == key then [ms[|ms| - 1]] else [])
  }

  /** The keys that `groupingBy` produces for `n` records. */
  function BatchKeys(n: nat, size: int): set<int>
    requires size != 0
  {
    set i | 0 <= i < n :: JavaDiv(i, size)
  }

  /** `groupingBy(index / size)`: the batches, keyed by quotient. */
  function Batches(ms: seq<Metric>, size: int): map<int, seq<Metric>>
    requires size != 0
  {
    map k | k in BatchKeys(|ms|, size) :: Group(ms, size, k)
  }

  lemma MulAtLeast(a: int, b: int)
    requires a >= 1 && b > 0
    ensures a * b >= b
  {
    assert a * b == (a - 1) * b + b;
    assert (a - 1) * b >= 0;
  }

  /** Multiplying by a positive size keeps whole steps apart. */
  lemma MulMono(a: int, b: int, size: int)
    requires size > 0
    ensures a < b ==> a * size + size <= b * size
  {
    if a < b {
      MulAtLeast(b - a, size);
      assert b * size == (b - a) * size + a * size;
    }
  }

  /**
   * For a non-negative index and a positive size, the quotient is never
   * negative, and it is `k` exactly when the index lies in
   * `[k*size, k*size+size)`.
   */
  lemma QuotientOf(i: int, size: int, k: int)
    requires 0 <= i && size > 0
    ensures JavaDiv(i, size) >= 0
    ensures JavaDiv(i, size) == k <==> k * size <= i < k * size + size
  {
    var q := i / size;
    assert q * size <= i < q * size + size;
    MulMono(q, 0, size);
    MulMono(q, k, size);
    MulMono(k, q, size);
  }

  /** With a positive size, group `k` is the run of records from `k*size` up to `k*size+size`, cut at the end of the list. */
  lemma {:induction false} GroupIsSlice(ms: seq<Metric>, size: int, k: int)
    requires size > 0
    ensures k < 0 ==> Group(ms, size, k) == []
    ensures k >= 0 ==>
      Group(ms, size, k) == ms[Min(k * size, |ms|)..Min(k * size + size, |ms|)]
  {
    if ms != [] {
      var n := |ms|;
      var init := ms[..n - 1];
      GroupIsSlice(init, size, k);
      QuotientOf(n - 1, size, k);
      var lo := k * size;
      if k >= 0 {
        if JavaDiv(n - 1, size) == k {
          assert init[lo..n - 1] + [ms[n - 1]] == ms[lo..n];
        } else if lo + size <= n - 1 {
          assert init[lo..lo + size] == ms[lo..lo + size];
        }
      }
    }
  }

  /** A negative size groups as its absolute value does, with every key negated. */
  lemma {:induction false} NegativeSizeMirrors(ms: seq<Metric>, size: int, k: int)
    requires size < 0
    ensures Group(ms, size, k) == Group(ms, -size, -k)
  {
    if ms != [] {
      NegativeSizeMirrors(ms[..|ms| - 1], size, k);
      assert JavaDiv(|ms| - 1, size) == -JavaDiv(|ms| - 1, -size);
    }
  }

  /** With a positive size, the keys are `0, 1, …` up to the last index's quotient. */
  lemma BatchKeysRange(n: nat, size: int, k: int)
    requires size > 0
    ensures k in BatchKeys(n, size) <==> 0 <= k && k * size < n
  {
    if 0 <= k && k * size < n {
      QuotientOf(k * size, size, k);
    }
    if k in BatchKeys(n, size) {
      var i :| 0 <= i < n && JavaDiv(i, size) == k;
      QuotientOf(i, size, k);
    }
  }

  /**
   * With a positive size, every batch is a non-empty run of consecutive
   * records, starting at `k*size`, of at most `size` records.
   */
  lemma BatchesAreSlices(ms: seq<Metric>, size: int, k: int)
    requires size > 0
    requires k in Batches(ms, size)
    ensures 0 <= k && k * size < |ms|
    ensures Batches(ms, size)[k] == ms[k * size..Min(k * size + size, |ms|)]
    ensures 0 < |Batches(ms, size)[k]| <= size
  {
    BatchKeysRange(|ms|, size, k);
    GroupIsSlice(ms, size, k);
  }

  /** A negative size gives the batches of its absolute value, under negated keys. */
  lemma NegativeSizeBatches(ms: seq<Metric>, size: int, k: int)
    requires size < 0
    ensures k in Batches(ms, size) <==> -k in Batches(ms, -size)
    ensures k in Batches(ms, size) ==> Batches(ms, size)[k] == Batches(ms, -size)[-k]
  {
    NegativeSizeMirrors(ms, size, k);
    if k in BatchKeys(|ms|, size) {
      var i :| 0 <= i < |ms| && JavaDiv(i, size) == k;
      assert JavaDiv(i, -size) == -k;
    }
    if -k in BatchKeys(|ms|, -size) {
      var i :| 0 <= i < |ms| && JavaDiv(i, -size) == -k;
      assert JavaDiv(i, size) == k;
    }
  }

  /** The first `count` slices of width `size`, each cut at the end of the list. */
  function Slices(ms: seq<Metric>, size: int, count: nat): seq<seq<Metric>>
    requires size > 0
  {
    seq(count, k requires 0 <= k < count => ms[Min(k * size, |ms|)..Min(k * size + size, |ms|)])
  }

  lemma {:induction false} SlicesConcat(ms: seq<Metric>, size: int, count: nat)
    requires size > 0
    ensures Concat(Slices(ms, size, count)) == ms[..Min(count * size, |ms|)]
  {
    if count > 0 {
      var blocks := Slices(ms, size, count);
      assert blocks[..count - 1] == Slices(ms, size, count - 1);
      SlicesConcat(ms, size, count - 1);
      var a := Min((count - 1) * size, |ms|);
      var b := Min(count * size, |ms|);
      assert (count - 1) * size + size == count * size;
      assert a <= b;
      assert ms[..a] + ms[a..b] == ms[..b];
    }
  }

  /**
   * No record is lost or repeated: with a positive size the keys are exactly
   * `0 … count-1`, and the batches laid end to end in key order give back
   * the flushed list.
   */
  lemma BatchesCoverInOrder(ms: seq<Metric>, size: int)
    requires size > 0
    ensures var count := (|ms| + size - 1) / size;
      var b := Batches(ms, size);
      && (forall k :: k in b <==> 0 <= k < count)
      && Concat(seq(count, k requires 0 <= k < count => b[k])) == ms
  {
    var n := |ms|;
    var count := (n + size - 1) / size;
    var b := Batches(ms, size);
    BatchCount(n, size);
    var blocks := seq(count, k requires 0 <= k < count => b[k]);
    forall k | 0 <= k < count
      ensures blocks[k] == Slices(ms, size, count)[k]
    {
      GroupIsSlice(ms, size, k);
    }
    assert blocks == Slices(ms, size, count);
    SlicesConcat(ms, size, count);
    assert ms[..Min(count * size, n)] == ms;
  }

  /** With a positive size there are `ceil(n / size)` keys, numbered from 0, and they cover all `n` records. */
  lemma BatchCount(n: nat, size: int)
    requires size > 0
    ensures var count := (n + size - 1) / size;
      && count * size >= n
      && forall k :: k in BatchKeys(n, size) <==> 0 <= k < count
  {
    var count := (n + size - 1) / size;
    assert count * size <= n + size - 1 < count * size + size;
    forall k
      ensures k in BatchKeys(n, size) <==> 0 <= k < count
    {
      BatchKeysRange(n, size, k);
      MulMono(k, count, size);
      MulMono(count, k, size);
    }
  }
}
