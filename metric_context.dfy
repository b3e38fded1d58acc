/**
 * The identity of a metric: a name plus an ordered tag list. It is the key of
 * every map in the aggregators, so their behaviour rests on its value equality.
 */
module MetricContexts {
  import opened JavaInts

  type String = seq<char>

  /** A metric identity. The tag array is held as an immutable sequence. */
  datatype Context = Context(name: String, tags: seq<String>)

  /** The `Object` argument of `equals`: null, a context, or any other class. */
  datatype Obj = Null | ContextObj(ctx: Context) | OtherObj

  /** Element-wise comparison of two tag arrays, as `Arrays.equals` does it. */
  predicate TagsEqual(a: seq<String>, b: seq<String>)
  {
    |a| == |b| && forall i :: 0 <= i < |a| ==> a[i] == b[i]
  }

  /** `equals`: false for null and other classes, else same name and same tags in order. */
  predicate Equals(self: Context, obj: Obj)
  {
    match obj
    case Null => false
    case OtherObj => false
    case ContextObj(other) => other.name == self.name && TagsEqual(other.tags, self.tags)
  }

  /** `String.hashCode`: h = 31 * h + c over the characters, in 32-bit arithmetic. */
  function StringHash(s: String): Int32
  {
    if s == [] then 0 else WrapInt(31 * StringHash(s[..|s| - 1]) + s[|s| - 1] as int)
  }

  /** `Arrays.hashCode` of a string array: start at 1, then h = 31 * h + hash(element). */
  function TagsHash(tags: seq<String>): Int32
  {
    if tags == [] then 1 else WrapInt(31 * TagsHash(tags[..|tags| - 1]) + StringHash(tags[|tags| - 1]))
  }

  /** `hashCode`: combines the name's and the tags' hashes with the prime 31, starting from 1. */
  function HashCode(self: Context): Int32
  {
    var withName := WrapInt(31 * 1 + StringHash(self.name));
    WrapInt(31 * withName + TagsHash(self.tags))
  }

  /** `Arrays.equals` on tag arrays is exactly value equality of the sequences. */
  lemma TagsEqualIffSame(a: seq<String>, b: seq<String>)
    ensures TagsEqual(a, b) <==> a == b
  {
    if TagsEqual(a, b) {
      assert forall i :: 0 <= i < |a| ==> a[i] == b[i];
    }
  }

  /** Two contexts are `equals` exactly when they are the same value. */
  lemma EqualsIffSameValue(a: Context, b: Context)
    ensures Equals(a, ContextObj(b)) <==> a == b
  {
    TagsEqualIffSame(b.tags, a.tags);
  }

  /** `equals` is reflexive, symmetric and transitive, and rejects null and other classes. */
  lemma EqualsIsAnEquivalence(a: Context, b: Context, c: Context)
    ensures Equals(a, ContextObj(a))
    ensures Equals(a, ContextObj(b)) <==> Equals(b, ContextObj(a))
    ensures Equals(a, ContextObj(b)) && Equals(b, ContextObj(c)) ==> Equals(a, ContextObj(c))
    ensures !Equals(a, Null) && !Equals(a, OtherObj)
  {
    EqualsIffSameValue(a, a);
    EqualsIffSameValue(a, b);
    EqualsIffSameValue(b, a);
    EqualsIffSameValue(b, c);
    EqualsIffSameValue(a, c);
  }

  /** Equal contexts have equal hash codes, so they are interchangeable as hash-map keys. */
  lemma EqualsImpliesSameHash(a: Context, b: Context)
    requires Equals(a, ContextObj(b))
    ensures HashCode(a) == HashCode(b)
  {
    EqualsIffSameValue(a, b);
  }

  /** A different name or different tags make the contexts unequal. */
  lemma DifferentFieldsUnequal(a: Context, b: Context)
    requires a.name != b.name || a.tags != b.tags
    ensures !Equals(a, ContextObj(b))
  {
    EqualsIffSameValue(a, b);
  }

  /** Tag order matters: swapping two different tags gives an unequal context. */
  lemma TagOrderMatters(name: String, x: String, y: String)
    requires x != y
    ensures !Equals(Context(name, [x, y]), ContextObj(Context(name, [y, x])))
  {
    assert [x, y][0] != [y, x][0];
  }
}
