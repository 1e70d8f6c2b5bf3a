/** `deep_match` of engine.py: does a received value satisfy an expected pattern?
    A mapping pattern asks for a subset of the received mapping's keys, a list
    pattern asks for a list of the same length matched position by position, and
    every other pattern asks for equality. */
module Match {
  import opened Json

  /** deep_match(received, expected). Total: defined for every pair of values.
      Every value matches itself, whatever its nesting. */
  predicate DeepMatch(received: Json, expected: Json)
    ensures received == expected ==> DeepMatch(received, expected)
    decreases expected
  {
    match expected
    case JObject(pattern) =>
      && received.JObject?
      && forall key :: key in pattern ==>
           key in received.fields && DeepMatch(received.fields[key], pattern[key])
    case JArray(pattern) =>
      && received.JArray?
      && |received.items| == |pattern|
      && forall i :: 0 <= i < |pattern| ==> DeepMatch(received.items[i], pattern[i])
    case _ =>
      received == expected
  }

  /** A mapping pattern matches exactly the mappings that hold every key of the
      pattern with a matching value; keys the pattern does not mention are ignored. */
  lemma DictPatternIsSubsetMatch(received: Json, pattern: map<string, Json>)
    ensures DeepMatch(received, JObject(pattern)) <==>
      && received.JObject?
      && pattern.Keys <= received.fields.Keys
      && forall key :: key in pattern ==> DeepMatch(received.fields[key], pattern[key])
  {
  }

  /** Adding a key the pattern does not mention never breaks a match. */
  lemma ExtraKeysIgnored(fields: map<string, Json>, pattern: map<string, Json>, key: string, value: Json)
    requires key !in pattern
    requires DeepMatch(JObject(fields), JObject(pattern))
    ensures DeepMatch(JObject(fields[key := value]), JObject(pattern))
  {
  }

  /** A pattern key that the received mapping lacks is a mismatch. */
  lemma MissingKeyFails(fields: map<string, Json>, pattern: map<string, Json>, key: string)
    requires key in pattern && key !in fields
    ensures !DeepMatch(JObject(fields), JObject(pattern))
  {
  }

  /** A list pattern rejects every non-list and every list of another length, and
      otherwise compares position by position. */
  lemma ListPatternIsPositional(received: Json, pattern: seq<Json>)
    ensures !received.JArray? ==> !DeepMatch(received, JArray(pattern))
    ensures received.JArray? && |received.items| != |pattern| ==> !DeepMatch(received, JArray(pattern))
    ensures received.JArray? && |received.items| == |pattern| ==>
      (DeepMatch(received, JArray(pattern)) <==>
       forall i :: 0 <= i < |pattern| ==> DeepMatch(received.items[i], pattern[i]))
  {
  }

  /** A scalar pattern is plain equality. */
  lemma ScalarPatternIsEquality(received: Json, expected: Json)
    requires expected.IsScalar()
    ensures DeepMatch(received, expected) <==> received == expected
  {
  }

  /** Matching is transitive: a value that matches a more specific pattern matches
      every pattern that the more specific one matches. */
  lemma {:induction false} DeepMatchTransitive(a: Json, b: Json, c: Json)
    requires DeepMatch(a, b) && DeepMatch(b, c)
    ensures DeepMatch(a, c)
    decreases c
  {
    match c
    case JObject(pc) =>
      forall key | key in pc
        ensures key in a.fields && DeepMatch(a.fields[key], pc[key])
      {
        DeepMatchTransitive(a.fields[key], b.fields[key], pc[key]);
      }
    case JArray(pc) =>
      forall i | 0 <= i < |pc|
        ensures DeepMatch(a.items[i], pc[i])
      {
        DeepMatchTransitive(a.items[i], b.items[i], pc[i]);
      }
    case _ =>
  }

  /** Two values that match each other are equal: a pattern that is matched by a
      value and matches it back is that value. */
  lemma {:induction false} DeepMatchAntisymmetric(a: Json, b: Json)
    requires DeepMatch(a, b) && DeepMatch(b, a)
    ensures a == b
    decreases b
  {
    match b
    case JObject(pb) =>
      forall key | key in pb
        ensures a.fields[key] == pb[key]
      {
        DeepMatchAntisymmetric(a.fields[key], pb[key]);
      }
      assert a.fields.Keys == pb.Keys;
      assert a.fields == pb;
    case JArray(pb) =>
      forall i | 0 <= i < |pb|
        ensures a.items[i] == pb[i]
      {
        DeepMatchAntisymmetric(a.items[i], pb[i]);
      }
      assert a.items == pb;
    case _ =>
  }

  /** The dictionary cases of tests/test_engine.py: extra received keys are
      ignored, a missing key or a differing nested value is a mismatch. */
  lemma DictExamples()
    ensures DeepMatch(JObject(map["a" := JInt(1), "b" := JInt(2)]), JObject(map["a" := JInt(1)]))
    ensures DeepMatch(JObject(map["a" := JObject(map["b" := JInt(1)])]), JObject(map["a" := JObject(map["b" := JInt(1)])]))
    ensures !DeepMatch(JObject(map["a" := JInt(1)]), JObject(map["a" := JInt(1), "b" := JInt(2)]))
    ensures !DeepMatch(JObject(map["a" := JObject(map["b" := JInt(2)])]),
                       JObject(map["a" := JObject(map["b" := JInt(1)])]))
  {
    assert "b" !in map["a" := JInt(1)];
    var inner := JObject(map["b" := JInt(2)]);
    assert map["a" := inner]["a"] == inner;
    assert !DeepMatch(inner, JObject(map["b" := JInt(1)])) by {
      assert inner.fields["b"] == JInt(2);
    }
  }

  /** The list and scalar cases of tests/test_engine.py. */
  lemma ListAndScalarExamples()
    ensures DeepMatch(JArray([JInt(1), JInt(2)]), JArray([JInt(1), JInt(2)]))
    ensures DeepMatch(JArray([JObject(map["a" := JInt(1)])]), JArray([JObject(map["a" := JInt(1)])]))
    ensures DeepMatch(JInt(1), JInt(1)) && DeepMatch(JStr("foo"), JStr("foo"))
    ensures !DeepMatch(JArray([JInt(1), JInt(2)]), JArray([JInt(1)]))
    ensures !DeepMatch(JArray([JInt(1)]), JArray([JInt(1), JInt(2)]))
    ensures !DeepMatch(JInt(1), JInt(2))
  {
  }
}
