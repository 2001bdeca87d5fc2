/**
 * The concrete cases of the document test suite, stated about the model.
 */
module Vectors {
  import opened Results
  import opened Values
  import opened WireFormat

  const TagN: Value := Obj(map["N" := Str("1")])

  /** The classifier's answers on flat objects. */
  lemma ClassifierFlatExamples()
    ensures IsDynamoObject(map[]) == None
    ensures IsDynamoObject(map["N" := Str("1")]) == Some(false)
    ensures IsDynamoObject(map["S" := Str("Hello")]) == Some(false)
    ensures IsDynamoObject(map["id" := TagN, "name" := Obj(map["S" := Str("Charlie")])]) == Some(true)
    ensures IsDynamoObject(map["id" := Num(1), "name" := Str("Charlie")]) == Some(false)
    ensures IsDynamoObject(map["id" := Obj(map["test" := Str("1")]), "name" := Obj(map["S" := Str("Charlie")])]) == Some(false)
  {
    OneField("N", Str("1"));
    OneField("S", Str("Hello"));
    ScalarTagged("N", Str("1"));
    ScalarTagged("S", Str("Charlie"));
    TwoFields("id", TagN, "name", Obj(map["S" := Str("Charlie")]));
    TwoFields("id", Num(1), "name", Str("Charlie"));
    UnknownTagged("test", Str("1"));
    TwoFields("id", Obj(map["test" := Str("1")]), "name", Obj(map["S" := Str("Charlie")]));
  }

  /** The classifier's answers on nested maps. */
  lemma ClassifierMapExamples()
    ensures IsDynamoObject(map["id" := TagN, "map" := Obj(map["M" := Obj(map["test" := TagN])])]) == Some(true)
    ensures IsDynamoObject(map["id" := TagN, "map" := Obj(map["M" := Obj(map["test" := Obj(map["other" := Str("1")])])])]) == Some(false)
  {
    ScalarTagged("N", Str("1"));
    OneField("test", TagN);
    MapTagged(map["test" := TagN]);
    TwoFields("id", TagN, "map", Obj(map["M" := Obj(map["test" := TagN])]));
    UnknownTagged("other", Str("1"));
    OneField("test", Obj(map["other" := Str("1")]));
    MapTagged(map["test" := Obj(map["other" := Str("1")])]);
    TwoFields("id", TagN, "map", Obj(map["M" := Obj(map["test" := Obj(map["other" := Str("1")])])]));
  }

  /** A list of tagged strings is wire format. */
  lemma ClassifierTaggedList()
    ensures IsDynamoObject(map["id" := TagN, "map" := Obj(map["L" := Arr([Obj(map["S" := Str("hello")]), Obj(map["S" := Str("world")])])])]) == Some(true)
  {
    ScalarTagged("N", Str("1"));
    ScalarTagged("S", Str("hello"));
    ScalarTagged("S", Str("world"));
    ListTagged([Obj(map["S" := Str("hello")]), Obj(map["S" := Str("world")])]);
    TwoFields("id", TagN, "map", Obj(map["L" := Arr([Obj(map["S" := Str("hello")]), Obj(map["S" := Str("world")])])]));
  }

  /** A list of plain strings is not. */
  lemma ClassifierPlainList()
    ensures IsDynamoObject(map["id" := TagN, "map" := Obj(map["L" := Arr([Str("hello"), Str("world")])])]) == Some(false)
  {
    NonObjectIsNotAttributeValue(Str("hello"));
    assert !IsAttributeValue([Str("hello"), Str("world")][0]);
    ListTagged([Str("hello"), Str("world")]);
    TwoFields("id", TagN, "map", Obj(map["L" := Arr([Str("hello"), Str("world")])]));
  }

  /** A list of wire objects (rather than tagged values) is not. */
  lemma ClassifierObjectList()
    ensures IsDynamoObject(map["id" := TagN, "map" := Obj(map["L" := Arr([Obj(map["hello" := Obj(map["S" := Str("world")])]),
                                                                          Obj(map["test" := TagN])])])]) == Some(false)
  {
    var items := [Obj(map["hello" := Obj(map["S" := Str("world")])]), Obj(map["test" := TagN])];
    UnknownTagged("hello", Obj(map["S" := Str("world")]));
    assert !IsAttributeValue(items[0]);
    ListTagged(items);
    TwoFields("id", TagN, "map", Obj(map["L" := Arr(items)]));
  }

  /** A list of tagged maps is wire format. */
  lemma ClassifierMapList()
    ensures IsDynamoObject(map["id" := TagN, "map" := Obj(map["L" := Arr([Obj(map["M" := Obj(map["hello" := Obj(map["S" := Str("world")])])]),
                                                                          Obj(map["M" := Obj(map["test" := TagN])])])])]) == Some(true)
  {
    var world := Obj(map["S" := Str("world")]);
    ScalarTagged("N", Str("1"));
    ScalarTagged("S", Str("world"));
    OneField("hello", world);
    MapTagged(map["hello" := world]);
    OneField("test", TagN);
    MapTagged(map["test" := TagN]);
    var items := [Obj(map["M" := Obj(map["hello" := world])]), Obj(map["M" := Obj(map["test" := TagN])])];
    ListTagged(items);
    TwoFields("id", TagN, "map", Obj(map["L" := Arr(items)]));
  }

  /** A list of untagged objects is not. */
  lemma ClassifierMixedList()
    ensures IsDynamoObject(map["id" := TagN, "map" := Obj(map["L" := Arr([Obj(map["hello" := Str("world")]), Obj(map["test" := Num(1)])])])]) == Some(false)
  {
    var items := [Obj(map["hello" := Str("world")]), Obj(map["test" := Num(1)])];
    UnknownTagged("hello", Str("world"));
    assert !IsAttributeValue(items[0]);
    ListTagged(items);
    TwoFields("id", TagN, "map", Obj(map["L" := Arr(items)]));
  }
}
