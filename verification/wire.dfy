/**
 * The structural classifier `isDynamoObject`: does an object already have
 * the wire shape `{field: {tag: payload}}`? It answers None (JavaScript
 * `null`) for the empty object, about which nothing can be said.
 */
module WireFormat {
  import opened Results
  import opened Values

  /** The attribute-value type tags of the store's wire format. */
  const Tags: set<string> := {"S", "N", "B", "BOOL", "NULL", "M", "L", "SS", "NS", "BS"}

  /** The tags whose payload is not inspected further. */
  const ScalarTags: set<string> := Tags - {"M", "L"}

  function IsDynamoObject(o: Object): Option<bool>
  {
    if o == map[] then None else Some(IsWireObject(Obj(o)))
  }

  /** An object every field of which holds a tagged value. */
  predicate IsWireObject(v: Value)
  {
    match v
    case Obj(m) => forall k :: k in m ==> IsAttributeValue(m[k])
    case _ => false
  }

  /**
   * A single tagged value such as `{"S": "x"}`: an object with exactly one
   * key, that key a wire tag, where an `M` payload must itself be a
   * non-empty wire object and an `L` payload a list of tagged values.
   */
  predicate IsAttributeValue(v: Value)
  {
    match v
    case Obj(m) =>
      && |m| == 1
      && forall tag :: tag in m ==>
           && tag in Tags
           && (tag == "M" ==> m[tag].Obj? && m[tag].fields != map[] && IsWireObject(m[tag]))
           && (tag == "L" ==> m[tag].Arr? && forall i :: 0 <= i < |m[tag].items| ==> IsAttributeValue(m[tag].items[i]))
    case _ => false
  }

  /** A value that is not an object is never a tagged value. */
  lemma NonObjectIsNotAttributeValue(v: Value)
    requires !v.Obj?
    ensures !IsAttributeValue(v)
  {
  }

  /** An object with a field that holds a plain (non-object) value is not wire format. */
  lemma PlainFieldIsNotWire(o: Object, k: string)
    requires k in o && !o[k].Obj?
    ensures IsDynamoObject(o) == Some(false)
  {
    assert o != map[];
    NonObjectIsNotAttributeValue(o[k]);
  }

  /** `{tag: payload}` with a scalar tag is a tagged value, whatever the payload. */
  lemma ScalarTagged(tag: string, payload: Value)
    requires tag in ScalarTags
    ensures IsAttributeValue(Obj(map[tag := payload]))
  {
    assert map[tag := payload].Keys == {tag};
  }

  /** `{key: payload}` with a key that is not a wire tag is not a tagged value. */
  lemma UnknownTagged(key: string, payload: Value)
    requires key !in Tags
    ensures !IsAttributeValue(Obj(map[key := payload]))
  {
    assert key in map[key := payload];
  }

  /** `{"M": inner}` is a tagged value exactly when inner is a non-empty wire object. */
  lemma MapTagged(inner: Object)
    ensures IsAttributeValue(Obj(map["M" := Obj(inner)])) <==> IsDynamoObject(inner) == Some(true)
  {
    var m := map["M" := Obj(inner)];
    assert m.Keys == {"M"};
    assert "M" in Tags;
  }

  /** `{"L": items}` is a tagged value exactly when every element is one. */
  lemma ListTagged(items: seq<Value>)
    ensures IsAttributeValue(Obj(map["L" := Arr(items)])) <==> forall i :: 0 <= i < |items| ==> IsAttributeValue(items[i])
  {
    var m := map["L" := Arr(items)];
    assert m.Keys == {"L"};
    assert "L" in Tags;
  }

  /** A one-field object is a wire object exactly when its field holds a tagged value. */
  lemma OneField(k: string, v: Value)
    ensures IsDynamoObject(map[k := v]) == Some(IsAttributeValue(v))
  {
    var o := map[k := v];
    assert k in o && o.Keys == {k};
  }

  /** A two-field object is a wire object exactly when both fields hold tagged values. */
  lemma TwoFields(k1: string, v1: Value, k2: string, v2: Value)
    requires k1 != k2
    ensures IsDynamoObject(map[k1 := v1, k2 := v2]) == Some(IsAttributeValue(v1) && IsAttributeValue(v2))
  {
    var o := map[k1 := v1, k2 := v2];
    assert k1 in o && o[k1] == v1;
    assert o.Keys == {k1, k2};
  }

  /**
   * An independent grammar of tagged values: a scalar tag with its payload,
   * a nested map `{"M": {...}}`, or a list `{"L": [...]}`.
   */
  datatype Attribute =
    | Scalar(tag: string, payload: Value)
    | MapOf(entries: map<string, Attribute>)
    | ListOf(elements: seq<Attribute>)

  predicate WellFormed(a: Attribute)
  {
    match a
    case Scalar(tag, _) => tag in ScalarTags
    case MapOf(entries) => entries != map[] && forall k :: k in entries ==> WellFormed(entries[k])
    case ListOf(elements) => forall i :: 0 <= i < |elements| ==> WellFormed(elements[i])
  }

  /** The JavaScript object a grammar tree is written as. */
  function ToValue(a: Attribute): Value
    decreases a, 1
  {
    match a
    case Scalar(tag, payload) => Obj(map[tag := payload])
    case MapOf(entries) => Obj(map["M" := Obj(EntryValues(a))])
    case ListOf(elements) => Obj(map["L" := Arr(seq(|elements|, i requires 0 <= i < |elements| => ToValue(elements[i])))])
  }

  function EntryValues(a: Attribute): (r: map<string, Value>)
    requires a.MapOf?
    ensures r.Keys == a.entries.Keys
    decreases a, 0
  {
    map k | k in a.entries :: ToValue(a.entries[k])
  }

  /** Every tree of the grammar is classified as a tagged value. */
  lemma {:induction false} WellFormedIsAttributeValue(a: Attribute)
    requires WellFormed(a)
    ensures IsAttributeValue(ToValue(a))
  {
    match a
    case Scalar(tag, payload) =>
      ScalarTagged(tag, payload);
    case MapOf(entries) =>
      var inner := EntryValues(a);
      forall k | k in inner ensures IsAttributeValue(inner[k]) {
        WellFormedIsAttributeValue(entries[k]);
      }
      var k0 :| k0 in entries;
      assert k0 in inner;
      assert IsDynamoObject(inner) == Some(true);
      MapTagged(inner);
    case ListOf(elements) =>
      var items := seq(|elements|, i requires 0 <= i < |elements| => ToValue(elements[i]));
      forall i | 0 <= i < |items| ensures IsAttributeValue(items[i]) {
        WellFormedIsAttributeValue(elements[i]);
      }
      ListTagged(items);
  }

  /** The grammar tree a tagged value is written from. */
  ghost function Parse(v: Value): Attribute
    requires IsAttributeValue(v)
    decreases v, 1
  {
    var m := v.fields;
    if "M" in m then MapOf(ParseEntries(v))
    else if "L" in m then
      var items := m["L"].items;
      ListOf(seq(|items|, i requires 0 <= i < |items| => Parse(items[i])))
    else
      var tag :| tag in m;
      Scalar(tag, m[tag])
  }

  ghost function ParseEntries(v: Value): (r: map<string, Attribute>)
    requires IsAttributeValue(v) && "M" in v.fields
    ensures r.Keys == v.fields["M"].fields.Keys
    decreases v, 0
  {
    var inner := v.fields["M"].fields;
    assert "M" in Tags && IsWireObject(v.fields["M"]);
    map k | k in inner :: Parse(inner[k])
  }

  /** A map with one key, known to hold the tag, is the single-entry map of that tag. */
  lemma SingleKey(m: map<string, Value>, tag: string)
    requires |m| == 1 && tag in m
    ensures m == map[tag := m[tag]]
  {
    var rest := m.Keys - {tag};
    assert |rest| == 0;
  }

  /** Every classified tagged value is written from a tree of the grammar. */
  lemma {:induction false} ParseInverts(v: Value)
    requires IsAttributeValue(v)
    ensures WellFormed(Parse(v)) && ToValue(Parse(v)) == v
    decreases v, 1
  {
    var m := v.fields;
    if "M" in m {
      ParseInvertsMap(v);
    } else if "L" in m {
      ParseInvertsList(v);
    } else {
      var a := Parse(v);
      SingleKey(m, a.tag);
    }
  }

  lemma {:induction false} ParseInvertsMap(v: Value)
    requires IsAttributeValue(v) && "M" in v.fields
    ensures WellFormed(Parse(v)) && ToValue(Parse(v)) == v
    decreases v, 0
  {
    var m := v.fields;
    SingleKey(m, "M");
    assert "M" in Tags && IsWireObject(m["M"]);
    var inner := m["M"].fields;
    var a := MapOf(ParseEntries(v));
    forall k | k in inner ensures WellFormed(a.entries[k]) && ToValue(a.entries[k]) == inner[k] {
      ParseInverts(inner[k]);
    }
    var k0 :| k0 in inner;
    assert k0 in a.entries;
    assert EntryValues(a) == inner;
  }

  lemma {:induction false} ParseInvertsList(v: Value)
    requires IsAttributeValue(v) && "M" !in v.fields && "L" in v.fields
    ensures WellFormed(Parse(v)) && ToValue(Parse(v)) == v
    decreases v, 0
  {
    var m := v.fields;
    SingleKey(m, "L");
    assert "L" in Tags && m["L"].Arr?;
    var items := m["L"].items;
    var elements := seq(|items|, i requires 0 <= i < |items| => Parse(items[i]));
    assert Parse(v) == ListOf(elements);
    forall i | 0 <= i < |items| ensures WellFormed(elements[i]) && ToValue(elements[i]) == items[i] {
      ParseInverts(items[i]);
    }
    var back := seq(|elements|, i requires 0 <= i < |elements| => ToValue(elements[i]));
    assert back == items;
  }
}
