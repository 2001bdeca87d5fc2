/**
 * The attribute-value codec: `toDynamo` encodes a plain object into the
 * wire shape `{field: {tag: payload}}` and `fromDynamo` decodes it back,
 * both driven by the schema's declared field types.
 */
module Codec {
  import opened Results
  import opened Values
  import opened Schemas
  import Decimal
  import WireFormat

  /** `{N: text}` for numbers and dates, `{S: text}` for strings, `{BOOL: b}` for booleans. */
  function EncodeAttribute(t: AttrType, v: Value): (r: Option<Value>)
    ensures r.Some? <==> Matches(t, v)
  {
    if !Matches(t, v) then None
    else match t
      case NumberType => Some(Obj(map["N" := Str(Decimal.IntToText(v.n))]))
      case DateType => Some(Obj(map["N" := Str(Decimal.IntToText(v.n))]))
      case StringType => Some(Obj(map["S" := Str(v.s)]))
      case BooleanType => Some(Obj(map["BOOL" := Bool(v.b)]))
  }

  /** The payload of a single-tag attribute `{tag: payload}`, if a has that shape. */
  function Payload(a: Value, tag: string): Option<Value>
  {
    if a.Obj? && tag in a.fields && |a.fields| == 1 then Some(a.fields[tag]) else None
  }

  /** Reads back the value of a declared type; None if the attribute does not hold one. */
  function DecodeAttribute(t: AttrType, a: Value): (r: Option<Value>)
    ensures r.Some? ==> Matches(t, r.value)
  {
    match t
    case NumberType | DateType =>
      (match Payload(a, "N")
       case Some(Str(text)) =>
         (match Decimal.TextToInt(text)
          case Some(n) => Some(Num(n))
          case None => None)
       case _ => None)
    case StringType =>
      (match Payload(a, "S")
       case Some(Str(s)) => Some(Str(s))
       case _ => None)
    case BooleanType =>
      (match Payload(a, "BOOL")
       case Some(Bool(b)) => Some(Bool(b))
       case _ => None)
  }

  /** The attribute is written exactly as the encoder writes it (no "007", no "-0"). */
  predicate CanonicalAttribute(t: AttrType, a: Value)
  {
    (t == NumberType || t == DateType) ==> Payload(a, "N").Some? && Payload(a, "N").value.Str? && Decimal.Canonical(Payload(a, "N").value.s)
  }

  /** Decoding an encoded attribute gives the value back. */
  lemma AttributeRoundTrip(t: AttrType, v: Value)
    requires Matches(t, v)
    ensures DecodeAttribute(t, EncodeAttribute(t, v).value) == Some(v)
  {
    if t == NumberType || t == DateType {
      Decimal.IntRoundTrip(v.n);
    }
  }

  /** Encoding a decoded canonical attribute gives the attribute back. */
  lemma AttributeCanonicalRoundTrip(t: AttrType, a: Value)
    requires DecodeAttribute(t, a).Some? && CanonicalAttribute(t, a)
    ensures EncodeAttribute(t, DecodeAttribute(t, a).value) == Some(a)
  {
    match t
    case NumberType =>
      Decimal.CanonicalRoundTrip(Payload(a, "N").value.s);
      WireFormat.SingleKey(a.fields, "N");
    case DateType =>
      Decimal.CanonicalRoundTrip(Payload(a, "N").value.s);
      WireFormat.SingleKey(a.fields, "N");
    case StringType =>
      WireFormat.SingleKey(a.fields, "S");
    case BooleanType =>
      WireFormat.SingleKey(a.fields, "BOOL");
  }

  /** A declared field the object holds with a value of the wrong type. */
  predicate Mismatched(f: Field, o: Object)
  {
    f.name in o && !Matches(f.attrType, o[f.name])
  }

  /**
   * `toDynamo`: every declared field the object holds, encoded by its
   * declared type; undeclared fields are dropped. A declared field holding
   * a value of another type fails with the type-mismatch error of the first
   * such field in schema order.
   */
  function Encode(schema: Schema, o: Object): (r: Result<Object, Error>)
    ensures r.Ok? <==> WellTyped(schema, o)
    ensures r.Ok? ==> r.value.Keys == o.Keys * Names(schema)
  {
    if schema == [] then Ok(map[])
    else
      var f := schema[0];
      var rest := Encode(schema[1..], o);
      if f.name !in o then rest
      else match EncodeAttribute(f.attrType, o[f.name])
        case None => Err(TypeMismatch(TypeMismatchMessage(f.name, f.attrType, o[f.name])))
        case Some(a) => if rest.Err? then rest else Ok(rest.value[f.name := a])
  }

  /** Each encoded field is its value encoded by the field's declared type. */
  lemma {:induction false} EncodeValues(schema: Schema, o: Object)
    requires Encode(schema, o).Ok?
    ensures forall k :: k in Encode(schema, o).value ==>
              EncodeAttribute(FieldOf(schema, k).value.attrType, o[k]) == Some(Encode(schema, o).value[k])
  {
    if schema != [] {
      var f := schema[0];
      var rest := Encode(schema[1..], o);
      EncodeValues(schema[1..], o);
      var r := Encode(schema, o).value;
      assert r == if f.name in o then rest.value[f.name := EncodeAttribute(f.attrType, o[f.name]).value] else rest.value;
      forall k | k in r
        ensures EncodeAttribute(FieldOf(schema, k).value.attrType, o[k]) == Some(r[k])
      {
        if k == f.name {
          assert FieldOf(schema, k) == Some(f);
        } else {
          assert FieldOf(schema, k) == FieldOf(schema[1..], k);
          assert k in rest.value && r[k] == rest.value[k];
        }
      }
    }
  }

  /** The error is that of the first mismatched field in schema order. */
  lemma {:induction false} EncodeFirstMismatch(schema: Schema, o: Object)
    requires Encode(schema, o).Err?
    ensures exists i :: 0 <= i < |schema| && Mismatched(schema[i], o)
              && (forall j :: 0 <= j < i ==> !Mismatched(schema[j], o))
              && Encode(schema, o).error == TypeMismatch(TypeMismatchMessage(schema[i].name, schema[i].attrType, o[schema[i].name]))
  {
    var f := schema[0];
    if Mismatched(f, o) {
      assert 0 < |schema|;
    } else {
      EncodeFirstMismatch(schema[1..], o);
      var i :| 0 <= i < |schema| - 1 && Mismatched(schema[1..][i], o)
              && (forall j :: 0 <= j < i ==> !Mismatched(schema[1..][j], o))
              && Encode(schema[1..], o).error == TypeMismatch(TypeMismatchMessage(schema[1..][i].name, schema[1..][i].attrType, o[schema[1..][i].name]));
      assert forall j :: 0 <= j < i + 1 ==> !Mismatched(schema[j], o) by {
        forall j | 0 <= j < i + 1 ensures !Mismatched(schema[j], o) {
          if j > 0 { assert schema[j] == schema[1..][j - 1]; }
        }
      }
      assert schema[i + 1] == schema[1..][i];
    }
  }

  /**
   * Reads a tagged value back by its tag alone: `N` text as a number,
   * `NULL` as null, `M` and `L` payloads entry by entry, and the payload of
   * any other tag as it is. None when it is not a tagged value or an `N`
   * payload is not integer text.
   */
  function Unmarshal(a: Value): (r: Option<Value>)
    ensures r.Some? ==> WireFormat.IsAttributeValue(a)
    decreases a, 1
  {
    if !a.Obj? || |a.fields| != 1 then None
    else if "M" in a.fields then UnmarshalMap(a)
    else if "L" in a.fields then UnmarshalList(a)
    else UnmarshalScalar(a)
  }

  function UnmarshalMap(a: Value): (r: Option<Value>)
    requires a.Obj? && |a.fields| == 1 && "M" in a.fields
    ensures r.Some? ==> WireFormat.IsAttributeValue(a)
    decreases a, 0
  {
    WireFormat.SingleKey(a.fields, "M");
    match a.fields["M"]
    case Obj(inner) =>
      if inner != map[] && forall k :: k in inner ==> Unmarshal(inner[k]).Some? then
        assert WireFormat.IsWireObject(Obj(inner));
        Some(Obj(map k | k in inner :: Unmarshal(inner[k]).value))
      else None
    case _ => None
  }

  function UnmarshalList(a: Value): (r: Option<Value>)
    requires a.Obj? && |a.fields| == 1 && "L" in a.fields
    ensures r.Some? ==> WireFormat.IsAttributeValue(a)
    decreases a, 0
  {
    WireFormat.SingleKey(a.fields, "L");
    match a.fields["L"]
    case Arr(items) =>
      if forall i :: 0 <= i < |items| ==> Unmarshal(items[i]).Some?
      then Some(Arr(seq(|items|, i requires 0 <= i < |items| => Unmarshal(items[i]).value)))
      else None
    case _ => None
  }

  /** The tags other than `M` and `L`. */
  function UnmarshalScalar(a: Value): (r: Option<Value>)
    requires a.Obj? && |a.fields| == 1 && "M" !in a.fields && "L" !in a.fields
    ensures r.Some? ==> WireFormat.IsAttributeValue(a)
  {
    var m := a.fields;
    var tag :| tag in m;
    WireFormat.SingleKey(m, tag);
    if tag == "N" then
      match m["N"]
      case Str(text) =>
        (match Decimal.TextToInt(text)
         case Some(n) => Some(Num(n))
         case None => None)
      case _ => None
    else if tag == "NULL" then Some(Null)
    else if tag in WireFormat.Tags then Some(m[tag])
    else None
  }

  /**
   * Writes any value as a tagged value by its JavaScript type alone: the
   * structural encoding `Unmarshal` reads back.
   */
  function Marshal(v: Value): Value
  {
    match v
    case Num(n) => Obj(map["N" := Str(Decimal.IntToText(n))])
    case Str(s) => Obj(map["S" := Str(s)])
    case Bool(b) => Obj(map["BOOL" := Bool(b)])
    case Null => Obj(map["NULL" := Bool(true)])
    case Obj(m) => Obj(map["M" := Obj(map k | k in m :: Marshal(m[k]))])
    case Arr(items) => Obj(map["L" := Arr(seq(|items|, i requires 0 <= i < |items| => Marshal(items[i])))])
  }

  /** No object inside the value, at any depth, is empty. */
  predicate NoEmptyObject(v: Value)
  {
    match v
    case Obj(m) => m != map[] && forall k :: k in m ==> NoEmptyObject(m[k])
    case Arr(items) => forall i :: 0 <= i < |items| ==> NoEmptyObject(items[i])
    case _ => true
  }

  /**
   * Reading back the structural encoding of a value gives the value, so the
   * encoding is a tagged value; an empty object is the exception, since
   * `{M: {}}` is not classified as one.
   */
  lemma {:induction false} UnmarshalMarshal(v: Value)
    requires NoEmptyObject(v)
    ensures Unmarshal(Marshal(v)) == Some(v)
    decreases v, 1
  {
    match v
    case Num(n) =>
      Decimal.IntRoundTrip(n);
    case Str(s) =>
    case Bool(b) =>
    case Null =>
    case Obj(m) =>
      UnmarshalMarshalObject(v);
    case Arr(items) =>
      UnmarshalMarshalArray(v);
  }

  lemma {:induction false} UnmarshalMarshalObject(v: Value)
    requires v.Obj? && NoEmptyObject(v)
    ensures Unmarshal(Marshal(v)) == Some(v)
    decreases v, 0
  {
    var m := v.fields;
    var inner := map k | k in m :: Marshal(m[k]);
    var a := Obj(map["M" := Obj(inner)]);
    assert Marshal(v) == a;
    forall k | k in inner ensures Unmarshal(inner[k]) == Some(m[k]) {
      UnmarshalMarshal(m[k]);
    }
    assert inner != map[] by {
      var k0 :| k0 in m;
      assert k0 in inner;
    }
    assert a.fields.Keys == {"M"} && a.fields["M"] == Obj(inner);
    var back := map k | k in inner :: Unmarshal(inner[k]).value;
    assert back == m;
    assert UnmarshalMap(a) == Some(Obj(back));
    assert Unmarshal(a) == UnmarshalMap(a);
  }

  lemma {:induction false} UnmarshalMarshalArray(v: Value)
    requires v.Arr? && NoEmptyObject(v)
    ensures Unmarshal(Marshal(v)) == Some(v)
    decreases v, 0
  {
    var items := v.items;
    var marshalled := seq(|items|, i requires 0 <= i < |items| => Marshal(items[i]));
    var a := Obj(map["L" := Arr(marshalled)]);
    assert Marshal(v) == a;
    forall i | 0 <= i < |items| ensures Unmarshal(marshalled[i]) == Some(items[i]) {
      UnmarshalMarshal(items[i]);
    }
    assert seq(|marshalled|, i requires 0 <= i < |marshalled| => Unmarshal(marshalled[i]).value) == items;
    assert UnmarshalList(a) == Some(v);
  }

  /**
   * One field read back: a declared field by its declared type; an
   * undeclared one by its tag when it holds a tagged value, and otherwise
   * kept as it is.
   */
  function DecodeField(schema: Schema, k: string, a: Value): Option<Value>
  {
    match FieldOf(schema, k)
    case None => if WireFormat.IsAttributeValue(a) then Unmarshal(a) else Some(a)
    case Some(f) => DecodeAttribute(f.attrType, a)
  }

  /** Every declared field holds an attribute of its declared type. */
  predicate Decodable(schema: Schema, w: Object)
  {
    forall k :: k in w ==> DecodeField(schema, k, w[k]).Some?
  }

  /**
   * `fromDynamo`: every declared field decoded by its declared type; a
   * field the schema does not declare is decoded by its tag when it holds a
   * tagged value and kept as it is otherwise. None when a declared field
   * does not hold an attribute of its type, or an undeclared tagged field
   * holds a number that is not integer text.
   */
  function Decode(schema: Schema, w: Object): (r: Option<Object>)
    ensures r.Some? <==> Decodable(schema, w)
    ensures r.Some? ==> r.value.Keys == w.Keys
    ensures r.Some? ==> forall k :: k in w ==> DecodeField(schema, k, w[k]) == Some(r.value[k])
  {
    if Decodable(schema, w) then Some(map k | k in w :: DecodeField(schema, k, w[k]).value) else None
  }

  /** The empty object encodes to the empty wire object, and decodes from it. */
  lemma EmptyObjects(schema: Schema)
    ensures Encode(schema, map[]) == Ok(map[])
    ensures Decode(schema, map[]) == Some(map[])
  {
  }

  /** Decoding what `toDynamo` produced gives back the declared part of the object. */
  lemma EncodeDecodeRoundTrip(schema: Schema, o: Object)
    requires WellTyped(schema, o)
    ensures Encode(schema, o).Ok?
    ensures Decode(schema, Encode(schema, o).value) == Some(Restrict(o, Names(schema)))
  {
    var w := Encode(schema, o).value;
    EncodeValues(schema, o);
    forall k | k in w
      ensures DecodeAttribute(FieldOf(schema, k).value.attrType, w[k]) == Some(o[k])
    {
      AttributeRoundTrip(FieldOf(schema, k).value.attrType, o[k]);
    }
    assert Decode(schema, w).value == Restrict(o, Names(schema));
  }

  /** An object whose fields are the declared fields, each encoded by its type, is what `toDynamo` produces. */
  lemma EncodeDetermined(schema: Schema, o: Object, m: Object)
    requires WellTyped(schema, o)
    requires m.Keys == o.Keys * Names(schema)
    requires forall k :: k in m ==> EncodeAttribute(FieldOf(schema, k).value.attrType, o[k]) == Some(m[k])
    ensures Encode(schema, o) == Ok(m)
  {
    EncodeValues(schema, o);
    assert Encode(schema, o).value == m;
  }

  /** What `fromDynamo` produces holds values of the declared types. */
  lemma DecodedWellTyped(schema: Schema, w: Object)
    requires Distinct(schema)
    requires Decode(schema, w).Some?
    ensures WellTyped(schema, Decode(schema, w).value)
  {
    var o := Decode(schema, w).value;
    forall i | 0 <= i < |schema| && schema[i].name in o
      ensures Matches(schema[i].attrType, o[schema[i].name])
    {
      var name := schema[i].name;
      assert FieldOf(schema, name) == Some(schema[i]);
      assert DecodeField(schema, name, w[name]) == Some(o[name]);
    }
  }

  /** Every field is declared and written as the encoder writes it. */
  predicate CanonicalWire(schema: Schema, w: Object)
  {
    forall k :: k in w ==> FieldOf(schema, k).Some? && CanonicalAttribute(FieldOf(schema, k).value.attrType, w[k])
  }

  /**
   * Encoding what `fromDynamo` produced gives back the wire object, when
   * every field is declared and written as the encoder writes it.
   */
  lemma DecodeEncodeRoundTrip(schema: Schema, w: Object)
    requires Distinct(schema) && CanonicalWire(schema, w)
    requires Decode(schema, w).Some?
    ensures Encode(schema, Decode(schema, w).value) == Ok(w)
  {
    var o := Decode(schema, w).value;
    DecodedWellTyped(schema, w);
    forall k | k in w
      ensures EncodeAttribute(FieldOf(schema, k).value.attrType, o[k]) == Some(w[k])
    {
      var t := FieldOf(schema, k).value.attrType;
      assert DecodeAttribute(t, w[k]) == Some(o[k]);
      AttributeCanonicalRoundTrip(t, w[k]);
    }
    assert w.Keys == o.Keys * Names(schema);
    EncodeDetermined(schema, o, w);
  }

  /** Every encoded attribute is a tagged value of the wire format. */
  lemma EncodedAttributeIsTagged(t: AttrType, v: Value)
    requires Matches(t, v)
    ensures WireFormat.IsAttributeValue(EncodeAttribute(t, v).value)
  {
    match t
    case NumberType => WireFormat.ScalarTagged("N", Str(Decimal.IntToText(v.n)));
    case DateType => WireFormat.ScalarTagged("N", Str(Decimal.IntToText(v.n)));
    case StringType => WireFormat.ScalarTagged("S", Str(v.s));
    case BooleanType => WireFormat.ScalarTagged("BOOL", Bool(v.b));
  }

  /**
   * What `toDynamo` produces is classified as wire format: `true`, or
   * `null` when the object holds no declared field.
   */
  lemma EncodedIsWire(schema: Schema, o: Object)
    requires WellTyped(schema, o)
    ensures Encode(schema, o).Ok?
    ensures WireFormat.IsDynamoObject(Encode(schema, o).value)
              == if o.Keys * Names(schema) == {} then None else Some(true)
  {
    var w := Encode(schema, o).value;
    EncodeValues(schema, o);
    forall k | k in w ensures WireFormat.IsAttributeValue(w[k]) {
      EncodedAttributeIsTagged(FieldOf(schema, k).value.attrType, o[k]);
    }
    if o.Keys * Names(schema) != {} {
      var k :| k in o.Keys * Names(schema);
      assert k in w;
    }
  }
}
