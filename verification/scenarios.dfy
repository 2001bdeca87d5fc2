/**
 * The concrete cases of the document test suite for encoding, decoding,
 * conformance and saving, stated about the model, together with concrete
 * cases of behaviour the suite does not exercise (an undeclared field read
 * by `fromDynamo`).
 */
module Scenarios {
  import opened Results
  import opened Values
  import opened Schemas
  import opened Conformance
  import opened Documents
  import Codec
  import Decimal
  import WireFormat

  function Plain(name: string, t: AttrType): Field
  {
    Field(name, t, None, None)
  }

  /** `{"id": Number, "name": String}` */
  const UserSchema: Schema := [Plain("id", NumberType), Plain("name", StringType)]
  const User := Model("User", UserSchema)

  const Charlie: Object := map["id" := Num(1), "name" := Str("Charlie")]
  const CharlieItem: Object := map["id" := Obj(map["N" := Str("1")]), "name" := Obj(map["S" := Str("Charlie")])]

  /** The tail of a one- or two-field schema. */
  lemma Tails(f: Field, g: Field)
    ensures [f][1..] == [] && [f, g][1..] == [g]
  {
  }

  /** Two declared fields, both held with values of their types, encode to their two attributes. */
  lemma EncodeTwo(f: Field, g: Field, o: Object, a: Value, b: Value)
    requires f.name != g.name && f.name in o && g.name in o
    requires Codec.EncodeAttribute(f.attrType, o[f.name]) == Some(a)
    requires Codec.EncodeAttribute(g.attrType, o[g.name]) == Some(b)
    ensures Codec.Encode([f, g], o) == Ok(map[f.name := a, g.name := b])
  {
    Tails(f, g);
    Tails(g, f);
    assert map[g.name := b][f.name := a] == map[f.name := a, g.name := b];
  }

  /** The exact type-mismatch text for a string held where a number is declared. */
  lemma MismatchText()
    ensures TypeMismatchMessage("id", NumberType, Str("hello")) == "Expected id to be of type number, instead found type string."
  {
    assert "Expected " + "id" == "Expected id";
    assert "Expected id" + " to be of type " == "Expected id to be of type ";
    assert "Expected id to be of type " + "number" == "Expected id to be of type number";
    assert "Expected id to be of type number" + ", instead found type " == "Expected id to be of type number, instead found type ";
    assert "Expected id to be of type number, instead found type " + "string" == "Expected id to be of type number, instead found type string";
    assert "Expected id to be of type number, instead found type string" + "." == "Expected id to be of type number, instead found type string.";
  }

  /** The fixed end of every validation message, in two pieces. */
  lemma SuffixSplit()
    ensures " had a validation error when trying to save the document" == " had a validation error" + " when trying to save the document"
  {
  }

  lemma AgeTextStart()
    ensures "age with a value of 4" + " had a validation error" == "age with a value of 4 had a validation error"
  {
  }

  lemma AgeTextEnd()
    ensures "age with a value of 4 had a validation error" + " when trying to save the document"
              == "age with a value of 4 had a validation error when trying to save the document"
  {
  }

  lemma AgeText()
    ensures ValidationMessage("age", Num(4)) == "age with a value of 4 had a validation error when trying to save the document"
  {
    assert Display(Num(4)) == "4";
    assert "age" + " with a value of " + "4" == "age with a value of 4";
    SuffixSplit();
    AgeTextStart();
    AgeTextEnd();
    var x, a, b := "age with a value of 4", " had a validation error", " when trying to save the document";
    assert x + (a + b) == (x + a) + b;
  }

  lemma IdTextStart()
    ensures "id with a value of test" + " had a validation error" == "id with a value of test had a validation error"
  {
  }

  lemma IdTextEnd()
    ensures "id with a value of test had a validation error" + " when trying to save the document"
              == "id with a value of test had a validation error when trying to save the document"
  {
  }

  lemma IdText()
    ensures ValidationMessage("id", Str("test")) == "id with a value of test had a validation error when trying to save the document"
  {
    assert "id" + " with a value of " + "test" == "id with a value of test";
    SuffixSplit();
    IdTextStart();
    IdTextEnd();
    var x, a, b := "id with a value of test", " had a validation error", " when trying to save the document";
    assert x + (a + b) == (x + a) + b;
  }

  lemma NameTextStart()
    ensures "name with a value of a" + " had a validation error" == "name with a value of a had a validation error"
  {
  }

  lemma NameTextEnd()
    ensures "name with a value of a had a validation error" + " when trying to save the document"
              == "name with a value of a had a validation error when trying to save the document"
  {
  }

  lemma NameText()
    ensures ValidationMessage("name", Str("a")) == "name with a value of a had a validation error when trying to save the document"
  {
    assert "name" + " with a value of " + "a" == "name with a value of a";
    SuffixSplit();
    NameTextStart();
    NameTextEnd();
    var x, a, b := "name with a value of a", " had a validation error", " when trying to save the document";
    assert x + (a + b) == (x + a) + b;
  }

  function NumberText(n: int): Value
  {
    Obj(map["N" := Str(Decimal.IntToText(n))])
  }

  /** `{id: 1, name: "Charlie"}` encodes to `{id: {N: "1"}, name: {S: "Charlie"}}` and decodes back. */
  lemma CharlieCodec()
    ensures Codec.Encode(UserSchema, Charlie) == Ok(CharlieItem)
    ensures Codec.Decode(UserSchema, CharlieItem) == Some(Charlie)
  {
    assert Decimal.IntToText(1) == "1";
    EncodeTwo(UserSchema[0], UserSchema[1], Charlie, Obj(map["N" := Str("1")]), Obj(map["S" := Str("Charlie")]));
    Codec.EncodeDecodeRoundTrip(UserSchema, Charlie);
    assert Restrict(Charlie, Names(UserSchema)) == Charlie;
  }

  /**
   * A field the User schema does not declare is read by its tag when it
   * holds a tagged value, and kept as it is when it holds a plain one.
   */
  lemma DecodeUndeclared(k: string, s: string)
    requires k != "id" && k != "name"
    ensures Codec.Decode(UserSchema, map[k := Obj(map["S" := Str(s)])]) == Some(map[k := Str(s)])
    ensures Codec.Decode(UserSchema, map[k := Str(s)]) == Some(map[k := Str(s)])
  {
    Tails(UserSchema[0], UserSchema[1]);
    assert FieldOf(UserSchema, k) == None;
    var tagged := Obj(map["S" := Str(s)]);
    WireFormat.ScalarTagged("S", Str(s));
    assert tagged.fields.Keys == {"S"};
    assert Codec.Unmarshal(tagged) == Some(Str(s));
    DecodeSingle(k, tagged, Str(s));
    WireFormat.NonObjectIsNotAttributeValue(Str(s));
    DecodeSingle(k, Str(s), Str(s));
  }

  /** A one-field object whose field is undeclared and reads back as v decodes to that field holding v. */
  lemma DecodeSingle(k: string, a: Value, v: Value)
    requires FieldOf(UserSchema, k) == None
    requires Codec.DecodeField(UserSchema, k, a) == Some(v)
    ensures Codec.Decode(UserSchema, map[k := a]) == Some(map[k := v])
  {
    var w := map[k := a];
    assert w.Keys == {k} && w[k] == a;
    assert Codec.Decodable(UserSchema, w);
    var r := Codec.Decode(UserSchema, w).value;
    assert r.Keys == {k} && Some(r[k]) == Codec.DecodeField(UserSchema, k, w[k]);
    assert r == map[k := v];
  }

  function UserObject(id: int, name: string): Object
  {
    map["id" := Num(id), "name" := Str(name)]
  }

  function UserItem(id: int, name: string): Object
  {
    map["id" := NumberText(id), "name" := Obj(map["S" := Str(name)])]
  }

  /** Conformance keeps a user's two declared fields and drops any other. */
  lemma ConformUser(id: int, name: string, extra: Object, opts: Options)
    requires "id" !in extra && "name" !in extra
    ensures ObjectFromSchema(UserSchema, UserObject(id, name) + extra, opts) == Ok(UserObject(id, name))
  {
    Tails(UserSchema[0], UserSchema[1]);
    Tails(UserSchema[1], UserSchema[0]);
    var input := UserObject(id, name) + extra;
    assert Resolve(UserSchema[1], input, opts) == Some(Str(name));
    assert ObjectFromSchema([UserSchema[1]], input, opts) == Ok(map["name" := Str(name)]);
    assert map["name" := Str(name)]["id" := Num(id)] == UserObject(id, name);
  }

  /** What `save` sends, from what conformance and encoding produce. */
  lemma PutItemFrom(model: Model, fields: Object, conformed: Object, item: Object)
    requires ObjectFromSchema(model.schema, fields, SaveOptions) == Ok(conformed)
    requires Codec.Encode(model.schema, conformed) == Ok(item)
    ensures PutItemFor(model, fields) == Ok(PutItemInput(item, model.name))
  {
  }

  /** Saving a user, with any undeclared fields besides, puts its two declared fields into table User. */
  lemma SaveUser(id: int, name: string, extra: Object)
    requires "id" !in extra && "name" !in extra
    ensures PutItemFor(User, UserObject(id, name) + extra) == Ok(PutItemInput(UserItem(id, name), "User"))
  {
    ConformUser(id, name, extra, SaveOptions);
    EncodeTwo(UserSchema[0], UserSchema[1], UserObject(id, name), NumberText(id), Obj(map["S" := Str(name)]));
    PutItemFrom(User, UserObject(id, name) + extra, UserObject(id, name), UserItem(id, name));
  }

  /** Saving Charlie as it is, or with `hello: "world"` besides, puts the same item. */
  lemma SaveCharlieExamples()
    ensures PutItemFor(User, Charlie) == Ok(PutItemInput(CharlieItem, "User"))
    ensures PutItemFor(User, Charlie + map["hello" := Str("world")]) == Ok(PutItemInput(CharlieItem, "User"))
  {
    assert Decimal.IntToText(1) == "1";
    assert UserObject(1, "Charlie") == Charlie && UserItem(1, "Charlie") == CharlieItem;
    SaveUser(1, "Charlie", map[]);
    assert Charlie + map[] == Charlie;
    SaveUser(1, "Charlie", map["hello" := Str("world")]);
  }

  const RobotSchema: Schema := [Plain("id", NumberType), Plain("built", DateType)]

  function Robot(date: int): Object
  {
    map["id" := Num(2), "built" := Num(date)]
  }

  function RobotItem(date: int): Object
  {
    map["id" := NumberText(2), "built" := NumberText(date)]
  }

  /** `{"id": Number, "built": Date}`: a date is stored as its epoch milliseconds in decimal. */
  lemma SaveRobot(date: int)
    ensures PutItemFor(Model("Robot", RobotSchema), Robot(date)) == Ok(PutItemInput(RobotItem(date), "Robot"))
  {
    var o := Robot(date);
    Tails(RobotSchema[0], RobotSchema[1]);
    Tails(RobotSchema[1], RobotSchema[0]);
    assert map["built" := Num(date)]["id" := Num(2)] == o;
    assert ObjectFromSchema(RobotSchema, o, SaveOptions) == Ok(o);
    EncodeTwo(RobotSchema[0], RobotSchema[1], o, NumberText(2), NumberText(date));
  }

  /** A declared field the document does not hold is left out of the item. */
  lemma SaveAbsentField()
    ensures PutItemFor(Model("User", [Plain("id", NumberType), Plain("age", NumberType)]), map["id" := Num(1)])
              == Ok(PutItemInput(map["id" := Obj(map["N" := Str("1")])], "User"))
  {
    var f := Plain("id", NumberType);
    var g := Plain("age", NumberType);
    var o := map["id" := Num(1)];
    Tails(f, g);
    Tails(g, f);
    assert Decimal.IntToText(1) == "1";
    assert ObjectFromSchema([f, g], o, SaveOptions) == Ok(o);
    assert Codec.Encode([g], o) == Ok(map[]);
    assert map[]["id" := Obj(map["N" := Str("1")])] == map["id" := Obj(map["N" := Str("1")])];
  }

  /** `{"id": Number, "age": {type: Number, default: 5}}`: saving `{id: 1}` puts age 5. */
  lemma SaveDefault()
    ensures PutItemFor(Model("User", [Plain("id", NumberType), Field("age", NumberType, Some(Num(5)), None)]), map["id" := Num(1)])
              == Ok(PutItemInput(map["id" := Obj(map["N" := Str("1")]), "age" := Obj(map["N" := Str("5")])], "User"))
  {
    var f := Plain("id", NumberType);
    var g := Field("age", NumberType, Some(Num(5)), None);
    var out := map["id" := Num(1), "age" := Num(5)];
    Tails(f, g);
    Tails(g, f);
    assert map["age" := Num(5)]["id" := Num(1)] == out;
    assert ObjectFromSchema([f, g], map["id" := Num(1)], SaveOptions) == Ok(out);
    assert Decimal.IntToText(1) == "1";
    assert Decimal.IntToText(5) == "5";
    EncodeTwo(f, g, out, Obj(map["N" := Str("1")]), Obj(map["N" := Str("5")]));
  }

  function AgeSchema(validator: Validator): Schema
  {
    [Plain("id", NumberType), Field("age", NumberType, None, Some(validator))]
  }

  /** `(val) => val > 5` */
  predicate OverFive(v: Value) { v.Num? && v.n > 5 }

  /** `(val) => val > 0` */
  predicate Positive(v: Value) { v.Num? && v.n > 0 }

  /** `(val) => val.length > 5` */
  predicate LongerThanFive(v: Value) { v.Str? && |v.s| > 5 }

  /** `/.../gu`: some three characters. */
  predicate ThreeChars(s: string) { |s| >= 3 }

  const AgeError := ValidationError("age with a value of 4 had a validation error when trying to save the document")

  /** A validated age that passes is saved as it is. */
  lemma SaveAge(validator: Validator, age: int)
    requires Passes(validator, Num(age))
    ensures PutItemFor(Model("User", AgeSchema(validator)), map["id" := Num(1), "age" := Num(age)])
              == Ok(PutItemInput(map["id" := Obj(map["N" := Str("1")]), "age" := NumberText(age)], "User"))
  {
    var schema := AgeSchema(validator);
    var o := map["id" := Num(1), "age" := Num(age)];
    Tails(schema[0], schema[1]);
    Tails(schema[1], schema[0]);
    assert map["age" := Num(age)]["id" := Num(1)] == o;
    assert ObjectFromSchema(schema, o, SaveOptions) == Ok(o);
    assert Decimal.IntToText(1) == "1";
    EncodeTwo(schema[0], schema[1], o, Obj(map["N" := Str("1")]), NumberText(age));
  }

  /** A validated age of 4 that fails is refused with the age message. */
  lemma RefuseAgeFour(validator: Validator)
    requires !Passes(validator, Num(4))
    ensures PutItemFor(Model("User", AgeSchema(validator)), map["id" := Num(1), "age" := Num(4)]) == Err(AgeError)
  {
    var schema := AgeSchema(validator);
    var o := map["id" := Num(1), "age" := Num(4)];
    Tails(schema[0], schema[1]);
    Tails(schema[1], schema[0]);
    AgeText();
    assert ObjectFromSchema([schema[1]], o, SaveOptions) == Err(AgeError);
    assert ObjectFromSchema(schema, o, SaveOptions) == Err(AgeError);
  }

  /** `validate: 5`: age 5 is saved, age 4 is refused. */
  lemma SaveValidatedLiteral()
    ensures PutItemFor(Model("User", AgeSchema(Equals(Num(5)))), map["id" := Num(1), "age" := Num(5)])
              == Ok(PutItemInput(map["id" := Obj(map["N" := Str("1")]), "age" := Obj(map["N" := Str("5")])], "User"))
    ensures PutItemFor(Model("User", AgeSchema(Equals(Num(5)))), map["id" := Num(1), "age" := Num(4)]) == Err(AgeError)
  {
    assert Decimal.IntToText(5) == "5";
    SaveAge(Equals(Num(5)), 5);
    RefuseAgeFour(Equals(Num(5)));
  }

  /** `validate: (val) => val > 5`: age 6 is saved, age 4 is refused. */
  lemma SaveValidatedPredicate()
    ensures PutItemFor(Model("User", AgeSchema(Satisfies(OverFive))), map["id" := Num(1), "age" := Num(6)])
              == Ok(PutItemInput(map["id" := Obj(map["N" := Str("1")]), "age" := Obj(map["N" := Str("6")])], "User"))
    ensures PutItemFor(Model("User", AgeSchema(Satisfies(OverFive))), map["id" := Num(1), "age" := Num(4)]) == Err(AgeError)
  {
    assert Decimal.IntToText(6) == "6";
    SaveAge(Satisfies(OverFive), 6);
    RefuseAgeFour(Satisfies(OverFive));
  }

  const NameSchema: Schema := [Plain("id", NumberType), Field("name", StringType, None, Some(Pattern(ThreeChars)))]

  /** `validate: /.../gu` (some three characters): "Tom" is saved, "a" is refused. */
  lemma SaveValidatedPattern()
    ensures PutItemFor(Model("User", NameSchema), map["id" := Num(1), "name" := Str("Tom")])
              == Ok(PutItemInput(map["id" := Obj(map["N" := Str("1")]), "name" := Obj(map["S" := Str("Tom")])], "User"))
    ensures PutItemFor(Model("User", NameSchema), map["id" := Num(1), "name" := Str("a")])
              == Err(ValidationError("name with a value of a had a validation error when trying to save the document"))
  {
    var o := map["id" := Num(1), "name" := Str("Tom")];
    Tails(NameSchema[0], NameSchema[1]);
    Tails(NameSchema[1], NameSchema[0]);
    assert map["name" := Str("Tom")]["id" := Num(1)] == o;
    assert ObjectFromSchema(NameSchema, o, SaveOptions) == Ok(o);
    assert Decimal.IntToText(1) == "1";
    EncodeTwo(NameSchema[0], NameSchema[1], o, Obj(map["N" := Str("1")]), Obj(map["S" := Str("Tom")]));
    NameText();
    var refused := map["id" := Num(1), "name" := Str("a")];
    assert ObjectFromSchema([NameSchema[1]], refused, SaveOptions) == Err(ValidationError(ValidationMessage("name", Str("a"))));
    assert ObjectFromSchema(NameSchema, refused, SaveOptions) == Err(ValidationError(ValidationMessage("name", Str("a"))));
  }

  /** Conformance keeps the declared fields only, and never invents absent ones. */
  lemma ConformDeclaredOnly()
    ensures ObjectFromSchema([Plain("id", NumberType)], map["id" := Num(1)], NoOptions) == Ok(map["id" := Num(1)])
    ensures ObjectFromSchema([Plain("id", NumberType)], Charlie, NoOptions) == Ok(map["id" := Num(1)])
    ensures ObjectFromSchema(UserSchema, Charlie, NoOptions) == Ok(Charlie)
    ensures ObjectFromSchema(UserSchema, map["id" := Num(1)], NoOptions) == Ok(map["id" := Num(1)])
  {
    Tails(UserSchema[0], UserSchema[1]);
    Tails(UserSchema[1], UserSchema[0]);
    assert map["id" := Num(1)] == map[]["id" := Num(1)];
    assert map["name" := Str("Charlie")]["id" := Num(1)] == Charlie;
  }

  /** A string where a number is declared fails the type check. */
  lemma ConformTypeMismatch()
    ensures ObjectFromSchema([Plain("id", NumberType)], map["id" := Str("hello")], NoOptions)
              == Err(TypeMismatch("Expected id to be of type number, instead found type string."))
  {
    Tails(Plain("id", NumberType), Plain("id", NumberType));
    MismatchText();
  }

  /** `{id: {type: String, default: "id"}}`: the default applies only when defaults are asked for. */
  lemma ConformDefaults()
    ensures ObjectFromSchema([Field("id", StringType, Some(Str("id")), None)], map[], NoOptions) == Ok(map[])
    ensures ObjectFromSchema([Field("id", StringType, Some(Str("id")), None)], map[], Options(true, false)) == Ok(map["id" := Str("id")])
  {
    var f := Field("id", StringType, Some(Str("id")), None);
    Tails(f, f);
    assert map[]["id" := Str("id")] == map["id" := Str("id")];
  }

  function IdSchema(validator: Validator): Schema
  {
    [Field("id", StringType, None, Some(validator))]
  }

  const IdError := ValidationError("id with a value of test had a validation error when trying to save the document")

  /** A string id is kept when validation is not asked for, whatever the validator. */
  lemma ConformIdUnvalidated(validator: Validator, id: string)
    ensures ObjectFromSchema(IdSchema(validator), map["id" := Str(id)], NoOptions) == Ok(map["id" := Str(id)])
  {
    Tails(IdSchema(validator)[0], IdSchema(validator)[0]);
    assert map[]["id" := Str(id)] == map["id" := Str(id)];
  }

  /** A string id that passes its validator is kept when validation is asked for. */
  lemma ConformIdValid(validator: Validator, id: string)
    requires Passes(validator, Str(id))
    ensures ObjectFromSchema(IdSchema(validator), map["id" := Str(id)], Options(false, true)) == Ok(map["id" := Str(id)])
  {
    Tails(IdSchema(validator)[0], IdSchema(validator)[0]);
    assert map[]["id" := Str(id)] == map["id" := Str(id)];
  }

  /** The id "test" that fails its validator is refused when validation is asked for. */
  lemma RefuseIdTest(validator: Validator)
    requires !Passes(validator, Str("test"))
    ensures ObjectFromSchema(IdSchema(validator), map["id" := Str("test")], Options(false, true)) == Err(IdError)
  {
    Tails(IdSchema(validator)[0], IdSchema(validator)[0]);
    IdText();
  }

  /** `validate: (val) => val.length > 5`: checked only when validation is asked for. */
  lemma ConformValidatedPredicate()
    ensures ObjectFromSchema(IdSchema(Satisfies(LongerThanFive)), map["id" := Str("test")], NoOptions) == Ok(map["id" := Str("test")])
    ensures ObjectFromSchema(IdSchema(Satisfies(LongerThanFive)), map["id" := Str("test")], Options(false, true)) == Err(IdError)
    ensures ObjectFromSchema(IdSchema(Satisfies(LongerThanFive)), map["id" := Str("hello world")], Options(false, true))
              == Ok(map["id" := Str("hello world")])
  {
    ConformIdUnvalidated(Satisfies(LongerThanFive), "test");
    RefuseIdTest(Satisfies(LongerThanFive));
    ConformIdValid(Satisfies(LongerThanFive), "hello world");
  }

  /** `/ID_.+/` matches at i: "ID_" starts at i and at least one character follows it. */
  predicate IdPatternAt(s: string, i: int)
  {
    0 <= i && i + 3 < |s| && s[i..i + 3] == "ID_"
  }

  /** `/ID_.+/gu`: "ID_" followed by at least one character, anywhere in the text. */
  predicate IdPattern(s: string)
  {
    exists i :: 0 <= i < |s| && IdPatternAt(s, i)
  }

  /** `validate: /ID_.+/gu`: checked only when validation is asked for. */
  lemma ConformValidatedPattern()
    ensures ObjectFromSchema(IdSchema(Pattern(IdPattern)), map["id" := Str("test")], NoOptions) == Ok(map["id" := Str("test")])
    ensures ObjectFromSchema(IdSchema(Pattern(IdPattern)), map["id" := Str("test")], Options(false, true)) == Err(IdError)
    ensures ObjectFromSchema(IdSchema(Pattern(IdPattern)), map["id" := Str("ID_test")], Options(false, true)) == Ok(map["id" := Str("ID_test")])
  {
    assert IdPatternAt("ID_test", 0) by { assert "ID_test"[0..3] == "ID_"; }
    assert !IdPattern("test") by {
      assert "test"[0..3] == "tes";
      assert "tes"[0] != "ID_"[0];
    }
    ConformIdUnvalidated(Pattern(IdPattern), "test");
    RefuseIdTest(Pattern(IdPattern));
    ConformIdValid(Pattern(IdPattern), "ID_test");
  }

  /** `validate: "ID_test"`: strict equality, checked only when validation is asked for. */
  lemma ConformValidatedLiteral()
    ensures ObjectFromSchema(IdSchema(Equals(Str("ID_test"))), map["id" := Str("test")], NoOptions) == Ok(map["id" := Str("test")])
    ensures ObjectFromSchema(IdSchema(Equals(Str("ID_test"))), map["id" := Str("test")], Options(false, true)) == Err(IdError)
    ensures ObjectFromSchema(IdSchema(Equals(Str("ID_test"))), map["id" := Str("ID_test")], Options(false, true)) == Ok(map["id" := Str("ID_test")])
  {
    assert "test" != "ID_test" by { assert |"test"| != |"ID_test"|; }
    ConformIdUnvalidated(Equals(Str("ID_test")), "test");
    RefuseIdTest(Equals(Str("ID_test")));
    ConformIdValid(Equals(Str("ID_test")), "ID_test");
  }

  /** A validator on an absent field is not run. */
  lemma ConformAbsentNotValidated()
    ensures ObjectFromSchema([Plain("id", StringType), Field("age", NumberType, None, Some(Satisfies(Positive)))],
                             map["id" := Str("test")], Options(false, true)) == Ok(map["id" := Str("test")])
  {
    var f := Plain("id", StringType);
    var g := Field("age", NumberType, None, Some(Satisfies(Positive)));
    Tails(f, g);
    Tails(g, f);
    assert map[]["id" := Str("test")] == map["id" := Str("test")];
  }

  /** `conformToSchema` drops the undeclared field in place and returns the document itself. */
  method ConformCharlieInPlace() returns (doc: Document, r: Result<Document, Error>)
    ensures doc.fields == Charlie && r == Ok(doc)
  {
    doc := new Document(User, Charlie + map["hello" := Str("world")]);
    assert UserObject(1, "Charlie") == Charlie;
    ConformUser(1, "Charlie", map["hello" := Str("world")], NoOptions);
    r := doc.ConformToSchema(NoOptions);
  }

  /** `Document.prototype.toDynamo` without settings: `{}` gives `{}`, Charlie gives Charlie's item. */
  method DocumentToDynamo() returns (empty: Result<Object, Error>, charlie: Result<Object, Error>)
    ensures empty == Ok(map[])
    ensures charlie == Ok(CharlieItem)
  {
    var blank := new Document(User, map[]);
    var user := new Document(User, Charlie);
    Codec.EmptyObjects(UserSchema);
    assert ObjectFromSchema(UserSchema, map[], NoOptions) == Ok(map[]) by {
      Tails(UserSchema[0], UserSchema[1]);
      Tails(UserSchema[1], UserSchema[0]);
    }
    CharlieCodec();
    assert UserObject(1, "Charlie") == Charlie && UserObject(1, "Charlie") + map[] == Charlie;
    ConformUser(1, "Charlie", map[], NoOptions);
    empty := blank.ToDynamo(NoOptions);
    charlie := user.ToDynamo(NoOptions);
  }

  /**
   * A store that rejects: the item was put, and `save` fails with the
   * store's own error value.
   */
  method SaveRejected() returns (r: Result<Document, Error>, puts: seq<PutItemInput>)
    ensures r == Err(StoreFailure(Obj(map["error" := Str("Error")])))
    ensures puts == [PutItemInput(CharlieItem, "User")]
  {
    var store := new Store(Some(Obj(map["error" := Str("Error")])));
    var user := new Document(User, Charlie);
    SaveCharlieExamples();
    r := user.Save(store);
    puts := store.puts;
  }

  /** A save against an accepting store, when what it sends is known. */
  method SaveAccepted(doc: Document, store: Store, put: PutItemInput) returns (r: Result<Document, Error>)
    requires PutItemFor(doc.model, doc.fields) == Ok(put) && store.rejection == None
    modifies doc, store
    ensures r == Ok(doc)
    ensures store.puts == old(store.puts) + [put] && store.rejection == None
  {
    r := doc.Save(store);
  }

  /** Two models save into their own tables, in order, and each save returns its document. */
  method SaveTwoModels(id: int, name: string, date: int)
    returns (a: Document, ra: Result<Document, Error>, b: Document, rb: Result<Document, Error>, puts: seq<PutItemInput>)
    ensures ra == Ok(a) && rb == Ok(b)
    ensures puts == [PutItemInput(UserItem(id, name), "User"), PutItemInput(RobotItem(date), "Robot")]
  {
    var store := new Store(None);
    a := new Document(User, UserObject(id, name));
    b := new Document(Model("Robot", RobotSchema), Robot(date));
    SaveUser(id, name, map[]);
    assert UserObject(id, name) + map[] == UserObject(id, name);
    SaveRobot(date);
    ra := SaveAccepted(a, store, PutItemInput(UserItem(id, name), "User"));
    rb := SaveAccepted(b, store, PutItemInput(RobotItem(date), "Robot"));
    puts := store.puts;
  }
}
