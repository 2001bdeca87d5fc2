/**
 * Models and their documents: `Document.prototype.toDynamo`,
 * `conformToSchema`, which rewrites a document's own fields in place, and
 * `save`, which conforms with defaults and validation, encodes, and hands
 * the item to the store's `putItem`.
 */
module Documents {
  import opened Results
  import opened Values
  import opened Schemas
  import opened Conformance
  import Codec
  import WireFormat

  /** A model: the table it is stored in (its name) and its schema. */
  datatype Model = Model(name: string, schema: Schema)

  /** The parameters of one `putItem` call. */
  datatype PutItemInput = PutItemInput(item: Object, tableName: string)

  /** `save` applies defaults and runs validation. */
  const SaveOptions := Options(true, true)

  /** A document's fields conformed with the given options, then encoded. */
  function EncodeConformed(schema: Schema, fields: Object, opts: Options): Result<Object, Error>
  {
    match ObjectFromSchema(schema, fields, opts)
    case Err(e) => Err(e)
    case Ok(conformed) => Codec.Encode(schema, conformed)
  }

  /** The `putItem` parameters `save` sends for a document with these fields, or the error it fails with. */
  function PutItemFor(model: Model, fields: Object): Result<PutItemInput, Error>
  {
    match EncodeConformed(model.schema, fields, SaveOptions)
    case Err(e) => Err(e)
    case Ok(item) => Ok(PutItemInput(item, model.name))
  }

  /**
   * What conformance produces always encodes, and decoding the encoding
   * gives the conformed object back.
   */
  lemma ConformedEncodes(schema: Schema, fields: Object, opts: Options)
    requires Distinct(schema)
    requires ObjectFromSchema(schema, fields, opts).Ok?
    ensures Codec.Encode(schema, ObjectFromSchema(schema, fields, opts).value).Ok?
    ensures Codec.Decode(schema, Codec.Encode(schema, ObjectFromSchema(schema, fields, opts).value).value)
              == Some(ObjectFromSchema(schema, fields, opts).value)
  {
    var out := ObjectFromSchema(schema, fields, opts).value;
    ConformedWellTyped(schema, fields, opts);
    Codec.EncodeDecodeRoundTrip(schema, out);
    assert Restrict(out, Names(schema)) == out;
  }

  /**
   * Encoding a document fails exactly when conformance fails, with
   * conformance's error; otherwise it decodes back to the conformed fields.
   */
  lemma EncodeConformedSpec(schema: Schema, fields: Object, opts: Options)
    requires Distinct(schema)
    ensures EncodeConformed(schema, fields, opts).Ok? <==> ObjectFromSchema(schema, fields, opts).Ok?
    ensures EncodeConformed(schema, fields, opts).Err? ==>
              EncodeConformed(schema, fields, opts).error == ObjectFromSchema(schema, fields, opts).error
    ensures EncodeConformed(schema, fields, opts).Ok? ==>
              Codec.Decode(schema, EncodeConformed(schema, fields, opts).value) == Some(ObjectFromSchema(schema, fields, opts).value)
  {
    if ObjectFromSchema(schema, fields, opts).Ok? {
      ConformedEncodes(schema, fields, opts);
    }
  }

  /**
   * Without options, conformance and encoding accept the same objects:
   * both fail exactly when a declared field holds a value of another type.
   */
  lemma PlainConformanceIsTypeCheck(schema: Schema, o: Object)
    requires Distinct(schema)
    ensures ObjectFromSchema(schema, o, NoOptions).Ok? <==> Codec.Encode(schema, o).Ok?
  {
    TypeCheckWithoutValidation(schema, o, NoOptions);
  }

  /**
   * A conformed object holds plain values only, so the wire classifier
   * calls it not wire format (or `null` when it is empty).
   */
  lemma ConformedIsPlain(schema: Schema, fields: Object, opts: Options)
    requires Distinct(schema)
    requires ObjectFromSchema(schema, fields, opts).Ok?
    ensures WireFormat.IsDynamoObject(ObjectFromSchema(schema, fields, opts).value)
              == if ObjectFromSchema(schema, fields, opts).value == map[] then None else Some(false)
  {
    var out := ObjectFromSchema(schema, fields, opts).value;
    ConformedWellTyped(schema, fields, opts);
    if out != map[] {
      var k :| k in out;
      assert k in Names(schema);
      var i :| 0 <= i < |schema| && schema[i].name == k;
      assert Matches(schema[i].attrType, out[k]);
      WireFormat.PlainFieldIsNotWire(out, k);
    }
  }

  /**
   * What `save` sends: the conformed fields (defaults applied, validated),
   * encoded, addressed to the model's table; it fails with conformance's
   * error and sends nothing when conformance fails.
   */
  lemma PutItemSpec(model: Model, fields: Object)
    requires Distinct(model.schema)
    ensures PutItemFor(model, fields).Ok? <==> ObjectFromSchema(model.schema, fields, SaveOptions).Ok?
    ensures PutItemFor(model, fields).Err? ==>
              PutItemFor(model, fields).error == ObjectFromSchema(model.schema, fields, SaveOptions).error
    ensures PutItemFor(model, fields).Ok? ==>
              PutItemFor(model, fields).value.tableName == model.name
              && Codec.Decode(model.schema, PutItemFor(model, fields).value.item)
                   == Some(ObjectFromSchema(model.schema, fields, SaveOptions).value)
  {
    EncodeConformedSpec(model.schema, fields, SaveOptions);
  }

  /** Saving a document whose fields are already conformed sends the same item again. */
  lemma PutItemIdempotent(model: Model, fields: Object)
    requires Distinct(model.schema)
    requires ObjectFromSchema(model.schema, fields, SaveOptions).Ok?
    ensures PutItemFor(model, ObjectFromSchema(model.schema, fields, SaveOptions).value) == PutItemFor(model, fields)
  {
    ConformIdempotent(model.schema, fields, SaveOptions);
  }

  /**
   * The document store's `putItem`: it records every call it receives and
   * either accepts the item or rejects it with its own error value.
   */
  class Store {
    var puts: seq<PutItemInput>
    var rejection: Option<Value>

    constructor(rejection: Option<Value>)
      ensures puts == [] && this.rejection == rejection
    {
      puts := [];
      this.rejection := rejection;
    }

    method PutItem(input: PutItemInput) returns (r: Outcome<Value>)
      modifies this
      ensures puts == old(puts) + [input]
      ensures rejection == old(rejection)
      ensures r == if rejection.Some? then Fail(rejection.value) else Pass
    {
      puts := puts + [input];
      r := if rejection.Some? then Fail(rejection.value) else Pass;
    }
  }

  /** A document: an instance of its model whose own fields are a plain object. */
  class Document {
    const model: Model
    var fields: Object

    constructor(model: Model, fields: Object)
      ensures this.model == model && this.fields == fields
    {
      this.model := model;
      this.fields := fields;
    }

    /** `Document.prototype.toDynamo`: the document's fields conformed with the options, then encoded. */
    function ToDynamo(opts: Options): (r: Result<Object, Error>)
      requires Distinct(model.schema)
      reads this
      ensures r.Ok? <==> ObjectFromSchema(model.schema, fields, opts).Ok?
      ensures r.Ok? ==>
                Codec.Decode(model.schema, r.value) == Some(ObjectFromSchema(model.schema, fields, opts).value)
    {
      EncodeConformedSpec(model.schema, fields, opts);
      EncodeConformed(model.schema, fields, opts)
    }

    /**
     * `conformToSchema`: on success the document's own fields become the
     * conformed object and the document itself is returned; on failure
     * nothing changes.
     */
    method ConformToSchema(opts: Options) returns (r: Result<Document, Error>)
      modifies this
      ensures ObjectFromSchema(model.schema, old(fields), opts).Ok? ==>
                fields == ObjectFromSchema(model.schema, old(fields), opts).value && r == Ok(this)
      ensures ObjectFromSchema(model.schema, old(fields), opts).Err? ==>
                fields == old(fields) && r == Err(ObjectFromSchema(model.schema, old(fields), opts).error)
    {
      match ObjectFromSchema(model.schema, fields, opts)
      case Err(e) =>
        r := Err(e);
      case Ok(conformed) =>
        fields := conformed;
        r := Ok(this);
    }

    /**
     * `save`: when conformance with defaults and validation fails, the
     * error is returned and neither the document nor the store changes.
     * Otherwise the document's fields become the conformed object, the
     * item is put, and the document itself is returned, or the store's
     * rejection passed on unchanged.
     */
    method Save(store: Store) returns (r: Result<Document, Error>)
      modifies this, store
      ensures PutItemFor(model, old(fields)).Err? ==>
                r == Err(PutItemFor(model, old(fields)).error)
                && fields == old(fields) && store.puts == old(store.puts)
      ensures PutItemFor(model, old(fields)).Ok? ==>
                fields == ObjectFromSchema(model.schema, old(fields), SaveOptions).value
                && store.puts == old(store.puts) + [PutItemFor(model, old(fields)).value]
                && r == (if store.rejection.Some? then Err(StoreFailure(store.rejection.value)) else Ok(this))
      ensures store.rejection == old(store.rejection)
    {
      var put := PutItemFor(model, fields);
      if put.Err? {
        return Err(put.error);
      }
      var conformed := ConformToSchema(SaveOptions);
      var outcome := store.PutItem(put.value);
      r := if outcome.Fail? then Err(StoreFailure(outcome.error)) else Ok(this);
    }
  }
}
