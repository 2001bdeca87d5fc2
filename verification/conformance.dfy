/**
 * The conformance pipeline (`objectFromSchema`): walks the schema in
 * declaration order, resolves each field's value (supplied, else default
 * when defaults apply), type-checks it, validates it when validation
 * applies, and stops at the first field that fails.
 */
module Conformance {
  import opened Results
  import opened Values
  import opened Schemas

  /** The caller's opt-ins; both are off unless asked for. */
  datatype Options = Options(defaults: bool, validate: bool)

  const NoOptions := Options(false, false)

  /** The field's value: the supplied one, else its default when defaults apply, else absent. */
  function Resolve(f: Field, input: Object, opts: Options): Option<Value>
  {
    if f.name in input then Some(input[f.name])
    else if opts.defaults then f.default
    else None
  }

  /**
   * The checks on a present value: the type check always, then the
   * validator when validation applies and the field has one.
   */
  function CheckField(f: Field, v: Value, opts: Options): Outcome<Error>
  {
    if !Matches(f.attrType, v) then Fail(TypeMismatch(TypeMismatchMessage(f.name, f.attrType, v)))
    else if opts.validate && f.validator.Some? && !Passes(f.validator.value, v) then Fail(ValidationError(ValidationMessage(f.name, v)))
    else Pass
  }

  /** An absent field, or a present one that passes its checks. */
  predicate FieldPasses(f: Field, input: Object, opts: Options)
  {
    Resolve(f, input, opts).None? || CheckField(f, Resolve(f, input, opts).value, opts).Pass?
  }

  predicate AllPass(schema: Schema, input: Object, opts: Options)
  {
    forall i :: 0 <= i < |schema| ==> FieldPasses(schema[i], input, opts)
  }

  /**
   * `objectFromSchema`: the declared fields that have a value, each
   * checked; the error of the first field in schema order that fails.
   */
  function ObjectFromSchema(schema: Schema, input: Object, opts: Options): (r: Result<Object, Error>)
    ensures r.Ok? <==> AllPass(schema, input, opts)
    ensures r.Ok? ==> r.value.Keys <= Names(schema)
  {
    if schema == [] then Ok(map[])
    else
      var f := schema[0];
      var rest := ObjectFromSchema(schema[1..], input, opts);
      assert forall i :: 1 <= i < |schema| ==> schema[i] == schema[1..][i - 1];
      match Resolve(f, input, opts)
      case None => rest
      case Some(v) =>
        match CheckField(f, v, opts)
        case Fail(e) => Err(e)
        case Pass => if rest.Err? then rest else Ok(rest.value[f.name := v])
  }

  /**
   * What conformance keeps: exactly the declared fields that resolve to a
   * value, each with that value.
   */
  lemma {:induction false} ConformedAt(schema: Schema, input: Object, opts: Options)
    requires Distinct(schema)
    requires ObjectFromSchema(schema, input, opts).Ok?
    ensures forall k :: k in ObjectFromSchema(schema, input, opts).value <==>
              k in Names(schema) && Resolve(FieldOf(schema, k).value, input, opts).Some?
    ensures forall k :: k in ObjectFromSchema(schema, input, opts).value ==>
              ObjectFromSchema(schema, input, opts).value[k] == Resolve(FieldOf(schema, k).value, input, opts).value
  {
    if schema != [] {
      var f := schema[0];
      var out := ObjectFromSchema(schema, input, opts).value;
      var rest := ObjectFromSchema(schema[1..], input, opts);
      assert Distinct(schema[1..]);
      ConformedAt(schema[1..], input, opts);
      forall k
        ensures k in out <==> k in Names(schema) && Resolve(FieldOf(schema, k).value, input, opts).Some?
        ensures k in out ==> out[k] == Resolve(FieldOf(schema, k).value, input, opts).value
      {
        if k == f.name {
          assert f.name !in Names(schema[1..]);
        } else {
          assert FieldOf(schema, k) == FieldOf(schema[1..], k);
          assert k in Names(schema) <==> k in Names(schema[1..]);
        }
      }
    }
  }

  /** Without defaults, conformance keeps the declared fields of the input and nothing else. */
  lemma NoDefaultsRestricts(schema: Schema, input: Object, opts: Options)
    requires Distinct(schema) && !opts.defaults
    requires ObjectFromSchema(schema, input, opts).Ok?
    ensures ObjectFromSchema(schema, input, opts).value == Restrict(input, Names(schema))
  {
    ConformedAt(schema, input, opts);
  }

  /** A supplied declared field keeps the supplied value, default or not. */
  lemma SuppliedWins(schema: Schema, input: Object, opts: Options, k: string)
    requires Distinct(schema)
    requires ObjectFromSchema(schema, input, opts).Ok?
    requires k in input && k in Names(schema)
    ensures k in ObjectFromSchema(schema, input, opts).value
    ensures ObjectFromSchema(schema, input, opts).value[k] == input[k]
  {
    ConformedAt(schema, input, opts);
  }

  /**
   * With defaults, an absent field that has a default appears with it; an
   * absent field without one stays absent.
   */
  lemma DefaultsFill(schema: Schema, input: Object, opts: Options, k: string)
    requires Distinct(schema) && opts.defaults
    requires ObjectFromSchema(schema, input, opts).Ok?
    requires k !in input && k in Names(schema)
    ensures k in ObjectFromSchema(schema, input, opts).value <==> FieldOf(schema, k).value.default.Some?
    ensures FieldOf(schema, k).value.default.Some? ==>
              ObjectFromSchema(schema, input, opts).value[k] == FieldOf(schema, k).value.default.value
  {
    ConformedAt(schema, input, opts);
  }

  /** Every field conformance keeps has its declared type. */
  lemma ConformedWellTyped(schema: Schema, input: Object, opts: Options)
    requires Distinct(schema)
    requires ObjectFromSchema(schema, input, opts).Ok?
    ensures WellTyped(schema, ObjectFromSchema(schema, input, opts).value)
  {
    var out := ObjectFromSchema(schema, input, opts).value;
    ConformedAt(schema, input, opts);
    forall i | 0 <= i < |schema| && schema[i].name in out
      ensures Matches(schema[i].attrType, out[schema[i].name])
    {
      assert FieldOf(schema, schema[i].name) == Some(schema[i]);
      assert FieldPasses(schema[i], input, opts);
    }
  }

  /** With validation, every kept field that has a validator passes it. */
  lemma ConformedValid(schema: Schema, input: Object, opts: Options)
    requires Distinct(schema) && opts.validate
    requires ObjectFromSchema(schema, input, opts).Ok?
    ensures forall i :: 0 <= i < |schema| && schema[i].name in ObjectFromSchema(schema, input, opts).value && schema[i].validator.Some? ==>
              Passes(schema[i].validator.value, ObjectFromSchema(schema, input, opts).value[schema[i].name])
  {
    var out := ObjectFromSchema(schema, input, opts).value;
    ConformedAt(schema, input, opts);
    forall i | 0 <= i < |schema| && schema[i].name in out && schema[i].validator.Some?
      ensures Passes(schema[i].validator.value, out[schema[i].name])
    {
      assert FieldOf(schema, schema[i].name) == Some(schema[i]);
      assert FieldPasses(schema[i], input, opts);
    }
  }

  /** The field whose check fails, with every earlier field passing. */
  predicate FailsFirstAt(schema: Schema, input: Object, opts: Options, i: int)
  {
    0 <= i < |schema| && !FieldPasses(schema[i], input, opts)
    && forall j :: 0 <= j < i ==> FieldPasses(schema[j], input, opts)
  }

  /** The error reported is that of the first field in schema order that fails its checks. */
  lemma {:induction false} FirstFailure(schema: Schema, input: Object, opts: Options)
    requires ObjectFromSchema(schema, input, opts).Err?
    ensures exists i :: FailsFirstAt(schema, input, opts, i)
              && Fail(ObjectFromSchema(schema, input, opts).error) == CheckField(schema[i], Resolve(schema[i], input, opts).value, opts)
  {
    var f := schema[0];
    if FieldPasses(f, input, opts) {
      FirstFailure(schema[1..], input, opts);
      var i :| FailsFirstAt(schema[1..], input, opts, i)
              && Fail(ObjectFromSchema(schema[1..], input, opts).error) == CheckField(schema[1..][i], Resolve(schema[1..][i], input, opts).value, opts);
      assert schema[i + 1] == schema[1..][i];
      forall j | 0 <= j < i + 1 ensures FieldPasses(schema[j], input, opts) {
        if j > 0 { assert schema[j] == schema[1..][j - 1]; }
      }
      assert FailsFirstAt(schema, input, opts, i + 1);
    } else {
      assert FailsFirstAt(schema, input, opts, 0);
    }
  }

  /**
   * The type check runs whatever the options: conformance succeeds without
   * validation exactly when every resolved value has its declared type.
   */
  lemma TypeCheckWithoutValidation(schema: Schema, input: Object, opts: Options)
    requires !opts.validate
    ensures ObjectFromSchema(schema, input, opts).Ok? <==>
              forall i :: 0 <= i < |schema| && Resolve(schema[i], input, opts).Some? ==>
                Matches(schema[i].attrType, Resolve(schema[i], input, opts).value)
  {
  }

  /** Validation only adds failures: what conforms with it conforms without it, to the same object. */
  lemma {:induction false} ValidationOnlyRejects(schema: Schema, input: Object, opts: Options)
    requires ObjectFromSchema(schema, input, opts).Ok?
    ensures ObjectFromSchema(schema, input, opts.(validate := false)) == ObjectFromSchema(schema, input, opts)
  {
    if schema != [] {
      ValidationOnlyRejects(schema[1..], input, opts);
    }
  }

  /** Conforming an already conformed object changes nothing. */
  lemma ConformIdempotent(schema: Schema, input: Object, opts: Options)
    requires Distinct(schema)
    requires ObjectFromSchema(schema, input, opts).Ok?
    ensures ObjectFromSchema(schema, ObjectFromSchema(schema, input, opts).value, opts) == ObjectFromSchema(schema, input, opts)
  {
    var out := ObjectFromSchema(schema, input, opts).value;
    ConformedAt(schema, input, opts);
    forall i | 0 <= i < |schema|
      ensures Resolve(schema[i], out, opts) == Resolve(schema[i], input, opts)
    {
      assert FieldOf(schema, schema[i].name) == Some(schema[i]);
    }
    ResolvesAlike(schema, input, out, opts);
  }

  /** Two inputs whose fields resolve alike conform alike. */
  lemma {:induction false} ResolvesAlike(schema: Schema, a: Object, b: Object, opts: Options)
    requires forall i :: 0 <= i < |schema| ==> Resolve(schema[i], a, opts) == Resolve(schema[i], b, opts)
    ensures ObjectFromSchema(schema, a, opts) == ObjectFromSchema(schema, b, opts)
  {
    if schema != [] {
      assert forall i :: 0 <= i < |schema| - 1 ==> schema[1..][i] == schema[i + 1];
      ResolvesAlike(schema[1..], a, b, opts);
      assert Resolve(schema[0], a, opts) == Resolve(schema[0], b, opts);
    }
  }
}
