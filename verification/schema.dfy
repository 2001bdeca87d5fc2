/**
 * Schemas: the ordered field declarations of a model, what each declared
 * type accepts, how defaults and validators are given, and the two errors
 * conformance reports.
 */
module Schemas {
  import opened Results
  import opened Values

  /** The declared type of a field (`Number`, `String`, `Boolean`, `Date`). */
  datatype AttrType = NumberType | StringType | BooleanType | DateType

  /** The lower-case type name used in type-mismatch messages. */
  function TypeName(t: AttrType): string
  {
    match t
    case NumberType => "number"
    case StringType => "string"
    case BooleanType => "boolean"
    case DateType => "date"
  }

  /**
   * The runtime type check. A `Date` field holds its instant as an epoch
   * millisecond number, the form `Date.now()` returns.
   */
  predicate Matches(t: AttrType, v: Value)
  {
    match t
    case NumberType => v.Num?
    case StringType => v.Str?
    case BooleanType => v.Bool?
    case DateType => v.Num?
  }

  /**
   * A field's `validate` option. A literal is compared by strict equality,
   * a (possibly asynchronous) function by the truthiness of what it
   * resolves to, and a RegExp by whether it matches the value's text; the
   * pattern is kept abstract as the matcher it denotes.
   */
  datatype Validator =
    | Equals(expected: Value)
    | Satisfies(test: Value -> bool)
    | Pattern(matches: string -> bool)

  predicate Passes(validator: Validator, v: Value)
  {
    match validator
    case Equals(expected) => v == expected
    case Satisfies(test) => test(v)
    case Pattern(matches) => matches(Display(v))
  }

  /**
   * One schema entry. `default` is the value a literal default, a producer
   * function or an asynchronous producer resolves to.
   */
  datatype Field = Field(name: string, attrType: AttrType, default: Option<Value>, validator: Option<Validator>)

  /** A schema, in declaration order. */
  type Schema = seq<Field>

  /** Field names are unique, as the keys of the schema object are. */
  predicate Distinct(schema: Schema)
  {
    forall i, j :: 0 <= i < j < |schema| ==> schema[i].name != schema[j].name
  }

  function Names(schema: Schema): (r: set<string>)
    ensures forall i :: 0 <= i < |schema| ==> schema[i].name in r
    ensures forall k :: k in r ==> exists i :: 0 <= i < |schema| && schema[i].name == k
  {
    set i | 0 <= i < |schema| :: schema[i].name
  }

  /** The declaration of a field name; `FieldOfFirst` shows it is the first should names repeat. */
  function FieldOf(schema: Schema, name: string): (r: Option<Field>)
    ensures r.Some? <==> name in Names(schema)
    ensures r.Some? ==> r.value.name == name
    ensures Distinct(schema) ==> forall i :: 0 <= i < |schema| && schema[i].name == name ==> r == Some(schema[i])
  {
    if schema == [] then None
    else if schema[0].name == name then Some(schema[0])
    else FieldOf(schema[1..], name)
  }

  /** Position i declares the name, and no earlier position does. */
  predicate FirstDeclared(schema: Schema, name: string, i: int)
  {
    0 <= i < |schema| && schema[i].name == name && forall j :: 0 <= j < i ==> schema[j].name != name
  }

  /** The declaration found for a name is the one at its first position in the schema. */
  lemma {:induction false} FieldOfFirst(schema: Schema, name: string)
    requires name in Names(schema)
    ensures exists i :: FirstDeclared(schema, name, i) && FieldOf(schema, name) == Some(schema[i])
  {
    if schema[0].name == name {
      assert FirstDeclared(schema, name, 0);
    } else {
      var i0 :| 0 <= i0 < |schema| && schema[i0].name == name;
      assert schema[1..][i0 - 1] == schema[i0];
      FieldOfFirst(schema[1..], name);
      var i :| FirstDeclared(schema[1..], name, i) && FieldOf(schema[1..], name) == Some(schema[1..][i]);
      forall j | 0 <= j < i + 1 ensures schema[j].name != name {
        if j > 0 { assert schema[j] == schema[1..][j - 1]; }
      }
      assert FirstDeclared(schema, name, i + 1);
    }
  }

  /** Every declared field the object holds has its declared type. */
  predicate WellTyped(schema: Schema, o: Object)
  {
    forall i :: 0 <= i < |schema| && schema[i].name in o ==> Matches(schema[i].attrType, o[schema[i].name])
  }

  datatype Error =
    | TypeMismatch(message: string)
    | ValidationError(message: string)
    | StoreFailure(reason: Value)   // the store's rejection, passed on unchanged

  function TypeMismatchMessage(name: string, t: AttrType, v: Value): string
  {
    "Expected " + name + " to be of type " + TypeName(t) + ", instead found type " + TypeOf(v) + "."
  }

  function ValidationMessage(name: string, v: Value): string
  {
    name + " with a value of " + Display(v) + " had a validation error when trying to save the document"
  }
}
